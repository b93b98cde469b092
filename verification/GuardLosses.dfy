/**
 Payments the facilitator settled although its answer never came back: the attempt throws,
 and the running process knows nothing of them.
 */
module GuardLosses {
  import opened Text
  import opened Types
  import opened PolicyRules
  import opened GuardLogic
  import opened GuardRuns
  import opened GuardRestarts

  predicate Throws(cfg: GuardConfig, l: Life, ev: LifeEvent) {
    ev.Pay? && Execute(cfg, l.state, ev.attempt).1.Threw?
  }

  /** What moved without an answer: the attempts that threw at the given positions of a life. */
  function Lost(cfg: GuardConfig, l: Life, evs: seq<LifeEvent>, moved: set<nat>): seq<Payment> {
    if evs == [] then []
    else
      var n := |evs| - 1;
      Lost(cfg, l, evs[..n], moved)
      + if n in moved && Throws(cfg, RunLife(cfg, l, evs[..n]), evs[n])
        then [Payment(evs[n].attempt.req, evs[n].attempt.observedAt, None)] else []
  }

  /** An attempt that throws teaches the guard nothing and writes nothing; only the breaker has heard of it. */
  lemma LostAnswerForgotten(cfg: GuardConfig, l: Life, a: Attempt)
    requires Throws(cfg, l, Pay(a))
    ensures var l' := Live(cfg, l, Pay(a));
            && l'.state == l.state.(breaker := l'.state.breaker) && l'.History() == l.History()
  {
    assert l.current + [] == l.current;
  }

  /** The total of all that moved in a window, answered or not. */
  function MovedTotal(cfg: GuardConfig, m: Measure, l: Life, evs: seq<LifeEvent>, moved: set<nat>, lo: int,
      hi: int): int
  {
    Paid(cfg, m, RunLife(cfg, l, evs).History() + Lost(cfg, l, evs, moved), Any, lo, hi)
  }

  /**
   Within one process everything that moved, in any window of a rolling rule, stays within
   the rule's bound plus what moved in that very window without an answer, whichever of the
   attempts that threw those were.
   */
  lemma {:induction false} OneProcessCapWithLosses(cfg: GuardConfig, l: Life, evs: seq<LifeEvent>, moved: set<nat>,
      k: nat, lo: int)
    requires OneProcess(cfg, l) && NoRestart(evs) && AllTimely(cfg, l, evs)
    requires k < |cfg.policy.rules| && Rolling(cfg.policy.rules[k]) && CapHolds(cfg, cfg.policy.rules[k], l)
    ensures var c := CeilingOf(cfg.policy.rules[k]);
            MovedTotal(cfg, c.m, l, evs, moved, lo, lo + c.length) <=
            c.most + Paid(cfg, c.m, Lost(cfg, l, evs, moved), Any, lo, lo + c.length)
  {
    var c := CeilingOf(cfg.policy.rules[k]);
    OneProcessCap(cfg, l, evs, k, lo);
    PaidConcat(cfg, c.m, RunLife(cfg, l, evs).History(), Lost(cfg, l, evs, moved), Any, lo, lo + c.length);
  }

  /** And over whole lives within that and what the last restart forgot. */
  lemma {:induction false} CapsOverLivesWithLosses(cfg: GuardConfig, l: Life, evs: seq<LifeEvent>, moved: set<nat>,
      k: nat, lo: int)
    requires LifeOk(cfg, l) && AllTimely(cfg, l, evs)
    requires k < |cfg.policy.rules| && Rolling(cfg.policy.rules[k]) && CeilingOf(cfg.policy.rules[k]).length <= DAY_MS
    requires CapHolds(cfg, cfg.policy.rules[k], l)
    ensures var c := CeilingOf(cfg.policy.rules[k]);
            MovedTotal(cfg, c.m, l, evs, moved, lo, lo + c.length) <=
            c.most + Forgotten(cfg, c.m, RunLife(cfg, l, evs), lo, lo + c.length)
            + Paid(cfg, c.m, Lost(cfg, l, evs, moved), Any, lo, lo + c.length)
  {
    var c := CeilingOf(cfg.policy.rules[k]);
    CapsHoldOverLives(cfg, l, evs, k);
    assert CapHoldsFrom(cfg, cfg.policy.rules[k], RunLife(cfg, l, evs), lo);
    PaidConcat(cfg, c.m, RunLife(cfg, l, evs).History(), Lost(cfg, l, evs, moved), Any, lo, lo + c.length);
  }

  /** A payment of the whole cap whose answer is lost: in all else it is one that settles. */
  predicate LosesCap(cfg: GuardConfig, a: Attempt, amount: int, token: string) {
    a.settling.Fails? && SpendsCap(cfg, a.(settling := Answers(true, "")), amount, token)
  }

  /**
   The allowance is needed: after a payment of the whole day cap whose answer was lost, the
   same process lets the whole cap go once more within the day.
   */
  lemma LostAnswerDoublesCap(cfg: GuardConfig, a: Attempt, b: Attempt, amount: int, token: string)
    requires DayCapOnly(cfg, amount, token) && LosesCap(cfg, a, amount, token) && SpendsCap(cfg, b, amount, token)
    requires OnTime(a, 0) && OnTime(b, a.loggedAt) && b.observedAt < a.observedAt + DAY_MS
    ensures var evs, m := [Pay(a), Pay(b)], SpendIn(Lower(token));
            && AllTimely(cfg, Birth(0), evs)
            && MovedTotal(cfg, m, Birth(0), evs, {0}, a.observedAt, a.observedAt + DAY_MS) == 2 * amount
  {
    var evs, m, p, q := [Pay(a), Pay(b)], SpendIn(Lower(token)), Payment(a.req, a.observedAt, None),
                        Payment(b.req, b.observedAt, Some(b.loggedAt));
    LosesThenPays(cfg, a, b, amount, token);
    PaidConcat(cfg, m, [q], [p], Any, a.observedAt, a.observedAt + DAY_MS);
    OnePaid(cfg, m, p, a.observedAt, a.observedAt + DAY_MS);
    OnePaid(cfg, m, q, a.observedAt, a.observedAt + DAY_MS);
  }

  lemma OnePaid(cfg: GuardConfig, m: Measure, p: Payment, lo: int, hi: int)
    ensures Paid(cfg, m, [p], Any, lo, hi) == if lo <= p.at < hi then PayWeight(m, p) else 0
  {
    assert [p] == [] + [p];
    PaidAppend(cfg, m, [], p, Any, lo, hi);
  }

  lemma LosesThenPays(cfg: GuardConfig, a: Attempt, b: Attempt, amount: int, token: string)
    requires DayCapOnly(cfg, amount, token) && LosesCap(cfg, a, amount, token) && SpendsCap(cfg, b, amount, token)
    requires OnTime(a, 0) && OnTime(b, a.loggedAt)
    ensures var evs := [Pay(a), Pay(b)];
            && AllTimely(cfg, Birth(0), evs)
            && RunLife(cfg, Birth(0), evs).History() == [Payment(b.req, b.observedAt, Some(b.loggedAt))]
            && Lost(cfg, Birth(0), evs, {0}) == [Payment(a.req, a.observedAt, None)]
  {
    var evs := [Pay(a), Pay(b)];
    var answered := a.(settling := Answers(true, ""));
    EmptyMemoryAllows(cfg, Birth(0).state, answered, amount, token);
    assert Decide(cfg, Birth(0).state, a) == Decide(cfg, Birth(0).state, answered);
    LostAnswerForgotten(cfg, Birth(0), a);
    var mid := Live(cfg, Birth(0), Pay(a));
    EmptyMemoryAllows(cfg, mid.state, b, amount, token);
    RunTwo(cfg, evs);
    HistoryGrows(cfg, mid, Pay(b));
    LostOfTwo(cfg, evs);
  }

  lemma LostOfTwo(cfg: GuardConfig, evs: seq<LifeEvent>)
    requires |evs| == 2 && Throws(cfg, Birth(0), evs[0])
    ensures Lost(cfg, Birth(0), evs, {0}) == [Payment(evs[0].attempt.req, evs[0].attempt.observedAt, None)]
  {
    assert evs[..1][..0] == [];
    assert Lost(cfg, Birth(0), evs[..1][..0], {0}) == [];
    assert evs[..1][0] == evs[0];
  }
}
