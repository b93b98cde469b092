/**
 The breaker over whole lives: when a restart brings it back open, exactly when a rebuilt
 breaker counts what the running one counts, and runs in which it does not.
 */
module GuardBreakers {
  import opened Types
  import opened Sorting
  import opened EntryList
  import opened PolicyRules
  import opened PayeeRegistry
  import opened BreakerLogic
  import opened GuardLogic
  import opened RebuildTotals
  import opened GuardRuns

  // ─── When a restart brings the breaker back open ──────────────────────────

  ghost predicate LogPast(l: Life) {
    forall e :: e in l.state.log ==> Intact(e) && e.timestamp <= l.clock
  }

  lemma {:induction false} LogStaysPast(cfg: GuardConfig, start: int, evs: seq<LifeEvent>)
    requires AllTimely(cfg, Birth(start), evs)
    ensures LogPast(RunLife(cfg, Birth(start), evs))
  {
    if evs != [] {
      var front, ev := evs[..|evs| - 1], evs[|evs| - 1];
      LogStaysPast(cfg, start, front);
      LiveKeepsLogPast(cfg, RunLife(cfg, Birth(start), front), ev);
    }
  }

  lemma LiveKeepsLogPast(cfg: GuardConfig, l: Life, ev: LifeEvent)
    requires LogPast(l) && Timely(cfg, l, ev)
    ensures LogPast(Live(cfg, l, ev))
  {
    if ev.Pay? { PayEffect(cfg, l, ev.attempt); }
  }

  /** The agent's intact entries a rebuild reads back. */
  function ReadBackBy(cfg: GuardConfig, log: seq<AuditEntry>, r: Rebuild): seq<AuditEntry> {
    Filtered(Since(log, cfg.policy.agentId, r.Start()), IsIntact())
  }

  /**
   After any timely life the breaker of a restarted guard is open if and only if the agent's
   intact rows it read back and that lie inside the window reach a threshold (and there are
   any), whatever the running breaker had heard, and its counts are theirs.
   */
  lemma {:induction false} RestartedBreakerIff(cfg: GuardConfig, start: int, evs: seq<LifeEvent>, r: Rebuild)
    requires cfg.breaker.Some? && AllTimely(cfg, Birth(start), evs)
    requires Timely(cfg, RunLife(cfg, Birth(start), evs), Restart(r))
    ensures var bc, log := cfg.breaker.value, RunLife(cfg, Birth(start), evs).state.log;
            var b := Live(cfg, RunLife(cfg, Birth(start), evs), Restart(r)).state.breaker;
            && (b.openedAt.Some? <==> Trips(bc, InWindow(bc, ReadBackBy(cfg, log, r), r.breakerAt)))
            && forall k: Kind :: Count(b.events, k) == Count(EventsOf(InWindow(bc, ReadBackBy(cfg, log, r), r.breakerAt)), k)
  {
    LogStaysPast(cfg, start, evs);
    RebuiltFromLog(cfg, RunLife(cfg, Birth(start), evs), r);
  }

  lemma RebuiltFromLog(cfg: GuardConfig, l: Life, r: Rebuild)
    requires cfg.breaker.Some? && LogPast(l) && l.clock <= r.listedAt && r.FullDay()
    ensures var bc, es := cfg.breaker.value, ReadBackBy(cfg, l.state.log, r);
            var b := Hydrate(cfg, l.state.log, r).breaker;
            && b == Rebuilt(bc, FRESH, es, r.breakerAt) && (forall e :: e in es ==> e.timestamp <= r.breakerAt)
            && (b.openedAt.Some? <==> Trips(bc, InWindow(bc, es, r.breakerAt)))
            && forall k: Kind :: Count(b.events, k) == Count(EventsOf(InWindow(bc, es, r.breakerAt)), k)
  {
    var es := ReadBackBy(cfg, l.state.log, r);
    forall e | e in es ensures e.timestamp <= r.breakerAt {
      FilteredIff(Since(l.state.log, cfg.policy.agentId, r.Start()), IsIntact(), e);
      SinceIff(l.state.log, cfg.policy.agentId, r.Start(), e);
    }
    RebuildClosedForm(cfg.breaker.value, es, r.breakerAt);
  }

  // ─── What the breaker has heard ───────────────────────────────────────────

  /** A decision ever fed to the breaker; `held` if nothing has cleared it since. */
  datatype Decision = Decision(event: Event, agentId: string, loggedAt: Option<nat>, held: bool)

  function Cleared(ds: seq<Decision>): (r: seq<Decision>)
    ensures |r| == |ds|
  {
    seq(|ds|, k requires 0 <= k < |ds| => ds[k].(held := false))
  }

  /** A look past the cooldown clears everything. */
  function LookedOver(bc: BreakerConfig, b: Breaker, at: int, ds: seq<Decision>): (r: seq<Decision>)
    ensures |r| == |ds|
  {
    if CooledDown(bc, b, at) then Cleared(ds) else ds
  }

  /** The log attributes the decision to this agent, at a time the rebuild reads back. */
  predicate Known(cfg: GuardConfig, d: Decision, since: int) {
    d.loggedAt.Some? && d.agentId == cfg.policy.agentId && d.loggedAt.value >= since
  }

  /** A rebuild holds what it reads back inside its window, and nothing else. */
  function Reread(cfg: GuardConfig, bc: BreakerConfig, ds: seq<Decision>, r: Rebuild): (out: seq<Decision>)
    ensures |out| == |ds|
  {
    seq(|ds|, k requires 0 <= k < |ds| =>
      ds[k].(held := Known(cfg, ds[k], r.Start()) && ds[k].event.ts > r.breakerAt - WindowMs(bc)))
  }

  function DecisionOf(cfg: GuardConfig, l: Life, a: Attempt, loggedAt: Option<nat>): Decision {
    var d := Decide(cfg, l.state, a);
    Decision(Event(a.decidedAt, d.verdict, IsAnomalous(d)), a.req.agentId, loggedAt, true)
  }

  function HeardAfter(cfg: GuardConfig, bc: BreakerConfig, l: Life, ds: seq<Decision>, ev: LifeEvent): seq<Decision> {
    match ev
    case Pay(a) =>
      LookedOver(bc, l.state.breaker, a.lookedAt, ds)
      + [DecisionOf(cfg, l, a, if Execute(cfg, l.state, a).1.Threw? then None else Some(a.loggedAt))]
    case Restart(r) => Reread(cfg, bc, ds, r)
    case DieUnlogged(a, r) =>
      Reread(cfg, bc, LookedOver(bc, l.state.breaker, a.lookedAt, ds) + [DecisionOf(cfg, l, a, None)], r)
    case Look(at) => LookedOver(bc, l.state.breaker, at, ds)
    case Reset(_) => Cleared(ds)
  }

  /** Every decision of a life from a first start, and which of them the breaker still holds. */
  function Heard(cfg: GuardConfig, bc: BreakerConfig, start: int, evs: seq<LifeEvent>): seq<Decision> {
    if evs == [] then []
    else
      var front := evs[..|evs| - 1];
      HeardAfter(cfg, bc, RunLife(cfg, Birth(start), front), Heard(cfg, bc, start, front), evs[|evs| - 1])
  }

  // ─── Counting decisions ───────────────────────────────────────────────────

  /** Held now; known to the log; held but unknown to it; known to it but cleared. */
  datatype Side = Holding | Logged(since: int) | Missing(since: int) | Forgiven(since: int)

  predicate On(cfg: GuardConfig, d: Decision, side: Side) {
    match side
    case Holding => d.held
    case Logged(since) => Known(cfg, d, since)
    case Missing(since) => d.held && !Known(cfg, d, since)
    case Forgiven(since) => !d.held && Known(cfg, d, since)
  }

  /** How many decisions of a kind lie on a side, after a cutoff. */
  function Tally(cfg: GuardConfig, ds: seq<Decision>, side: Side, k: Kind, c: int): nat {
    if ds == [] then 0
    else
      var d := ds[|ds| - 1];
      Tally(cfg, ds[..|ds| - 1], side, k, c) + if On(cfg, d, side) && d.event.ts > c && IsKind(d.event, k) then 1 else 0
  }

  lemma TallyAppend(cfg: GuardConfig, ds: seq<Decision>, d: Decision, side: Side, k: Kind, c: int)
    ensures Tally(cfg, ds + [d], side, k, c) ==
            Tally(cfg, ds, side, k, c) + if On(cfg, d, side) && d.event.ts > c && IsKind(d.event, k) then 1 else 0
  {
    assert (ds + [d])[..|ds|] == ds;
  }

  /** Same decisions, perhaps held differently, tally the same where they lie on the same side. */
  lemma {:induction false} TallySame(cfg: GuardConfig, ds: seq<Decision>, side: Side, ds': seq<Decision>,
      side': Side, k: Kind, c: int)
    requires |ds| == |ds'|
    requires forall j :: 0 <= j < |ds| && ds[j].event.ts > c ==>
               ds[j].event == ds'[j].event && (On(cfg, ds[j], side) <==> On(cfg, ds'[j], side'))
    requires forall j :: 0 <= j < |ds| ==> ds[j].event.ts == ds'[j].event.ts
    ensures Tally(cfg, ds, side, k, c) == Tally(cfg, ds', side', k, c)
  {
    if ds != [] { TallySame(cfg, ds[..|ds| - 1], side, ds'[..|ds| - 1], side', k, c); }
  }

  lemma {:induction false} TallyNothing(cfg: GuardConfig, ds: seq<Decision>, side: Side, k: Kind, c: int)
    requires forall j :: 0 <= j < |ds| ==> !On(cfg, ds[j], side)
    ensures Tally(cfg, ds, side, k, c) == 0
  {
    if ds != [] { TallyNothing(cfg, ds[..|ds| - 1], side, k, c); }
  }

  /** What is held and what the log knows differ by what is missing and what was cleared. */
  lemma {:induction false} TallyBalance(cfg: GuardConfig, ds: seq<Decision>, since: int, k: Kind, c: int)
    ensures Tally(cfg, ds, Holding, k, c) + Tally(cfg, ds, Forgiven(since), k, c) ==
            Tally(cfg, ds, Logged(since), k, c) + Tally(cfg, ds, Missing(since), k, c)
  {
    if ds != [] { TallyBalance(cfg, ds[..|ds| - 1], since, k, c); }
  }

  predicate Matters(d: Decision) { exists k: Kind :: IsKind(d.event, k) }

  /** None on a side, among the decisions that count for anything after a cutoff. */
  ghost predicate NoneOn(cfg: GuardConfig, ds: seq<Decision>, side: Side, c: int) {
    forall j :: 0 <= j < |ds| && ds[j].event.ts > c && Matters(ds[j]) ==> !On(cfg, ds[j], side)
  }

  lemma {:induction false} NoneTallied(cfg: GuardConfig, ds: seq<Decision>, side: Side, k: Kind, c: int)
    requires NoneOn(cfg, ds, side, c)
    ensures Tally(cfg, ds, side, k, c) == 0
  {
    if ds != [] {
      var front, d := ds[..|ds| - 1], ds[|ds| - 1];
      assert forall j :: 0 <= j < |front| ==> front[j] == ds[j];
      NoneTallied(cfg, front, side, k, c);
      if IsKind(d.event, k) { assert Matters(ds[|ds| - 1]); }
    }
  }

  lemma {:induction false} OneTallied(cfg: GuardConfig, ds: seq<Decision>, side: Side, k: Kind, c: int, j: nat)
    requires j < |ds| && On(cfg, ds[j], side) && ds[j].event.ts > c && IsKind(ds[j].event, k)
    ensures Tally(cfg, ds, side, k, c) > 0
  {
    if j < |ds| - 1 { OneTallied(cfg, ds[..|ds| - 1], side, k, c, j); }
  }

  lemma TallyZero(cfg: GuardConfig, ds: seq<Decision>, side: Side, c: int)
    ensures (forall k: Kind :: Tally(cfg, ds, side, k, c) == 0) <==> NoneOn(cfg, ds, side, c)
  {
    if NoneOn(cfg, ds, side, c) {
      forall k: Kind ensures Tally(cfg, ds, side, k, c) == 0 { NoneTallied(cfg, ds, side, k, c); }
    }
    if j :| 0 <= j < |ds| && ds[j].event.ts > c && Matters(ds[j]) && On(cfg, ds[j], side) {
      var k: Kind :| IsKind(ds[j].event, k);
      OneTallied(cfg, ds, side, k, c, j);
    }
  }

  // ─── What log and breaker hold of the decisions ───────────────────────────

  /** Readable rows of a kind. */
  function OfKind(k: Kind): AuditEntry -> bool { (e: AuditEntry) => IsKind(EventOf(e), k) }

  function Readable(agentId: string, since: int, k: Kind): AuditEntry -> bool {
    (e: AuditEntry) => e.agentId == agentId && e.timestamp >= since && Intact(e) && IsKind(EventOf(e), k)
  }

  lemma CountAfterAppend(es: seq<Event>, e: Event, k: Kind, c: int)
    ensures Count(After(es + [e], c), k) == Count(After(es, c), k) + if e.ts > c && IsKind(e, k) then 1 else 0
  {
    assert After(es + [e], c) == After(es, c) + if e.ts > c then [e] else [] by { assert (es + [e])[..|es|] == es; }
    if e.ts > c {
      CountAppend(After(es, c), e, k);
    } else {
      assert After(es, c) + [] == After(es, c);
    }
  }

  lemma {:induction false} CountIsTotal(es: seq<AuditEntry>, k: Kind, c: int)
    ensures Count(After(EventsOf(es), c), k) == LogTotal(PaymentCount, es, c, OfKind(k))
  {
    if es != [] {
      var front, last := es[..|es| - 1], es[|es| - 1];
      CountIsTotal(front, k, c);
      assert es == front + [last];
      LogTotalAppend(PaymentCount, front, last, c, OfKind(k));
      assert EventsOf(es) == EventsOf(front) + [EventOf(last)];
      CountAfterAppend(EventsOf(front), EventOf(last), k, c);
    }
  }

  /** A rebuilt breaker's counts, after any cutoff inside its window, straight from the log. */
  lemma RebuiltTally(cfg: GuardConfig, l: Life, r: Rebuild, k: Kind, c: int)
    requires cfg.breaker.Some? && LogPast(l) && l.clock <= r.listedAt && r.FullDay()
    requires c >= r.breakerAt - WindowMs(cfg.breaker.value)
    ensures Count(After(Hydrate(cfg, l.state.log, r).breaker.events, c), k) ==
            LogTotal(PaymentCount, l.state.log, c, Readable(cfg.policy.agentId, r.Start(), k))
  {
    RebuiltFromLog(cfg, l, r);
    ReplayTally(cfg.breaker.value, ReadBackBy(cfg, l.state.log, r), r.breakerAt, k, c);
    ReadTotal(cfg, l.state.log, r.Start(), k, c);
  }

  lemma {:induction false} ReplayTally(bc: BreakerConfig, es: seq<AuditEntry>, now: int, k: Kind, c: int)
    requires (forall e :: e in es ==> e.timestamp <= now) && c >= now - WindowMs(bc)
    ensures Count(After(Rebuilt(bc, FRESH, es, now).events, c), k) == LogTotal(PaymentCount, es, c, OfKind(k))
  {
    SortedWindow(es, now - WindowMs(bc), now);
    ReplayEntries(bc, Sort(InWindow(bc, es, now), EntryTime()), now);
    WindowTally(es, now - WindowMs(bc), k, c);
  }

  lemma {:induction false} WindowTally(es: seq<AuditEntry>, lo: int, k: Kind, c: int)
    requires c >= lo
    ensures Count(After(EventsOf(Sort(Filtered(es, LaterThan(lo)), EntryTime())), c), k) ==
            LogTotal(PaymentCount, es, c, OfKind(k))
  {
    var inWindow := Filtered(es, LaterThan(lo));
    CountIsTotal(Sort(inWindow, EntryTime()), k, c);
    LogTotalSort(PaymentCount, inWindow, c, OfKind(k));
    assert forall e :: e in es && e.timestamp > c ==> (OfKind(k)(e) <==> LaterThan(lo)(e) && OfKind(k)(e));
    LogTotalFiltered(PaymentCount, es, c, LaterThan(lo), OfKind(k), OfKind(k));
  }

  lemma ReadTotal(cfg: GuardConfig, log: seq<AuditEntry>, since: int, k: Kind, c: int)
    ensures LogTotal(PaymentCount, Filtered(Since(log, cfg.policy.agentId, since), IsIntact()), c, OfKind(k)) ==
            LogTotal(PaymentCount, log, c, Readable(cfg.policy.agentId, since, k))
  {
    var scope, intact := InScope(cfg.policy.agentId, since), IntactOfKind(k);
    LogTotalFiltered(PaymentCount, Since(log, cfg.policy.agentId, since), c, IsIntact(), OfKind(k), intact);
    LogTotalSort(PaymentCount, Filtered(log, scope), c, intact);
    LogTotalFiltered(PaymentCount, log, c, scope, intact, Readable(cfg.policy.agentId, since, k));
  }

  function IntactOfKind(k: Kind): AuditEntry -> bool { (e: AuditEntry) => Intact(e) && IsKind(EventOf(e), k) }

  /** The log records every decision that returned, with its verdict, at its time. */
  ghost predicate LogHears(cfg: GuardConfig, l: Life, ds: seq<Decision>) {
    forall since, k: Kind, c :: HearsAt(cfg, l.state.log, ds, since, k, c)
  }

  predicate HearsAt(cfg: GuardConfig, log: seq<AuditEntry>, ds: seq<Decision>, since: int, k: Kind, c: int) {
    LogTotal(PaymentCount, log, c, Readable(cfg.policy.agentId, since, k)) == Tally(cfg, ds, Logged(since), k, c)
  }

  /** The breaker's counts, after any cutoff inside the window at the clock, are those of the held decisions. */
  ghost predicate BreakerHolds(cfg: GuardConfig, bc: BreakerConfig, b: Breaker, ds: seq<Decision>, clock: int) {
    HoldsFrom(cfg, b.events, ds, clock - WindowMs(bc))
  }

  ghost predicate HoldsFrom(cfg: GuardConfig, es: seq<Event>, ds: seq<Decision>, lo: int) {
    forall k: Kind, c :: c >= lo ==> HoldsAt(cfg, es, ds, k, c)
  }

  predicate HoldsAt(cfg: GuardConfig, es: seq<Event>, ds: seq<Decision>, k: Kind, c: int) {
    Count(After(es, c), k) == Tally(cfg, ds, Holding, k, c)
  }

  predicate RereadAt(cfg: GuardConfig, es: seq<Event>, ds: seq<Decision>, since: int, k: Kind, c: int) {
    Count(After(es, c), k) == Tally(cfg, ds, Logged(since), k, c)
  }

  /** Each decision is logged at the very time it was made. */
  ghost predicate Prompt(evs: seq<LifeEvent>) {
    forall k :: 0 <= k < |evs| && evs[k].Pay? ==> evs[k].attempt.decidedAt == evs[k].attempt.loggedAt
  }

  ghost predicate HeardOk(cfg: GuardConfig, bc: BreakerConfig, l: Life, ds: seq<Decision>) {
    LogPast(l) && LogHears(cfg, l, ds) && BreakerHolds(cfg, bc, l.state.breaker, ds, l.clock)
  }

  /** Looking, clearing and rereading change what is held, not what the log knows. */
  lemma SameLogged(cfg: GuardConfig, l: Life, l': Life, ds: seq<Decision>, ds': seq<Decision>)
    requires LogHears(cfg, l, ds) && l'.state.log == l.state.log && |ds'| == |ds|
    requires forall j :: 0 <= j < |ds| ==> ds'[j] == ds[j].(held := ds'[j].held)
    ensures LogHears(cfg, l', ds')
  {
    forall since, k: Kind, c ensures HearsAt(cfg, l'.state.log, ds', since, k, c) {
      TallySame(cfg, ds, Logged(since), ds', Logged(since), k, c);
      assert HearsAt(cfg, l.state.log, ds, since, k, c);
    }
  }

  lemma LookKeepsHeld(cfg: GuardConfig, bc: BreakerConfig, b: Breaker, ds: seq<Decision>, clock: int, at: int)
    requires BreakerHolds(cfg, bc, b, ds, clock) && clock <= at
    ensures BreakerHolds(cfg, bc, Looked(bc, b, at), LookedOver(bc, b, at, ds), at)
  {
    forall k: Kind, c | c >= at - WindowMs(bc)
      ensures HoldsAt(cfg, Looked(bc, b, at).events, LookedOver(bc, b, at, ds), k, c)
    {
      if CooledDown(bc, b, at) {
        TallyNothing(cfg, Cleared(ds), Holding, k, c);
      } else {
        assert HoldsAt(cfg, b.events, ds, k, c);
      }
    }
  }

  lemma RecordKeepsHeld(cfg: GuardConfig, bc: BreakerConfig, b: Breaker, ds: seq<Decision>, clock: int,
      d: Decision, later: int)
    requires BreakerHolds(cfg, bc, b, ds, clock) && clock <= d.event.ts <= later && d.held
    ensures BreakerHolds(cfg, bc, Recorded(bc, b, d.event), ds + [d], later)
  {
    var lo := d.event.ts - WindowMs(bc);
    HeldOneMoreFrom(cfg, b.events, ds, d, clock - WindowMs(bc), lo);
    assert Recorded(bc, b, d.event).events == After(b.events + [d.event], lo);
  }

  lemma HeldOneMoreFrom(cfg: GuardConfig, es: seq<Event>, ds: seq<Decision>, d: Decision, from: int, lo: int)
    requires HoldsFrom(cfg, es, ds, from) && from <= lo && d.held
    ensures HoldsFrom(cfg, After(es + [d.event], lo), ds + [d], lo)
  {
    forall k: Kind, c | c >= lo ensures HoldsAt(cfg, After(es + [d.event], lo), ds + [d], k, c) {
      assert HoldsAt(cfg, es, ds, k, c);
      HeldOneMore(cfg, es, ds, d, lo, k, c);
    }
  }

  lemma HeldOneMore(cfg: GuardConfig, es: seq<Event>, ds: seq<Decision>, d: Decision, lo: int, k: Kind, c: int)
    requires HoldsAt(cfg, es, ds, k, c) && d.held && c >= lo
    ensures HoldsAt(cfg, After(es + [d.event], lo), ds + [d], k, c)
  {
    KeptCount(es, d.event, lo, k, c);
    TallyAppend(cfg, ds, d, Holding, k, c);
  }

  lemma KeptCount(es: seq<Event>, e: Event, lo: int, k: Kind, c: int)
    requires c >= lo
    ensures Count(After(After(es + [e], lo), c), k) ==
            Count(After(es, c), k) + if e.ts > c && IsKind(e, k) then 1 else 0
  {
    AfterTwice(es + [e], lo, c);
    CountAfterAppend(es, e, k, c);
  }

  lemma OneAfter(e: Event, c: int)
    ensures After([e], c) == if e.ts > c then [e] else []
  {
    assert [e][..0] == [];
  }

  /** The log and the decisions gain the same, whether the attempt returned or not. */
  lemma PayKeepsLogHears(cfg: GuardConfig, l: Life, ds: seq<Decision>, a: Attempt)
    requires LogHears(cfg, l, ds) && a.decidedAt == a.loggedAt
    ensures var threw := Execute(cfg, l.state, a).1.Threw?;
            LogHears(cfg, Live(cfg, l, Pay(a)), ds + [DecisionOf(cfg, l, a, if threw then None else Some(a.loggedAt))])
  {
    var l', e := Live(cfg, l, Pay(a)), EntryOf(cfg, l.state, a);
    var threw := Execute(cfg, l.state, a).1.Threw?;
    var d := DecisionOf(cfg, l, a, if threw then None else Some(a.loggedAt));
    PayLogs(cfg, l, a);
    forall since, k: Kind, c ensures HearsAt(cfg, l'.state.log, ds + [d], since, k, c) {
      TallyAppend(cfg, ds, d, Logged(since), k, c);
      LogTotalAppend(PaymentCount, l.state.log, e, c, Readable(cfg.policy.agentId, since, k));
      assert HearsAt(cfg, l.state.log, ds, since, k, c);
    }
  }

  lemma PayLogs(cfg: GuardConfig, l: Life, a: Attempt)
    ensures var e, d := EntryOf(cfg, l.state, a), Decide(cfg, l.state, a);
            && Live(cfg, l, Pay(a)).state.log ==
                 (if Execute(cfg, l.state, a).1.Threw? then l.state.log else l.state.log + [e])
            && Intact(e) && e.agentId == a.req.agentId && e.timestamp == a.loggedAt
            && EventOf(e) == Event(a.loggedAt, d.verdict, IsAnomalous(d))
  {
  }

  lemma PayKeepsHeard(cfg: GuardConfig, bc: BreakerConfig, l: Life, ds: seq<Decision>, a: Attempt)
    requires cfg.breaker == Some(bc) && HeardOk(cfg, bc, l, ds) && OnTime(a, l.clock) && a.decidedAt == a.loggedAt
    ensures HeardOk(cfg, bc, Live(cfg, l, Pay(a)), HeardAfter(cfg, bc, l, ds, Pay(a)))
  {
    var b, over := l.state.breaker, LookedOver(bc, l.state.breaker, a.lookedAt, ds);
    var d := DecisionOf(cfg, l, a, if Execute(cfg, l.state, a).1.Threw? then None else Some(a.loggedAt));
    PayLogs(cfg, l, a);
    LookKeepsHeld(cfg, bc, b, ds, l.clock, a.lookedAt);
    RecordKeepsHeld(cfg, bc, Looked(bc, b, a.lookedAt), over, a.lookedAt, d, a.loggedAt);
    SameLogged(cfg, l, l, ds, over);
    PayKeepsLogHears(cfg, l, over, a);
  }

  lemma RebuiltIsLogged(cfg: GuardConfig, bc: BreakerConfig, l: Life, ds: seq<Decision>, r: Rebuild, k: Kind, c: int)
    requires cfg.breaker == Some(bc) && LogPast(l) && LogHears(cfg, l, ds) && l.clock <= r.listedAt && r.FullDay()
    requires c >= r.breakerAt - WindowMs(bc)
    ensures RereadAt(cfg, Hydrate(cfg, l.state.log, r).breaker.events, ds, r.Start(), k, c)
  {
    RebuiltTally(cfg, l, r, k, c);
    assert HearsAt(cfg, l.state.log, ds, r.Start(), k, c);
  }

  lemma RebornHeard(cfg: GuardConfig, bc: BreakerConfig, l: Life, ds: seq<Decision>, h: seq<Payment>, r: Rebuild)
    requires cfg.breaker == Some(bc) && LogPast(l) && LogHears(cfg, l, ds) && l.clock <= r.listedAt && r.FullDay()
    ensures HeardOk(cfg, bc, Reborn(cfg, l.state.log, h, r), Reread(cfg, bc, ds, r))
  {
    var l', ds' := Reborn(cfg, l.state.log, h, r), Reread(cfg, bc, ds, r);
    SameLogged(cfg, l, l', ds, ds');
    forall k: Kind, c | c >= r.breakerAt - WindowMs(bc)
      ensures HoldsAt(cfg, l'.state.breaker.events, ds', k, c)
    {
      RebuiltIsLogged(cfg, bc, l, ds, r, k, c);
      TallySame(cfg, ds, Logged(r.Start()), ds', Holding, k, c);
    }
  }

  lemma DeathKeepsHeard(cfg: GuardConfig, bc: BreakerConfig, l: Life, ds: seq<Decision>, a: Attempt, r: Rebuild)
    requires cfg.breaker == Some(bc) && HeardOk(cfg, bc, l, ds) && Timely(cfg, l, DieUnlogged(a, r))
    ensures HeardOk(cfg, bc, Live(cfg, l, DieUnlogged(a, r)), HeardAfter(cfg, bc, l, ds, DieUnlogged(a, r)))
  {
    var over, d := LookedOver(bc, l.state.breaker, a.lookedAt, ds), DecisionOf(cfg, l, a, None);
    SameLogged(cfg, l, l, ds, over);
    forall since, k: Kind, c ensures HearsAt(cfg, l.state.log, over + [d], since, k, c) {
      TallyAppend(cfg, over, d, Logged(since), k, c);
      assert HearsAt(cfg, l.state.log, over, since, k, c);
    }
    RebornHeard(cfg, bc, l, over + [d], l.History() + [Payment(a.req, a.observedAt, None)], r);
  }

  lemma LiveKeepsHeard(cfg: GuardConfig, bc: BreakerConfig, l: Life, ds: seq<Decision>, ev: LifeEvent)
    requires cfg.breaker == Some(bc) && HeardOk(cfg, bc, l, ds) && Timely(cfg, l, ev)
    requires ev.Pay? ==> ev.attempt.decidedAt == ev.attempt.loggedAt
    ensures HeardOk(cfg, bc, Live(cfg, l, ev), HeardAfter(cfg, bc, l, ds, ev))
  {
    var l', ds' := Live(cfg, l, ev), HeardAfter(cfg, bc, l, ds, ev);
    match ev
    case Pay(a) => PayKeepsHeard(cfg, bc, l, ds, a);
    case Restart(r) => RebornHeard(cfg, bc, l, ds, l.History(), r);
    case DieUnlogged(a, r) => DeathKeepsHeard(cfg, bc, l, ds, a, r);
    case Look(at) =>
      LookKeepsHeld(cfg, bc, l.state.breaker, ds, l.clock, at);
      SameLogged(cfg, l, l', ds, ds');
    case Reset(_) =>
      SameLogged(cfg, l, l', ds, ds');
      forall k: Kind, c ensures HoldsAt(cfg, FRESH.events, ds', k, c) {
        TallyNothing(cfg, ds', Holding, k, c);
      }
  }

  lemma {:induction false} LivesAreHeard(cfg: GuardConfig, bc: BreakerConfig, start: int, evs: seq<LifeEvent>)
    requires cfg.breaker == Some(bc) && AllTimely(cfg, Birth(start), evs) && Prompt(evs)
    ensures HeardOk(cfg, bc, RunLife(cfg, Birth(start), evs), Heard(cfg, bc, start, evs))
  {
    if evs != [] {
      var front := evs[..|evs| - 1];
      assert forall k :: 0 <= k < |front| ==> front[k] == evs[k];
      LivesAreHeard(cfg, bc, start, front);
      LiveKeepsHeard(cfg, bc, RunLife(cfg, Birth(start), front), Heard(cfg, bc, start, front), evs[|evs| - 1]);
    }
  }

  // ─── When a rebuilt breaker counts the same ───────────────────────────────

  function CountsAt(bc: BreakerConfig, b: Breaker, now: int, k: Kind): nat { Count(WindowAt(bc, b.events, now), k) }

  /** Of every kind the one breaker counts at that moment what the other does. */
  ghost predicate SameCounts(bc: BreakerConfig, running: Breaker, rebuilt: Breaker, now: int) {
    forall k: Kind :: SameAt(bc, running, rebuilt, now, k)
  }

  predicate SameAt(bc: BreakerConfig, running: Breaker, rebuilt: Breaker, now: int, k: Kind) {
    CountsAt(bc, running, now, k) == CountsAt(bc, rebuilt, now, k)
  }

  /** Of every kind as many decisions in the window are missing from the log as were cleared but logged. */
  ghost predicate Balanced(cfg: GuardConfig, ds: seq<Decision>, since: int, c: int) {
    forall k: Kind :: EvenAt(cfg, ds, since, k, c)
  }

  predicate EvenAt(cfg: GuardConfig, ds: seq<Decision>, since: int, k: Kind, c: int) {
    Tally(cfg, ds, Missing(since), k, c) == Tally(cfg, ds, Forgiven(since), k, c)
  }

  lemma SameAtIff(cfg: GuardConfig, bc: BreakerConfig, running: Breaker, rebuilt: Breaker, ds: seq<Decision>,
      since: int, now: int, k: Kind)
    requires HoldsAt(cfg, running.events, ds, k, now - WindowMs(bc))
    requires RereadAt(cfg, rebuilt.events, ds, since, k, now - WindowMs(bc))
    ensures SameAt(bc, running, rebuilt, now, k) <==> EvenAt(cfg, ds, since, k, now - WindowMs(bc))
  {
    TallyBalance(cfg, ds, since, k, now - WindowMs(bc));
  }

  lemma SameCountsIff(cfg: GuardConfig, bc: BreakerConfig, running: Breaker, rebuilt: Breaker, ds: seq<Decision>,
      since: int, now: int, c: int)
    requires c == now - WindowMs(bc)
    requires forall k: Kind :: HoldsAt(cfg, running.events, ds, k, c)
    requires forall k: Kind :: RereadAt(cfg, rebuilt.events, ds, since, k, c)
    ensures SameCounts(bc, running, rebuilt, now) <==> Balanced(cfg, ds, since, c)
  {
    if SameCounts(bc, running, rebuilt, now) {
      forall k: Kind ensures EvenAt(cfg, ds, since, k, c) {
        assert SameAt(bc, running, rebuilt, now, k);
        SameAtIff(cfg, bc, running, rebuilt, ds, since, now, k);
      }
    }
    if Balanced(cfg, ds, since, c) {
      forall k: Kind ensures SameAt(bc, running, rebuilt, now, k) {
        assert EvenAt(cfg, ds, since, k, c);
        SameAtIff(cfg, bc, running, rebuilt, ds, since, now, k);
      }
    }
  }

  /** With one side empty, the balance is that the other is empty too. */
  lemma BalancedOneSided(cfg: GuardConfig, ds: seq<Decision>, since: int, c: int)
    ensures NoneOn(cfg, ds, Forgiven(since), c) ==> (Balanced(cfg, ds, since, c) <==> NoneOn(cfg, ds, Missing(since), c))
    ensures NoneOn(cfg, ds, Missing(since), c) ==> (Balanced(cfg, ds, since, c) <==> NoneOn(cfg, ds, Forgiven(since), c))
  {
    TallyZero(cfg, ds, Missing(since), c);
    TallyZero(cfg, ds, Forgiven(since), c);
    if NoneOn(cfg, ds, Forgiven(since), c) && NoneOn(cfg, ds, Missing(since), c) {
      forall k: Kind ensures EvenAt(cfg, ds, since, k, c) {
        assert Tally(cfg, ds, Missing(since), k, c) == 0 && Tally(cfg, ds, Forgiven(since), k, c) == 0;
      }
    }
    if Balanced(cfg, ds, since, c) {
      if NoneOn(cfg, ds, Forgiven(since), c) {
        forall k: Kind ensures Tally(cfg, ds, Missing(since), k, c) == 0 {
          assert EvenAt(cfg, ds, since, k, c) && Tally(cfg, ds, Forgiven(since), k, c) == 0;
        }
      }
      if NoneOn(cfg, ds, Missing(since), c) {
        forall k: Kind ensures Tally(cfg, ds, Forgiven(since), k, c) == 0 {
          assert EvenAt(cfg, ds, since, k, c) && Tally(cfg, ds, Missing(since), k, c) == 0;
        }
      }
    }
  }

  /** The two agree exactly when what is missing and what was forgiven balance out. */
  ghost predicate KeepsCountsIff(cfg: GuardConfig, bc: BreakerConfig, running: Breaker, rebuilt: Breaker,
                                 ds: seq<Decision>, since: int, now: int)
  {
    var c := now - WindowMs(bc);
    && (SameCounts(bc, running, rebuilt, now) <==> Balanced(cfg, ds, since, c))
    && (NoneOn(cfg, ds, Forgiven(since), c) ==>
          (SameCounts(bc, running, rebuilt, now) <==> NoneOn(cfg, ds, Missing(since), c)))
    && (NoneOn(cfg, ds, Missing(since), c) ==>
          (SameCounts(bc, running, rebuilt, now) <==> NoneOn(cfg, ds, Forgiven(since), c)))
  }

  lemma HeardKeepsCountsIff(cfg: GuardConfig, bc: BreakerConfig, l: Life, ds: seq<Decision>, r: Rebuild)
    requires cfg.breaker == Some(bc) && HeardOk(cfg, bc, l, ds) && l.clock <= r.listedAt && r.FullDay()
    ensures KeepsCountsIff(cfg, bc, l.state.breaker, Hydrate(cfg, l.state.log, r).breaker, ds, r.Start(), r.breakerAt)
  {
    var running, rebuilt := l.state.breaker, Hydrate(cfg, l.state.log, r).breaker;
    var since, c := r.Start(), r.breakerAt - WindowMs(bc);
    forall k: Kind ensures HoldsAt(cfg, running.events, ds, k, c) && RereadAt(cfg, rebuilt.events, ds, since, k, c) {
      RebuiltIsLogged(cfg, bc, l, ds, r, k, c);
    }
    SameCountsIff(cfg, bc, running, rebuilt, ds, since, r.breakerAt, c);
    BalancedOneSided(cfg, ds, since, c);
  }

  /**
   Exactly when a restart keeps the breaker's counts. After any prompt life, with attempts
   that threw, any agent ids, deaths, resets and cooldowns, the rebuilt breaker counts of
   each kind what the running one does if and only if, in the window, as many decisions of
   that kind are missing from what it reads back as were cleared although it reads them.
   So where nothing was cleared: if and only if every decision still held that counts for
   anything was recorded, under the guard's own agent id, within the lookback. And where
   nothing is missing: if and only if no reset and no cooldown came after any of them.
   */
  lemma {:induction false} RestartKeepsCountsIff(cfg: GuardConfig, bc: BreakerConfig, start: int,
      evs: seq<LifeEvent>, r: Rebuild)
    requires cfg.breaker == Some(bc) && AllTimely(cfg, Birth(start), evs) && Prompt(evs)
    requires Timely(cfg, RunLife(cfg, Birth(start), evs), Restart(r))
    ensures var l, ds, c := RunLife(cfg, Birth(start), evs), Heard(cfg, bc, start, evs), r.breakerAt - WindowMs(bc);
            var rebuilt := Hydrate(cfg, l.state.log, r).breaker;
            var same := SameCounts(bc, l.state.breaker, rebuilt, r.breakerAt);
            && (same <==> Balanced(cfg, ds, r.Start(), c))
            && (NoneOn(cfg, ds, Forgiven(r.Start()), c) ==> (same <==> NoneOn(cfg, ds, Missing(r.Start()), c)))
            && (NoneOn(cfg, ds, Missing(r.Start()), c) ==> (same <==> NoneOn(cfg, ds, Forgiven(r.Start()), c)))
  {
    LivesAreHeard(cfg, bc, start, evs);
    HeardKeepsCountsIff(cfg, bc, RunLife(cfg, Birth(start), evs), Heard(cfg, bc, start, evs), r);
  }

  // ─── Runs in which a restart changes the breaker's mind ───────────────────

  function OnlyMax(windowSeconds: nat, maxBlocks: Option<nat>, maxEscalations: Option<nat>): BreakerConfig {
    BreakerConfig(windowSeconds, maxBlocks, maxEscalations, None, None)
  }

  lemma OneDecisionTrips(bc: BreakerConfig, e: Event, k: Kind)
    requires Threshold(bc, k) == Some(1) && IsKind(e, k) && WindowMs(bc) > 0
    ensures Recorded(bc, FRESH, e) == Breaker([e], Some(e.ts))
  {
    assert [] + [e] == [e];
    OneAfter(e, e.ts - WindowMs(bc));
    OneTrips(bc, e, k);
  }

  lemma OneTrips(bc: BreakerConfig, e: Event, k: Kind)
    requires Threshold(bc, k) == Some(1) && IsKind(e, k)
    ensures ShouldTrip(bc, [e])
  {
    CountAppend([], e, k);
    assert [] + [e] == [e];
  }

  /** With no own row to read, a rebuilt breaker is fresh. */
  lemma NothingToReplay(cfg: GuardConfig, log: seq<AuditEntry>, r: Rebuild)
    requires forall e :: e in log ==> e.agentId != cfg.policy.agentId
    ensures Hydrate(cfg, log, r).breaker == FRESH
  {
    NoneSince(log, cfg.policy.agentId, r.Start());
  }

  /**
   A blocked request under another agent id freezes the guard; a restart while it is still
   inside the window thaws it, since the rebuild reads the policy's own agent id only.
   */
  lemma ForeignBlockThaws(cfg: GuardConfig, a: Attempt, r: Rebuild, windowSeconds: nat)
    requires cfg.breaker == Some(OnlyMax(windowSeconds, Some(1), None)) && windowSeconds > 0
    requires a.req.amount <= 0 && a.req.agentId != cfg.policy.agentId && OnTime(a, 0)
    requires a.loggedAt <= r.listedAt && r.FullDay() && r.breakerAt < a.decidedAt + windowSeconds * 1000
    ensures var l := Live(cfg, Birth(0), Pay(a));
            && Timely(cfg, Birth(0), Pay(a)) && Timely(cfg, l, Restart(r))
            && l.state.breaker.openedAt == Some(a.decidedAt) && Live(cfg, l, Restart(r)).state.breaker == FRESH
  {
    BlockTrips(cfg, a, windowSeconds);
    PayLogs(cfg, Birth(0), a);
    NothingToReplay(cfg, Live(cfg, Birth(0), Pay(a)).state.log, r);
  }

  lemma BlockTrips(cfg: GuardConfig, a: Attempt, windowSeconds: nat)
    requires cfg.breaker == Some(OnlyMax(windowSeconds, Some(1), None)) && windowSeconds > 0 && a.req.amount <= 0
    ensures Live(cfg, Birth(0), Pay(a)).state.breaker.openedAt == Some(a.decidedAt)
  {
    var d := Decide(cfg, Birth(0).state, a);
    OneDecisionTrips(cfg.breaker.value, Event(a.decidedAt, d.verdict, IsAnomalous(d)), BlockEvents);
  }

  /** A valid request whose score is anomalous and whose policy asks a human. */
  predicate AsksHuman(cfg: GuardConfig, a: Attempt) {
    && cfg.policy.rules == [] && !cfg.policy.blockAnomalies && a.score >= cfg.policy.anomalyThreshold
    && Validate(cfg.platform, a.req).None? && a.anomalies == [] && a.intent.passed && a.req.resourceUrl.None?
  }

  lemma AsksHumanEscalates(cfg: GuardConfig, s: GuardState, a: Attempt)
    requires AsksHuman(cfg, a) && !Frozen(cfg, BreakerAfterLook(cfg, s.breaker, a.lookedAt))
    ensures Decide(cfg, s, a).verdict.Escalate?
  {
    assert AllChecks(cfg, s, a) == [PolicyCheck(BINDING_ID, true, Info), a.intent];
  }

  /**
   An approved escalation whose settlement throws freezes the guard and is never recorded; a
   restart while it is still inside the window thaws it.
   */
  lemma ThrownEscalationThaws(cfg: GuardConfig, a: Attempt, r: Rebuild, windowSeconds: nat)
    requires cfg.breaker == Some(OnlyMax(windowSeconds, None, Some(1))) && windowSeconds > 0
    requires AsksHuman(cfg, a) && a.approved && a.settling.Fails? && OnTime(a, 0)
    requires a.loggedAt <= r.listedAt && r.FullDay() && r.breakerAt < a.decidedAt + windowSeconds * 1000
    ensures var l := Live(cfg, Birth(0), Pay(a));
            && Timely(cfg, Birth(0), Pay(a)) && Timely(cfg, l, Restart(r))
            && l.state.breaker.openedAt == Some(a.decidedAt) && Live(cfg, l, Restart(r)).state.breaker == FRESH
  {
    var l, d := Live(cfg, Birth(0), Pay(a)), Decide(cfg, Birth(0).state, a);
    AsksHumanEscalates(cfg, Birth(0).state, a);
    OneDecisionTrips(cfg.breaker.value, Event(a.decidedAt, d.verdict, IsAnomalous(d)), EscalationEvents);
    PayLogs(cfg, Birth(0), a);
    NothingToReplay(cfg, l.state.log, r);
  }

  /** A human reset is not recorded either: a restart inside the window freezes the guard again. */
  lemma ResetUndone(cfg: GuardConfig, a: Attempt, at: int, r: Rebuild, windowSeconds: nat)
    requires cfg.breaker == Some(OnlyMax(windowSeconds, Some(1), None)) && windowSeconds > 0
    requires a.req.amount <= 0 && a.req.agentId == cfg.policy.agentId && OnTime(a, 0) && a.loggedAt >= r.Start()
    requires a.loggedAt <= at <= r.listedAt && r.FullDay() && r.breakerAt < a.loggedAt + windowSeconds * 1000
    ensures var l := Live(cfg, Birth(0), Pay(a));
            var reset := Live(cfg, l, LifeEvent.Reset(at));
            && Timely(cfg, Birth(0), Pay(a)) && Timely(cfg, l, LifeEvent.Reset(at)) && Timely(cfg, reset, Restart(r))
            && l.state.breaker.openedAt == Some(a.decidedAt)
            && reset.state.breaker == FRESH && Live(cfg, reset, Restart(r)).state.breaker.openedAt.Some?
  {
    BlockTrips(cfg, a, windowSeconds);
    BlockIsLogged(cfg, a);
    BlockRefreezes(cfg, Live(cfg, Live(cfg, Birth(0), Pay(a)), LifeEvent.Reset(at)), EntryOf(cfg, Birth(0).state, a), r);
  }

  lemma BlockIsLogged(cfg: GuardConfig, a: Attempt)
    requires a.req.amount <= 0
    ensures var e, l := EntryOf(cfg, Birth(0).state, a), Live(cfg, Birth(0), Pay(a));
            && l.state.log == [e] && l.clock == a.loggedAt && Intact(e) && e.decision.verdict.Block?
            && e.agentId == a.req.agentId && e.timestamp == a.loggedAt
  {
    PayLogs(cfg, Birth(0), a);
  }

  /** A blocked own row inside the window is enough to bring a one-block breaker back open. */
  lemma BlockRefreezes(cfg: GuardConfig, l: Life, e: AuditEntry, r: Rebuild)
    requires cfg.breaker.Some? && cfg.breaker.value.maxBlocks == Some(1) && LogPast(l)
    requires l.clock <= r.listedAt && r.FullDay()
    requires e in l.state.log && e.agentId == cfg.policy.agentId && e.decision.verdict.Block?
    requires e.timestamp >= r.Start() && e.timestamp > r.breakerAt - WindowMs(cfg.breaker.value)
    ensures Hydrate(cfg, l.state.log, r).breaker.openedAt.Some?
  {
    RebuiltFromLog(cfg, l, r);
    ReplayedIff(cfg, cfg.breaker.value, l.state.log, r, e);
    OneBlockTrips(cfg.breaker.value, InWindow(cfg.breaker.value, ReadBackBy(cfg, l.state.log, r), r.breakerAt), e);
  }

  /** The rows a rebuilt breaker replays: the agent's own, intact, read back and inside the window. */
  lemma ReplayedIff(cfg: GuardConfig, bc: BreakerConfig, log: seq<AuditEntry>, r: Rebuild, e: AuditEntry)
    ensures e in InWindow(bc, ReadBackBy(cfg, log, r), r.breakerAt) <==>
              e in log && e.agentId == cfg.policy.agentId && Intact(e)
              && e.timestamp >= r.Start() && e.timestamp > r.breakerAt - WindowMs(bc)
  {
    SinceIff(log, cfg.policy.agentId, r.Start(), e);
    FilteredIff(Since(log, cfg.policy.agentId, r.Start()), IsIntact(), e);
    FilteredIff(ReadBackBy(cfg, log, r), LaterThan(r.breakerAt - WindowMs(bc)), e);
  }

  lemma OneBlockTrips(bc: BreakerConfig, es: seq<AuditEntry>, e: AuditEntry)
    requires bc.maxBlocks == Some(1) && e in es && e.decision.verdict.Block?
    ensures Trips(bc, es)
  {
    BlockIsCounted(es, e);
  }

  lemma {:induction false} BlockIsCounted(es: seq<AuditEntry>, e: AuditEntry)
    requires e in es && e.decision.verdict.Block?
    ensures Count(EventsOf(es), BlockEvents) >= 1
  {
    var front, last := es[..|es| - 1], es[|es| - 1];
    assert EventsOf(es)[..|es| - 1] == EventsOf(front);
    if last != e { BlockIsCounted(front, e); }
  }
}
