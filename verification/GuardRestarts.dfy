/**
 A restarted guard against what really settled and against the one that kept running: when
 a restart forgets nothing, and two ways in which it does.
 */
module GuardRestarts {
  import opened Text
  import opened Types
  import opened EntryList
  import opened PolicyRules
  import opened PolicyState
  import opened PayeeRegistry
  import opened BreakerLogic
  import opened GuardLogic
  import opened RebuildTotals
  import opened GuardRuns

  // ─── What memory and log say exactly ──────────────────────────────────────

  /** Each payment's audit record carries the very time the payment was observed at. */
  ghost predicate Punctual(evs: seq<LifeEvent>) {
    forall k :: 0 <= k < |evs| && evs[k].Pay? ==> evs[k].attempt.observedAt == evs[k].attempt.loggedAt
  }

  function LogSince(cfg: GuardConfig, m: Measure, l: Life, c: int): int {
    LogTotal(m, l.state.log, c, Counted(cfg.policy.agentId))
  }

  /** What the running process knows beyond the log: its own payments the log does not attribute. */
  function Beyond(cfg: GuardConfig, m: Measure, l: Life, c: int): int {
    Lately(cfg, m, l.current, Unattributed, c, l.clock)
  }

  /** The memory shows at most, or exactly, the log and what the process knows beyond it. */
  ghost predicate MemoryShows(cfg: GuardConfig, l: Life, exact: bool) {
    forall m, c :: InSight(l, c) ==>
      && Above(m, l.state.mem.payments, c, false) <= LogSince(cfg, m, l, c) + Beyond(cfg, m, l, c)
      && (exact ==> Above(m, l.state.mem.payments, c, false) == LogSince(cfg, m, l, c) + Beyond(cfg, m, l, c))
  }

  /** The log weighs exactly the payments it attributes. */
  ghost predicate LogExact(cfg: GuardConfig, l: Life) {
    forall m, c :: Lately(cfg, m, l.History(), Attributed, c, l.clock) == LogSince(cfg, m, l, c)
  }

  /** Recipients of the agent's settled rows in the lookback are known. */
  ghost predicate KnowsRecent(cfg: GuardConfig, lookback: int, l: Life) {
    forall e :: e in l.state.log && Counted(cfg.policy.agentId)(e) && e.timestamp >= l.clock - lookback ==>
      Lower(e.request.recipient) in l.state.mem.seen
  }

  lemma PayKeepsShows(cfg: GuardConfig, l: Life, a: Attempt, exact: bool)
    requires HistoryOk(l) && MemoryShows(cfg, l, exact) && OnTime(a, l.clock)
    requires exact ==> a.observedAt == a.loggedAt
    ensures MemoryShows(cfg, Live(cfg, l, Pay(a)), exact)
  {
    var l' := Live(cfg, l, Pay(a));
    forall m, c | InSight(l', c)
      ensures Above(m, l'.state.mem.payments, c, false) <= LogSince(cfg, m, l', c) + Beyond(cfg, m, l', c)
      ensures exact ==> Above(m, l'.state.mem.payments, c, false) == LogSince(cfg, m, l', c) + Beyond(cfg, m, l', c)
    {
      assert InSight(l, c);
      PayShifts(cfg, l, a, m, c);
    }
  }

  /** The three totals move together, but for a record made later than the payment. */
  lemma PayShifts(cfg: GuardConfig, l: Life, a: Attempt, m: Measure, c: int)
    requires HistoryOk(l) && OnTime(a, l.clock)
    ensures var l' := Live(cfg, l, Pay(a));
            var shown := Above(m, l'.state.mem.payments, c, false) - Above(m, l.state.mem.payments, c, false);
            var known := LogSince(cfg, m, l', c) - LogSince(cfg, m, l, c) + Beyond(cfg, m, l', c) - Beyond(cfg, m, l, c);
            shown <= known && (a.observedAt == a.loggedAt ==> shown == known)
  {
    PayEffect(cfg, l, a);
    LogGains(cfg, l, a, m, c);
    if Settles(cfg, l.state, a) {
      AboveAppend(m, l.state.mem.payments, RecordOf(a), c, false);
      LatelyAppend(cfg, m, l.current, PaymentsOf(cfg, l, a)[0], Unattributed, c, l.clock, a.loggedAt);
    } else {
      LatelyLater(cfg, m, l.current, Unattributed, c, l.clock, a.loggedAt);
      assert l.current + [] == l.current;
    }
  }

  lemma PayKeepsExact(cfg: GuardConfig, l: Life, a: Attempt)
    requires HistoryOk(l) && LogExact(cfg, l) && OnTime(a, l.clock) && a.observedAt == a.loggedAt
    ensures LogExact(cfg, Live(cfg, l, Pay(a)))
  {
    var l' := Live(cfg, l, Pay(a));
    forall m, c ensures Lately(cfg, m, l'.History(), Attributed, c, l'.clock) == LogSince(cfg, m, l', c) {
      LogGains(cfg, l, a, m, c);
      assert Lately(cfg, m, l.History(), Attributed, c, l.clock) == LogSince(cfg, m, l, c);
    }
  }

  lemma PayKeepsRecent(cfg: GuardConfig, lookback: int, l: Life, a: Attempt)
    requires KnowsRecent(cfg, lookback, l) && OnTime(a, l.clock)
    ensures KnowsRecent(cfg, lookback, Live(cfg, l, Pay(a)))
  {
    var l' := Live(cfg, l, Pay(a));
    PayEffect(cfg, l, a);
    forall x | x in l'.state.log && Counted(cfg.policy.agentId)(x) && x.timestamp >= l'.clock - lookback
      ensures Lower(x.request.recipient) in l'.state.mem.seen
    {
      assert x in l.state.log || x == EntryOf(cfg, l.state, a);
    }
  }

  /** A rebuilt memory shows exactly the log, back to the day before it was rebuilt. */
  lemma RebornShows(cfg: GuardConfig, log: seq<AuditEntry>, h: seq<Payment>, r: Rebuild, lookback: int)
    requires r.FullDay() && r.lookback >= lookback
    ensures MemoryShows(cfg, Reborn(cfg, log, h, r), true)
    ensures KnowsRecent(cfg, lookback, Reborn(cfg, log, h, r))
  {
    var l := Reborn(cfg, log, h, r);
    forall m, c | InSight(l, c)
      ensures Above(m, l.state.mem.payments, c, false) == LogSince(cfg, m, l, c) + Beyond(cfg, m, l, c)
    {
      HydrateTotal(cfg, log, r, m, c);
    }
    forall e | e in log && Counted(cfg.policy.agentId)(e) && e.timestamp >= l.clock - lookback
      ensures Lower(e.request.recipient) in l.state.mem.seen
    {
      HydrateSeen(cfg, log, r, Lower(e.request.recipient));
    }
  }

  lemma RebornExact(cfg: GuardConfig, l: Life, added: seq<Payment>, r: Rebuild)
    requires HistoryOk(l) && LogExact(cfg, l) && |added| <= 1 && l.clock <= r.breakerAt
    requires added != [] ==> added[0].loggedAt.None? && added[0].at <= r.breakerAt
    ensures LogExact(cfg, Reborn(cfg, l.state.log, l.History() + added, r))
  {
    var l' := Reborn(cfg, l.state.log, l.History() + added, r);
    assert l'.History() == l.History() + added;
    forall m, c ensures Lately(cfg, m, l'.History(), Attributed, c, l'.clock) == LogSince(cfg, m, l', c) {
      assert Lately(cfg, m, l.History(), Attributed, c, l.clock) == LogSince(cfg, m, l, c);
      if added == [] {
        LatelyLater(cfg, m, l.History(), Attributed, c, l.clock, r.breakerAt);
        assert l.History() + added == l.History();
      } else {
        LatelyAppend(cfg, m, l.History(), added[0], Attributed, c, l.clock, r.breakerAt);
      }
    }
  }

  ghost predicate LooksBack(evs: seq<LifeEvent>, lookback: int) {
    forall k :: 0 <= k < |evs| && Restarts(evs[k]) ==> evs[k].rebuild.lookback >= lookback
  }

  /** Everything above, together with the limits' own invariant, over any life. */
  ghost predicate Accounted(cfg: GuardConfig, l: Life, lookback: int, exact: bool) {
    LifeOk(cfg, l) && MemoryShows(cfg, l, exact) && KnowsRecent(cfg, lookback, l) && (exact ==> LogExact(cfg, l))
  }

  lemma LiveKeepsAccounts(cfg: GuardConfig, l: Life, ev: LifeEvent, lookback: int, exact: bool)
    requires Accounted(cfg, l, lookback, exact) && Timely(cfg, l, ev) && LooksBack([ev], lookback)
    requires exact ==> Punctual([ev])
    ensures Accounted(cfg, Live(cfg, l, ev), lookback, exact)
  {
    LiveKeeps(cfg, l, ev);
    assert [ev][0] == ev;
    match ev
    case Pay(a) =>
      PayKeepsShows(cfg, l, a, exact);
      PayKeepsRecent(cfg, lookback, l, a);
      if exact { PayKeepsExact(cfg, l, a); }
    case Restart(r) =>
      RebornShows(cfg, l.state.log, l.History(), r, lookback);
      assert l.History() + [] == l.History();
      if exact { RebornExact(cfg, l, [], r); }
    case DieUnlogged(a, r) =>
      var p := Payment(a.req, a.observedAt, None);
      RebornShows(cfg, l.state.log, l.History() + [p], r, lookback);
      if exact { RebornExact(cfg, l, [p], r); }
    case Look(at) => IdleKeepsAccounts(cfg, l, BreakerAfterLook(cfg, l.state.breaker, at), at, lookback, exact);
    case Reset(at) => IdleKeepsAccounts(cfg, l, FRESH, at, lookback, exact);
  }

  lemma IdleKeepsAccounts(cfg: GuardConfig, l: Life, b: Breaker, at: int, lookback: int, exact: bool)
    requires Accounted(cfg, l, lookback, exact) && l.clock <= at
    ensures MemoryShows(cfg, Idle(l, b, at), exact) && KnowsRecent(cfg, lookback, Idle(l, b, at))
    ensures exact ==> LogExact(cfg, Idle(l, b, at))
  {
    var l' := Idle(l, b, at);
    forall m, c ensures Beyond(cfg, m, l', c) == Beyond(cfg, m, l, c) && LogSince(cfg, m, l', c) == LogSince(cfg, m, l, c)
      ensures Lately(cfg, m, l'.History(), Attributed, c, at) == Lately(cfg, m, l.History(), Attributed, c, l.clock)
    {
      LatelyLater(cfg, m, l.current, Unattributed, c, l.clock, at);
      LatelyLater(cfg, m, l.History(), Attributed, c, l.clock, at);
    }
    forall m, c | InSight(l', c)
      ensures Above(m, l'.state.mem.payments, c, false) <= LogSince(cfg, m, l', c) + Beyond(cfg, m, l', c)
      ensures exact ==> Above(m, l'.state.mem.payments, c, false) == LogSince(cfg, m, l', c) + Beyond(cfg, m, l', c)
    {
      assert InSight(l, c);
      assert Beyond(cfg, m, l', c) == Beyond(cfg, m, l, c);
    }
    if exact {
      forall m, c ensures Lately(cfg, m, l'.History(), Attributed, c, l'.clock) == LogSince(cfg, m, l', c) {
        assert Lately(cfg, m, l.History(), Attributed, c, l.clock) == LogSince(cfg, m, l, c);
      }
    }
  }

  lemma {:induction false} LivesAreAccounted(cfg: GuardConfig, start: int, evs: seq<LifeEvent>, lookback: int,
      exact: bool)
    requires AllTimely(cfg, Birth(start), evs) && LooksBack(evs, lookback) && (exact ==> Punctual(evs))
    ensures Accounted(cfg, RunLife(cfg, Birth(start), evs), lookback, exact)
  {
    if evs != [] {
      var front, ev := evs[..|evs| - 1], evs[|evs| - 1];
      assert forall k :: 0 <= k < |front| ==> front[k] == evs[k];
      LivesAreAccounted(cfg, start, front, lookback, exact);
      LiveKeepsAccounts(cfg, RunLife(cfg, Birth(start), front), ev, lookback, exact);
    }
  }

  lemma {:induction false} TimelyLooksBack(cfg: GuardConfig, l: Life, evs: seq<LifeEvent>)
    requires AllTimely(cfg, l, evs)
    ensures LooksBack(evs, DAY_MS)
  {
    if evs != [] {
      var front := evs[..|evs| - 1];
      TimelyLooksBack(cfg, l, front);
      assert forall k :: 0 <= k < |front| ==> front[k] == evs[k];
    }
  }

  /** Any life from a first start is accounted for, exactly if it was punctual. */
  lemma {:induction false} AccountedFromBirth(cfg: GuardConfig, start: int, evs: seq<LifeEvent>, exact: bool)
    requires AllTimely(cfg, Birth(start), evs) && (exact ==> Punctual(evs))
    ensures Accounted(cfg, RunLife(cfg, Birth(start), evs), DAY_MS, exact)
  {
    TimelyLooksBack(cfg, Birth(start), evs);
    LivesAreAccounted(cfg, start, evs, DAY_MS, exact);
  }

  // ─── When a restart forgets nothing ───────────────────────────────────────

  /** A guard rebuilt now covers everything that really settled, in every window of at most a day. */
  ghost predicate ForgetsNothing(cfg: GuardConfig, l: Life, r: Rebuild) {
    forall m, c :: c >= r.hydratedAt - DAY_MS ==>
      Lately(cfg, m, l.History(), Any, c, l.clock) <= Above(m, Hydrate(cfg, l.state.log, r).mem.payments, c, false)
  }

  /** A guard rebuilt now shows no less than the one still running, in every window of at most a day. */
  ghost predicate ShowsNoLess(cfg: GuardConfig, l: Life, r: Rebuild) {
    forall m, c :: c >= r.hydratedAt - DAY_MS ==>
      Above(m, l.state.mem.payments, c, false) <= Above(m, Hydrate(cfg, l.state.log, r).mem.payments, c, false)
  }

  /** Of these payments, the log attributes all of the last day to this agent. */
  ghost predicate RecentInLog(cfg: GuardConfig, h: seq<Payment>, since: int) {
    forall k :: 0 <= k < |h| && h[k].at > since ==> InLog(cfg, h[k])
  }

  /** The unattributed payments after a cutoff count zero exactly when there are none. */
  lemma {:induction false} NoneUnattributedIff(cfg: GuardConfig, h: seq<Payment>, c: int, clock: int)
    requires PastOnly(h, clock)
    ensures 0 <= Lately(cfg, PaymentCount, h, Unattributed, c, clock)
    ensures Lately(cfg, PaymentCount, h, Unattributed, c, clock) == 0 <==> RecentInLog(cfg, h, c)
  {
    if h != [] {
      var front, last := h[..|h| - 1], h[|h| - 1];
      NoneUnattributedIff(cfg, front, c, clock);
      assert RecentInLog(cfg, h, c) <==> RecentInLog(cfg, front, c) && (last.at > c ==> InLog(cfg, last)) by {
        assert h == front + [last];
      }
    }
  }

  lemma {:induction false} NoneUnattributed(cfg: GuardConfig, m: Measure, h: seq<Payment>, since: int, c: int,
      clock: int)
    requires RecentInLog(cfg, h, since) && since <= c
    ensures Lately(cfg, m, h, Unattributed, c, clock) == 0
  {
    if h != [] { NoneUnattributed(cfg, m, h[..|h| - 1], since, c, clock); }
  }

  /** Any life: if the log attributes every payment of the last day, a restart forgets none of them. */
  lemma {:induction false} RestartForgetsNothing(cfg: GuardConfig, start: int, evs: seq<LifeEvent>, r: Rebuild)
    requires AllTimely(cfg, Birth(start), evs)
    requires RunLife(cfg, Birth(start), evs).clock <= r.listedAt && r.FullDay()
    requires RecentInLog(cfg, RunLife(cfg, Birth(start), evs).History(), r.hydratedAt - DAY_MS)
    ensures ForgetsNothing(cfg, RunLife(cfg, Birth(start), evs), r)
  {
    AccountedFromBirth(cfg, start, evs, false);
    CoversRecent(cfg, RunLife(cfg, Birth(start), evs), r);
  }

  lemma CoversRecent(cfg: GuardConfig, l: Life, r: Rebuild)
    requires LifeOk(cfg, l) && r.FullDay() && RecentInLog(cfg, l.History(), r.hydratedAt - DAY_MS)
    ensures ForgetsNothing(cfg, l, r)
  {
    forall m, c | c >= r.hydratedAt - DAY_MS
      ensures Lately(cfg, m, l.History(), Any, c, l.clock) <= Above(m, Hydrate(cfg, l.state.log, r).mem.payments, c, false)
    {
      RebuiltAgainstHistory(cfg, l, r, m, c);
      NoneUnattributed(cfg, m, l.History(), r.hydratedAt - DAY_MS, c, l.clock);
    }
  }

  lemma CoversOnlyRecent(cfg: GuardConfig, l: Life, r: Rebuild)
    requires LifeOk(cfg, l) && LogExact(cfg, l) && r.FullDay() && ForgetsNothing(cfg, l, r)
    ensures RecentInLog(cfg, l.History(), r.hydratedAt - DAY_MS)
  {
    var day := r.hydratedAt - DAY_MS;
    assert Lately(cfg, PaymentCount, l.History(), Any, day, l.clock) <=
           Above(PaymentCount, Hydrate(cfg, l.state.log, r).mem.payments, day, false);
    RebuiltAgainstHistory(cfg, l, r, PaymentCount, day);
    NoneUnattributedIff(cfg, l.History(), day, l.clock);
  }

  lemma RebuiltAgainstHistory(cfg: GuardConfig, l: Life, r: Rebuild, m: Measure, c: int)
    requires LifeOk(cfg, l) && r.FullDay() && c >= r.hydratedAt - DAY_MS
    ensures Above(m, Hydrate(cfg, l.state.log, r).mem.payments, c, false) == LogSince(cfg, m, l, c)
    ensures Lately(cfg, m, l.History(), Any, c, l.clock) - Lately(cfg, m, l.History(), Unattributed, c, l.clock) <=
            LogSince(cfg, m, l, c)
    ensures LogExact(cfg, l) ==>
      Lately(cfg, m, l.History(), Any, c, l.clock) - Lately(cfg, m, l.History(), Unattributed, c, l.clock) ==
        LogSince(cfg, m, l, c)
  {
    HydrateTotal(cfg, l.state.log, r, m, c);
    PaidSplits(cfg, m, l.History(), c + 1, l.clock + 1);
    assert Lately(cfg, m, l.History(), Attributed, c, l.clock) <= LogTotal(m, l.state.log, c, Counted(cfg.policy.agentId));
    if LogExact(cfg, l) {
      assert Lately(cfg, m, l.History(), Attributed, c, l.clock) == LogSince(cfg, m, l, c);
    }
  }

  /**
   Exactly when a restart forgets nothing. After any punctual life from a first start, with
   deaths before the record, earlier restarts and any agent ids, the rebuilt memory covers
   everything that really settled, in every window of at most a day, if and only if every
   payment of the last day was recorded under the guard's own agent id.
   */
  lemma {:induction false} RestartForgetsNothingIff(cfg: GuardConfig, start: int, evs: seq<LifeEvent>, r: Rebuild)
    requires AllTimely(cfg, Birth(start), evs) && Punctual(evs)
    requires RunLife(cfg, Birth(start), evs).clock <= r.listedAt && r.FullDay()
    ensures var l := RunLife(cfg, Birth(start), evs);
            ForgetsNothing(cfg, l, r) <==> RecentInLog(cfg, l.History(), r.hydratedAt - DAY_MS)
  {
    var l := RunLife(cfg, Birth(start), evs);
    AccountedFromBirth(cfg, start, evs, true);
    if RecentInLog(cfg, l.History(), r.hydratedAt - DAY_MS) { CoversRecent(cfg, l, r); }
    if ForgetsNothing(cfg, l, r) { CoversOnlyRecent(cfg, l, r); }
  }

  /** How the rebuilt and the running memory differ: by what the process knows beyond the log. */
  lemma RebuiltAgainstRunning(cfg: GuardConfig, l: Life, r: Rebuild, lookback: int, exact: bool, m: Measure, c: int)
    requires Accounted(cfg, l, lookback, exact) && l.clock <= r.listedAt && r.FullDay() && c >= r.hydratedAt - DAY_MS
    ensures var running, rebuilt := l.state.mem.payments, Hydrate(cfg, l.state.log, r).mem.payments;
            && Above(m, running, c, false) <= Above(m, rebuilt, c, false) + Beyond(cfg, m, l, c)
            && (exact ==> Above(m, running, c, false) == Above(m, rebuilt, c, false) + Beyond(cfg, m, l, c))
  {
    HydrateTotal(cfg, l.state.log, r, m, c);
    assert InSight(l, c);
  }

  /**
   Restarting refines not restarting, for any life in which the log attributes what the
   running process settled in the last day: in every window of at most a day a rebuilt
   guard shows no less spend and no fewer payments than the one still running, and exactly
   as much when log and observation times coincide.
   */
  lemma {:induction false} RestartRefinesRunning(cfg: GuardConfig, start: int, evs: seq<LifeEvent>, r: Rebuild,
      m: Measure, c: int)
    requires AllTimely(cfg, Birth(start), evs) && RunLife(cfg, Birth(start), evs).clock <= r.listedAt && r.FullDay()
    requires RecentInLog(cfg, RunLife(cfg, Birth(start), evs).current, r.hydratedAt - DAY_MS) && c >= r.hydratedAt - DAY_MS
    ensures var running := RunLife(cfg, Birth(start), evs).state;
            var rebuilt := Hydrate(cfg, running.log, r);
            && Above(m, running.mem.payments, c, false) <= Above(m, rebuilt.mem.payments, c, false)
            && (Punctual(evs) ==> Above(m, running.mem.payments, c, false) == Above(m, rebuilt.mem.payments, c, false))
  {
    AccountedFromBirth(cfg, start, evs, false);
    RefinesRunning(cfg, RunLife(cfg, Birth(start), evs), r, false, m, c);
    if Punctual(evs) {
      AccountedFromBirth(cfg, start, evs, true);
      RefinesRunning(cfg, RunLife(cfg, Birth(start), evs), r, true, m, c);
    }
  }

  lemma RefinesRunning(cfg: GuardConfig, l: Life, r: Rebuild, exact: bool, m: Measure, c: int)
    requires Accounted(cfg, l, DAY_MS, exact) && l.clock <= r.listedAt && r.FullDay() && c >= r.hydratedAt - DAY_MS
    requires RecentInLog(cfg, l.current, r.hydratedAt - DAY_MS)
    ensures var running, rebuilt := l.state.mem.payments, Hydrate(cfg, l.state.log, r).mem.payments;
            && Above(m, running, c, false) <= Above(m, rebuilt, c, false)
            && (exact ==> Above(m, running, c, false) == Above(m, rebuilt, c, false))
  {
    NoneUnattributed(cfg, m, l.current, r.hydratedAt - DAY_MS, c, l.clock);
    RebuiltAgainstRunning(cfg, l, r, DAY_MS, exact, m, c);
  }

  lemma RefinesOnlyRecent(cfg: GuardConfig, l: Life, r: Rebuild)
    requires Accounted(cfg, l, DAY_MS, true) && l.clock <= r.listedAt && r.FullDay() && ShowsNoLess(cfg, l, r)
    ensures RecentInLog(cfg, l.current, r.hydratedAt - DAY_MS)
  {
    var day := r.hydratedAt - DAY_MS;
    assert Above(PaymentCount, l.state.mem.payments, day, false) <=
           Above(PaymentCount, Hydrate(cfg, l.state.log, r).mem.payments, day, false);
    RebuiltAgainstRunning(cfg, l, r, DAY_MS, true, PaymentCount, day);
    NoneUnattributedIff(cfg, l.current, day, l.clock);
  }

  /** After a punctual life that condition is the exact one. */
  lemma {:induction false} RestartRefinesRunningIff(cfg: GuardConfig, start: int, evs: seq<LifeEvent>, r: Rebuild)
    requires AllTimely(cfg, Birth(start), evs) && Punctual(evs)
    requires RunLife(cfg, Birth(start), evs).clock <= r.listedAt && r.FullDay()
    ensures var l := RunLife(cfg, Birth(start), evs);
            ShowsNoLess(cfg, l, r) <==> RecentInLog(cfg, l.current, r.hydratedAt - DAY_MS)
  {
    var l := RunLife(cfg, Birth(start), evs);
    AccountedFromBirth(cfg, start, evs, true);
    if RecentInLog(cfg, l.current, r.hydratedAt - DAY_MS) {
      forall m, c | c >= r.hydratedAt - DAY_MS
        ensures Above(m, l.state.mem.payments, c, false) <= Above(m, Hydrate(cfg, l.state.log, r).mem.payments, c, false)
      {
        RefinesRunning(cfg, l, r, true, m, c);
      }
    }
    if ShowsNoLess(cfg, l, r) { RefinesOnlyRecent(cfg, l, r); }
  }

  /**
   Recipients: a rebuilt guard knows exactly those of the agent's settled rows within its
   lookback, and a running one that never looked back less far knows them all too.
   */
  lemma {:induction false} RestartKnowsRecipients(cfg: GuardConfig, start: int, evs: seq<LifeEvent>, r: Rebuild,
      who: string)
    requires AllTimely(cfg, Birth(start), evs) && LooksBack(evs, r.lookback)
    requires RunLife(cfg, Birth(start), evs).clock <= r.listedAt && r.FullDay()
    ensures var running := RunLife(cfg, Birth(start), evs).state;
            var rebuilt := Hydrate(cfg, running.log, r);
            && (who in rebuilt.mem.seen <==>
                  exists e :: e in running.log && Counted(cfg.policy.agentId)(e) && e.timestamp >= r.Start()
                    && Lower(e.request.recipient) == who)
            && (who in rebuilt.mem.seen ==> who in running.mem.seen)
  {
    var l := RunLife(cfg, Birth(start), evs);
    LivesAreAccounted(cfg, start, evs, r.lookback, false);
    HydrateSeen(cfg, l.state.log, r, who);
  }

  // ─── How a cap is spent twice ─────────────────────────────────────────────

  /** A plain day cap of `amount` on one token, no breaker. */
  predicate DayCapOnly(cfg: GuardConfig, amount: int, token: string) {
    cfg.breaker.None? && cfg.policy.rules == [SpendCap(Day, amount, token, None)]
  }

  /** An unremarkable, valid payment of the whole cap that the facilitator settles. */
  predicate SpendsCap(cfg: GuardConfig, a: Attempt, amount: int, token: string) {
    && a.req.amount == amount && a.req.token == token && a.req.resourceUrl.None?
    && Validate(cfg.platform, a.req).None?
    && a.anomalies == [] && a.intent.passed && a.score < cfg.policy.anomalyThreshold
    && a.settling.Answers? && a.settling.success
  }

  lemma EmptyMemoryAllows(cfg: GuardConfig, s: GuardState, a: Attempt, amount: int, token: string)
    requires DayCapOnly(cfg, amount, token) && SpendsCap(cfg, a, amount, token) && s.mem.payments == []
    ensures Settles(cfg, s, a)
  {
    var rules := cfg.policy.rules;
    var ctx := RuleContext(a.req, a.evaluatedAt, s.mem);
    assert rules[..0] == [];
    assert RunRules(cfg.platform, rules, ctx) == Evaluation([PolicyCheck(CapId(Day), true, Info)], false);
    assert rules[0].SpendCap? && Lower(rules[0].token) == Lower(a.req.token);
    assert AllChecks(cfg, s, a) == [PolicyCheck(CapId(Day), true, Info), PolicyCheck(BINDING_ID, true, Info), a.intent];
  }

  lemma HydrateNothing(cfg: GuardConfig, log: seq<AuditEntry>, r: Rebuild)
    requires forall e :: e in log ==> e.agentId != cfg.policy.agentId
    ensures Hydrate(cfg, log, r).mem.payments == []
  {
    NoneSince(log, cfg.policy.agentId, r.Start());
    HydratedFromEmpty([], r.hydratedAt);
  }

  /** What was spent in a token in the day from a time on. */
  function DaySpend(cfg: GuardConfig, token: string, h: seq<Payment>, from: int): int {
    Paid(cfg, SpendIn(Lower(token)), h, Any, from, from + DAY_MS)
  }

  /** Two payments of the cap, a moment apart, fill one day's window twice over. */
  lemma TwiceInOneDay(cfg: GuardConfig, h: seq<Payment>, p: Payment, q: Payment, amount: int, token: string)
    requires h == [p] + [q] && p.req.amount == amount == q.req.amount && p.req.token == token == q.req.token
    requires p.at <= q.at < p.at + DAY_MS
    ensures DaySpend(cfg, token, h, p.at) == 2 * amount
  {
    var m := SpendIn(Lower(token));
    PaidAppend(cfg, m, [p], q, Any, p.at, p.at + DAY_MS);
    assert [p] == [] + [p];
    PaidAppend(cfg, m, [], p, Any, p.at, p.at + DAY_MS);
  }

  /** If the process dies after settling and before recording, the restarted guard lets the cap go again. */
  lemma LostRecordDoublesCap(cfg: GuardConfig, a: Attempt, b: Attempt, r: Rebuild, amount: int, token: string)
    requires DayCapOnly(cfg, amount, token) && SpendsCap(cfg, a, amount, token) && SpendsCap(cfg, b, amount, token)
    requires OnTime(a, 0) && a.loggedAt <= r.listedAt && r.FullDay()
    requires OnTime(b, r.breakerAt) && b.observedAt < a.observedAt + DAY_MS
    ensures var evs := [DieUnlogged(a, r), Pay(b)];
            && AllTimely(cfg, Birth(0), evs)
            && DaySpend(cfg, token, RunLife(cfg, Birth(0), evs).History(), a.observedAt) == 2 * amount
  {
    DiesThenPays(cfg, a, b, r, amount, token);
    var p, q := Payment(a.req, a.observedAt, None), Payment(b.req, b.observedAt, Some(b.loggedAt));
    TwiceInOneDay(cfg, [p] + [q], p, q, amount, token);
  }

  lemma DiesThenPays(cfg: GuardConfig, a: Attempt, b: Attempt, r: Rebuild, amount: int, token: string)
    requires DayCapOnly(cfg, amount, token) && SpendsCap(cfg, a, amount, token) && SpendsCap(cfg, b, amount, token)
    requires OnTime(a, 0) && a.loggedAt <= r.listedAt && r.FullDay() && OnTime(b, r.breakerAt)
    ensures var evs := [DieUnlogged(a, r), Pay(b)];
            && AllTimely(cfg, Birth(0), evs)
            && RunLife(cfg, Birth(0), evs).History() ==
                 [Payment(a.req, a.observedAt, None)] + [Payment(b.req, b.observedAt, Some(b.loggedAt))]
  {
    BothSettle(cfg, a, b, r, amount, token);
    ColdAfterDeath(cfg, a, r);
    RunTwo(cfg, [DieUnlogged(a, r), Pay(b)]);
    BothInHistory(cfg, a, b, r);
  }

  lemma BothSettle(cfg: GuardConfig, a: Attempt, b: Attempt, r: Rebuild, amount: int, token: string)
    requires DayCapOnly(cfg, amount, token) && SpendsCap(cfg, a, amount, token) && SpendsCap(cfg, b, amount, token)
    ensures Settles(cfg, Birth(0).state, a) && Settles(cfg, Live(cfg, Birth(0), DieUnlogged(a, r)).state, b)
  {
    EmptyMemoryAllows(cfg, Birth(0).state, a, amount, token);
    ColdAfterDeath(cfg, a, r);
    EmptyMemoryAllows(cfg, Live(cfg, Birth(0), DieUnlogged(a, r)).state, b, amount, token);
  }

  lemma ColdAfterDeath(cfg: GuardConfig, a: Attempt, r: Rebuild)
    ensures Live(cfg, Birth(0), DieUnlogged(a, r)).state.mem.payments == []
    ensures Live(cfg, Birth(0), DieUnlogged(a, r)).clock == r.breakerAt
  {
    HydrateNothing(cfg, [], r);
  }

  lemma BothInHistory(cfg: GuardConfig, a: Attempt, b: Attempt, r: Rebuild)
    requires Settles(cfg, Live(cfg, Birth(0), DieUnlogged(a, r)).state, b)
    ensures Live(cfg, Live(cfg, Birth(0), DieUnlogged(a, r)), Pay(b)).History() ==
            [Payment(a.req, a.observedAt, None)] + [Payment(b.req, b.observedAt, Some(b.loggedAt))]
  {
    var mid := Live(cfg, Birth(0), DieUnlogged(a, r));
    HistoryGrows(cfg, Birth(0), DieUnlogged(a, r));
    HistoryGrows(cfg, mid, Pay(b));
    assert mid.History() == [Payment(a.req, a.observedAt, None)];
  }

  lemma RunTwo(cfg: GuardConfig, evs: seq<LifeEvent>)
    requires |evs| == 2
    ensures RunLife(cfg, Birth(0), evs) == Live(cfg, Live(cfg, Birth(0), evs[0]), evs[1])
    ensures AllTimely(cfg, Birth(0), evs) <==>
              Timely(cfg, Birth(0), evs[0]) && Timely(cfg, Live(cfg, Birth(0), evs[0]), evs[1])
  {
    assert evs[..1][..0] == [];
    assert RunLife(cfg, Birth(0), evs[..1]) == Live(cfg, Birth(0), evs[0]);
    assert AllTimely(cfg, Birth(0), evs[..1][..0]);
    assert AllTimely(cfg, Birth(0), evs[..1]) <==> Timely(cfg, Birth(0), evs[0]);
  }

  /** A payment requested under another agent id is logged under that id, so a restart forgets it. */
  lemma ForeignAgentIdForgotten(cfg: GuardConfig, a: Attempt, r: Rebuild, amount: int, token: string)
    requires DayCapOnly(cfg, amount, token) && SpendsCap(cfg, a, amount, token) && OnTime(a, 0)
    requires a.req.agentId != cfg.policy.agentId && a.loggedAt <= r.listedAt && r.FullDay()
    ensures var evs := [Pay(a), Restart(r)];
            var l := RunLife(cfg, Birth(0), evs);
            && AllTimely(cfg, Birth(0), evs)
            && l.History() == [Payment(a.req, a.observedAt, Some(a.loggedAt))] && l.state.mem.payments == []
            && forall b :: SpendsCap(cfg, b, amount, token) ==> Settles(cfg, l.state, b)
  {
    var evs := [Pay(a), Restart(r)];
    EmptyMemoryAllows(cfg, Birth(0).state, a, amount, token);
    RunTwo(cfg, evs);
    var mid := Live(cfg, Birth(0), evs[0]);
    PayEffect(cfg, Birth(0), a);
    assert mid.state.log == [EntryOf(cfg, Birth(0).state, a)];
    HydrateNothing(cfg, mid.state.log, r);
    var l := Live(cfg, mid, evs[1]);
    forall b | SpendsCap(cfg, b, amount, token) ensures Settles(cfg, l.state, b) {
      EmptyMemoryAllows(cfg, l.state, b, amount, token);
    }
  }

  /**
   A cold start frees the cap as well: where an honest rebuild still shows spend in the
   token's day, and so refuses a payment of the whole cap, the guard started over damaged
   rows settles it.
   */
  lemma ColdStartFreesCap(cfg: GuardConfig, log: seq<AuditEntry>, damage: Damage, r: Rebuild, b: Attempt, amount: int,
      token: string)
    requires DayCapOnly(cfg, amount, token) && SpendsCap(cfg, b, amount, token) && StartsCold(cfg, log, damage, r)
    requires r.FullDay() && b.evaluatedAt >= r.hydratedAt
    requires LogTotal(SpendIn(Lower(token)), log, b.evaluatedAt - DAY_MS, Counted(cfg.policy.agentId)) > 0
    ensures Settles(cfg, Started(cfg, log, damage, r), b) && !Settles(cfg, Hydrate(cfg, log, r), b)
  {
    EmptyMemoryAllows(cfg, Started(cfg, log, damage, r), b, amount, token);
    HydrateTotal(cfg, log, r, SpendIn(Lower(token)), b.evaluatedAt - DAY_MS);
    SpentCapRefuses(cfg, Hydrate(cfg, log, r), b, amount, token);
  }

  lemma SpentCapRefuses(cfg: GuardConfig, s: GuardState, b: Attempt, amount: int, token: string)
    requires DayCapOnly(cfg, amount, token) && SpendsCap(cfg, b, amount, token)
    requires Above(SpendIn(Lower(token)), s.mem.payments, b.evaluatedAt - DAY_MS, false) > 0
    ensures !Settles(cfg, s, b)
  {
    if Settles(cfg, s, b) { SettledObeysRules(cfg, s, b, 0); }
  }
}
