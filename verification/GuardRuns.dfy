/**
 Whole lives of a guard, restarts included: rolling limits over every window, with exactly
 the allowance for what a restart forgets, and the session cap of each process.
 */
module GuardRuns {
  import opened Text
  import opened Types
  import opened PolicyRules
  import opened BreakerLogic
  import opened GuardLogic
  import opened RebuildTotals

  /** A settled payment as it really happened; `loggedAt` is None if its record was lost. */
  datatype Payment = Payment(req: PaymentRequest, at: int, loggedAt: Option<nat>)

  /**
   The guard, the payments that ever settled under it, and the latest time seen. `current`
   are the payments of the running process, `earlier` those before its start. `sight` is
   the time a rebuilt memory shows nothing up to; a guard never rebuilt has none.
   */
  datatype Life = Life(state: GuardState, earlier: seq<Payment>, current: seq<Payment>, clock: int, sight: Option<int>) {
    function History(): seq<Payment> { earlier + current }
  }

  /**
   `DieUnlogged` is a process that dies after its payment settled and before the audit
   record was written, and is then restarted. `Look` is any reading of the breaker outside a
   payment, as a dry-run evaluation makes; `Reset` is a human closing it.
   */
  datatype LifeEvent =
    | Pay(attempt: Attempt)
    | Restart(rebuild: Rebuild)
    | DieUnlogged(attempt: Attempt, rebuild: Rebuild)
    | Look(at: int)
    | Reset(at: int)

  predicate Restarts(ev: LifeEvent) { ev.Restart? || ev.DieUnlogged? }

  predicate Timely(cfg: GuardConfig, l: Life, ev: LifeEvent) {
    match ev
    case Pay(a) => OnTime(a, l.clock)
    case Restart(r) => l.clock <= r.listedAt && r.FullDay()
    case DieUnlogged(a, r) => OnTime(a, l.clock) && a.loggedAt <= r.listedAt && r.FullDay() && Settles(cfg, l.state, a)
    case Look(at) => l.clock <= at
    case Reset(at) => l.clock <= at
  }

  /** Nothing but the breaker and the clock moves. */
  function Idle(l: Life, b: Breaker, at: int): Life {
    l.(state := l.state.(breaker := b), clock := at)
  }

  /** The payment an attempt leaves behind, if it settles. */
  function PaymentsOf(cfg: GuardConfig, l: Life, a: Attempt): seq<Payment> {
    if Settles(cfg, l.state, a) then [Payment(a.req, a.observedAt, Some(a.loggedAt))] else []
  }

  /** A new process over the same log. */
  function Reborn(cfg: GuardConfig, log: seq<AuditEntry>, history: seq<Payment>, r: Rebuild): Life {
    Life(Hydrate(cfg, log, r), history, [], r.breakerAt, Some(r.hydratedAt - DAY_MS))
  }

  function Live(cfg: GuardConfig, l: Life, ev: LifeEvent): Life {
    match ev
    case Pay(a) => Life(Execute(cfg, l.state, a).0, l.earlier, l.current + PaymentsOf(cfg, l, a), a.loggedAt, l.sight)
    case Restart(r) => Reborn(cfg, l.state.log, l.History(), r)
    case DieUnlogged(a, r) => Reborn(cfg, l.state.log, l.History() + [Payment(a.req, a.observedAt, None)], r)
    case Look(at) => Idle(l, BreakerAfterLook(cfg, l.state.breaker, at), at)
    case Reset(at) => Idle(l, FRESH, at)
  }

  function RunLife(cfg: GuardConfig, l: Life, evs: seq<LifeEvent>): Life {
    if evs == [] then l else Live(cfg, RunLife(cfg, l, evs[..|evs| - 1]), evs[|evs| - 1])
  }

  /** Every event happens with a clock that never runs backwards, and restarts read at least a day of log. */
  ghost predicate AllTimely(cfg: GuardConfig, l: Life, evs: seq<LifeEvent>) {
    evs != [] ==>
      AllTimely(cfg, l, evs[..|evs| - 1]) && Timely(cfg, RunLife(cfg, l, evs[..|evs| - 1]), evs[|evs| - 1])
  }

  // ─── Totals over what really settled ──────────────────────────────────────

  datatype Which = Any | Attributed | Unattributed

  /** The log holds the payment under this guard's own agent id, so a restart will find it. */
  predicate InLog(cfg: GuardConfig, p: Payment) {
    p.loggedAt.Some? && p.req.agentId == cfg.policy.agentId
  }

  predicate Picks(cfg: GuardConfig, w: Which, p: Payment) {
    match w
    case Any => true
    case Attributed => InLog(cfg, p)
    case Unattributed => !InLog(cfg, p)
  }

  function PayWeight(m: Measure, p: Payment): int { Weigh(m, p.req.amount, Lower(p.req.token)) }

  /** The total of the picked payments settled in the half-open interval [lo, hi). */
  function Paid(cfg: GuardConfig, m: Measure, h: seq<Payment>, w: Which, lo: int, hi: int): int {
    if h == [] then 0
    else
      var p := h[|h| - 1];
      Paid(cfg, m, h[..|h| - 1], w, lo, hi) + if Picks(cfg, w, p) && lo <= p.at < hi then PayWeight(m, p) else 0
  }

  lemma PaidAppend(cfg: GuardConfig, m: Measure, h: seq<Payment>, p: Payment, w: Which, lo: int,
      hi: int)
    ensures Paid(cfg, m, h + [p], w, lo, hi) ==
            Paid(cfg, m, h, w, lo, hi) + if Picks(cfg, w, p) && lo <= p.at < hi then PayWeight(m, p) else 0
  {
    assert (h + [p])[..|h|] == h;
  }

  lemma {:induction false} PaidSplits(cfg: GuardConfig, m: Measure, h: seq<Payment>, lo: int, hi: int)
    ensures Paid(cfg, m, h, Any, lo, hi) == Paid(cfg, m, h, Attributed, lo, hi) + Paid(cfg, m, h, Unattributed, lo, hi)
  {
    if h != [] { PaidSplits(cfg, m, h[..|h| - 1], lo, hi); }
  }

  lemma {:induction false} PaidConcat(cfg: GuardConfig, m: Measure, a: seq<Payment>, b: seq<Payment>, w: Which,
      lo: int, hi: int)
    ensures Paid(cfg, m, a + b, w, lo, hi) == Paid(cfg, m, a, w, lo, hi) + Paid(cfg, m, b, w, lo, hi)
  {
    if b == [] {
      assert a + b == a;
    } else {
      assert (a + b)[..|a + b| - 1] == a + b[..|b| - 1];
      PaidConcat(cfg, m, a, b[..|b| - 1], w, lo, hi);
    }
  }

  ghost predicate Positive(h: seq<Payment>) {
    forall k :: 0 <= k < |h| ==> h[k].req.amount > 0
  }

  lemma {:induction false} PaidWider(cfg: GuardConfig, m: Measure, h: seq<Payment>, w: Which, lo: int, hi: int,
      lo': int, hi': int)
    requires Positive(h) && lo' <= lo && hi <= hi'
    ensures 0 <= Paid(cfg, m, h, w, lo, hi) <= Paid(cfg, m, h, w, lo', hi')
  {
    if h != [] { PaidWider(cfg, m, h[..|h| - 1], w, lo, hi, lo', hi'); }
  }

  lemma {:induction false} PaidUpTo(cfg: GuardConfig, m: Measure, h: seq<Payment>, w: Which, lo: int, hi: int, hi': int)
    requires PastOnly(h, hi - 1) && PastOnly(h, hi' - 1)
    ensures Paid(cfg, m, h, w, lo, hi) == Paid(cfg, m, h, w, lo, hi')
  {
    if h != [] { PaidUpTo(cfg, m, h[..|h| - 1], w, lo, hi, hi'); }
  }

  lemma {:induction false} PaidWithin(cfg: GuardConfig, m: Measure, h: seq<Payment>, w: Which, lo: int, hi: int,
      end: int)
    requires Positive(h) && PastOnly(h, end - 1)
    ensures Paid(cfg, m, h, w, lo, hi) <= Paid(cfg, m, h, w, lo, end)
  {
    if h != [] { PaidWithin(cfg, m, h[..|h| - 1], w, lo, hi, end); }
  }

  ghost predicate PastOnly(h: seq<Payment>, clock: int) {
    forall k :: 0 <= k < |h| ==> h[k].at <= clock
  }

  /** The total of the picked payments after a cutoff, up to now. */
  function Lately(cfg: GuardConfig, m: Measure, h: seq<Payment>, w: Which, c: int, clock: int): int {
    Paid(cfg, m, h, w, c + 1, clock + 1)
  }

  /** Moving the clock on changes no such total; a new payment adds its weight to it. */
  lemma LatelyLater(cfg: GuardConfig, m: Measure, h: seq<Payment>, w: Which, c: int, clock: int, clock': int)
    requires clock <= clock' && PastOnly(h, clock)
    ensures Lately(cfg, m, h, w, c, clock') == Lately(cfg, m, h, w, c, clock)
  {
    PaidUpTo(cfg, m, h, w, c + 1, clock + 1, clock' + 1);
  }

  lemma LatelyAppend(cfg: GuardConfig, m: Measure, h: seq<Payment>, p: Payment, w: Which, c: int, clock: int,
      clock': int)
    requires p.at <= clock' && clock <= clock' && PastOnly(h, clock)
    ensures Lately(cfg, m, h + [p], w, c, clock') ==
            Lately(cfg, m, h, w, c, clock) + if Picks(cfg, w, p) && p.at > c then PayWeight(m, p) else 0
  {
    PaidAppend(cfg, m, h, p, w, c + 1, clock' + 1);
    LatelyLater(cfg, m, h, w, c, clock, clock');
  }

  lemma LogTotalAppend(m: Measure, log: seq<AuditEntry>, e: AuditEntry, c: int, p: AuditEntry -> bool)
    ensures LogTotal(m, log + [e], c, p) == LogTotal(m, log, c, p) + if p(e) && e.timestamp > c then EntryWeight(m, e) else 0
  {
    assert (log + [e])[..|log|] == log;
  }

  lemma AboveAppend(m: Measure, ps: seq<SpendRecord>, p: SpendRecord, c: int, liveOnly: bool)
    ensures Above(m, ps + [p], c, liveOnly) ==
            Above(m, ps, c, liveOnly) + if p.ts > c && !(liveOnly && p.hydrated) then Weigh(m, p.amount, p.token) else 0
  {
    assert (ps + [p])[..|ps|] == ps;
  }

  // ─── What memory and log account for ──────────────────────────────────────

  /**
   What the running guard must still know: of the payments before its start those the log
   attributes to it, of its own every one, whatever agent id the request carried.
   */
  function Kept(cfg: GuardConfig, m: Measure, l: Life, lo: int, hi: int): int {
    Paid(cfg, m, l.earlier, Attributed, lo, hi) + Paid(cfg, m, l.current, Any, lo, hi)
  }

  /** What its last restart forgot: unattributed payments settled before it. */
  function Forgotten(cfg: GuardConfig, m: Measure, l: Life, lo: int, hi: int): int {
    Paid(cfg, m, l.earlier, Unattributed, lo, hi)
  }

  lemma KeptPlusForgotten(cfg: GuardConfig, m: Measure, l: Life, lo: int, hi: int)
    ensures Paid(cfg, m, l.History(), Any, lo, hi) == Kept(cfg, m, l, lo, hi) + Forgotten(cfg, m, l, lo, hi)
  {
    PaidConcat(cfg, m, l.earlier, l.current, Any, lo, hi);
    PaidSplits(cfg, m, l.earlier, lo, hi);
  }

  predicate InSight(l: Life, c: int) { l.sight.None? || c >= l.sight.value }

  ghost predicate MemoryCovers(cfg: GuardConfig, l: Life) {
    forall m, c :: InSight(l, c) ==> Kept(cfg, m, l, c + 1, l.clock + 1) <= Above(m, l.state.mem.payments, c, false)
  }

  ghost predicate HistoryOk(l: Life) {
    && Positive(l.earlier) && Positive(l.current) && PastOnly(l.earlier, l.clock) && PastOnly(l.current, l.clock)
    && (l.sight.Some? ==> l.sight.value <= l.clock - DAY_MS)
  }

  /** The memory covers the history, as far back as it can see. */
  ghost predicate Remembers(cfg: GuardConfig, l: Life) {
    HistoryOk(l) && MemoryCovers(cfg, l)
  }

  /** The intact log weighs at least the payments it attributes, after any cutoff. */
  ghost predicate LogCovers(cfg: GuardConfig, l: Life) {
    && (forall k :: 0 <= k < |l.state.log| ==> Intact(l.state.log[k]))
    && forall m, c :: Lately(cfg, m, l.History(), Attributed, c, l.clock) <=
                      LogTotal(m, l.state.log, c, Counted(cfg.policy.agentId))
  }

  ghost predicate LifeOk(cfg: GuardConfig, l: Life) { Remembers(cfg, l) && LogCovers(cfg, l) }

  /** What settling takes: past validation and past every rule. */
  lemma SettlingPassedRules(cfg: GuardConfig, s: GuardState, a: Attempt)
    requires Settles(cfg, s, a)
    ensures a.req.amount > 0
    ensures !HardCritical(AllChecks(cfg, s, a))
  {
  }

  function EntryOf(cfg: GuardConfig, s: GuardState, a: Attempt): AuditEntry {
    EntryFor(a, Decide(cfg, s, a), if Allowed(Decide(cfg, s, a), a.approved) then SettlementOf(cfg, a.settling) else None)
  }

  function RecordOf(a: Attempt): SpendRecord {
    SpendRecord(a.observedAt, a.req.amount, Lower(a.req.token), false)
  }

  /** What one attempt adds to memory and log. */
  lemma PayEffect(cfg: GuardConfig, l: Life, a: Attempt)
    ensures var e, l' := EntryOf(cfg, l.state, a), Live(cfg, l, Pay(a));
            && Intact(e) && (SettledOk(e) <==> Settles(cfg, l.state, a))
            && e.request == a.req && e.agentId == a.req.agentId && e.timestamp == a.loggedAt
            && l'.state.mem.payments == l.state.mem.payments + (if Settles(cfg, l.state, a) then [RecordOf(a)] else [])
            && (l'.state.log == l.state.log + [e] || (l'.state.log == l.state.log && !Settles(cfg, l.state, a)))
  {
  }

  lemma PayKeepsHistory(cfg: GuardConfig, l: Life, a: Attempt)
    requires HistoryOk(l) && OnTime(a, l.clock)
    ensures HistoryOk(Live(cfg, l, Pay(a)))
  {
    if Settles(cfg, l.state, a) { SettlingPassedRules(cfg, l.state, a); }
  }

  lemma PayKeepsMemory(cfg: GuardConfig, l: Life, a: Attempt)
    requires Remembers(cfg, l) && OnTime(a, l.clock)
    ensures Remembers(cfg, Live(cfg, l, Pay(a)))
  {
    var l' := Live(cfg, l, Pay(a));
    PayEffect(cfg, l, a);
    PayKeepsHistory(cfg, l, a);
    forall m, c | InSight(l', c)
      ensures Kept(cfg, m, l', c + 1, l'.clock + 1) <= Above(m, l'.state.mem.payments, c, false)
    {
      assert InSight(l, c);
      PayAddsToBoth(cfg, l, a, m, c);
    }
  }

  /** A settled payment weighs the same in what must be known and in what the memory shows. */
  lemma PayAddsToBoth(cfg: GuardConfig, l: Life, a: Attempt, m: Measure, c: int)
    requires HistoryOk(l) && OnTime(a, l.clock)
    ensures var l', ps := Live(cfg, l, Pay(a)), l.state.mem.payments;
            Kept(cfg, m, l', c + 1, l'.clock + 1) - Kept(cfg, m, l, c + 1, l.clock + 1) ==
            Above(m, l'.state.mem.payments, c, false) - Above(m, ps, c, false)
  {
    PayEffect(cfg, l, a);
    LatelyLater(cfg, m, l.earlier, Attributed, c, l.clock, a.loggedAt);
    if Settles(cfg, l.state, a) {
      LatelyAppend(cfg, m, l.current, PaymentsOf(cfg, l, a)[0], Any, c, l.clock, a.loggedAt);
      AboveAppend(m, l.state.mem.payments, RecordOf(a), c, false);
    } else {
      LatelyLater(cfg, m, l.current, Any, c, l.clock, a.loggedAt);
      assert l.current + [] == l.current;
    }
  }

  lemma PayKeepsLog(cfg: GuardConfig, l: Life, a: Attempt)
    requires HistoryOk(l) && LogCovers(cfg, l) && OnTime(a, l.clock)
    ensures LogCovers(cfg, Live(cfg, l, Pay(a)))
  {
    var l' := Live(cfg, l, Pay(a));
    PayEffect(cfg, l, a);
    forall m, c
      ensures Lately(cfg, m, l'.History(), Attributed, c, l'.clock) <=
              LogTotal(m, l'.state.log, c, Counted(cfg.policy.agentId))
    {
      assert Lately(cfg, m, l.History(), Attributed, c, l.clock) <= LogTotal(m, l.state.log, c, Counted(cfg.policy.agentId));
      LogGains(cfg, l, a, m, c);
    }
  }

  /** What an attempt adds to the attributed total after a cutoff, if it counts from the given time. */
  function Gain(cfg: GuardConfig, l: Life, a: Attempt, m: Measure, c: int, at: int): int {
    if Settles(cfg, l.state, a) && a.req.agentId == cfg.policy.agentId && at > c then
      Weigh(m, a.req.amount, Lower(a.req.token))
    else 0
  }

  lemma GainOrder(cfg: GuardConfig, l: Life, a: Attempt, m: Measure, c: int)
    requires a.observedAt <= a.loggedAt
    ensures 0 <= Gain(cfg, l, a, m, c, a.observedAt) <= Gain(cfg, l, a, m, c, a.loggedAt)
  {
    if Settles(cfg, l.state, a) { SettlingPassedRules(cfg, l.state, a); }
  }

  /** Totals of the attributed history and of the log after one more attempt. */
  lemma LogGains(cfg: GuardConfig, l: Life, a: Attempt, m: Measure, c: int)
    requires HistoryOk(l) && OnTime(a, l.clock)
    ensures Lately(cfg, m, Live(cfg, l, Pay(a)).History(), Attributed, c, a.loggedAt) ==
            Lately(cfg, m, l.History(), Attributed, c, l.clock) + Gain(cfg, l, a, m, c, a.observedAt)
    ensures LogTotal(m, Live(cfg, l, Pay(a)).state.log, c, Counted(cfg.policy.agentId)) ==
            LogTotal(m, l.state.log, c, Counted(cfg.policy.agentId)) + Gain(cfg, l, a, m, c, a.loggedAt)
    ensures 0 <= Gain(cfg, l, a, m, c, a.observedAt) <= Gain(cfg, l, a, m, c, a.loggedAt)
  {
    GainOrder(cfg, l, a, m, c);
    HistoryGains(cfg, l, a, m, c);
    RowsGain(cfg, l, a, m, c);
  }

  lemma HistoryGains(cfg: GuardConfig, l: Life, a: Attempt, m: Measure, c: int)
    requires HistoryOk(l) && OnTime(a, l.clock)
    ensures Lately(cfg, m, Live(cfg, l, Pay(a)).History(), Attributed, c, a.loggedAt) ==
            Lately(cfg, m, l.History(), Attributed, c, l.clock) + Gain(cfg, l, a, m, c, a.observedAt)
  {
    assert Live(cfg, l, Pay(a)).History() == l.History() + PaymentsOf(cfg, l, a);
    if Settles(cfg, l.state, a) {
      LatelyAppend(cfg, m, l.History(), PaymentsOf(cfg, l, a)[0], Attributed, c, l.clock, a.loggedAt);
    } else {
      assert l.History() + [] == l.History();
      LatelyLater(cfg, m, l.History(), Attributed, c, l.clock, a.loggedAt);
    }
  }

  lemma RowsGain(cfg: GuardConfig, l: Life, a: Attempt, m: Measure, c: int)
    ensures LogTotal(m, Live(cfg, l, Pay(a)).state.log, c, Counted(cfg.policy.agentId)) ==
            LogTotal(m, l.state.log, c, Counted(cfg.policy.agentId)) + Gain(cfg, l, a, m, c, a.loggedAt)
  {
    PayEffect(cfg, l, a);
    LogTotalAppend(m, l.state.log, EntryOf(cfg, l.state, a), c, Counted(cfg.policy.agentId));
  }

  /** A restart reads everything back from the log, forgetting only what the log does not attribute. */
  lemma {:induction false} RebornRemembers(cfg: GuardConfig, log: seq<AuditEntry>, h: seq<Payment>, r: Rebuild)
    requires Positive(h) && PastOnly(h, r.listedAt) && r.FullDay() && forall k :: 0 <= k < |log| ==> Intact(log[k])
    requires forall m, c :: Lately(cfg, m, h, Attributed, c, r.breakerAt) <= LogTotal(m, log, c, Counted(cfg.policy.agentId))
    ensures LifeOk(cfg, Reborn(cfg, log, h, r))
  {
    var l := Reborn(cfg, log, h, r);
    assert l.History() == h && l.state.log == log;
    forall m, c | InSight(l, c) ensures Kept(cfg, m, l, c + 1, l.clock + 1) <= Above(m, l.state.mem.payments, c, false) {
      assert Lately(cfg, m, h, Attributed, c, r.breakerAt) <= LogTotal(m, log, c, Counted(cfg.policy.agentId));
      RebornKept(cfg, log, h, r, m, c);
    }
  }

  lemma {:induction false} RebornKept(cfg: GuardConfig, log: seq<AuditEntry>, h: seq<Payment>, r: Rebuild,
      m: Measure, c: int)
    requires r.FullDay() && InSight(Reborn(cfg, log, h, r), c)
    ensures var l := Reborn(cfg, log, h, r);
            && Kept(cfg, m, l, c + 1, l.clock + 1) == Lately(cfg, m, h, Attributed, c, r.breakerAt)
            && Above(m, l.state.mem.payments, c, false) == LogTotal(m, log, c, Counted(cfg.policy.agentId))
  {
    HydrateTotal(cfg, log, r, m, c);
  }

  lemma RestartKeeps(cfg: GuardConfig, l: Life, r: Rebuild)
    requires LifeOk(cfg, l) && l.clock <= r.listedAt && r.FullDay()
    ensures LifeOk(cfg, Live(cfg, l, Restart(r)))
  {
    forall m, c
      ensures Lately(cfg, m, l.History(), Attributed, c, r.breakerAt) <=
              LogTotal(m, l.state.log, c, Counted(cfg.policy.agentId))
    {
      LatelyLater(cfg, m, l.History(), Attributed, c, l.clock, r.breakerAt);
      assert Lately(cfg, m, l.History(), Attributed, c, l.clock) <= LogTotal(m, l.state.log, c, Counted(cfg.policy.agentId));
    }
    RebornRemembers(cfg, l.state.log, l.History(), r);
  }

  lemma DeathKeeps(cfg: GuardConfig, l: Life, a: Attempt, r: Rebuild)
    requires LifeOk(cfg, l) && Timely(cfg, l, DieUnlogged(a, r))
    ensures LifeOk(cfg, Live(cfg, l, DieUnlogged(a, r)))
  {
    var p := Payment(a.req, a.observedAt, None);
    SettlingPassedRules(cfg, l.state, a);
    forall m, c
      ensures Lately(cfg, m, l.History() + [p], Attributed, c, r.breakerAt) <=
              LogTotal(m, l.state.log, c, Counted(cfg.policy.agentId))
    {
      LatelyAppend(cfg, m, l.History(), p, Attributed, c, l.clock, r.breakerAt);
      assert Lately(cfg, m, l.History(), Attributed, c, l.clock) <= LogTotal(m, l.state.log, c, Counted(cfg.policy.agentId));
    }
    RebornRemembers(cfg, l.state.log, l.History() + [p], r);
  }

  /** Time passing over the breaker alone leaves all accounts as they were. */
  lemma IdleKeepsMemory(cfg: GuardConfig, l: Life, b: Breaker, at: int)
    requires Remembers(cfg, l) && l.clock <= at
    ensures Remembers(cfg, Idle(l, b, at))
  {
    var l' := Idle(l, b, at);
    forall m, c | InSight(l', c) ensures Kept(cfg, m, l', c + 1, at + 1) <= Above(m, l'.state.mem.payments, c, false) {
      assert InSight(l, c);
      LatelyLater(cfg, m, l.earlier, Attributed, c, l.clock, at);
      LatelyLater(cfg, m, l.current, Any, c, l.clock, at);
      assert Kept(cfg, m, l, c + 1, l.clock + 1) <= Above(m, l.state.mem.payments, c, false);
    }
  }

  lemma IdleKeeps(cfg: GuardConfig, l: Life, b: Breaker, at: int)
    requires LifeOk(cfg, l) && l.clock <= at
    ensures LifeOk(cfg, Idle(l, b, at))
  {
    IdleKeepsMemory(cfg, l, b, at);
    forall m, c
      ensures Lately(cfg, m, l.History(), Attributed, c, at) <= LogTotal(m, l.state.log, c, Counted(cfg.policy.agentId))
    {
      LatelyLater(cfg, m, l.History(), Attributed, c, l.clock, at);
      assert Lately(cfg, m, l.History(), Attributed, c, l.clock) <=
             LogTotal(m, l.state.log, c, Counted(cfg.policy.agentId));
    }
  }

  lemma LiveKeeps(cfg: GuardConfig, l: Life, ev: LifeEvent)
    requires LifeOk(cfg, l) && Timely(cfg, l, ev)
    ensures LifeOk(cfg, Live(cfg, l, ev))
  {
    match ev
    case Pay(a) =>
      PayKeepsMemory(cfg, l, a);
      PayKeepsLog(cfg, l, a);
    case Restart(r) => RestartKeeps(cfg, l, r);
    case DieUnlogged(a, r) => DeathKeeps(cfg, l, a, r);
    case Look(at) => IdleKeeps(cfg, l, BreakerAfterLook(cfg, l.state.breaker, at), at);
    case Reset(at) => IdleKeeps(cfg, l, FRESH, at);
  }

  // ─── Rolling limits ───────────────────────────────────────────────────────

  /** What a rolling rule limits: a measure, over a window length, to at most a bound. */
  datatype Ceiling = Ceiling(m: Measure, length: int, most: int)

  /** Hour and day caps, and rate limits over windows of any length. */
  predicate Rolling(rule: PolicyRule) {
    (rule.SpendCap? && (rule.window.Hour? || rule.window.Day?)) || rule.RateLimit?
  }

  function NotBelowZero(x: int): int { if x < 0 then 0 else x }

  function CeilingOf(rule: PolicyRule): Ceiling
    requires Rolling(rule)
  {
    match rule
    case SpendCap(window, maxAmount, token, _) =>
      Ceiling(SpendIn(Lower(token)), if window.Hour? then HOUR_MS else DAY_MS, NotBelowZero(maxAmount))
    case RateLimit(maxPayments, windowSeconds) =>
      Ceiling(PaymentCount, windowSeconds * 1000, NotBelowZero(maxPayments))
  }

  /** In the half-open window from `lo` the total stays within the bound, but for what was forgotten. */
  ghost predicate CapHoldsFrom(cfg: GuardConfig, rule: PolicyRule, l: Life, lo: int)
    requires Rolling(rule)
  {
    var c := CeilingOf(rule);
    Paid(cfg, c.m, l.History(), Any, lo, lo + c.length) <= c.most + Forgotten(cfg, c.m, l, lo, lo + c.length)
  }

  /** All that ever settled in that window stays within the bound, without allowance. */
  predicate WithinCap(cfg: GuardConfig, rule: PolicyRule, l: Life, lo: int)
    requires Rolling(rule)
  {
    var c := CeilingOf(rule);
    Paid(cfg, c.m, l.History(), Any, lo, lo + c.length) <= c.most
  }

  ghost predicate CapHolds(cfg: GuardConfig, rule: PolicyRule, l: Life)
    requires Rolling(rule)
  {
    forall lo :: CapHoldsFrom(cfg, rule, l, lo)
  }

  /** No rule's own check ever failed critically for a payment that settles, whoever approved it. */
  lemma SettlingPassedRule(cfg: GuardConfig, s: GuardState, a: Attempt, k: nat)
    requires Settles(cfg, s, a) && k < |cfg.policy.rules|
    requires Dispatch(cfg.platform, cfg.policy.rules[k], RuleContext(a.req, a.evaluatedAt, s.mem)).check.Some?
    ensures !FailsCritically(Dispatch(cfg.platform, cfg.policy.rules[k], RuleContext(a.req, a.evaluatedAt, s.mem)).check.value)
  {
    var ctx := RuleContext(a.req, a.evaluatedAt, s.mem);
    var c := Dispatch(cfg.platform, cfg.policy.rules[k], ctx).check.value;
    SettlingPassedRules(cfg, s, a);
    RuleCheckKept(cfg.platform, cfg.policy.rules, ctx, k);
    var policyChecks := PolicyRules.Evaluate(cfg.platform, cfg.policy.rules, ctx).checks;
    var i :| 0 <= i < |policyChecks| && policyChecks[i] == c;
    assert AllChecks(cfg, s, a)[i] == c;
    RuleIdsAreHard(cfg.platform, cfg.policy.rules[k], ctx);
  }

  /** No rule passes for a behavioural check, whose failures a human may be asked about. */
  lemma RuleIdsAreHard(pf: Platform, rule: PolicyRule, ctx: RuleContext)
    requires Dispatch(pf, rule, ctx).check.Some?
    ensures !Behavioral(Dispatch(pf, rule, ctx).check.value)
  {
    var id := Dispatch(pf, rule, ctx).check.value.id;
    assert "behavioral-"[0] == 'b';
    assert id[0] != 'b';
  }

  /** Every enforced rule holds of a payment that settles, human-approved escalations included. */
  lemma SettledObeysRules(cfg: GuardConfig, s: GuardState, a: Attempt, k: nat)
    requires Settles(cfg, s, a) && k < |cfg.policy.rules|
    ensures match cfg.policy.rules[k]
            case SpendCap(window, maxAmount, token, _) =>
              Lower(token) == Lower(a.req.token) ==>
                (if window.Transaction? then 0 else WindowedSpend(s.mem, window, token, a.evaluatedAt))
                + a.req.amount <= maxAmount
            case Allowlist(mode, entries, enforce) =>
              enforce ==>
                if mode.Recipients? then Lower(a.req.recipient) in Normalize(cfg.platform, entries)
                else a.req.resourceUrl.Some? && MatchesResource(cfg.platform, a.req.resourceUrl.value,
                                                                     Normalize(cfg.platform, entries))
            case RateLimit(maxPayments, windowSeconds) =>
              RecentPaymentCount(s.mem, windowSeconds, a.evaluatedAt) < maxPayments
            case Counterparty(flagNewRecipients, action) =>
              flagNewRecipients && action.BlockIt? ==> Lower(a.req.recipient) in s.mem.seen
            case TimeWindow(startHour, endHour, action) =>
              action.BlockIt? ==> HourAllowed(UtcHour(a.evaluatedAt), startHour, endHour)
  {
    if Dispatch(cfg.platform, cfg.policy.rules[k], RuleContext(a.req, a.evaluatedAt, s.mem)).check.Some? {
      SettlingPassedRule(cfg, s, a, k);
    }
  }

  /** What the memory shows in a rolling rule's window leaves room for a payment that settles. */
  lemma SettlingFits(cfg: GuardConfig, s: GuardState, a: Attempt, k: nat)
    requires Settles(cfg, s, a) && k < |cfg.policy.rules| && Rolling(cfg.policy.rules[k])
    ensures var c := CeilingOf(cfg.policy.rules[k]);
            var weight := Weigh(c.m, a.req.amount, Lower(a.req.token));
            weight != 0 ==> Above(c.m, s.mem.payments, a.evaluatedAt - c.length, false) + weight <= c.most
  {
    SettledObeysRules(cfg, s, a, k);
  }

  /** The rule's whole window is in sight at the time of the evaluation. */
  predicate Sees(l: Life, rule: PolicyRule)
    requires Rolling(rule)
  {
    l.sight.None? || CeilingOf(rule).length <= DAY_MS
  }

  /**
   The new payment, seen from any window that contains it, although it was evaluated at one
   time and recorded at a later one.
   */
  lemma NewPaymentFits(cfg: GuardConfig, l: Life, a: Attempt, k: nat, lo: int)
    requires Remembers(cfg, l) && OnTime(a, l.clock) && Settles(cfg, l.state, a)
    requires k < |cfg.policy.rules| && Rolling(cfg.policy.rules[k]) && Sees(l, cfg.policy.rules[k])
    requires lo <= a.observedAt < lo + CeilingOf(cfg.policy.rules[k]).length
    ensures var c := CeilingOf(cfg.policy.rules[k]);
            var weight := Weigh(c.m, a.req.amount, Lower(a.req.token));
            weight != 0 ==> Kept(cfg, c.m, l, lo, lo + c.length) + weight <= c.most
  {
    var c := CeilingOf(cfg.policy.rules[k]);
    var cutoff := a.evaluatedAt - c.length;
    SettlingFits(cfg, l.state, a, k);
    assert InSight(l, cutoff);
    assert Kept(cfg, c.m, l, cutoff + 1, l.clock + 1) <= Above(c.m, l.state.mem.payments, cutoff, false);
    WindowWithin(cfg, c.m, l.earlier, Attributed, lo, lo + c.length, cutoff, l.clock);
    WindowWithin(cfg, c.m, l.current, Any, lo, lo + c.length, cutoff, l.clock);
  }

  lemma WindowWithin(cfg: GuardConfig, m: Measure, h: seq<Payment>, w: Which, lo: int, hi: int,
      cutoff: int, clock: int)
    requires Positive(h) && PastOnly(h, clock) && cutoff < lo
    ensures Paid(cfg, m, h, w, lo, hi) <= Lately(cfg, m, h, w, cutoff, clock)
  {
    PaidWithin(cfg, m, h, w, lo, hi, clock + 1);
    PaidWider(cfg, m, h, w, lo, clock + 1, cutoff + 1, clock + 1);
  }

  /** One more settled payment, recorded or not, keeps every window within the bound. */
  lemma CapSurvives(cfg: GuardConfig, l: Life, a: Attempt, p: Payment, k: nat, lo: int)
    requires Remembers(cfg, l) && OnTime(a, l.clock) && Settles(cfg, l.state, a) && p.req == a.req && p.at == a.observedAt
    requires k < |cfg.policy.rules| && Rolling(cfg.policy.rules[k]) && Sees(l, cfg.policy.rules[k])
    requires CapHoldsFrom(cfg, cfg.policy.rules[k], l, lo)
    ensures CapHoldsFrom(cfg, cfg.policy.rules[k], l.(current := l.current + [p]), lo)
  {
    var c := CeilingOf(cfg.policy.rules[k]);
    assert l.(current := l.current + [p]).History() == l.History() + [p];
    PaidAppend(cfg, c.m, l.History(), p, Any, lo, lo + c.length);
    if lo <= p.at < lo + c.length {
      NewPaymentFits(cfg, l, a, k, lo);
      KeptPlusForgotten(cfg, c.m, l, lo, lo + c.length);
    }
  }

  /** A restart only widens the allowance. */
  lemma CapSurvivesRebirth(cfg: GuardConfig, rule: PolicyRule, l: Life, log: seq<AuditEntry>, r: Rebuild, lo: int)
    requires Rolling(rule) && CapHoldsFrom(cfg, rule, l, lo) && Positive(l.current)
    ensures CapHoldsFrom(cfg, rule, Reborn(cfg, log, l.History(), r), lo)
  {
    var c := CeilingOf(rule);
    assert Reborn(cfg, log, l.History(), r).History() == l.History();
    PaidConcat(cfg, c.m, l.earlier, l.current, Unattributed, lo, lo + c.length);
    PaidWider(cfg, c.m, l.current, Unattributed, lo, lo + c.length, lo, lo + c.length);
  }

  lemma LiveKeepsCap(cfg: GuardConfig, l: Life, ev: LifeEvent, k: nat, lo: int)
    requires Remembers(cfg, l) && Timely(cfg, l, ev)
    requires k < |cfg.policy.rules| && Rolling(cfg.policy.rules[k]) && Sees(l, cfg.policy.rules[k])
    requires CapHoldsFrom(cfg, cfg.policy.rules[k], l, lo)
    ensures CapHoldsFrom(cfg, cfg.policy.rules[k], Live(cfg, l, ev), lo)
  {
    match ev
    case Pay(a) => PayKeepsCap(cfg, l, a, k, lo);
    case Restart(r) => CapSurvivesRebirth(cfg, cfg.policy.rules[k], l, l.state.log, r, lo);
    case DieUnlogged(a, r) => DeathKeepsCap(cfg, l, a, r, k, lo);
    case Look(at) => IdleKeepsCap(cfg, l, BreakerAfterLook(cfg, l.state.breaker, at), at, cfg.policy.rules[k], lo);
    case Reset(at) => IdleKeepsCap(cfg, l, FRESH, at, cfg.policy.rules[k], lo);
  }

  lemma IdleKeepsCap(cfg: GuardConfig, l: Life, b: Breaker, at: int, rule: PolicyRule, lo: int)
    requires Rolling(rule) && CapHoldsFrom(cfg, rule, l, lo)
    ensures CapHoldsFrom(cfg, rule, Idle(l, b, at), lo)
  {
  }

  lemma PayKeepsCap(cfg: GuardConfig, l: Life, a: Attempt, k: nat, lo: int)
    requires Remembers(cfg, l) && OnTime(a, l.clock)
    requires k < |cfg.policy.rules| && Rolling(cfg.policy.rules[k]) && Sees(l, cfg.policy.rules[k])
    requires CapHoldsFrom(cfg, cfg.policy.rules[k], l, lo)
    ensures CapHoldsFrom(cfg, cfg.policy.rules[k], Live(cfg, l, Pay(a)), lo)
  {
    if Settles(cfg, l.state, a) {
      CapSurvives(cfg, l, a, PaymentsOf(cfg, l, a)[0], k, lo);
    } else {
      assert l.current + [] == l.current;
    }
  }

  lemma DeathKeepsCap(cfg: GuardConfig, l: Life, a: Attempt, r: Rebuild, k: nat, lo: int)
    requires Remembers(cfg, l) && Timely(cfg, l, DieUnlogged(a, r))
    requires k < |cfg.policy.rules| && Rolling(cfg.policy.rules[k]) && Sees(l, cfg.policy.rules[k])
    requires CapHoldsFrom(cfg, cfg.policy.rules[k], l, lo)
    ensures CapHoldsFrom(cfg, cfg.policy.rules[k], Live(cfg, l, DieUnlogged(a, r)), lo)
  {
    var p := Payment(a.req, a.observedAt, None);
    var noticed := l.(current := l.current + [p]);
    assert noticed.History() == l.History() + [p];
    CapSurvives(cfg, l, a, p, k, lo);
    assert Positive(noticed.current) by { SettlingPassedRules(cfg, l.state, a); }
    CapSurvivesRebirth(cfg, cfg.policy.rules[k], noticed, l.state.log, r, lo);
    assert Live(cfg, l, DieUnlogged(a, r)) == Reborn(cfg, l.state.log, noticed.History(), r);
  }

  /**
   Rolling limits over whole lives. Over any attempts, approvals, failures, restarts and
   even deaths before the record is written: in every half-open window of an hour or day
   cap, and of a rate limit of at most a day, spend or count stays within the rule's bound
   plus what the last restart forgot, the payments settled before it that the log does not
   attribute to this agent.
   */
  lemma {:induction false} CapsHoldOverLives(cfg: GuardConfig, l: Life, evs: seq<LifeEvent>, k: nat)
    requires LifeOk(cfg, l) && AllTimely(cfg, l, evs)
    requires k < |cfg.policy.rules| && Rolling(cfg.policy.rules[k]) && CeilingOf(cfg.policy.rules[k]).length <= DAY_MS
    requires CapHolds(cfg, cfg.policy.rules[k], l)
    ensures LifeOk(cfg, RunLife(cfg, l, evs))
    ensures CapHolds(cfg, cfg.policy.rules[k], RunLife(cfg, l, evs))
  {
    if evs != [] {
      var front, ev := evs[..|evs| - 1], evs[|evs| - 1];
      CapsHoldOverLives(cfg, l, front, k);
      var mid := RunLife(cfg, l, front);
      LiveKeeps(cfg, mid, ev);
      forall lo ensures CapHoldsFrom(cfg, cfg.policy.rules[k], Live(cfg, mid, ev), lo) {
        assert CapHoldsFrom(cfg, cfg.policy.rules[k], mid, lo);
        LiveKeepsCap(cfg, mid, ev, k, lo);
      }
    }
  }

  // ─── One process ──────────────────────────────────────────────────────────

  ghost predicate NoRestart(evs: seq<LifeEvent>) {
    forall i :: 0 <= i < |evs| ==> !Restarts(evs[i])
  }

  /** A life of one process, started from a history its memory covers. */
  ghost predicate OneProcess(cfg: GuardConfig, l: Life) {
    Remembers(cfg, l) && l.earlier == [] && l.sight.None?
  }

  lemma {:induction false} PaysKeepCap(cfg: GuardConfig, l: Life, evs: seq<LifeEvent>, k: nat)
    requires OneProcess(cfg, l) && NoRestart(evs) && AllTimely(cfg, l, evs)
    requires k < |cfg.policy.rules| && Rolling(cfg.policy.rules[k]) && CapHolds(cfg, cfg.policy.rules[k], l)
    ensures OneProcess(cfg, RunLife(cfg, l, evs)) && CapHolds(cfg, cfg.policy.rules[k], RunLife(cfg, l, evs))
  {
    if evs != [] {
      var front, ev := evs[..|evs| - 1], evs[|evs| - 1];
      PaysKeepCap(cfg, l, front, k);
      var mid := RunLife(cfg, l, front);
      if ev.Pay? {
        PayKeepsMemory(cfg, mid, ev.attempt);
      } else {
        IdleKeepsMemory(cfg, mid, Live(cfg, mid, ev).state.breaker, ev.at);
      }
      forall lo ensures CapHoldsFrom(cfg, cfg.policy.rules[k], Live(cfg, mid, ev), lo) {
        assert CapHoldsFrom(cfg, cfg.policy.rules[k], mid, lo);
        LiveKeepsCap(cfg, mid, ev, k, lo);
      }
    }
  }

  /**
   Within one process there is no allowance and no condition on agent ids: from any history
   its memory covers, every half-open window of an hour or day cap, and of a rate limit of
   any length, stays within the rule's bound.
   */
  lemma {:induction false} OneProcessCap(cfg: GuardConfig, l: Life, evs: seq<LifeEvent>, k: nat, lo: int)
    requires OneProcess(cfg, l) && NoRestart(evs) && AllTimely(cfg, l, evs)
    requires k < |cfg.policy.rules| && Rolling(cfg.policy.rules[k]) && CapHolds(cfg, cfg.policy.rules[k], l)
    ensures WithinCap(cfg, cfg.policy.rules[k], RunLife(cfg, l, evs), lo)
  {
    PaysKeepCap(cfg, l, evs, k);
    WithinBound(cfg, cfg.policy.rules[k], RunLife(cfg, l, evs), lo);
  }

  predicate ForgotNone(cfg: GuardConfig, rule: PolicyRule, l: Life, lo: int)
    requires Rolling(rule)
  {
    Forgotten(cfg, CeilingOf(rule).m, l, lo, lo + CeilingOf(rule).length) == 0
  }

  /** Where nothing was forgotten the bound holds without allowance. */
  lemma WithinBound(cfg: GuardConfig, rule: PolicyRule, l: Life, lo: int)
    requires Rolling(rule) && CapHolds(cfg, rule, l)
    requires ForgotNone(cfg, rule, l, lo)
    ensures WithinCap(cfg, rule, l, lo)
  {
    assert CapHoldsFrom(cfg, rule, l, lo);
  }

  // ─── From a first start ───────────────────────────────────────────────────

  /** A first start over an empty log. */
  function Birth(now: int): Life { Life(Cold([]), [], [], now, None) }

  lemma BirthOk(cfg: GuardConfig, start: int, rule: PolicyRule)
    requires Rolling(rule)
    ensures LifeOk(cfg, Birth(start)) && CapHolds(cfg, rule, Birth(start))
  {
    forall lo ensures CapHoldsFrom(cfg, rule, Birth(start), lo) {}
  }

  predicate During(a: Attempt, lo: int, hi: int) { lo <= a.observedAt < hi }

  /** No attempt of the window dies unrecorded or carries another agent id. */
  predicate Harmless(cfg: GuardConfig, ev: LifeEvent, lo: int, hi: int) {
    match ev
    case Pay(a) => During(a, lo, hi) ==> a.req.agentId == cfg.policy.agentId
    case Restart(_) => true
    case DieUnlogged(a, _) => !During(a, lo, hi)
    case _ => true
  }

  /** No attempt of the window dies unrecorded, or carries another agent id and is followed by a restart. */
  ghost predicate NothingToForget(cfg: GuardConfig, evs: seq<LifeEvent>, lo: int, hi: int) {
    forall i, j :: 0 <= i <= j < |evs| && !Harmless(cfg, evs[i], lo, hi) ==> !Restarts(evs[j])
  }

  lemma {:induction false} HarmlessLeavesNothing(cfg: GuardConfig, m: Measure, start: int, evs: seq<LifeEvent>,
      lo: int, hi: int)
    requires forall i :: 0 <= i < |evs| ==> Harmless(cfg, evs[i], lo, hi)
    ensures Paid(cfg, m, RunLife(cfg, Birth(start), evs).History(), Unattributed, lo, hi) == 0
  {
    if evs != [] {
      var front, ev := evs[..|evs| - 1], evs[|evs| - 1];
      HarmlessLeavesNothing(cfg, m, start, front, lo, hi);
      HarmlessAddsNothing(cfg, m, RunLife(cfg, Birth(start), front), ev, lo, hi);
    }
  }

  lemma HarmlessAddsNothing(cfg: GuardConfig, m: Measure, l: Life, ev: LifeEvent, lo: int, hi: int)
    requires Harmless(cfg, ev, lo, hi)
    ensures Paid(cfg, m, Live(cfg, l, ev).History(), Unattributed, lo, hi) == Paid(cfg, m, l.History(), Unattributed, lo, hi)
  {
    HistoryGrows(cfg, l, ev);
    var added := Added(cfg, l, ev);
    if added == [] {
      assert l.History() + added == l.History();
    } else {
      PaidAppend(cfg, m, l.History(), added[0], Unattributed, lo, hi);
    }
  }

  /** The payment an event adds to the history, if any. */
  function Added(cfg: GuardConfig, l: Life, ev: LifeEvent): seq<Payment> {
    match ev
    case Pay(a) => PaymentsOf(cfg, l, a)
    case Restart(_) => []
    case DieUnlogged(a, _) => [Payment(a.req, a.observedAt, None)]
    case _ => []
  }

  lemma HistoryGrows(cfg: GuardConfig, l: Life, ev: LifeEvent)
    ensures Live(cfg, l, ev).History() == l.History() + Added(cfg, l, ev)
  {
  }

  lemma {:induction false} NothingForgotten(cfg: GuardConfig, m: Measure, start: int, evs: seq<LifeEvent>, lo: int,
      hi: int)
    requires NothingToForget(cfg, evs, lo, hi)
    ensures Forgotten(cfg, m, RunLife(cfg, Birth(start), evs), lo, hi) == 0
  {
    if evs != [] {
      var n := |evs| - 1;
      if !Restarts(evs[n]) {
        NothingForgotten(cfg, m, start, evs[..n], lo, hi);
      } else {
        HarmlessLeavesNothing(cfg, m, start, evs, lo, hi);
        var l' := RunLife(cfg, Birth(start), evs);
        assert l'.History() == l'.earlier;
      }
    }
  }

  /**
   From a first start, no half-open window ever holds more settled spend, or more payments,
   than the rule allows, restarts included, unless an attempt in that very window died
   unrecorded, or carried another agent id and a restart came after it.
   */
  lemma {:induction false} CapNeverExceeded(cfg: GuardConfig, start: int, evs: seq<LifeEvent>, rule: PolicyRule,
      lo: int)
    requires AllTimely(cfg, Birth(start), evs)
    requires rule in cfg.policy.rules && Rolling(rule) && CeilingOf(rule).length <= DAY_MS
    requires NothingToForget(cfg, evs, lo, lo + CeilingOf(rule).length)
    ensures WithinCap(cfg, rule, RunLife(cfg, Birth(start), evs), lo)
  {
    EventsForgetNone(cfg, start, evs, rule, lo);
    CapsHoldFromBirth(cfg, start, evs, rule);
    WithinBound(cfg, rule, RunLife(cfg, Birth(start), evs), lo);
  }

  lemma {:induction false} EventsForgetNone(cfg: GuardConfig, start: int, evs: seq<LifeEvent>, rule: PolicyRule,
      lo: int)
    requires Rolling(rule) && NothingToForget(cfg, evs, lo, lo + CeilingOf(rule).length)
    ensures ForgotNone(cfg, rule, RunLife(cfg, Birth(start), evs), lo)
  {
    NothingForgotten(cfg, CeilingOf(rule).m, start, evs, lo, lo + CeilingOf(rule).length);
  }

  lemma {:induction false} CapsHoldFromBirth(cfg: GuardConfig, start: int, evs: seq<LifeEvent>, rule: PolicyRule)
    requires AllTimely(cfg, Birth(start), evs)
    requires rule in cfg.policy.rules && Rolling(rule) && CeilingOf(rule).length <= DAY_MS
    ensures CapHolds(cfg, rule, RunLife(cfg, Birth(start), evs))
  {
    var k :| 0 <= k < |cfg.policy.rules| && cfg.policy.rules[k] == rule;
    BirthOk(cfg, start, rule);
    CapsHoldOverLives(cfg, Birth(start), evs, k);
  }

  // ─── The session cap ──────────────────────────────────────────────────────

  /** The live records of the memory are exactly the payments of the running process. */
  ghost predicate SessionExact(cfg: GuardConfig, l: Life) {
    && PastOnly(l.current, l.clock)
    && forall m, c :: Above(m, l.state.mem.payments, c, true) == Lately(cfg, m, l.current, Any, c, l.clock)
  }

  lemma LiveKeepsSession(cfg: GuardConfig, l: Life, ev: LifeEvent)
    requires SessionExact(cfg, l) && Timely(cfg, l, ev)
    ensures SessionExact(cfg, Live(cfg, l, ev))
  {
    var l' := Live(cfg, l, ev);
    forall m, c ensures Above(m, l'.state.mem.payments, c, true) == Lately(cfg, m, l'.current, Any, c, l'.clock) {
      match ev
      case Pay(a) =>
        PayEffect(cfg, l, a);
        assert Above(m, l.state.mem.payments, c, true) == Lately(cfg, m, l.current, Any, c, l.clock);
        if Settles(cfg, l.state, a) {
          LatelyAppend(cfg, m, l.current, PaymentsOf(cfg, l, a)[0], Any, c, l.clock, a.loggedAt);
          AboveAppend(m, l.state.mem.payments, RecordOf(a), c, true);
        } else {
          LatelyLater(cfg, m, l.current, Any, c, l.clock, a.loggedAt);
          assert l.current + [] == l.current;
        }
      case Restart(r) => HydrateSession(cfg, l.state.log, r, m, c);
      case DieUnlogged(_, r) => HydrateSession(cfg, l.state.log, r, m, c);
      case _ =>
        assert Above(m, l.state.mem.payments, c, true) == Lately(cfg, m, l.current, Any, c, l.clock);
        LatelyLater(cfg, m, l.current, Any, c, l.clock, l'.clock);
    }
  }

  /**
   Within one process the session cap bounds all it settled since time zero, whatever the
   window; a restart starts over.
   */
  lemma {:induction false} SessionCapHolds(cfg: GuardConfig, l: Life, evs: seq<LifeEvent>, k: nat)
    requires SessionExact(cfg, l) && AllTimely(cfg, l, evs)
    requires k < |cfg.policy.rules| && cfg.policy.rules[k].SpendCap? && cfg.policy.rules[k].window.Session?
    requires var rule := cfg.policy.rules[k];
             Lately(cfg, SpendIn(Lower(rule.token)), l.current, Any, 0, l.clock) <= NotBelowZero(rule.maxAmount)
    ensures var rule, l' := cfg.policy.rules[k], RunLife(cfg, l, evs);
            && SessionExact(cfg, l')
            && Lately(cfg, SpendIn(Lower(rule.token)), l'.current, Any, 0, l'.clock) <= NotBelowZero(rule.maxAmount)
  {
    if evs != [] {
      var front, ev := evs[..|evs| - 1], evs[|evs| - 1];
      SessionCapHolds(cfg, l, front, k);
      var mid := RunLife(cfg, l, front);
      LiveKeepsSession(cfg, mid, ev);
      match ev
      case Pay(a) => PayKeepsSessionCap(cfg, mid, a, k);
      case Look(at) => LatelyLater(cfg, SpendIn(Lower(cfg.policy.rules[k].token)), mid.current, Any, 0, mid.clock, at);
      case Reset(at) => LatelyLater(cfg, SpendIn(Lower(cfg.policy.rules[k].token)), mid.current, Any, 0, mid.clock, at);
      case _ =>
    }
  }

  lemma SessionLeavesRoom(cfg: GuardConfig, s: GuardState, a: Attempt, k: nat)
    requires Settles(cfg, s, a)
    requires k < |cfg.policy.rules| && cfg.policy.rules[k].SpendCap? && cfg.policy.rules[k].window.Session?
    ensures var rule := cfg.policy.rules[k];
            Lower(rule.token) == Lower(a.req.token) ==>
              Above(SpendIn(Lower(rule.token)), s.mem.payments, 0, true) + a.req.amount <= rule.maxAmount
  {
    SettledObeysRules(cfg, s, a, k);
  }

  lemma PayKeepsSessionCap(cfg: GuardConfig, l: Life, a: Attempt, k: nat)
    requires SessionExact(cfg, l) && OnTime(a, l.clock)
    requires k < |cfg.policy.rules| && cfg.policy.rules[k].SpendCap? && cfg.policy.rules[k].window.Session?
    requires var rule := cfg.policy.rules[k];
             Lately(cfg, SpendIn(Lower(rule.token)), l.current, Any, 0, l.clock) <= NotBelowZero(rule.maxAmount)
    ensures var rule, l' := cfg.policy.rules[k], Live(cfg, l, Pay(a));
            Lately(cfg, SpendIn(Lower(rule.token)), l'.current, Any, 0, l'.clock) <= NotBelowZero(rule.maxAmount)
  {
    if Settles(cfg, l.state, a) { SessionLeavesRoom(cfg, l.state, a, k); }
    RoomIsEnough(cfg, l, a, SpendIn(Lower(cfg.policy.rules[k].token)), NotBelowZero(cfg.policy.rules[k].maxAmount));
  }

  lemma RoomIsEnough(cfg: GuardConfig, l: Life, a: Attempt, m: Measure, most: int)
    requires SessionExact(cfg, l) && OnTime(a, l.clock) && Lately(cfg, m, l.current, Any, 0, l.clock) <= most
    requires var weight := Weigh(m, a.req.amount, Lower(a.req.token));
             Settles(cfg, l.state, a) && weight != 0 ==> Above(m, l.state.mem.payments, 0, true) + weight <= most
    ensures var l' := Live(cfg, l, Pay(a)); Lately(cfg, m, l'.current, Any, 0, l'.clock) <= most
  {
    assert Above(m, l.state.mem.payments, 0, true) == Lately(cfg, m, l.current, Any, 0, l.clock);
    if Settles(cfg, l.state, a) {
      LatelyAppend(cfg, m, l.current, PaymentsOf(cfg, l, a)[0], Any, 0, l.clock, a.loggedAt);
    } else {
      LatelyLater(cfg, m, l.current, Any, 0, l.clock, a.loggedAt);
      assert l.current + [] == l.current;
    }
  }
}
