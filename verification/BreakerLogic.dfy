/**
 The per-agent kill switch. The specification keeps every event since the last reset; the
 breaker itself keeps a pruned list, and the lemmas say the pruning never shows.
 */
module BreakerLogic {
  import opened Types
  import opened Sorting
  import opened EntryList

  /** An absent threshold never trips. */
  datatype BreakerConfig = BreakerConfig(
    windowSeconds: nat,
    maxBlocks: Option<nat>,
    maxEscalations: Option<nat>,
    maxAnomalies: Option<nat>,
    cooldownSeconds: Option<nat>)

  datatype Event = Event(ts: int, verdict: Verdict, anomaly: bool)

  datatype Breaker = Breaker(events: seq<Event>, openedAt: Option<int>)

  const FRESH := Breaker([], None)

  datatype Kind = BlockEvents | EscalationEvents | AnomalyEvents

  predicate IsKind(e: Event, k: Kind) {
    match k
    case BlockEvents => e.verdict.Block?
    case EscalationEvents => e.verdict.Escalate?
    case AnomalyEvents => e.anomaly
  }

  function WindowMs(cfg: BreakerConfig): int { cfg.windowSeconds * 1000 }

  function Threshold(cfg: BreakerConfig, k: Kind): Option<nat> {
    match k
    case BlockEvents => cfg.maxBlocks
    case EscalationEvents => cfg.maxEscalations
    case AnomalyEvents => cfg.maxAnomalies
  }

  function Count(es: seq<Event>, k: Kind): nat {
    if es == [] then 0
    else Count(es[..|es| - 1], k) + if IsKind(es[|es| - 1], k) then 1 else 0
  }

  /** The events strictly after a cutoff. */
  function After(es: seq<Event>, cutoff: int): seq<Event> {
    if es == [] then []
    else After(es[..|es| - 1], cutoff) + if es[|es| - 1].ts > cutoff then [es[|es| - 1]] else []
  }

  predicate Reaches(cfg: BreakerConfig, es: seq<Event>, k: Kind) {
    Threshold(cfg, k).Some? && Count(es, k) >= Threshold(cfg, k).value
  }

  predicate ShouldTrip(cfg: BreakerConfig, es: seq<Event>) {
    Reaches(cfg, es, BlockEvents) || Reaches(cfg, es, EscalationEvents) || Reaches(cfg, es, AnomalyEvents)
  }

  function Recorded(cfg: BreakerConfig, b: Breaker, e: Event): Breaker {
    var kept := After(b.events + [e], e.ts - WindowMs(cfg));
    Breaker(kept, if b.openedAt.None? && ShouldTrip(cfg, kept) then Some(e.ts) else b.openedAt)
  }

  predicate CooledDown(cfg: BreakerConfig, b: Breaker, now: int) {
    && b.openedAt.Some? && cfg.cooldownSeconds.Some? && cfg.cooldownSeconds.value > 0
    && now - b.openedAt.value >= cfg.cooldownSeconds.value * 1000
  }

  /** Looking at the breaker closes it once the cooldown has passed. */
  function Looked(cfg: BreakerConfig, b: Breaker, now: int): Breaker {
    if CooledDown(cfg, b, now) then FRESH else b
  }

  predicate IsAnomalous(d: PolicyDecision) {
    exists k :: 0 <= k < |d.checks| && !d.checks[k].passed && "behavioral-" <= d.checks[k].id
  }

  function EventOf(e: AuditEntry): Event {
    Event(e.timestamp, e.decision.verdict, IsAnomalous(e.decision))
  }

  function EventsOf(es: seq<AuditEntry>): (r: seq<Event>)
    ensures |r| == |es|
  {
    seq(|es|, k requires 0 <= k < |es| => EventOf(es[k]))
  }

  function RecordAll(cfg: BreakerConfig, b: Breaker, es: seq<Event>): Breaker {
    if es == [] then b
    else Recorded(cfg, RecordAll(cfg, b, es[..|es| - 1]), es[|es| - 1])
  }

  /** Replay, in time order, the recorded decisions still inside the window. */
  function Rebuilt(cfg: BreakerConfig, b: Breaker, es: seq<AuditEntry>, now: int): Breaker {
    RecordAll(cfg, b, EventsOf(Sort(Filtered(es, LaterThan(now - WindowMs(cfg))), EntryTime())))
  }

  // ─── Windows ──────────────────────────────────────────────────────────────

  lemma {:induction false} AfterConcat(a: seq<Event>, b: seq<Event>, cutoff: int)
    ensures After(a + b, cutoff) == After(a, cutoff) + After(b, cutoff)
  {
    if b == [] {
      assert a + b == a;
    } else {
      assert (a + b)[..|a + b| - 1] == a + b[..|b| - 1];
      AfterConcat(a, b[..|b| - 1], cutoff);
    }
  }

  /** Pruning at an earlier time never hides anything from a later window. */
  lemma {:induction false} AfterTwice(es: seq<Event>, early: int, late: int)
    requires early <= late
    ensures After(After(es, early), late) == After(es, late)
  {
    if es != [] {
      var front, last := es[..|es| - 1], es[|es| - 1];
      AfterTwice(front, early, late);
      assert [last][..0] == [];
      if last.ts > early {
        AfterConcat(After(front, early), [last], late);
      } else {
        assert After(es, early) == After(front, early);
      }
    }
  }

  lemma CountAppend(a: seq<Event>, e: Event, k: Kind)
    ensures Count(a + [e], k) == Count(a, k) + if IsKind(e, k) then 1 else 0
  {
    assert (a + [e])[..|a|] == a;
  }

  // ─── Runs ─────────────────────────────────────────────────────────────────

  datatype Op = Record(ts: int, verdict: Verdict, anomaly: bool) | Look(ts: int) | Counts(ts: int) | Reset(ts: int)

  function StepOp(cfg: BreakerConfig, b: Breaker, op: Op): Breaker {
    match op
    case Record(ts, v, a) => Recorded(cfg, b, Event(ts, v, a))
    case Look(ts) => Looked(cfg, b, ts)
    case Counts(ts) => Breaker(After(b.events, ts - WindowMs(cfg)), b.openedAt)
    case Reset(_) => FRESH
  }

  /**
   The reference breaker: it never forgets an event between resets, and opens at the first
   event whose window, cut from that full history, reaches a threshold.
   */
  datatype Reference = Reference(history: seq<Event>, openedAt: Option<int>)

  function WindowAt(cfg: BreakerConfig, history: seq<Event>, now: int): seq<Event> {
    After(history, now - WindowMs(cfg))
  }

  function StepReference(cfg: BreakerConfig, r: Reference, op: Op): Reference {
    match op
    case Record(ts, v, a) =>
      var history := r.history + [Event(ts, v, a)];
      Reference(history,
                if r.openedAt.None? && ShouldTrip(cfg, WindowAt(cfg, history, ts)) then Some(ts) else r.openedAt)
    case Look(ts) => if CooledDown(cfg, Breaker([], r.openedAt), ts) then Reference([], None) else r
    case Counts(_) => r
    case Reset(_) => Reference([], None)
  }

  function RunOps(cfg: BreakerConfig, b: Breaker, ops: seq<Op>): Breaker {
    if ops == [] then b else StepOp(cfg, RunOps(cfg, b, ops[..|ops| - 1]), ops[|ops| - 1])
  }

  function RunReference(cfg: BreakerConfig, r: Reference, ops: seq<Op>): Reference {
    if ops == [] then r else StepReference(cfg, RunReference(cfg, r, ops[..|ops| - 1]), ops[|ops| - 1])
  }

  ghost predicate Ordered(ops: seq<Op>) {
    forall i, j :: 0 <= i < j < |ops| ==> ops[i].ts <= ops[j].ts
  }

  /** The pruned list serves every window from `now` on exactly as the full history would. */
  ghost predicate Refines(cfg: BreakerConfig, b: Breaker, r: Reference, now: int) {
    && b.openedAt == r.openedAt
    && forall t :: t >= now ==> WindowAt(cfg, b.events, t) == WindowAt(cfg, r.history, t)
  }

  /** Pruning at `now` keeps every window from `now` on. */
  lemma PruneKeepsWindows(cfg: BreakerConfig, es: seq<Event>, now: int, t: int)
    requires now <= t
    ensures WindowAt(cfg, WindowAt(cfg, es, now), t) == WindowAt(cfg, es, t)
  {
    AfterTwice(es, now - WindowMs(cfg), t - WindowMs(cfg));
  }

  /** Equal windows stay equal when both lists gain the same event. */
  lemma WindowAppend(cfg: BreakerConfig, a: seq<Event>, b: seq<Event>, e: Event, t: int)
    requires WindowAt(cfg, a, t) == WindowAt(cfg, b, t)
    ensures WindowAt(cfg, a + [e], t) == WindowAt(cfg, b + [e], t)
  {
    AfterConcat(a, [e], t - WindowMs(cfg));
    AfterConcat(b, [e], t - WindowMs(cfg));
  }

  lemma RecordRefines(cfg: BreakerConfig, b: Breaker, r: Reference, before: int, e: Event)
    requires Refines(cfg, b, r, before) && before <= e.ts
    ensures var b', r' := Recorded(cfg, b, e), StepReference(cfg, r, Record(e.ts, e.verdict, e.anomaly));
            Refines(cfg, b', r', e.ts) && b'.events == WindowAt(cfg, r'.history, e.ts)
  {
    var b', r' := Recorded(cfg, b, e), StepReference(cfg, r, Record(e.ts, e.verdict, e.anomaly));
    WindowAppend(cfg, b.events, r.history, e, e.ts);
    forall t | t >= e.ts ensures WindowAt(cfg, b'.events, t) == WindowAt(cfg, r'.history, t) {
      PruneKeepsWindows(cfg, b.events + [e], e.ts, t);
      assert WindowAt(cfg, b.events, t) == WindowAt(cfg, r.history, t);
      WindowAppend(cfg, b.events, r.history, e, t);
    }
  }

  lemma CountsRefines(cfg: BreakerConfig, b: Breaker, r: Reference, before: int, now: int)
    requires Refines(cfg, b, r, before) && before <= now
    ensures Refines(cfg, Breaker(WindowAt(cfg, b.events, now), b.openedAt), r, now)
  {
    forall t | t >= now ensures WindowAt(cfg, WindowAt(cfg, b.events, now), t) == WindowAt(cfg, r.history, t) {
      PruneKeepsWindows(cfg, b.events, now, t);
      assert WindowAt(cfg, b.events, t) == WindowAt(cfg, r.history, t);
    }
  }

  lemma StepRefines(cfg: BreakerConfig, b: Breaker, r: Reference, before: int, op: Op)
    requires Refines(cfg, b, r, before) && before <= op.ts
    ensures Refines(cfg, StepOp(cfg, b, op), StepReference(cfg, r, op), op.ts)
    ensures op.Record? ==> StepOp(cfg, b, op).events == WindowAt(cfg, StepReference(cfg, r, op).history, op.ts)
  {
    match op
    case Record(ts, v, a) => RecordRefines(cfg, b, r, before, Event(ts, v, a));
    case Counts(ts) => CountsRefines(cfg, b, r, before, ts);
    case Look(ts) => assert CooledDown(cfg, b, ts) <==> CooledDown(cfg, Breaker([], r.openedAt), ts);
    case Reset(_) =>
  }

  /** Over any operations in clock order, the pruning breaker behaves as the one that never forgets. */
  lemma {:induction false} BreakerRefinesFullHistory(cfg: BreakerConfig, ops: seq<Op>)
    requires Ordered(ops)
    ensures var b, r := RunOps(cfg, FRESH, ops), RunReference(cfg, Reference([], None), ops);
            && (ops == [] || Refines(cfg, b, r, ops[|ops| - 1].ts)) && b.openedAt == r.openedAt
            && (ops != [] && ops[|ops| - 1].Record? ==> b.events == WindowAt(cfg, r.history, ops[|ops| - 1].ts))
  {
    if ops != [] {
      var front := ops[..|ops| - 1];
      BreakerRefinesFullHistory(cfg, front);
      var before := if front == [] then ops[0].ts else front[|front| - 1].ts;
      StepRefines(cfg, RunOps(cfg, FRESH, front), RunReference(cfg, Reference([], None), front), before, ops[|ops| - 1]);
    }
  }

  ghost predicate ThresholdsPositive(cfg: BreakerConfig) {
    forall k: Kind :: Threshold(cfg, k).Some? ==> Threshold(cfg, k).value >= 1
  }

  /** While closed, every count over the window of the full history is below its threshold. */
  ghost predicate ClosedIsQuiet(cfg: BreakerConfig, b: Breaker) {
    b.openedAt.None? ==> !ShouldTrip(cfg, b.events)
  }

  lemma {:induction false} PruneLowersCounts(es: seq<Event>, cutoff: int, k: Kind)
    ensures Count(After(es, cutoff), k) <= Count(es, k)
  {
    if es != [] {
      PruneLowersCounts(es[..|es| - 1], cutoff, k);
      if es[|es| - 1].ts > cutoff {
        CountAppend(After(es[..|es| - 1], cutoff), es[|es| - 1], k);
      } else {
        assert After(es, cutoff) == After(es[..|es| - 1], cutoff);
      }
    }
  }

  lemma FreshIsQuiet(cfg: BreakerConfig)
    requires ThresholdsPositive(cfg)
    ensures ClosedIsQuiet(cfg, FRESH)
  {
    forall k: Kind ensures !Reaches(cfg, [], k) {}
  }

  lemma StepStaysQuiet(cfg: BreakerConfig, b: Breaker, op: Op)
    requires ThresholdsPositive(cfg) && ClosedIsQuiet(cfg, b)
    ensures ClosedIsQuiet(cfg, StepOp(cfg, b, op))
  {
    FreshIsQuiet(cfg);
    if op.Counts? {
      forall k: Kind ensures Count(After(b.events, op.ts - WindowMs(cfg)), k) <= Count(b.events, k) {
        PruneLowersCounts(b.events, op.ts - WindowMs(cfg), k);
      }
    }
  }

  /** With thresholds of at least one, a closed breaker has every count below its threshold. */
  lemma {:induction false} ClosedMeansBelowThresholds(cfg: BreakerConfig, ops: seq<Op>)
    requires ThresholdsPositive(cfg)
    ensures ClosedIsQuiet(cfg, RunOps(cfg, FRESH, ops))
  {
    if ops == [] {
      FreshIsQuiet(cfg);
    } else {
      ClosedMeansBelowThresholds(cfg, ops[..|ops| - 1]);
      StepStaysQuiet(cfg, RunOps(cfg, FRESH, ops[..|ops| - 1]), ops[|ops| - 1]);
    }
  }

  /** Nothing in the operations closes a breaker: no reset, and no look past its cooldown. */
  ghost predicate NeverClosed(cfg: BreakerConfig, b: Breaker, ops: seq<Op>) {
    forall k :: 0 <= k < |ops| ==> !ops[k].Reset? && !(ops[k].Look? && CooledDown(cfg, b, ops[k].ts))
  }

  /** Once open it stays open, since the same instant, until a reset or a look past the cooldown. */
  lemma {:induction false} OpenStaysOpen(cfg: BreakerConfig, b: Breaker, ops: seq<Op>)
    requires b.openedAt.Some? && NeverClosed(cfg, b, ops)
    ensures RunOps(cfg, b, ops).openedAt == b.openedAt
  {
    if ops != [] {
      OpenStaysOpen(cfg, b, ops[..|ops| - 1]);
    }
  }

  // ─── Rebuilding after a restart ───────────────────────────────────────────

  ghost predicate AllAfter(es: seq<Event>, cutoff: int) {
    forall k :: 0 <= k < |es| ==> es[k].ts > cutoff
  }

  lemma {:induction false} AfterAll(es: seq<Event>, cutoff: int)
    requires AllAfter(es, cutoff)
    ensures After(es, cutoff) == es
  {
    if es != [] {
      AfterAll(es[..|es| - 1], cutoff);
      assert es == es[..|es| - 1] + [es[|es| - 1]];
    }
  }

  lemma {:induction false} CountPrefix(es: seq<Event>, n: nat, k: Kind)
    requires n <= |es|
    ensures Count(es[..n], k) <= Count(es, k)
  {
    if n < |es| {
      CountPrefix(es[..|es| - 1], n, k);
      assert es[..|es| - 1][..n] == es[..n];
    } else {
      assert es[..n] == es;
    }
  }

  /** Replaying events that all lie inside the window at `now` prunes nothing. */
  lemma {:induction false} ReplayKeepsAll(cfg: BreakerConfig, es: seq<Event>, now: int)
    requires AllAfter(es, now - WindowMs(cfg)) && forall k :: 0 <= k < |es| ==> es[k].ts <= now
    ensures RecordAll(cfg, FRESH, es).events == es
    ensures RecordAll(cfg, FRESH, es).openedAt.Some? <==> es != [] && ShouldTrip(cfg, es)
  {
    if es != [] {
      var front, last := es[..|es| - 1], es[|es| - 1];
      ReplayKeepsAll(cfg, front, now);
      assert front + [last] == es;
      AfterAll(es, last.ts - WindowMs(cfg));
      forall k: Kind ensures Count(front, k) <= Count(es, k) { CountPrefix(es, |front|, k); }
    }
  }

  lemma {:induction false} CountOfInsert(es: seq<AuditEntry>, e: AuditEntry, k: Kind)
    ensures Count(EventsOf(Insert(es, e, EntryTime())), k) ==
            Count(EventsOf(es), k) + if IsKind(EventOf(e), k) then 1 else 0
  {
    if es == [] || EntryTime()(es[|es| - 1]) <= EntryTime()(e) {
      assert EventsOf(es + [e]) == EventsOf(es) + [EventOf(e)];
      CountAppend(EventsOf(es), EventOf(e), k);
    } else {
      var front, last := es[..|es| - 1], es[|es| - 1];
      CountOfInsert(front, e, k);
      var inserted := Insert(front, e, EntryTime());
      assert EventsOf(inserted + [last]) == EventsOf(inserted) + [EventOf(last)];
      CountAppend(EventsOf(inserted), EventOf(last), k);
      assert EventsOf(es) == EventsOf(front) + [EventOf(last)];
      CountAppend(EventsOf(front), EventOf(last), k);
    }
  }

  lemma {:induction false} CountOfSort(es: seq<AuditEntry>, k: Kind)
    ensures Count(EventsOf(Sort(es, EntryTime())), k) == Count(EventsOf(es), k)
  {
    if es != [] {
      var front, last := es[..|es| - 1], es[|es| - 1];
      CountOfSort(front, k);
      CountOfInsert(Sort(front, EntryTime()), last, k);
      assert EventsOf(es) == EventsOf(front) + [EventOf(last)];
      CountAppend(EventsOf(front), EventOf(last), k);
    }
  }

  lemma SortedWindow(es: seq<AuditEntry>, lo: int, now: int)
    requires forall e :: e in es ==> e.timestamp <= now
    ensures forall e :: e in Sort(Filtered(es, LaterThan(lo)), EntryTime()) ==> lo < e.timestamp <= now
  {
    var inWindow := Filtered(es, LaterThan(lo));
    SortSorts(inWindow, EntryTime());
    forall e | e in Sort(inWindow, EntryTime()) ensures lo < e.timestamp <= now {
      FilteredIff(es, LaterThan(lo), e);
      assert e in multiset(Sort(inWindow, EntryTime()));
      assert e in multiset(inWindow);
    }
  }

  /** The entries whose decisions lie inside the window at `now`. */
  function InWindow(cfg: BreakerConfig, es: seq<AuditEntry>, now: int): seq<AuditEntry> {
    Filtered(es, LaterThan(now - WindowMs(cfg)))
  }

  /** A list of decisions trips a breaker: there are any, and they reach a threshold. */
  predicate Trips(cfg: BreakerConfig, es: seq<AuditEntry>) {
    es != [] && ShouldTrip(cfg, EventsOf(es))
  }

  /**
   The rebuild in closed form: from entries not in the future, a fresh breaker comes back
   open exactly when the decisions inside the window at `now` reach a threshold (and there
   are any), and its counts are exactly those.
   */
  lemma RebuildClosedForm(cfg: BreakerConfig, es: seq<AuditEntry>, now: int)
    requires forall e :: e in es ==> e.timestamp <= now
    ensures Rebuilt(cfg, FRESH, es, now).openedAt.Some? <==> Trips(cfg, InWindow(cfg, es, now))
    ensures forall k: Kind :: Count(Rebuilt(cfg, FRESH, es, now).events, k) == Count(EventsOf(InWindow(cfg, es, now)), k)
  {
    var sorted := Sort(InWindow(cfg, es, now), EntryTime());
    SortedWindow(es, now - WindowMs(cfg), now);
    ReplayEntries(cfg, sorted, now);
    SortKeepsCounts(cfg, InWindow(cfg, es, now));
  }

  lemma ReplayEntries(cfg: BreakerConfig, sorted: seq<AuditEntry>, now: int)
    requires forall e :: e in sorted ==> now - WindowMs(cfg) < e.timestamp <= now
    ensures RecordAll(cfg, FRESH, EventsOf(sorted)).events == EventsOf(sorted)
    ensures RecordAll(cfg, FRESH, EventsOf(sorted)).openedAt.Some? <==> Trips(cfg, sorted)
  {
    var evs := EventsOf(sorted);
    forall j | 0 <= j < |evs| ensures now - WindowMs(cfg) < evs[j].ts <= now {
      assert sorted[j] in sorted;
    }
    ReplayKeepsAll(cfg, evs, now);
  }

  lemma SortKeepsCounts(cfg: BreakerConfig, es: seq<AuditEntry>)
    ensures Trips(cfg, Sort(es, EntryTime())) <==> Trips(cfg, es)
    ensures forall k: Kind :: Count(EventsOf(Sort(es, EntryTime())), k) == Count(EventsOf(es), k)
  {
    forall k: Kind ensures Count(EventsOf(Sort(es, EntryTime())), k) == Count(EventsOf(es), k) { CountOfSort(es, k); }
  }

  /**
   For a breaker that heard exactly the entries it is later rebuilt from: whatever tripped
   it, without cooldown it stays open to every later look, while the rebuilt one is closed
   exactly when the decisions still inside the window reach no threshold.
   */
  lemma RestartThawsIff(cfg: BreakerConfig, es: seq<AuditEntry>, now: int)
    requires cfg.cooldownSeconds.None? && forall e :: e in es ==> e.timestamp <= now
    requires RecordAll(cfg, FRESH, EventsOf(es)).openedAt.Some?
    ensures Looked(cfg, RecordAll(cfg, FRESH, EventsOf(es)), now).openedAt.Some?
    ensures Rebuilt(cfg, FRESH, es, now).openedAt.None? <==> !Trips(cfg, InWindow(cfg, es, now))
  {
    RebuildClosedForm(cfg, es, now);
  }

  /** In particular once every entry has left the window, whatever the thresholds. */
  lemma RestartCanThaw(cfg: BreakerConfig, es: seq<AuditEntry>, now: int)
    requires cfg.cooldownSeconds.None? && RecordAll(cfg, FRESH, EventsOf(es)).openedAt.Some?
    requires forall e :: e in es ==> e.timestamp <= now - WindowMs(cfg)
    ensures Looked(cfg, RecordAll(cfg, FRESH, EventsOf(es)), now).openedAt.Some?
    ensures Rebuilt(cfg, FRESH, es, now).openedAt.None?
  {
    RestartThawsIff(cfg, es, now);
    NoneFiltered(es, LaterThan(now - WindowMs(cfg)));
  }

  // ─── The breaker itself ───────────────────────────────────────────────────

  class CircuitBreaker {
    const cfg: BreakerConfig
    var events: seq<Event>
    var openedAt: Option<int>

    function State(): Breaker
      reads this
    {
      Breaker(events, openedAt)
    }

    constructor (cfg: BreakerConfig)
      ensures this.cfg == cfg && State() == FRESH
    {
      this.cfg, events, openedAt := cfg, [], None;
    }

    method Prune(now: int)
      modifies this`events
      ensures events == After(old(events), now - WindowMs(cfg))
    {
      var cutoff := now - WindowMs(cfg);
      var kept := [];
      for k := 0 to |events|
        invariant kept == After(events[..k], cutoff)
      {
        assert events[..k + 1][..k] == events[..k];
        if events[k].ts > cutoff { kept := kept + [events[k]]; }
      }
      assert events[..|events|] == events;
      events := kept;
    }

    method Record(verdict: Verdict, anomaly: bool, now: int)
      modifies this
      ensures State() == Recorded(cfg, old(State()), Event(now, verdict, anomaly))
    {
      events := events + [Event(now, verdict, anomaly)];
      Prune(now);
      if openedAt.None? && ShouldTrip(cfg, events) { openedAt := Some(now); }
    }

    method Reset()
      modifies this
      ensures State() == FRESH
    {
      openedAt := None;
      events := [];
    }

    method IsOpen(now: int) returns (open: bool)
      modifies this
      ensures State() == Looked(cfg, old(State()), now)
      ensures open <==> State().openedAt.Some?
    {
      if openedAt.None? { return false; }
      if cfg.cooldownSeconds.Some? && cfg.cooldownSeconds.value > 0
         && now - openedAt.value >= cfg.cooldownSeconds.value * 1000 {
        Reset();
        return false;
      }
      open := true;
    }

    /** Current counts; reading them prunes too. */
    method CurrentCounts(now: int) returns (blocks: nat, escalations: nat, anomalies: nat)
      modifies this`events
      ensures events == After(old(events), now - WindowMs(cfg))
      ensures blocks == Count(events, BlockEvents) && escalations == Count(events, EscalationEvents)
      ensures anomalies == Count(events, AnomalyEvents)
    {
      Prune(now);
      blocks, escalations := Count(events, BlockEvents), Count(events, EscalationEvents);
      anomalies := Count(events, AnomalyEvents);
    }

    method Hydrate(entries: seq<AuditEntry>, now: int)
      modifies this
      ensures State() == Rebuilt(cfg, old(State()), entries, now)
    {
      var inWindow := Sort(Filtered(entries, LaterThan(now - WindowMs(cfg))), EntryTime());
      ghost var evs := EventsOf(inWindow);
      ghost var before := State();
      for k := 0 to |inWindow|
        invariant State() == RecordAll(cfg, before, evs[..k])
      {
        assert evs[..k + 1][..k] == evs[..k];
        var e := inWindow[k];
        Record(e.decision.verdict, IsAnomalous(e.decision), e.timestamp);
      }
      assert evs[..|evs|] == evs;
    }
  }
}
