/**
 Rebuilding from a log whose settlement cells were edited by someone with database access
 and no keys, some perhaps into text that cannot be read back.
 */
module TamperRebuild {
  import opened Text
  import opened Types
  import opened EntryList
  import opened PolicyRules
  import opened PayeeRegistry
  import opened GuardLogic
  import opened RebuildTotals

  ghost predicate AllIntact(log: seq<AuditEntry>) {
    forall k :: 0 <= k < |log| ==> Intact(log[k])
  }

  /** `edited` is `log` with any settlement cells rewritten and nothing else touched. */
  ghost predicate SettlementEdit(log: seq<AuditEntry>, edited: seq<AuditEntry>) {
    |edited| == |log| && forall k :: 0 <= k < |log| ==> edited[k] == log[k].(settlement := edited[k].settlement)
  }

  /** An edit that survives the hash check did not change whether the row settled. */
  lemma SurvivingEdit(e: AuditEntry, e': AuditEntry)
    requires Intact(e) && e' == e.(settlement := e'.settlement) && Intact(e')
    ensures SettledOk(e) <==> SettledOk(e')
  {
    assert RecomputeHash(e).content.settlement == RecomputeHash(e').content.settlement;
  }

  lemma CountedStays(agentId: string, e: AuditEntry, e': AuditEntry)
    requires Intact(e) && e' == e.(settlement := e'.settlement)
    ensures Counted(agentId)(e) ==> Counted(agentId)(e')
  {
    if Intact(e') { SurvivingEdit(e, e'); }
  }

  /** No row of the agent that did not settle carries a negative amount after the cutoff. */
  ghost predicate NoNegativeIdleRow(agentId: string, log: seq<AuditEntry>, cutoff: int) {
    forall k :: 0 <= k < |log| && log[k].agentId == agentId && !SettledOk(log[k]) && log[k].timestamp > cutoff ==>
      log[k].request.amount >= 0
  }

  lemma {:induction false} EditRaisesTotal(m: Measure, agentId: string, log: seq<AuditEntry>,
      edited: seq<AuditEntry>, cutoff: int)
    requires AllIntact(log) && SettlementEdit(log, edited)
    requires m.PaymentCount? || NoNegativeIdleRow(agentId, log, cutoff)
    ensures LogTotal(m, edited, cutoff, Counted(agentId)) >= LogTotal(m, log, cutoff, Counted(agentId))
  {
    if log != [] {
      var n := |log| - 1;
      EditRaisesTotal(m, agentId, log[..n], edited[..n], cutoff);
      CountedStays(agentId, log[n], edited[n]);
      assert Counted(agentId)(log[n]) <==> log[n].agentId == agentId && SettledOk(log[n]);
    }
  }

  /** Spend totals of a rebuild, for any hour or day window at or after it. */
  function RebuiltTotal(cfg: GuardConfig, log: seq<AuditEntry>, r: Rebuild,
                        m: Measure, cutoff: int): int
  {
    Above(m, Hydrate(cfg, log, r).mem.payments, cutoff, false)
  }

  /** Whatever settlement cells are edited, readably, no later window of the rebuild shows less. */
  ghost predicate ReadableNeverLooser(cfg: GuardConfig, log: seq<AuditEntry>, r: Rebuild) {
    forall edited, m, cutoff :: SettlementEdit(log, edited) && cutoff >= r.hydratedAt - DAY_MS ==>
      RebuiltTotal(cfg, edited, r, m, cutoff) >=
      RebuiltTotal(cfg, log, r, m, cutoff)
  }

  function Contribution(m: Measure, agentId: string, e: AuditEntry, cutoff: int): int {
    if Counted(agentId)(e) && e.timestamp > cutoff then EntryWeight(m, e) else 0
  }

  lemma {:induction false} OneRowReplaced(m: Measure, agentId: string, log: seq<AuditEntry>, k: nat, e: AuditEntry,
      cutoff: int)
    requires k < |log|
    ensures LogTotal(m, log[k := e], cutoff, Counted(agentId)) ==
            LogTotal(m, log, cutoff, Counted(agentId))
            - Contribution(m, agentId, log[k], cutoff) + Contribution(m, agentId, e, cutoff)
  {
    var n := |log| - 1;
    if k < n {
      assert log[k := e][..n] == log[..n][k := e];
      OneRowReplaced(m, agentId, log[..n], k, e, cutoff);
    } else {
      assert log[k := e][..n] == log[..n];
    }
  }

  /** Flip one idle row to claim a settlement it never had. */
  function ClaimSettled(log: seq<AuditEntry>, k: nat): seq<AuditEntry>
    requires k < |log|
  {
    log[k := log[k].(settlement := Some(Settlement(true, None, None, None)))]
  }

  /** What one row, rewritten, changes in the rebuilt total of the last day. */
  lemma ReplacedRebuilt(cfg: GuardConfig, log: seq<AuditEntry>, r: Rebuild, m: Measure, k: nat, e: AuditEntry)
    requires r.FullDay() && k < |log|
    ensures var agentId, day := cfg.policy.agentId, r.hydratedAt - DAY_MS;
            RebuiltTotal(cfg, log[k := e], r, m, day) ==
            RebuiltTotal(cfg, log, r, m, day)
            - Contribution(m, agentId, log[k], day) + Contribution(m, agentId, e, day)
  {
    OneRowReplaced(m, cfg.policy.agentId, log, k, e, r.hydratedAt - DAY_MS);
    HydrateTotal(cfg, log[k := e], r, m, r.hydratedAt - DAY_MS);
    HydrateTotal(cfg, log, r, m, r.hydratedAt - DAY_MS);
  }

  lemma ClaimedIsTampered(log: seq<AuditEntry>, k: nat)
    requires k < |log| && Intact(log[k]) && !SettledOk(log[k])
    ensures !Intact(ClaimSettled(log, k)[k])
  {
    assert RecomputeHash(log[k]).content.settlement != RecomputeHash(ClaimSettled(log, k)[k]).content.settlement;
  }

  /**
   While every cell can still be read: over all such edits and all later windows the rebuilt
   totals never shrink if and only if no idle row of the agent in the last day carries a
   negative amount. Blocked requests with negative amounts are logged, and a tampered one
   counts with its sign.
   */
  lemma ReadableConservativeIff(cfg: GuardConfig, log: seq<AuditEntry>, r: Rebuild)
    requires AllIntact(log) && r.FullDay()
    ensures ReadableNeverLooser(cfg, log, r) <==>
            NoNegativeIdleRow(cfg.policy.agentId, log, r.hydratedAt - DAY_MS)
  {
    var agentId, day := cfg.policy.agentId, r.hydratedAt - DAY_MS;
    if NoNegativeIdleRow(agentId, log, day) {
      forall edited, m, cutoff | SettlementEdit(log, edited) && cutoff >= day
        ensures RebuiltTotal(cfg, edited, r, m, cutoff) >=
                RebuiltTotal(cfg, log, r, m, cutoff)
      {
        HydrateTotal(cfg, edited, r, m, cutoff);
        HydrateTotal(cfg, log, r, m, cutoff);
        EditRaisesTotal(m, agentId, log, edited, cutoff);
      }
    } else {
      var k :| 0 <= k < |log| && log[k].agentId == agentId && !SettledOk(log[k]) && log[k].timestamp > day
               && log[k].request.amount < 0;
      NegativeRowLoosens(cfg, log, r, k);
    }
  }

  /** The concrete break: one blocked negative row, edited to look settled, frees that much budget. */
  lemma NegativeRowLoosens(cfg: GuardConfig, log: seq<AuditEntry>, r: Rebuild, k: nat)
    requires AllIntact(log) && r.FullDay() && k < |log|
    requires log[k].agentId == cfg.policy.agentId && !SettledOk(log[k])
    requires log[k].timestamp > r.hydratedAt - DAY_MS && log[k].request.amount < 0
    ensures SettlementEdit(log, ClaimSettled(log, k))
    ensures var m, day := SpendIn(Lower(log[k].request.token)), r.hydratedAt - DAY_MS;
            RebuiltTotal(cfg, ClaimSettled(log, k), r, m, day) ==
            RebuiltTotal(cfg, log, r, m, day) + log[k].request.amount
    ensures !ReadableNeverLooser(cfg, log, r)
  {
    var edited, m, day := ClaimSettled(log, k), SpendIn(Lower(log[k].request.token)), r.hydratedAt - DAY_MS;
    ClaimedRebuilt(cfg, log, r, m, k);
    assert SettlementEdit(log, edited);
    assert RebuiltTotal(cfg, edited, r, m, day) < RebuiltTotal(cfg, log, r, m, day);
  }

  lemma ClaimedRebuilt(cfg: GuardConfig, log: seq<AuditEntry>, r: Rebuild, m: Measure, k: nat)
    requires AllIntact(log) && r.FullDay() && k < |log|
    requires log[k].agentId == cfg.policy.agentId && !SettledOk(log[k]) && log[k].timestamp > r.hydratedAt - DAY_MS
    ensures RebuiltTotal(cfg, ClaimSettled(log, k), r, m, r.hydratedAt - DAY_MS) ==
            RebuiltTotal(cfg, log, r, m, r.hydratedAt - DAY_MS) + EntryWeight(m, log[k])
  {
    ClaimedIsTampered(log, k);
    ReplacedRebuilt(cfg, log, r, m, k, ClaimSettled(log, k)[k]);
  }

  /**
   And such rows get written: a request with a negative amount under the agent's own id is
   blocked, whatever else it carries, and the guard appends it to its log as an intact,
   unsettled row of the agent.
   */
  lemma NegativeRequestIsLogged(cfg: GuardConfig, s: GuardState, a: Attempt)
    requires a.req.amount < 0 && a.req.agentId == cfg.policy.agentId
    ensures var (s', result) := Execute(cfg, s, a);
            && result.Declined? && |s'.log| == |s.log| + 1 && s'.log[..|s.log|] == s.log
            && var e := s'.log[|s.log|];
               && Intact(e) && !SettledOk(e) && e.agentId == cfg.policy.agentId
               && e.timestamp == a.loggedAt && e.request.amount < 0
  {
    assert Decide(cfg, s, a).verdict.Block?;
  }

  /** So one such request, and a restart within a day of it, is all the edit needs. */
  lemma NegativeRequestLoosens(cfg: GuardConfig, s: GuardState, a: Attempt, r: Rebuild)
    requires AllIntact(s.log) && r.FullDay() && a.req.amount < 0 && a.req.agentId == cfg.policy.agentId
    requires a.loggedAt > r.hydratedAt - DAY_MS
    ensures !ReadableNeverLooser(cfg, Execute(cfg, s, a).0.log, r)
  {
    NegativeRequestIsLogged(cfg, s, a);
    var log := Execute(cfg, s, a).0.log;
    assert AllIntact(log) by {
      forall k | 0 <= k < |log| ensures Intact(log[k]) { assert k < |s.log| ==> log[k] == log[..|s.log|][k]; }
    }
    NegativeRowLoosens(cfg, log, r, |s.log|);
  }

  /** Payment counts, and so rate limits of up to a day, never shrink while every cell can be read. */
  lemma ReadableCountsNeverLooser(cfg: GuardConfig, log: seq<AuditEntry>, edited: seq<AuditEntry>,
                          r: Rebuild, cutoff: int)
    requires AllIntact(log) && SettlementEdit(log, edited)
    requires r.FullDay() && cutoff >= r.hydratedAt - DAY_MS
    ensures RebuiltTotal(cfg, edited, r, PaymentCount, cutoff) >=
            RebuiltTotal(cfg, log, r, PaymentCount, cutoff)
  {
    HydrateTotal(cfg, edited, r, PaymentCount, cutoff);
    HydrateTotal(cfg, log, r, PaymentCount, cutoff);
    EditRaisesTotal(PaymentCount, cfg.policy.agentId, log, edited, cutoff);
  }

  // ─── Cells that cannot be read back ───────────────────────────────────────

  /** Spend totals of a guard started over the log, some of whose rows cannot be read. */
  function StartedTotal(cfg: GuardConfig, log: seq<AuditEntry>, unreadable: set<string>, r: Rebuild, m: Measure,
      cutoff: int): int
  {
    Above(m, Started(cfg, log, Damage(false, unreadable), r).mem.payments, cutoff, false)
  }

  /** With every cell readable this is the rebuilt total, otherwise zero. */
  lemma StartedTotals(cfg: GuardConfig, log: seq<AuditEntry>, unreadable: set<string>, r: Rebuild, m: Measure,
      cutoff: int)
    ensures var cold := StartsCold(cfg, log, Damage(false, unreadable), r);
            StartedTotal(cfg, log, unreadable, r, m, cutoff) == if cold then 0 else RebuiltTotal(cfg, log, r, m, cutoff)
    ensures StartedTotal(cfg, log, {}, r, m, cutoff) == RebuiltTotal(cfg, log, r, m, cutoff)
  {
  }

  /**
   Whatever settlement cells are edited, into text that can be read or not, a guard started
   over the log shows no less of a measure in any later window.
   */
  ghost predicate NeverLooserIn(cfg: GuardConfig, log: seq<AuditEntry>, r: Rebuild, m: Measure) {
    forall edited, unreadable, cutoff :: SettlementEdit(log, edited) && cutoff >= r.hydratedAt - DAY_MS ==>
      StartedTotal(cfg, edited, unreadable, r, m, cutoff) >= RebuiltTotal(cfg, log, r, m, cutoff)
  }

  ghost predicate NeverLooser(cfg: GuardConfig, log: seq<AuditEntry>, r: Rebuild) {
    forall m :: NeverLooserIn(cfg, log, r, m)
  }

  /** No settled row of the agent lies after the cutoff. */
  ghost predicate NothingSettled(agentId: string, log: seq<AuditEntry>, cutoff: int) {
    forall k :: 0 <= k < |log| ==> !(SettledOk(log[k]) && log[k].agentId == agentId && log[k].timestamp > cutoff)
  }

  lemma {:induction false} NothingCounted(m: Measure, agentId: string, log: seq<AuditEntry>, day: int, cutoff: int)
    requires AllIntact(log) && NothingSettled(agentId, log, day) && cutoff >= day
    ensures LogTotal(m, log, cutoff, Counted(agentId)) == 0
  {
    if log != [] {
      NothingCounted(m, agentId, log[..|log| - 1], day, cutoff);
      assert Intact(log[|log| - 1]);
    }
  }

  lemma {:induction false} SettledIsCounted(agentId: string, log: seq<AuditEntry>, k: nat, cutoff: int)
    requires k < |log| && SettledOk(log[k]) && log[k].agentId == agentId && log[k].timestamp > cutoff
    ensures LogTotal(PaymentCount, log, cutoff, Counted(agentId)) >= 1
  {
    if k < |log| - 1 {
      SettledIsCounted(agentId, log[..|log| - 1], k, cutoff);
    } else {
      CountNotNegative(agentId, log[..|log| - 1], cutoff);
    }
  }

  lemma {:induction false} CountNotNegative(agentId: string, log: seq<AuditEntry>, cutoff: int)
    ensures LogTotal(PaymentCount, log, cutoff, Counted(agentId)) >= 0
  {
    if log != [] { CountNotNegative(agentId, log[..|log| - 1], cutoff); }
  }

  /**
   The break: one cell of one settled row of the last day that cannot be read back starts the
   guard cold. It forgets every window, recipient and binding, and the breaker is closed.
   */
  lemma UnreadableRowStartsCold(cfg: GuardConfig, log: seq<AuditEntry>, r: Rebuild, k: nat)
    requires r.FullDay() && k < |log| && SettledOk(log[k])
    requires log[k].agentId == cfg.policy.agentId && log[k].timestamp > r.hydratedAt - DAY_MS
    ensures Started(cfg, log, Damage(false, {log[k].id}), r) == Cold(log)
    ensures forall m, cutoff :: StartedTotal(cfg, log, {log[k].id}, r, m, cutoff) == 0
    ensures RebuiltTotal(cfg, log, r, PaymentCount, r.hydratedAt - DAY_MS) >= 1
    ensures !NeverLooserIn(cfg, log, r, PaymentCount)
  {
    var day, listed := r.hydratedAt - DAY_MS, Since(log, cfg.policy.agentId, r.Start());
    SinceIff(log, cfg.policy.agentId, r.Start(), log[k]);
    assert StartsCold(cfg, log, Damage(false, {log[k].id}), r);
    HydrateTotal(cfg, log, r, PaymentCount, day);
    SettledIsCounted(cfg.policy.agentId, log, k, day);
    assert SettlementEdit(log, log);
    assert StartedTotal(cfg, log, {log[k].id}, r, PaymentCount, day) == 0;
  }

  /** With nothing settled in the last day no readable edit lowers a count, and no edit at all lowers it below zero. */
  lemma NothingToLoosen(cfg: GuardConfig, log: seq<AuditEntry>, r: Rebuild, m: Measure)
    requires AllIntact(log) && r.FullDay() && NothingSettled(cfg.policy.agentId, log, r.hydratedAt - DAY_MS)
    requires m.PaymentCount? || NoNegativeIdleRow(cfg.policy.agentId, log, r.hydratedAt - DAY_MS)
    ensures NeverLooserIn(cfg, log, r, m)
  {
    var agentId, day := cfg.policy.agentId, r.hydratedAt - DAY_MS;
    forall edited, unreadable, cutoff | SettlementEdit(log, edited) && cutoff >= day
      ensures StartedTotal(cfg, edited, unreadable, r, m, cutoff) >= RebuiltTotal(cfg, log, r, m, cutoff)
    {
      HydrateTotal(cfg, log, r, m, cutoff);
      NothingCounted(m, agentId, log, day, cutoff);
      HydrateTotal(cfg, edited, r, m, cutoff);
      EditRaisesTotal(m, agentId, log, edited, cutoff);
      StartedTotals(cfg, edited, unreadable, r, m, cutoff);
    }
  }

  /**
   When the rebuild is conservative: over all edits of settlement cells, readable or not, all
   measures and all later windows, the totals never shrink if and only if the agent settled
   nothing in the last day and none of its idle rows there carries a negative amount.
   */
  lemma ConservativeIff(cfg: GuardConfig, log: seq<AuditEntry>, r: Rebuild)
    requires AllIntact(log) && r.FullDay()
    ensures NeverLooser(cfg, log, r) <==>
            && NothingSettled(cfg.policy.agentId, log, r.hydratedAt - DAY_MS)
            && NoNegativeIdleRow(cfg.policy.agentId, log, r.hydratedAt - DAY_MS)
  {
    var agentId, day := cfg.policy.agentId, r.hydratedAt - DAY_MS;
    CountsConservativeIff(cfg, log, r);
    if NothingSettled(agentId, log, day) && NoNegativeIdleRow(agentId, log, day) {
      forall m ensures NeverLooserIn(cfg, log, r, m) { NothingToLoosen(cfg, log, r, m); }
    }
    if NeverLooser(cfg, log, r) {
      assert NeverLooserIn(cfg, log, r, PaymentCount);
      ReadableCase(cfg, log, r);
      ReadableConservativeIff(cfg, log, r);
    }
  }

  lemma ReadableCase(cfg: GuardConfig, log: seq<AuditEntry>, r: Rebuild)
    requires NeverLooser(cfg, log, r)
    ensures ReadableNeverLooser(cfg, log, r)
  {
    forall edited, m, cutoff | SettlementEdit(log, edited) && cutoff >= r.hydratedAt - DAY_MS
      ensures RebuiltTotal(cfg, edited, r, m, cutoff) >= RebuiltTotal(cfg, log, r, m, cutoff)
    {
      StartedTotals(cfg, edited, {}, r, m, cutoff);
      assert NeverLooserIn(cfg, log, r, m);
    }
  }

  /** And payment counts, over the same edits, if and only if the agent settled nothing in the last day. */
  lemma CountsConservativeIff(cfg: GuardConfig, log: seq<AuditEntry>, r: Rebuild)
    requires AllIntact(log) && r.FullDay()
    ensures NeverLooserIn(cfg, log, r, PaymentCount) <==> NothingSettled(cfg.policy.agentId, log, r.hydratedAt - DAY_MS)
  {
    var agentId, day := cfg.policy.agentId, r.hydratedAt - DAY_MS;
    if NothingSettled(agentId, log, day) {
      NothingToLoosen(cfg, log, r, PaymentCount);
    } else {
      var k :| 0 <= k < |log| && SettledOk(log[k]) && log[k].agentId == agentId && log[k].timestamp > day;
      UnreadableRowStartsCold(cfg, log, r, k);
    }
  }

  // ─── What an edited log teaches ───────────────────────────────────────────

  /** Every idle row of the agent in the lookback names a recipient some settled one there names too. */
  ghost predicate IdleRecipientsPaid(agentId: string, log: seq<AuditEntry>, since: int) {
    forall k :: 0 <= k < |log| && log[k].agentId == agentId && !SettledOk(log[k]) && log[k].timestamp >= since ==>
      PaidToo(agentId, log, since, Lower(log[k].request.recipient))
  }

  ghost predicate PaidToo(agentId: string, log: seq<AuditEntry>, since: int, who: string) {
    exists e :: e in log && SettledOk(e) && e.agentId == agentId && e.timestamp >= since
      && Lower(e.request.recipient) == who
  }

  /** No edit makes the started guard know a recipient the honest rebuild would not. */
  ghost predicate NoStrangerKnown(cfg: GuardConfig, log: seq<AuditEntry>, r: Rebuild) {
    forall edited, damage, who :: SettlementEdit(log, edited) && who in Started(cfg, edited, damage, r).mem.seen ==>
      who in Hydrate(cfg, log, r).mem.seen
  }

  lemma HonestSeen(cfg: GuardConfig, log: seq<AuditEntry>, r: Rebuild, who: string)
    requires AllIntact(log)
    ensures who in Hydrate(cfg, log, r).mem.seen <==> PaidToo(cfg.policy.agentId, log, r.Start(), who)
  {
    HydrateSeen(cfg, log, r, who);
    assert forall e :: e in log ==> Intact(e);
  }

  /** The break: a row that never settled, edited to look settled, makes its recipient known. */
  lemma ClaimedRecipientKnown(cfg: GuardConfig, log: seq<AuditEntry>, r: Rebuild, k: nat)
    requires AllIntact(log) && k < |log| && log[k].agentId == cfg.policy.agentId && !SettledOk(log[k])
    requires log[k].timestamp >= r.Start()
    ensures SettlementEdit(log, ClaimSettled(log, k))
    ensures Lower(log[k].request.recipient) in Hydrate(cfg, ClaimSettled(log, k), r).mem.seen
  {
    var edited := ClaimSettled(log, k);
    ClaimedIsTampered(log, k);
    assert edited[k] in edited && Counted(cfg.policy.agentId)(edited[k]);
    HydrateSeen(cfg, edited, r, Lower(log[k].request.recipient));
  }

  /**
   So a rule that blocks new counterparties, which would refuse the recipient after an honest
   rebuild, lets it through after the edit.
   */
  lemma EditOpensCounterparty(cfg: GuardConfig, log: seq<AuditEntry>, r: Rebuild, k: nat, req: PaymentRequest, now: int)
    requires AllIntact(log) && k < |log| && log[k].agentId == cfg.policy.agentId && !SettledOk(log[k])
    requires log[k].timestamp >= r.Start() && Lower(req.recipient) == Lower(log[k].request.recipient)
    requires !PaidToo(cfg.policy.agentId, log, r.Start(), Lower(req.recipient))
    ensures CounterpartyCheck(cfg.platform, req, now, Hydrate(cfg, log, r).mem) ==
            Some(PolicyCheck("counterparty-new", false, Critical))
    ensures CounterpartyCheck(cfg.platform, req, now, Hydrate(cfg, ClaimSettled(log, k), r).mem) ==
            Some(PolicyCheck("counterparty-new", true, Info))
  {
    HonestSeen(cfg, log, r, Lower(req.recipient));
    ClaimedRecipientKnown(cfg, log, r, k);
    CounterpartyVerdict(cfg.platform, req, now, Hydrate(cfg, log, r).mem);
    CounterpartyVerdict(cfg.platform, req, now, Hydrate(cfg, ClaimSettled(log, k), r).mem);
  }

  lemma CounterpartyVerdict(pf: Platform, req: PaymentRequest, now: int, mem: Memory)
    ensures CounterpartyCheck(pf, req, now, mem) == Some(
              if Lower(req.recipient) in mem.seen then PolicyCheck("counterparty-new", true, Info)
              else PolicyCheck("counterparty-new", false, Critical))
  {
  }

  /** What a rule that blocks new counterparties says of a request. */
  function CounterpartyCheck(pf: Platform, req: PaymentRequest, now: int, mem: Memory): Option<PolicyCheck> {
    Dispatch(pf, Counterparty(true, BlockIt), RuleContext(req, now, mem)).check
  }

  /**
   Over all edits of settlement cells no stranger becomes a known recipient if and only if
   every idle row of the agent in the lookback names one who was really paid.
   */
  lemma NoStrangerKnownIff(cfg: GuardConfig, log: seq<AuditEntry>, r: Rebuild)
    requires AllIntact(log)
    ensures NoStrangerKnown(cfg, log, r) <==> IdleRecipientsPaid(cfg.policy.agentId, log, r.Start())
  {
    var agentId, since := cfg.policy.agentId, r.Start();
    if IdleRecipientsPaid(agentId, log, since) {
      forall edited, damage, who | SettlementEdit(log, edited) && who in Started(cfg, edited, damage, r).mem.seen
        ensures who in Hydrate(cfg, log, r).mem.seen
      {
        SeenWasPaid(cfg, log, edited, r, who);
        HonestSeen(cfg, log, r, who);
      }
    } else {
      var k :| 0 <= k < |log| && log[k].agentId == agentId && !SettledOk(log[k]) && log[k].timestamp >= since
               && !PaidToo(agentId, log, since, Lower(log[k].request.recipient));
      ClaimedRecipientKnown(cfg, log, r, k);
      HonestSeen(cfg, log, r, Lower(log[k].request.recipient));
      assert Started(cfg, ClaimSettled(log, k), Damage(false, {}), r) == Hydrate(cfg, ClaimSettled(log, k), r);
    }
  }

  lemma SeenWasPaid(cfg: GuardConfig, log: seq<AuditEntry>, edited: seq<AuditEntry>, r: Rebuild, who: string)
    requires AllIntact(log) && SettlementEdit(log, edited) && who in Hydrate(cfg, edited, r).mem.seen
    requires IdleRecipientsPaid(cfg.policy.agentId, log, r.Start())
    ensures PaidToo(cfg.policy.agentId, log, r.Start(), who)
  {
    HydrateSeen(cfg, edited, r, who);
    var e :| e in edited && Counted(cfg.policy.agentId)(e) && e.timestamp >= r.Start() && Lower(e.request.recipient) == who;
    var k :| 0 <= k < |edited| && edited[k] == e;
    RowWasPaid(cfg.policy.agentId, log, r.Start(), k);
  }

  lemma RowWasPaid(agentId: string, log: seq<AuditEntry>, since: int, k: nat)
    requires IdleRecipientsPaid(agentId, log, since)
    requires k < |log| && log[k].agentId == agentId && log[k].timestamp >= since
    ensures PaidToo(agentId, log, since, Lower(log[k].request.recipient))
  {
    assert log[k] in log;
  }

  /** What a rebuild feeds to baselines and bindings. */
  function TrustedRows(cfg: GuardConfig, log: seq<AuditEntry>, r: Rebuild): seq<AuditEntry> {
    Filtered(Since(log, cfg.policy.agentId, r.Start()), IsSettled())
  }

  /** Every row the edited log feeds to baselines and bindings is one that really settled. */
  lemma TrustedRowsReallySettled(cfg: GuardConfig, log: seq<AuditEntry>, edited: seq<AuditEntry>,
                                 r: Rebuild, e': AuditEntry)
    requires AllIntact(log) && SettlementEdit(log, edited)
    requires e' in TrustedRows(cfg, edited, r)
    ensures exists e :: e in TrustedRows(cfg, log, r) && e.request == e'.request
                        && e.timestamp == e'.timestamp && e.id == e'.id
  {
    var agentId, since := cfg.policy.agentId, r.Start();
    FilteredIff(Since(edited, agentId, since), IsSettled(), e');
    SinceIff(edited, agentId, since, e');
    var k :| 0 <= k < |edited| && edited[k] == e';
    SurvivingEdit(log[k], e');
    SinceIff(log, agentId, since, log[k]);
    FilteredIff(Since(log, agentId, since), IsSettled(), log[k]);
  }

  /** So an edited log, readable or not, binds no host to an address it was not really paid at. */
  lemma BindingsOnlyShrink(cfg: GuardConfig, log: seq<AuditEntry>, edited: seq<AuditEntry>, damage: Damage,
                           r: Rebuild, host: string, who: string)
    requires AllIntact(log) && SettlementEdit(log, edited)
    requires who in Known(Started(cfg, edited, damage, r).bindings, host)
    ensures who in Known(Hydrate(cfg, log, r).bindings, host)
  {
    var trusted', trusted := TrustedRows(cfg, edited, r), TrustedRows(cfg, log, r);
    var before := Payee(cfg, trusted', host, who);
    TrustedRowsReallySettled(cfg, log, edited, r, before);
    var e :| e in trusted && e.request == before.request;
    PayeeKnown(cfg, trusted, e, host, who);
  }

  /** A known payee comes from some row naming that host and recipient, and any such row makes it known. */
  lemma Payee(cfg: GuardConfig, rows: seq<AuditEntry>, host: string, who: string)
    returns (e: AuditEntry)
    requires who in Known(BoundAll(cfg.platform, map[], rows), host)
    ensures e in rows && HostOf(cfg.platform, e.request.resourceUrl) == Some(host) && Lower(e.request.recipient) == who
  {
    BoundAllExact(cfg.platform, map[], rows, host, who);
    var k :| 0 <= k < |rows| && HostOf(cfg.platform, rows[k].request.resourceUrl) == Some(host)
             && Lower(rows[k].request.recipient) == who;
    e := rows[k];
  }

  lemma PayeeKnown(cfg: GuardConfig, rows: seq<AuditEntry>, e: AuditEntry, host: string, who: string)
    requires e in rows && HostOf(cfg.platform, e.request.resourceUrl) == Some(host) && Lower(e.request.recipient) == who
    ensures who in Known(BoundAll(cfg.platform, map[], rows), host)
  {
    BoundAllExact(cfg.platform, map[], rows, host, who);
    var j :| 0 <= j < |rows| && rows[j] == e;
  }
}
