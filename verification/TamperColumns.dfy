/**
 Rebuilding from a log in which the time and agent columns were edited, which no row hash
 covers, and from one in which any cell was.
 */
module TamperColumns {
  import opened Text
  import opened Types
  import opened PolicyRules
  import opened GuardLogic
  import opened RebuildTotals
  import opened TamperRebuild

  // ─── Edits of the columns the hash leaves out ─────────────────────────────

  /** `edited` is `log` with any time and agent columns rewritten, which no row hash covers. */
  ghost predicate ColumnEdit(log: seq<AuditEntry>, edited: seq<AuditEntry>) {
    && |edited| == |log|
    && forall k :: 0 <= k < |log| ==>
         edited[k] == log[k].(timestamp := edited[k].timestamp, agentId := edited[k].agentId)
  }

  lemma ColumnEditsStayIntact(log: seq<AuditEntry>, edited: seq<AuditEntry>)
    requires AllIntact(log) && ColumnEdit(log, edited)
    ensures AllIntact(edited)
  {
  }

  /** Whatever times and agents are rewritten, no later window of the rebuild shows less. */
  ghost predicate NeverLooserMoved(cfg: GuardConfig, log: seq<AuditEntry>, r: Rebuild) {
    forall edited, m, cutoff :: ColumnEdit(log, edited) && cutoff >= r.hydratedAt - DAY_MS ==>
      RebuiltTotal(cfg, edited, r, m, cutoff) >= RebuiltTotal(cfg, log, r, m, cutoff)
  }

  /** No settled row of anybody, at any time, carries a negative amount. */
  ghost predicate NothingToMoveIn(log: seq<AuditEntry>) {
    forall k :: 0 <= k < |log| && SettledOk(log[k]) ==> log[k].request.amount >= 0
  }

  lemma {:induction false} MovedTotals(m: Measure, agentId: string, log: seq<AuditEntry>, edited: seq<AuditEntry>,
      cutoff: int)
    requires AllIntact(log) && ColumnEdit(log, edited)
    requires NothingSettled(agentId, log, cutoff) && NothingToMoveIn(log)
    ensures LogTotal(m, log, cutoff, Counted(agentId)) == 0 <= LogTotal(m, edited, cutoff, Counted(agentId))
  {
    if log != [] {
      var n := |log| - 1;
      MovedTotals(m, agentId, log[..n], edited[..n], cutoff);
      assert Intact(edited[n]) && (SettledOk(edited[n]) <==> SettledOk(log[n]));
      assert Counted(agentId)(log[n]) <==> log[n].agentId == agentId && SettledOk(log[n]);
    }
  }

  /** Some time after the cutoff that a row may carry. */
  function TimeAfter(cutoff: int): nat { if cutoff < 0 then 0 else cutoff + 1 }

  /** Give one row to somebody else; take one for the agent, at a time inside the window. */
  function MovedOut(agentId: string, log: seq<AuditEntry>, k: nat): seq<AuditEntry>
    requires k < |log|
  {
    log[k := log[k].(agentId := agentId + "'")]
  }

  function MovedIn(agentId: string, log: seq<AuditEntry>, k: nat, cutoff: int): seq<AuditEntry>
    requires k < |log|
  {
    log[k := log[k].(agentId := agentId, timestamp := TimeAfter(cutoff))]
  }

  /** The break: one settled row moved out of the agent's last day frees its amount, and one payment. */
  lemma MovedRowLoosens(cfg: GuardConfig, log: seq<AuditEntry>, r: Rebuild, m: Measure, k: nat)
    requires AllIntact(log) && r.FullDay() && k < |log| && SettledOk(log[k])
    requires log[k].agentId == cfg.policy.agentId && log[k].timestamp > r.hydratedAt - DAY_MS
    ensures var edited, day := MovedOut(cfg.policy.agentId, log, k), r.hydratedAt - DAY_MS;
            && ColumnEdit(log, edited) && AllIntact(edited)
            && RebuiltTotal(cfg, edited, r, m, day) == RebuiltTotal(cfg, log, r, m, day) - EntryWeight(m, log[k])
    ensures !NeverLooserMoved(cfg, log, r)
  {
    var edited, day := MovedOut(cfg.policy.agentId, log, k), r.hydratedAt - DAY_MS;
    ColumnEditsStayIntact(log, edited);
    MovedOutRebuilt(cfg, log, r, m, k);
    MovedOutRebuilt(cfg, log, r, PaymentCount, k);
    assert RebuiltTotal(cfg, edited, r, PaymentCount, day) < RebuiltTotal(cfg, log, r, PaymentCount, day);
  }

  lemma MovedOutRebuilt(cfg: GuardConfig, log: seq<AuditEntry>, r: Rebuild, m: Measure, k: nat)
    requires AllIntact(log) && r.FullDay() && k < |log| && SettledOk(log[k])
    requires log[k].agentId == cfg.policy.agentId && log[k].timestamp > r.hydratedAt - DAY_MS
    ensures RebuiltTotal(cfg, MovedOut(cfg.policy.agentId, log, k), r, m, r.hydratedAt - DAY_MS) ==
            RebuiltTotal(cfg, log, r, m, r.hydratedAt - DAY_MS) - EntryWeight(m, log[k])
  {
    assert |cfg.policy.agentId + "'"| == |cfg.policy.agentId| + 1;
    ReplacedRebuilt(cfg, log, r, m, k, MovedOut(cfg.policy.agentId, log, k)[k]);
  }

  lemma MovedInLoosens(cfg: GuardConfig, log: seq<AuditEntry>, r: Rebuild, k: nat)
    requires AllIntact(log) && r.FullDay() && k < |log| && SettledOk(log[k]) && log[k].request.amount < 0
    requires NothingSettled(cfg.policy.agentId, log, r.hydratedAt - DAY_MS)
    ensures !NeverLooserMoved(cfg, log, r)
  {
    var agentId, day := cfg.policy.agentId, r.hydratedAt - DAY_MS;
    var edited, m := MovedIn(agentId, log, k, day), SpendIn(Lower(log[k].request.token));
    MovedInRebuilt(cfg, log, r, m, k);
    assert ColumnEdit(log, edited);
    assert RebuiltTotal(cfg, edited, r, m, day) < RebuiltTotal(cfg, log, r, m, day);
  }

  lemma MovedInRebuilt(cfg: GuardConfig, log: seq<AuditEntry>, r: Rebuild, m: Measure, k: nat)
    requires AllIntact(log) && r.FullDay() && k < |log| && SettledOk(log[k])
    requires NothingSettled(cfg.policy.agentId, log, r.hydratedAt - DAY_MS)
    ensures RebuiltTotal(cfg, MovedIn(cfg.policy.agentId, log, k, r.hydratedAt - DAY_MS), r, m, r.hydratedAt - DAY_MS) ==
            RebuiltTotal(cfg, log, r, m, r.hydratedAt - DAY_MS) + EntryWeight(m, log[k])
  {
    var day := r.hydratedAt - DAY_MS;
    ReplacedRebuilt(cfg, log, r, m, k, MovedIn(cfg.policy.agentId, log, k, day)[k]);
    assert Contribution(m, cfg.policy.agentId, log[k], day) == 0;
  }

  /**
   Over edits of the columns the hash leaves out, the rebuild is conservative if and only if
   the agent settled nothing in the last day and no settled row of anybody has a negative
   amount. So any day with a payment in it can be loosened.
   */
  lemma MovedConservativeIff(cfg: GuardConfig, log: seq<AuditEntry>, r: Rebuild)
    requires AllIntact(log) && r.FullDay()
    ensures NeverLooserMoved(cfg, log, r) <==>
            NothingSettled(cfg.policy.agentId, log, r.hydratedAt - DAY_MS) && NothingToMoveIn(log)
  {
    var agentId, day := cfg.policy.agentId, r.hydratedAt - DAY_MS;
    if !NothingSettled(agentId, log, day) {
      var k :| 0 <= k < |log| && SettledOk(log[k]) && log[k].agentId == agentId && log[k].timestamp > day;
      MovedRowLoosens(cfg, log, r, PaymentCount, k);
    } else if !NothingToMoveIn(log) {
      var k :| 0 <= k < |log| && SettledOk(log[k]) && log[k].request.amount < 0;
      MovedInLoosens(cfg, log, r, k);
    } else {
      forall edited, m, cutoff | ColumnEdit(log, edited) && cutoff >= day
        ensures RebuiltTotal(cfg, edited, r, m, cutoff) >= RebuiltTotal(cfg, log, r, m, cutoff)
      {
        HydrateTotal(cfg, edited, r, m, cutoff);
        HydrateTotal(cfg, log, r, m, cutoff);
        MovedTotals(m, agentId, log, edited, cutoff);
      }
    }
  }

  // ─── All edits short of the signed contents, and all edits ────────────────

  /** `edited` is `log` with any settlement, time and agent cells rewritten. */
  ghost predicate CellEdit(log: seq<AuditEntry>, edited: seq<AuditEntry>) {
    && |edited| == |log|
    && forall k :: 0 <= k < |log| ==>
         edited[k] == log[k].(settlement := edited[k].settlement, timestamp := edited[k].timestamp,
                              agentId := edited[k].agentId)
  }

  /** Whatever such cells are rewritten or made unreadable, a guard started over the log shows no less. */
  ghost predicate NeverLooserEdited(cfg: GuardConfig, log: seq<AuditEntry>, r: Rebuild) {
    forall edited, unreadable, m, cutoff :: CellEdit(log, edited) && cutoff >= r.hydratedAt - DAY_MS ==>
      StartedTotal(cfg, edited, unreadable, r, m, cutoff) >= RebuiltTotal(cfg, log, r, m, cutoff)
  }

  /** No row of anybody, settled or not, carries a negative amount. */
  ghost predicate NoNegativeRow(log: seq<AuditEntry>) {
    forall k :: 0 <= k < |log| ==> log[k].request.amount >= 0
  }

  lemma {:induction false} EditedNotNegative(m: Measure, agentId: string, log: seq<AuditEntry>,
      edited: seq<AuditEntry>, cutoff: int)
    requires CellEdit(log, edited) && NoNegativeRow(log)
    ensures LogTotal(m, edited, cutoff, Counted(agentId)) >= 0
  {
    if log != [] {
      var n := |log| - 1;
      EditedNotNegative(m, agentId, log[..n], edited[..n], cutoff);
      assert edited[n].request == log[n].request;
    }
  }

  /** A row made to count for the agent after the cutoff: one that settled as it is, any other as a tampered one. */
  function Claimed(agentId: string, e: AuditEntry, cutoff: int): AuditEntry {
    e.(agentId := agentId, timestamp := TimeAfter(cutoff),
       settlement := if SettledOk(e) then e.settlement else Some(Settlement(true, None, None, None)))
  }

  lemma ClaimedCounts(m: Measure, agentId: string, e: AuditEntry, cutoff: int)
    requires Intact(e)
    ensures Contribution(m, agentId, Claimed(agentId, e, cutoff), cutoff) == EntryWeight(m, e)
  {
    var e' := Claimed(agentId, e, cutoff);
    if !SettledOk(e) {
      assert RecomputeHash(e).content.settlement != RecomputeHash(e').content.settlement;
      assert !Intact(e');
    }
  }

  lemma NegativeClaimLoosens(cfg: GuardConfig, log: seq<AuditEntry>, r: Rebuild, k: nat)
    requires AllIntact(log) && r.FullDay() && NothingSettled(cfg.policy.agentId, log, r.hydratedAt - DAY_MS)
    requires k < |log| && log[k].request.amount < 0
    ensures !NeverLooserEdited(cfg, log, r)
  {
    var agentId, day, m := cfg.policy.agentId, r.hydratedAt - DAY_MS, SpendIn(Lower(log[k].request.token));
    var edited := log[k := Claimed(agentId, log[k], day)];
    ClaimedAnyRebuilt(cfg, log, r, m, k);
    StartedTotals(cfg, edited, {}, r, m, day);
    assert CellEdit(log, edited);
    assert StartedTotal(cfg, edited, {}, r, m, day) < RebuiltTotal(cfg, log, r, m, day);
  }

  lemma ClaimedAnyRebuilt(cfg: GuardConfig, log: seq<AuditEntry>, r: Rebuild, m: Measure, k: nat)
    requires AllIntact(log) && r.FullDay() && NothingSettled(cfg.policy.agentId, log, r.hydratedAt - DAY_MS)
    requires k < |log|
    ensures var agentId, day := cfg.policy.agentId, r.hydratedAt - DAY_MS;
            RebuiltTotal(cfg, log[k := Claimed(agentId, log[k], day)], r, m, day) ==
            RebuiltTotal(cfg, log, r, m, day) + EntryWeight(m, log[k])
  {
    var agentId, day := cfg.policy.agentId, r.hydratedAt - DAY_MS;
    ReplacedRebuilt(cfg, log, r, m, k, Claimed(agentId, log[k], day));
    ClaimedCounts(m, agentId, log[k], day);
    assert Contribution(m, agentId, log[k], day) == 0;
  }

  lemma SettledLoosens(cfg: GuardConfig, log: seq<AuditEntry>, r: Rebuild, k: nat)
    requires r.FullDay() && k < |log| && SettledOk(log[k])
    requires log[k].agentId == cfg.policy.agentId && log[k].timestamp > r.hydratedAt - DAY_MS
    ensures !NeverLooserEdited(cfg, log, r)
  {
    UnreadableRowStartsCold(cfg, log, r, k);
    assert CellEdit(log, log);
    assert StartedTotal(cfg, log, {log[k].id}, r, PaymentCount, r.hydratedAt - DAY_MS) == 0;
  }

  /**
   Over all edits of settlement, time and agent cells together, and cells made unreadable,
   the rebuild is conservative if and only if the agent settled nothing in the last day and
   no row of anybody, settled or not and however old, carries a negative amount.
   */
  lemma EditsConservativeIff(cfg: GuardConfig, log: seq<AuditEntry>, r: Rebuild)
    requires AllIntact(log) && r.FullDay()
    ensures NeverLooserEdited(cfg, log, r) <==>
            NothingSettled(cfg.policy.agentId, log, r.hydratedAt - DAY_MS) && NoNegativeRow(log)
  {
    var agentId, day := cfg.policy.agentId, r.hydratedAt - DAY_MS;
    if !NothingSettled(agentId, log, day) {
      var k :| 0 <= k < |log| && SettledOk(log[k]) && log[k].agentId == agentId && log[k].timestamp > day;
      SettledLoosens(cfg, log, r, k);
    } else if !NoNegativeRow(log) {
      var k :| 0 <= k < |log| && log[k].request.amount < 0;
      NegativeClaimLoosens(cfg, log, r, k);
    } else {
      forall edited, unreadable, m, cutoff | CellEdit(log, edited) && cutoff >= day
        ensures StartedTotal(cfg, edited, unreadable, r, m, cutoff) >= RebuiltTotal(cfg, log, r, m, cutoff)
      {
        EditNotLooser(cfg, log, edited, unreadable, r, m, cutoff);
      }
    }
  }

  lemma EditNotLooser(cfg: GuardConfig, log: seq<AuditEntry>, edited: seq<AuditEntry>, unreadable: set<string>,
      r: Rebuild, m: Measure, cutoff: int)
    requires AllIntact(log) && r.FullDay() && CellEdit(log, edited) && cutoff >= r.hydratedAt - DAY_MS
    requires NothingSettled(cfg.policy.agentId, log, r.hydratedAt - DAY_MS) && NoNegativeRow(log)
    ensures StartedTotal(cfg, edited, unreadable, r, m, cutoff) >= RebuiltTotal(cfg, log, r, m, cutoff)
  {
    HydrateTotal(cfg, log, r, m, cutoff);
    NothingCounted(m, cfg.policy.agentId, log, r.hydratedAt - DAY_MS, cutoff);
    HydrateTotal(cfg, edited, r, m, cutoff);
    EditedNotNegative(m, cfg.policy.agentId, log, edited, cutoff);
    StartedTotals(cfg, edited, unreadable, r, m, cutoff);
  }

  /** A row rewritten whole, to be counted as tampered with the given amount. */
  function Forged(agentId: string, e: AuditEntry, amount: int, cutoff: int): AuditEntry {
    e.(agentId := agentId, timestamp := TimeAfter(cutoff), request := e.request.(amount := amount), entryHash := Zero)
  }

  /** The row rewritten to weigh one less than it did. */
  function Credit(m: Measure, agentId: string, e: AuditEntry, cutoff: int): AuditEntry {
    Forged(agentId, e, Contribution(m, agentId, e, cutoff) - 1, cutoff)
  }

  /** Against edits of the request as well no log but the empty one is safe: any row can be turned into a credit. */
  lemma RequestEditLoosens(cfg: GuardConfig, log: seq<AuditEntry>, r: Rebuild, m: Measure, k: nat)
    requires r.FullDay() && k < |log| && m == SpendIn(Lower(log[k].request.token))
    ensures var agentId, day := cfg.policy.agentId, r.hydratedAt - DAY_MS;
            RebuiltTotal(cfg, log[k := Credit(m, agentId, log[k], day)], r, m, day) ==
            RebuiltTotal(cfg, log, r, m, day) - 1
  {
    var agentId, day := cfg.policy.agentId, r.hydratedAt - DAY_MS;
    ReplacedRebuilt(cfg, log, r, m, k, Credit(m, agentId, log[k], day));
    ForgedCounts(agentId, log[k], Contribution(m, agentId, log[k], day) - 1, day);
  }

  lemma ForgedCounts(agentId: string, e: AuditEntry, amount: int, day: int)
    ensures Contribution(SpendIn(Lower(e.request.token)), agentId, Forged(agentId, e, amount, day), day) == amount
  {
    assert !Intact(Forged(agentId, e, amount, day));
  }
}
