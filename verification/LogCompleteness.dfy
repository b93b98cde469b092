/**
 What a clean verification of the whole log means, what keeps it clean, and what makes it
 impossible for good.
 */
module LogCompleteness {
  import opened Types
  import opened Merkle
  import opened AuditBatch
  import opened AuditStore
  import opened AnchorContract
  import opened Sweep
  import opened AnchorProtocol
  import opened AnchorDurability
  import opened AnchorRecovery
  import opened AuditLog
  import opened LogVerifier

  /** The local rows of a batch rebuild its committed root and make up its committed count. */
  ghost predicate Rebuilt(cfg: Config, chain: seq<Batch>, rows: seq<Row>, i: nat) {
    var es := Select(rows, InBatch(i));
    i < |chain| && es != [] && GroupRoot(cfg, es) == chain[i].merkleRoot && |es| == chain[i].entryCount
  }

  /** Every batch ever committed is rebuilt by local rows, and no row claims any other batch. */
  ghost predicate Complete(cfg: Config, chain: seq<Batch>, rows: seq<Row>) {
    && (forall i: nat :: i < |chain| ==> Rebuilt(cfg, chain, rows, i))
    && (forall k :: 0 <= k < |rows| && rows[k].batchIndex.Some? ==> rows[k].batchIndex.value < |chain|)
  }

  ghost predicate RowsFine(chain: seq<Batch>, rows: seq<Row>) {
    forall k :: 0 <= k < |rows| && rows[k].batchIndex.Some? ==>
      EntryFine(chain, rows[k].batchIndex.value, rows[k].entry)
  }

  /** The contract never stores a zero count. */
  ghost predicate CountsPositive(chain: seq<Batch>) {
    forall i :: 0 <= i < |chain| ==> chain[i].entryCount > 0
  }

  function WholeLog(rows: seq<Row>): seq<AuditEntry> { Select(rows, Everything()) }

  // ─── Counting ─────────────────────────────────────────────────────────────

  lemma {:induction false} SelectDisjoint(rows: seq<Row>, p: Row -> bool, q: Row -> bool, both: Row -> bool)
    requires forall k :: 0 <= k < |rows| ==> !(p(rows[k]) && q(rows[k])) && (both(rows[k]) <==> p(rows[k]) || q(rows[k]))
    ensures |Select(rows, both)| == |Select(rows, p)| + |Select(rows, q)|
  {
    if rows != [] {
      var front := rows[..|rows| - 1];
      forall k | 0 <= k < |front| ensures front[k] == rows[k] {}
      SelectDisjoint(front, p, q, both);
    }
  }

  /** Below every index, the tagged rows are at most the committed counts; equality means each batch is met. */
  lemma {:induction false} CountsBelow(chain: seq<Batch>, rows: seq<Row>, n: nat)
    requires n <= |chain| && CountsPositive(chain)
    requires forall i: nat :: i < |chain| && Select(rows, InBatch(i)) != [] ==>
               |Select(rows, InBatch(i))| == chain[i].entryCount
    ensures |Select(rows, TaggedBelow(n))| <= SumCounts(chain[..n])
    ensures |Select(rows, TaggedBelow(n))| == SumCounts(chain[..n]) <==>
            forall i: nat :: i < n ==> Select(rows, InBatch(i)) != []
  {
    if n == 0 {
      NoneSelected(rows, TaggedBelow(0));
    } else {
      CountsBelow(chain, rows, n - 1);
      SelectDisjoint(rows, TaggedBelow(n - 1), InBatch(n - 1), TaggedBelow(n));
      assert chain[..n][..n - 1] == chain[..n - 1];
    }
  }

  lemma FiledIsBatch(rows: seq<Row>, i: nat)
    requires UniqueIds(rows)
    ensures FiledUnder(rows, WholeLog(rows), i) == Select(rows, InBatch(i))
  {
    FiledPrefix(rows, i, |rows|);
    assert rows[..|rows|] == rows;
  }

  lemma {:induction false} FiledPrefix(rows: seq<Row>, i: nat, n: nat)
    requires UniqueIds(rows) && n <= |rows|
    ensures FiledUnder(rows, Select(rows[..n], Everything()), i) == Select(rows[..n], InBatch(i))
  {
    if n > 0 {
      assert rows[..n][..n - 1] == rows[..n - 1];
      FiledPrefix(rows, i, n - 1);
      TagOfRow(rows, n - 1);
      var before := Select(rows[..n - 1], Everything());
      assert Select(rows[..n], Everything()) == before + [rows[n - 1].entry];
    }
  }

  /**
   A verification of the whole log with every read answered is clean exactly when the log
   is complete and no anchored row was edited or postdates its batch. So per-batch roots
   and counts plus one total are enough to notice any missing batch.
   */
  lemma CleanIffComplete(cfg: Config, chain: seq<Batch>, rows: seq<Row>)
    requires UniqueIds(rows) && CountsPositive(chain)
    ensures Clean(cfg, chain, rows, WholeLog(rows), true, NOTHING_DOWN) <==>
              Complete(cfg, chain, rows) && RowsFine(chain, rows)
  {
    var es := WholeLog(rows);
    forall i: nat ensures FiledUnder(rows, es, i) == Select(rows, InBatch(i)) { FiledIsBatch(rows, i); }
    assert rows[..|rows|] == rows;
    AnchoredCountIsTagged(rows, |rows|);
    if Clean(cfg, chain, rows, es, true, NOTHING_DOWN) {
      CleanRowsInRange(cfg, chain, rows);
      SameSelection(rows, Tagged(), rows, TaggedBelow(|chain|));
      assert chain[..|chain|] == chain;
      CountsBelow(chain, rows, |chain|);
      forall i: nat | i < |chain| ensures Rebuilt(cfg, chain, rows, i) {
        assert FiledUnder(rows, es, i) != [];
      }
    }
    if Complete(cfg, chain, rows) && RowsFine(chain, rows) {
      SameSelection(rows, Tagged(), rows, TaggedBelow(|chain|));
      assert chain[..|chain|] == chain;
      forall i: nat | Select(rows, InBatch(i)) != []
        ensures BatchClean(cfg, chain, rows, i, Select(rows, InBatch(i)), NOTHING_DOWN)
      {
        CompleteBatchClean(cfg, chain, rows, i);
      }
      CountsBelow(chain, rows, |chain|);
      forall i: nat | i < |chain| ensures Select(rows, InBatch(i)) != [] {
        assert Rebuilt(cfg, chain, rows, i);
      }
      assert SumCounts(chain) == AnchoredCount(rows, es);
    }
  }

  lemma CleanRowsInRange(cfg: Config, chain: seq<Batch>, rows: seq<Row>)
    requires forall i: nat :: Select(rows, InBatch(i)) != [] ==>
               BatchClean(cfg, chain, rows, i, Select(rows, InBatch(i)), NOTHING_DOWN)
    ensures forall k :: 0 <= k < |rows| && rows[k].batchIndex.Some? ==> rows[k].batchIndex.value < |chain|
    ensures RowsFine(chain, rows)
  {
    forall k | 0 <= k < |rows| && rows[k].batchIndex.Some?
      ensures rows[k].batchIndex.value < |chain| && EntryFine(chain, rows[k].batchIndex.value, rows[k].entry)
    {
      var i := rows[k].batchIndex.value;
      assert InBatch(i)(rows[k]);
      SelectedIff(rows, InBatch(i), rows[k].entry);
      assert BatchClean(cfg, chain, rows, i, Select(rows, InBatch(i)), NOTHING_DOWN);
    }
  }

  lemma CompleteBatchClean(cfg: Config, chain: seq<Batch>, rows: seq<Row>, i: nat)
    requires Complete(cfg, chain, rows) && RowsFine(chain, rows) && Select(rows, InBatch(i)) != []
    ensures BatchClean(cfg, chain, rows, i, Select(rows, InBatch(i)), NOTHING_DOWN)
  {
    var es := Select(rows, InBatch(i));
    forall e | e in es ensures i < |chain| && EntryFine(chain, i, e) {
      SelectedIff(rows, InBatch(i), e);
      var k :| 0 <= k < |rows| && InBatch(i)(rows[k]) && rows[k].entry == e;
    }
    assert es[0] in es;
    assert Rebuilt(cfg, chain, rows, i);
  }

  /**
   A clean whole-log verification means nothing is missing: for every batch the operator
   ever committed, the local rows carry exactly the multiset of leaves under its root.
   */
  lemma CleanMeansNothingMissing(cfg: Config, chain: seq<Batch>, rows: seq<Row>, i: nat)
    requires UniqueIds(rows) && CountsPositive(chain) && i < |chain|
    requires Clean(cfg, chain, rows, WholeLog(rows), true, NOTHING_DOWN)
    ensures multiset(LeafHashes(Select(rows, InBatch(i)), cfg.ctx)) == Bottom(chain[i].merkleRoot)
  {
    CleanIffComplete(cfg, chain, rows);
    assert Rebuilt(cfg, chain, rows, i);
    GroupRootFixesLeaves(cfg, Select(rows, InBatch(i)));
  }

  /**
   What a zero exit code over the whole log proves, whichever batches could not be read:
   every committed batch is rebuilt by local rows, no row claims any other, and each
   batch's rows carry exactly the leaves under its root.
   */
  lemma ExitZeroMeansComplete(log: AuditLogger, down: Outage)
    requires log.Valid() && log.anchor != null
    requires Clean(log.Cfg(), log.Chain(), log.store.rows, log.store.List(None), true, down)
    ensures Complete(log.Cfg(), log.Chain(), log.store.rows) && RowsFine(log.Chain(), log.store.rows)
    ensures forall i: nat :: i < |log.Chain()| ==>
      multiset(LeafHashes(Select(log.store.rows, InBatch(i)), log.Cfg().ctx)) == Bottom(log.Chain()[i].merkleRoot)
  {
    var cfg, chain, rows := log.Cfg(), log.Chain(), log.store.rows;
    assert chain == log.anchor.State().Of(log.operator);
    assert CountsPositive(chain);
    ReadableIsClean(cfg, chain, rows, WholeLog(rows), down);
    CleanIffComplete(cfg, chain, rows);
    forall i: nat | i < |chain|
      ensures multiset(LeafHashes(Select(rows, InBatch(i)), cfg.ctx)) == Bottom(chain[i].merkleRoot)
    {
      CleanMeansNothingMissing(cfg, chain, rows, i);
    }
  }

  /** A report that is clean despite unreadable batches is clean without them. */
  lemma ReadableIsClean(cfg: Config, chain: seq<Batch>, rows: seq<Row>, es: seq<AuditEntry>,
                                           down: Outage)
    requires Clean(cfg, chain, rows, es, true, down)
    ensures Clean(cfg, chain, rows, es, true, NOTHING_DOWN)
  {
    forall i: nat | FiledUnder(rows, es, i) != []
      ensures BatchClean(cfg, chain, rows, i, FiledUnder(rows, es, i), NOTHING_DOWN)
    {
      assert BatchClean(cfg, chain, rows, i, FiledUnder(rows, es, i), down);
    }
  }

  /** Removing any one anchored row from a complete log is always noticed. */
  lemma DeletionNoticed(cfg: Config, chain: seq<Batch>, rows: seq<Row>, k: nat)
    requires UniqueIds(rows) && CountsPositive(chain) && Complete(cfg, chain, rows)
    requires k < |rows| && rows[k].batchIndex.Some?
    ensures var left := rows[..k] + rows[k + 1..];
            !Clean(cfg, chain, left, WholeLog(left), true, NOTHING_DOWN)
  {
    var left := rows[..k] + rows[k + 1..];
    var i := rows[k].batchIndex.value;
    assert Rebuilt(cfg, chain, rows, i);
    CleanIffComplete(cfg, chain, left);
    SelectSplit(rows, k, InBatch(i));
    assert |Select(left, InBatch(i))| != chain[i].entryCount;
    assert !Rebuilt(cfg, chain, left, i);
  }

  lemma {:induction false} SelectConcat(a: seq<Row>, b: seq<Row>, p: Row -> bool)
    ensures Select(a + b, p) == Select(a, p) + Select(b, p)
  {
    if b == [] {
      assert a + b == a;
    } else {
      var front := b[..|b| - 1];
      assert (a + b)[..|a + b| - 1] == a + front;
      SelectConcat(a, front, p);
    }
  }

  lemma SelectSplit(rows: seq<Row>, k: nat, p: Row -> bool)
    requires k < |rows|
    ensures |Select(rows, p)| == |Select(rows[..k] + rows[k + 1..], p)| + if p(rows[k]) then 1 else 0
  {
    assert rows == (rows[..k] + [rows[k]]) + rows[k + 1..];
    SelectConcat(rows[..k] + [rows[k]], rows[k + 1..], p);
    SelectAppend(rows[..k], rows[k], p);
    SelectConcat(rows[..k], rows[k + 1..], p);
  }

  // ─── What keeps the log complete ──────────────────────────────────────────

  /** With all tags matching the chain there is nothing to reconcile. */
  lemma NothingToReconcile(chain: seq<Batch>, rows: seq<Row>)
    requires Paired(rows) && TagsMatch(chain, rows)
    ensures Reconciled(chain, rows).rows == rows && Reconciled(chain, rows).released == 0
  {
    ReconcileExact(chain, rows);
    var out := Reconciled(chain, rows);
    forall k | 0 <= k < |rows| ensures out.rows[k] == rows[k] {
      forall j | 0 <= j < |rows| ensures !StaleAt(chain, rows[j], rows[k]) {}
    }
    assert out.rows == rows;
  }

  /** Every batch the chain holds is rebuilt by the rows left tagged with it. */
  ghost predicate AllRebuilt(cfg: Config, chain: seq<Batch>, rows: seq<Row>) {
    forall i: nat :: i < |chain| ==> Rebuilt(cfg, chain, rows, i)
  }

  /** A flush leaves the log complete exactly if every batch before it was rebuilt. */
  lemma FlushCompletesIff(cfg: Config, chain: seq<Batch>, rows: seq<Row>, now: nat)
    requires TableOk(cfg, rows) && TagsMatch(chain, rows)
    ensures var (rows', chain') := Flushed(cfg, chain, rows, now);
            Complete(cfg, chain', rows') <==> AllRebuilt(cfg, chain, rows)
  {
    var (rows', chain') := Flushed(cfg, chain, rows, now);
    FlushCompletes(cfg, chain, rows, now);
    if Select(rows, Untagged()) != [] {
      forall i: nat | i <= |chain| ensures i < |chain| ==> (Rebuilt(cfg, chain', rows', i) <==> Rebuilt(cfg, chain, rows, i))
        ensures i == |chain| ==> Rebuilt(cfg, chain', rows', i)
      {
        FlushedBatch(cfg, chain, rows, now, i);
      }
    }
  }

  /**
   Exactly when a tick brings the log back to completeness, from any table the protocol can
   reach and any chain: every batch of the chain must be rebuilt by the rows the reconcile
   leaves tagged with it.
   */
  lemma TickCompletesIff(cfg: Config, chain: seq<Batch>, rows: seq<Row>, now: nat)
    requires TableOk(cfg, rows)
    ensures var (rows', chain') := Ticked(cfg, chain, rows, now);
            Complete(cfg, chain', rows') <==> AllRebuilt(cfg, chain, Reconciled(chain, rows).rows)
  {
    ReconcileExact(chain, rows);
    SweepKeepsTable(cfg, chain, SweepState(rows, [], 0), AnchoredPairs(rows));
    FlushCompletesIff(cfg, chain, Reconciled(chain, rows).rows, now);
  }

  /** So with durable tags only a batch without rows stands in the way, and ticks keep a complete log complete. */
  lemma TickKeepsComplete(cfg: Config, chain: seq<Batch>, rows: seq<Row>, now: nat)
    requires TableOk(cfg, rows) && TagsMatch(chain, rows)
    ensures var (rows', chain') := Ticked(cfg, chain, rows, now);
            && TagsMatch(chain', rows') && AllTagged(rows')
            && (Complete(cfg, chain', rows') <==> Complete(cfg, chain, rows))
  {
    NothingToReconcile(chain, rows);
    TickCompletesIff(cfg, chain, rows, now);
    FlushCompletes(cfg, chain, rows, now);
    forall k | 0 <= k < |rows| && rows[k].batchIndex.Some? ensures rows[k].batchIndex.value < |chain| {
      assert OnChain(chain, rows[k].batchIndex.value, rows[k].batchRoot.value);
    }
  }

  /** What a flush files where: the pending rows under the new index, all others as before. */
  lemma FlushedBatch(cfg: Config, chain: seq<Batch>, rows: seq<Row>, now: nat, i: nat)
    requires UniqueIds(rows) && TagsMatch(chain, rows) && Select(rows, Untagged()) != [] && i <= |chain|
    ensures Select(Flushed(cfg, chain, rows, now).0, InBatch(i)) ==
            Select(rows, if i < |chain| then InBatch(i) else Untagged())
  {
    var pending, rows' := Select(rows, Untagged()), Flushed(cfg, chain, rows, now).0;
    var was := if i < |chain| then InBatch(i) else Untagged();
    SelectByIds(rows, Untagged());
    forall k | 0 <= k < |rows| ensures InBatch(i)(rows'[k]) == was(rows[k]) && rows'[k].entry == rows[k].entry {
      assert rows'[k] == MarkRow(rows[k], Ids(pending), |chain|, GroupRoot(cfg, pending));
      assert rows[k].entry.id in Ids(pending) <==> Untagged()(rows[k]);
    }
    SameSelection(rows, was, rows', InBatch(i));
  }

  // ─── What can never be clean again ────────────────────────────────────────

  /** A durable batch that no row of process `p` claims and no flush of it is about to claim. */
  ghost predicate Orphan(w: World, p: nat, i: nat) {
    && p < |w.procs| && i < |w.chain| && w.chain[i].block <= w.safe
    && (forall k :: 0 <= k < |w.procs[p].rows| ==> w.procs[p].rows[k].batchIndex != Some(i))
    && (w.procs[p].flight.Landed? ==> w.procs[p].flight.index != i)
  }

  lemma StepKeepsOrphan(cfg: Config, w: World, a: Action, p: nat, i: nat)
    requires Orphan(w, p, i)
    ensures Orphan(Step(cfg, w, a), p, i)
  {
    var w' := Step(cfg, w, a);
    var rows, rows' := w.procs[p].rows, w'.procs[p].rows;
    forall k | 0 <= k < |rows'| ensures rows'[k].batchIndex != Some(i) {
      if k < |rows| { assert rows[k].batchIndex != Some(i); }
    }
  }

  /** What no step can undo: row ids are unique, and no count on chain is zero. */
  ghost predicate SoundWorld(w: World) {
    && (forall p :: 0 <= p < |w.procs| ==> UniqueIds(w.procs[p].rows)) && CountsPositive(Batches(w.chain))
  }

  lemma StepKeepsSound(cfg: Config, w: World, a: Action)
    requires SoundWorld(w)
    ensures SoundWorld(Step(cfg, w, a))
  {
    var w' := Step(cfg, w, a);
    forall p | 0 <= p < |w'.procs| ensures UniqueIds(w'.procs[p].rows) {
      RowsKeepIds(cfg, w, a, p);
      AddedIdUnique(w.procs[p].rows, w'.procs[p].rows);
    }
    StepKeepsCounts(cfg, w, a);
  }

  lemma StepKeepsCounts(cfg: Config, w: World, a: Action)
    requires CountsPositive(Batches(w.chain))
    ensures CountsPositive(Batches(Step(cfg, w, a).chain))
  {
    var w' := Step(cfg, w, a);
    forall i | 0 <= i < |w'.chain| ensures Batches(w'.chain)[i].entryCount > 0 {
      if i < |w.chain| { assert Batches(w.chain)[i].entryCount > 0 && w'.chain[i] == w.chain[i]; }
    }
  }

  /** The same entries in their places, and maybe one more under a new id. */
  ghost predicate SameOrOneNew(rows: seq<Row>, rows': seq<Row>) {
    && |rows| <= |rows'| <= |rows| + 1
    && (forall k :: 0 <= k < |rows| ==> rows'[k].entry == rows[k].entry)
    && (|rows'| > |rows| ==> !HasId(rows, rows'[|rows|].entry.id))
  }

  lemma RowsKeepIds(cfg: Config, w: World, a: Action, p: nat)
    requires p < |w.procs|
    ensures SameOrOneNew(w.procs[p].rows, Step(cfg, w, a).procs[p].rows)
  {
  }

  lemma AddedIdUnique(rows: seq<Row>, rows': seq<Row>)
    requires UniqueIds(rows) && SameOrOneNew(rows, rows')
    ensures UniqueIds(rows')
  {
  }

  lemma {:induction false} RunKeepsSound(cfg: Config, w: World, acts: seq<Action>)
    requires SoundWorld(w)
    ensures SoundWorld(Run(cfg, w, acts))
    decreases |acts|
  {
    if acts != [] {
      StepKeepsSound(cfg, w, acts[0]);
      RunKeepsSound(cfg, Step(cfg, w, acts[0]), acts[1..]);
    }
  }

  lemma {:induction false} RunKeepsOrphan(cfg: Config, w: World, acts: seq<Action>, p: nat, i: nat)
    requires Orphan(w, p, i)
    ensures Orphan(Run(cfg, w, acts), p, i)
    decreases |acts|
  {
    if acts != [] {
      StepKeepsOrphan(cfg, w, acts[0], p, i);
      RunKeepsOrphan(cfg, Step(cfg, w, acts[0]), acts[1..], p, i);
    }
  }

  lemma OrphanIsNotClean(cfg: Config, w: World, p: nat, i: nat)
    requires Orphan(w, p, i) && SoundWorld(w)
    ensures !Clean(cfg, Batches(w.chain), w.procs[p].rows, WholeLog(w.procs[p].rows), true, NOTHING_DOWN)
  {
    var rows := w.procs[p].rows;
    NoneSelected(rows, InBatch(i));
    assert !Rebuilt(cfg, Batches(w.chain), rows, i);
    CleanIffComplete(cfg, Batches(w.chain), rows);
  }

  /**
   A crash between landing and tagging, or a commit by another process under the same key,
   leaves a batch this log can never account for: once such a batch has become durable, at
   any point of any run from deployment, it stays, and whatever anyone does from then on no
   whole-log verification of that table is ever clean.
   */
  lemma OrphanForever(cfg: Config, processes: nat, safe: nat, before: seq<Action>, after: seq<Action>, p: nat, i: nat)
    requires Orphan(Run(cfg, FreshWorld(processes, safe), before), p, i)
    ensures var w := Run(cfg, FreshWorld(processes, safe), before + after);
            && Orphan(w, p, i)
            && !Clean(cfg, Batches(w.chain), w.procs[p].rows, WholeLog(w.procs[p].rows), true, NOTHING_DOWN)
  {
    var start := FreshWorld(processes, safe);
    RunConcat(cfg, start, before, after);
    RunKeepsOrphan(cfg, Run(cfg, start, before), after, p, i);
    RunKeepsSound(cfg, start, before + after);
    OrphanIsNotClean(cfg, Run(cfg, start, before + after), p, i);
  }

  /** How an orphan arises: the process dies after its commit landed and became durable. */
  lemma CrashAfterLandingOrphans(cfg: Config, w: World, p: nat)
    requires p < |w.procs| && w.procs[p].flight.Landed?
    requires var i := w.procs[p].flight.index;
             i < |w.chain| && w.chain[i].block <= w.safe
             && forall k :: 0 <= k < |w.procs[p].rows| ==> w.procs[p].rows[k].batchIndex != Some(i)
    ensures Orphan(Step(cfg, w, Crash(p)), p, w.procs[p].flight.index)
  {
  }

  /** One entry is recorded, its commit lands in block 5 and becomes durable, and the process dies untagged. */
  function CrashBeforeTagging(e: AuditEntry): seq<Action> {
    [Record(0, e), Snapshot(0), ReadHead(0, Zero), Commit(0, 1, 5), Finalize(5), Crash(0)]
  }

  /** And it does arise: this run from deployment leaves batch zero an orphan. */
  lemma CrashOrphansFirstBatch(cfg: Config, e: AuditEntry)
    ensures Orphan(Run(cfg, FreshWorld(1, 3), CrashBeforeTagging(e)), 0, 0)
  {
    var acts := CrashBeforeTagging(e);
    var w1 := Step(cfg, FreshWorld(1, 3), acts[0]);
    assert [] + [Row(e, None, None)] == [Row(e, None, None)];
    assert w1 == OneRow(e);
    var w2 := Step(cfg, w1, acts[1]);
    var w3 := Step(cfg, w2, acts[2]);
    var w4 := Step(cfg, w3, acts[3]);
    FirstCommitLands(cfg, e, w2, w3, w4);
    var w5 := Step(cfg, w4, acts[4]);
    CrashAfterLandingOrphans(cfg, w5, 0);
    SixSteps(cfg, FreshWorld(1, 3), acts, w1, w2, w3, w4, w5, Step(cfg, w5, acts[5]));
  }
}
