/**
 Recovery: whatever crashes and reorgs a run went through, one undisturbed anchoring tick
 leaves every row tagged and every proof accepted by the contract.
 */
module AnchorRecovery {
  import opened Powers
  import opened Types
  import opened Merkle
  import opened AuditBatch
  import opened AuditStore
  import opened AnchorContract
  import opened Sweep
  import opened AnchorProtocol

  // ─── The tick on values ───────────────────────────────────────────────────

  /** Table and chain after an undisturbed flush: all untagged rows become one new batch. */
  function Flushed(cfg: Config, chain: seq<Batch>, rows: seq<Row>, now: nat): (seq<Row>, seq<Batch>) {
    var pending := Select(rows, Untagged());
    if pending == [] then (rows, chain)
    else
      var root := GroupRoot(cfg, pending);
      (Mark(rows, Ids(pending), |chain|, root), chain + [Batch(root, now, |pending|)])
  }

  /** Reconcile, then flush. */
  function Ticked(cfg: Config, chain: seq<Batch>, rows: seq<Row>, now: nat): (seq<Row>, seq<Batch>) {
    Flushed(cfg, chain, Reconciled(chain, rows).rows, now)
  }

  /** Every tagged row names a root the chain holds at its index. */
  ghost predicate TagsMatch(chain: seq<Batch>, rows: seq<Row>) {
    forall k :: 0 <= k < |rows| && rows[k].batchIndex.Some? ==>
      rows[k].batchRoot.Some? && OnChain(chain, rows[k].batchIndex.value, rows[k].batchRoot.value)
  }

  ghost predicate AllTagged(rows: seq<Row>) {
    forall k :: 0 <= k < |rows| ==> rows[k].batchIndex.Some?
  }

  /** The proof of the j-th entry of a group, from the tree built over the group. */
  function GroupProof(cfg: Config, es: seq<AuditEntry>, j: nat): seq<Hash>
    requires j < |es|
  {
    ProofFor(cfg.word, cfg.lib, LeafHashes(es, cfg.ctx), j)
  }

  lemma GroupProofFolds(cfg: Config, es: seq<AuditEntry>, j: nat)
    requires CollisionFree(cfg.word) && j < |es| <= Pow2(MAX_PROOF_LENGTH)
    ensures Fold(cfg.word, LeafOf(es[j], cfg.ctx), GroupProof(cfg, es, j)) == GroupRoot(cfg, es)
    ensures |GroupProof(cfg, es, j)| <= MAX_PROOF_LENGTH
  {
    BuiltProof(cfg.word, cfg.lib, LeafHashes(es, cfg.ctx), j);
  }

  /** Each row's proof, extracted from the tree rebuilt over its batch, passes the contract's check. */
  ghost predicate AllProvable(cfg: Config, chain: seq<Batch>, rows: seq<Row>) {
    forall i, j {:trigger Select(rows, InBatch(i))[j]} :: 0 <= i && 0 <= j < |Select(rows, InBatch(i))| ==>
      var es := Select(rows, InBatch(i));
      VerifyIn(cfg.word, chain, i, LeafOf(es[j], cfg.ctx), GroupProof(cfg, es, j))
  }

  lemma {:induction false} SweepKeepsTable(cfg: Config, chain: seq<Batch>, s: SweepState, pairs: seq<(nat, Hash)>)
    requires TableOk(cfg, s.rows)
    ensures TableOk(cfg, SweepAll(chain, s, pairs).rows)
    decreases |pairs|
  {
    if pairs != [] {
      ReleaseKeeps(cfg, s.rows, pairs[0].0);
      SweepKeepsTable(cfg, chain, SweepOne(chain, s, pairs[0]), pairs[1..]);
    }
  }

  lemma {:induction false} SelectBound(rows: seq<Row>, p: Row -> bool)
    ensures |Select(rows, p)| <= |rows|
  {
    if rows != [] { SelectBound(rows[..|rows| - 1], p); }
  }

  /** When every tag matches the chain, a batch holds one group, so its proofs fold to the chain's root. */
  lemma MatchedIsProvable(cfg: Config, chain: seq<Batch>, rows: seq<Row>, i: nat, j: nat)
    requires CollisionFree(cfg.word) && TableOk(cfg, rows) && TagsMatch(chain, rows)
    requires |rows| <= Pow2(MAX_PROOF_LENGTH) && j < |Select(rows, InBatch(i))|
    ensures var es := Select(rows, InBatch(i));
            VerifyIn(cfg.word, chain, i, LeafOf(es[j], cfg.ctx), GroupProof(cfg, es, j))
    ensures i < |chain| && GroupRoot(cfg, Select(rows, InBatch(i))) == chain[i].merkleRoot
  {
    var es := Select(rows, InBatch(i));
    SelectedIff(rows, InBatch(i), es[j]);
    var k :| 0 <= k < |rows| && InBatch(i)(rows[k]) && rows[k].entry == es[j];
    assert OnChain(chain, i, rows[k].batchRoot.value);
    var root := chain[i].merkleRoot;
    SameSelection(rows, InBatch(i), rows, InGroup(i, root));
    assert GroupRoot(cfg, Select(rows, InGroup(i, root))) == root;
    SelectBound(rows, InBatch(i));
    GroupProofFolds(cfg, es, j);
  }

  lemma FlushCompletes(cfg: Config, chain: seq<Batch>, rows: seq<Row>, now: nat)
    requires TableOk(cfg, rows) && TagsMatch(chain, rows)
    ensures var (rows', chain') := Flushed(cfg, chain, rows, now);
            && |rows'| == |rows| && TableOk(cfg, rows') && TagsMatch(chain', rows') && AllTagged(rows')
            && chain <= chain'
            && (forall k :: 0 <= k < |rows| ==>
                  rows'[k].entry == rows[k].entry && (rows[k].batchIndex.Some? ==> rows'[k] == rows[k]))
  {
    var pending := Select(rows, Untagged());
    NoneSelected(rows, Untagged());
    if pending != [] {
      SnapshotOk(cfg, rows);
      var ids, root := Ids(pending), GroupRoot(cfg, pending);
      TagKeeps(cfg, rows, ids, |chain|, root, |pending|);
      SelectByIds(rows, Untagged());
      var rows' := Mark(rows, ids, |chain|, root);
      forall k | 0 <= k < |rows|
        ensures rows'[k] == if rows[k].batchIndex.None? then Row(rows[k].entry, Some(|chain|), Some(root)) else rows[k]
      {
        assert rows[k].entry.id in ids <==> Untagged()(rows[k]);
      }
    }
  }

  /**
   Recovery on values: from any table the protocol can reach and any chain at all, one tick
   leaves every row tagged, every proof accepted, earlier good tags untouched, and the
   reported release count equal to the number of rows it un-tagged.
   */
  lemma TickRecovers(cfg: Config, chain: seq<Batch>, rows: seq<Row>, now: nat)
    requires CollisionFree(cfg.word) && TableOk(cfg, rows) && |rows| <= Pow2(MAX_PROOF_LENGTH)
    ensures var (rows', chain') := Ticked(cfg, chain, rows, now);
            && |rows'| == |rows| && TableOk(cfg, rows') && AllTagged(rows')
            && TagsMatch(chain', rows') && AllProvable(cfg, chain', rows') && chain <= chain'
            && (forall k :: 0 <= k < |rows| ==> rows'[k].entry == rows[k].entry)
    ensures Reconciled(chain, rows).released ==
            |Select(Reconciled(chain, rows).rows, Untagged())| - |Select(rows, Untagged())|
  {
    ReconcileExact(chain, rows);
    SweepKeepsTable(cfg, chain, SweepState(rows, [], 0), AnchoredPairs(rows));
    var mid := Reconciled(chain, rows).rows;
    FlushCompletes(cfg, chain, mid, now);
    var (rows', chain') := Flushed(cfg, chain, mid, now);
    forall i, j | 0 <= i && 0 <= j < |Select(rows', InBatch(i))|
      ensures var es := Select(rows', InBatch(i));
              VerifyIn(cfg.word, chain', i, LeafOf(es[j], cfg.ctx), GroupProof(cfg, es, j))
    {
      MatchedIsProvable(cfg, chain', rows', i, j);
    }
  }

  // ─── The tick as steps ────────────────────────────────────────────────────

  /** The reconcile half of a tick with nothing happening in between. */
  function SweepActions(p: nat, n: nat): seq<Action> {
    if n == 0 then [] else [ReconcileOne(p)] + SweepActions(p, n - 1)
  }

  /** The flush half: snapshot, read the true head, commit, become durable, tag. */
  function FlushActions(w: World, p: nat, now: nat, block: nat): seq<Action> {
    [Snapshot(p), ReadHead(p, LastRoot(Batches(w.chain))), Commit(p, now, block), Finalize(block), Tag(p)]
  }

  function TickActions(w: World, p: nat, now: nat, block: nat): seq<Action>
    requires p < |w.procs|
  {
    [StartTick(p)] + SweepActions(p, |AnchoredPairs(w.procs[p].rows)|) + FlushActions(w, p, now, block)
  }

  /** Stepwise reconciling, undisturbed, is the sweep. */
  lemma {:induction false} SweepSteps(cfg: Config, w: World, p: nat)
    requires p < |w.procs| && w.procs[p].flight.Reconciling?
    ensures var f := w.procs[p].flight;
            var s := SweepAll(Batches(w.chain), SweepState(w.procs[p].rows, f.stale, f.released), f.pending);
            Run(cfg, w, SweepActions(p, |f.pending|)) == Put(w, p, Proc(s.rows, Reconciling([], s.stale, s.released)))
    decreases |w.procs[p].flight.pending|
  {
    var f := w.procs[p].flight;
    var acts := SweepActions(p, |f.pending|);
    if f.pending == [] {
      assert w.procs[p := w.procs[p]] == w.procs;
    } else {
      var w' := Step(cfg, w, acts[0]);
      assert acts[1..] == SweepActions(p, |f.pending| - 1);
      SweepSteps(cfg, w', p);
    }
  }

  /** Stepwise flushing, undisturbed, is the flush. */
  lemma FlushSteps(cfg: Config, w: World, p: nat, now: nat, block: nat)
    requires p < |w.procs| && Includable(w, block)
    requires w.procs[p].flight.Idle? || (w.procs[p].flight.Reconciling? && w.procs[p].flight.pending == [])
    ensures var w' := Run(cfg, w, FlushActions(w, p, now, block));
            |w'.procs| == |w.procs| && w'.procs[p].flight.Idle?
            && (w'.procs[p].rows, Batches(w'.chain)) == Flushed(cfg, Batches(w.chain), w.procs[p].rows, now)
  {
    var acts := FlushActions(w, p, now, block);
    var rows, chain := w.procs[p].rows, Batches(w.chain);
    var pending := Select(rows, Untagged());
    var w1 := Step(cfg, w, acts[0]);
    var w2 := Step(cfg, w1, acts[1]);
    var w3 := Step(cfg, w2, acts[2]);
    var w4 := Step(cfg, w3, acts[3]);
    var w5 := Step(cfg, w4, acts[4]);
    FiveSteps(cfg, w, acts, w1, w2, w3, w4, w5);
    if pending != [] {
      CommitLands(cfg, w, p, now, block, w1, w2, w3);
      TagFollows(cfg, w3, p, w4, w5);
      var root := GroupRoot(cfg, pending);
      assert Batches(w.chain + [Mined(Batch(root, now, |pending|), block)]) == chain + [Batch(root, now, |pending|)];
    }
  }

  /** Snapshot, the true head, and the commit it names: the batch lands on top of the chain. */
  lemma CommitLands(cfg: Config, w: World, p: nat, now: nat, block: nat, w1: World, w2: World,
      w3: World)
    requires p < |w.procs| && Includable(w, block) && Select(w.procs[p].rows, Untagged()) != []
    requires w.procs[p].flight.Idle? || (w.procs[p].flight.Reconciling? && w.procs[p].flight.pending == [])
    requires w1 == Step(cfg, w, Snapshot(p)) && w2 == Step(cfg, w1, ReadHead(p, LastRoot(Batches(w.chain))))
    requires w3 == Step(cfg, w2, Commit(p, now, block))
    ensures var pending, chain := Select(w.procs[p].rows, Untagged()), Batches(w.chain);
            var root := GroupRoot(cfg, pending);
            && |w3.procs| == |w.procs| && w3.safe == w.safe
            && w3.procs[p] == Proc(w.procs[p].rows, Landed(Ids(pending), root, LastRoot(chain), |chain|, block))
            && w3.chain == w.chain + [Mined(Batch(root, now, |pending|), block)]
  {
    var pending, chain := Select(w.procs[p].rows, Untagged()), Batches(w.chain);
    var root := GroupRoot(cfg, pending);
    GroupRootFixesLeaves(cfg, pending);
    assert w1.procs[p] == Proc(w.procs[p].rows, Built(Ids(pending), root, |pending|)) && w1.chain == w.chain;
    assert w2.procs[p] == Proc(w.procs[p].rows, Named(Ids(pending), root, |pending|, LastRoot(chain))) && w2.chain == w.chain;
    assert Accepts(chain, LastRoot(chain), root, |pending|);
  }

  /** Once its block is durable, a landed batch is tagged on the rows it was built from. */
  lemma TagFollows(cfg: Config, w3: World, p: nat, w4: World, w5: World)
    requires p < |w3.procs| && w3.procs[p].flight.Landed?
    requires w4 == Step(cfg, w3, Finalize(w3.procs[p].flight.block)) && w5 == Step(cfg, w4, Tag(p))
    ensures |w5.procs| == |w3.procs| && w5.chain == w3.chain
    ensures var f := w3.procs[p].flight; w5.procs[p] == Proc(Mark(w3.procs[p].rows, f.ids, f.index, f.root), Idle)
  {
    assert w4.procs == w3.procs && MayTag(cfg, w4, p);
  }

  lemma FiveSteps(cfg: Config, w: World, acts: seq<Action>, w1: World, w2: World, w3: World,
      w4: World, w5: World)
    requires |acts| == 5
    requires w1 == Step(cfg, w, acts[0]) && w2 == Step(cfg, w1, acts[1]) && w3 == Step(cfg, w2, acts[2])
    requires w4 == Step(cfg, w3, acts[3]) && w5 == Step(cfg, w4, acts[4])
    ensures Run(cfg, w, acts) == w5
  {
    assert acts[1..][0] == acts[1] && acts[1..][1..] == acts[2..];
    assert acts[2..][0] == acts[2] && acts[2..][1..] == acts[3..];
    assert acts[3..][0] == acts[3] && acts[3..][1..] == acts[4..];
    assert acts[4..][0] == acts[4] && acts[4..][1..] == [];
    assert Run(cfg, w4, acts[4..]) == w5;
    assert Run(cfg, w3, acts[3..]) == w5;
    assert Run(cfg, w2, acts[2..]) == w5;
    assert Run(cfg, w1, acts[1..]) == w5;
  }

  /**
   Recovery in the protocol: take any run of any number of processes, with any crashes,
   reorgs and foreign commits. If one process then ticks undisturbed, all its rows end up
   tagged and provable on the chain as it then stands.
   */
  lemma RecoveryAfterAnyRun(cfg: Config, w0: World, acts: seq<Action>, p: nat, now: nat, block: nat)
    requires CollisionFree(cfg.word) && ProcsOk(cfg, w0) && NoTwins(cfg, w0, acts)
    requires var w := Run(cfg, w0, acts);
             p < |w.procs| && w.procs[p].flight.Idle? && Includable(w, block) && |w.procs[p].rows| <= Pow2(MAX_PROOF_LENGTH)
    ensures var w := Run(cfg, w0, acts);
            var w' := Run(cfg, w, TickActions(w, p, now, block));
            && p < |w'.procs| && w'.procs[p].flight.Idle? && |w'.procs[p].rows| == |w.procs[p].rows|
            && AllTagged(w'.procs[p].rows) && TagsMatch(Batches(w'.chain), w'.procs[p].rows)
            && AllProvable(cfg, Batches(w'.chain), w'.procs[p].rows)
  {
    GroupsAlwaysRebuild(cfg, w0, acts);
    var w := Run(cfg, w0, acts);
    var rows, chain := w.procs[p].rows, Batches(w.chain);
    var pairs := AnchoredPairs(rows);
    var start, flush := [StartTick(p)], FlushActions(w, p, now, block);
    var w1 := Step(cfg, w, StartTick(p));
    assert Run(cfg, w, start) == w1 by { assert start[1..] == []; }
    SweepSteps(cfg, w1, p);
    var w2 := Run(cfg, w1, SweepActions(p, |pairs|));
    RunConcat(cfg, w, start, SweepActions(p, |pairs|));
    RunConcat(cfg, w, start + SweepActions(p, |pairs|), flush);
    assert w2.chain == w.chain;
    FlushSteps(cfg, w2, p, now, block);
    TickRecovers(cfg, chain, rows, now);
  }
}
