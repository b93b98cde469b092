/**
 The logger: records entries, anchors the untagged ones, reconciles tags with the chain
 and rebuilds proofs. Its methods run here without interference; the step system covers
 what may happen between their awaits.
 */
module AuditLog {
  import opened Text
  import opened Types
  import opened Merkle
  import opened AuditBatch
  import opened AuditStore
  import opened AnchorContract
  import opened Sweep
  import opened AnchorProtocol
  import opened AnchorRecovery

  /** How the commit call ends: normally, without a transaction, or by an error after it landed. */
  datatype Fate = Works | NotSent | LostAfterLanding

  datatype Outcome<+T> = Returned(value: T) | Threw

  datatype FlushResult = FlushResult(batchIndex: nat, root: Hash, entryCount: nat)

  datatype ReconcileResult = ReconcileResult(staleBatches: seq<nat>, releasedEntries: nat)

  datatype EntryProof = EntryProof(
    batchIndex: nat,
    leaf: Hash,
    proof: seq<Hash>,
    localRoot: Hash,
    fields: LeafFields,
    storedHashMatches: bool)

  function FieldsOf(e: AuditEntry): LeafFields {
    LeafFields(e.agentId, e.timestamp, Lower(e.request.recipient), VerdictNum(e.decision.verdict), RecomputeHash(e))
  }

  /** The proof of the j-th entry of a rebuilt batch. */
  function ProofOf(cfg: Config, es: seq<AuditEntry>, index: nat, j: nat): EntryProof
    requires j < |es|
  {
    EntryProof(index, LeafOf(es[j], cfg.ctx), GroupProof(cfg, es, j),
               GroupRoot(cfg, es), FieldsOf(es[j]), Intact(es[j]))
  }

  /** The contract re-derives the very leaf the client built from an entry's fields. */
  lemma FieldsGiveLeaf(e: AuditEntry, ctx: LeafContext)
    ensures LeafHash(ctx, FieldsOf(e)) == LeafOf(e, ctx)
  {
  }

  /** The chain and table a flush leaves, by how its commit call ends. */
  function FlushEffect(cfg: Config, chain: seq<Batch>, rows: seq<Row>, now: nat, fate: Fate): (seq<Row>, seq<Batch>) {
    match fate
    case Works => Flushed(cfg, chain, rows, now)
    case NotSent => (rows, chain)
    case LostAfterLanding => (rows, Flushed(cfg, chain, rows, now).1)
  }

  class AuditLogger {
    const store: SqliteAuditStore
    const anchor: AuditAnchor?
    const operator: Account
    const lib: TreeLibrary
    var anchoring: bool

    ghost predicate Valid()
      reads this, store, anchor
    {
      store.Valid() && (anchor != null ==> anchor.Valid())
    }

    function Cfg(): Config
      requires anchor != null
    {
      Config(anchor.word, lib, anchor.Context(operator), true)
    }

    /** The operator's own batches on chain. */
    function Chain(): seq<Batch>
      requires anchor != null
      reads anchor
    {
      anchor.State().Of(operator)
    }

    constructor (store: SqliteAuditStore, anchor: AuditAnchor?, operator: Account, lib: TreeLibrary)
      ensures this.store == store && this.anchor == anchor && this.operator == operator && this.lib == lib
      ensures !anchoring
    {
      this.store, this.anchor, this.operator, this.lib, anchoring := store, anchor, operator, lib, false;
    }

    /** Build the entry, hash it and insert it untagged; `id` is the fresh random id. */
    method Record(req: PaymentRequest, decision: PolicyDecision, settlement: Option<Settlement>, id: string, now: nat)
      returns (entry: AuditEntry)
      requires Valid() && !HasId(store.rows, id)
      modifies store
      ensures Valid() && Intact(entry) && entry.id == id && entry.timestamp == now && entry.agentId == req.agentId
      ensures entry.request == req && entry.decision == decision && entry.settlement == settlement
      ensures store.rows == old(store.rows) + [Row(entry, None, None)]
    {
      entry := AuditEntry(id, now, req.agentId, req, decision, settlement, HashEntry(req, decision, settlement));
      var _ := store.Insert(entry);
    }

    method BuildBatch(rows: seq<AuditEntry>) returns (batch: MerkleAuditBatch)
      requires anchor != null
      ensures fresh(batch) && batch.Valid() && batch.word == anchor.word && batch.lib == lib
      ensures |batch.values| == |rows| && TupleHashes(batch.values) == LeafHashes(rows, Cfg().ctx)
    {
      batch := new MerkleAuditBatch(anchor.word, lib, anchor.Context(operator));
      for k := 0 to |rows|
        invariant batch.Valid() && batch.ctx == Cfg().ctx
        invariant |batch.values| == k
        invariant forall j :: 0 <= j < k ==> Leaf(batch.values[j]) == LeafOf(rows[j], Cfg().ctx)
      {
        batch.AddEntry(Canonicalize(rows[k]));
      }
    }

    /** The root of a batch over the given rows, which the contract will not refuse as zero. */
    method RootOfRows(rows: seq<AuditEntry>) returns (root: Hash)
      requires anchor != null && rows != []
      ensures root == GroupRoot(Cfg(), rows) && root != Zero
    {
      var batch := BuildBatch(rows);
      root := batch.Root();
      GroupRootFixesLeaves(Cfg(), rows);
    }

    /** Anchor every untagged row under the head just read, then tag with the committed index. */
    method Flush(now: nat, fate: Fate) returns (result: Outcome<Option<FlushResult>>)
      requires Valid()
      modifies store, anchor
      ensures Valid()
      ensures anchor == null ==> result == Returned(None) && store.rows == old(store.rows)
      ensures anchor != null ==>
        (store.rows, Chain()) == FlushEffect(Cfg(), old(Chain()), old(store.rows), now,
                                             if Select(old(store.rows), Untagged()) == [] then Works else fate)
      ensures anchor != null ==> forall op :: op != operator ==> anchor.State().Of(op) == old(anchor.State().Of(op))
      ensures result.Returned? ==> (result.value.Some? <==> anchor != null && Select(old(store.rows), Untagged()) != [])
      ensures result.Threw? <==> anchor != null && !fate.Works? && Select(old(store.rows), Untagged()) != []
      ensures result.Returned? && result.value.Some? ==>
        && anchor != null && Select(old(store.rows), Untagged()) != []
        && var pending := Select(old(store.rows), Untagged());
           result.value.value == FlushResult(|old(Chain())|, GroupRoot(Cfg(), pending), |pending|)
    {
      if anchor == null { return Returned(None); }
      var rows := store.Unbatched();
      if |rows| == 0 { return Returned(None); }
      var root := RootOfRows(rows);
      var prevRoot := anchor.State().Head(operator);
      if fate.NotSent? { return Threw; }
      ghost var before := anchor.State();
      CommitStep(before, Call(operator, prevRoot, root, |rows|, now));
      assert before.Head(operator) == LastRoot(before.Of(operator));
      var committed := anchor.CommitBatch(operator, prevRoot, root, |rows|, now);
      if fate.LostAfterLanding? { return Threw; }
      store.MarkBatched(Ids(rows), committed.batchIndex, root);
      result := Returned(Some(FlushResult(committed.batchIndex, root, |rows|)));
    }

    /** Compare each locally recorded batch with the chain and release the ones it lost. */
    method Reconcile() returns (result: Option<ReconcileResult>)
      requires Valid()
      modifies store
      ensures Valid()
      ensures anchor == null ==> result.None? && store.rows == old(store.rows)
      ensures anchor != null ==>
        var s := Reconciled(Chain(), old(store.rows));
        store.rows == s.rows && result == Some(ReconcileResult(s.stale, s.released))
    {
      if anchor == null { return None; }
      var staleBatches, releasedEntries := [], 0;
      var pairs := store.AnchoredBatches();
      ghost var start := SweepState(store.rows, [], 0);
      var k := 0;
      while k < |pairs|
        invariant 0 <= k <= |pairs| && Valid()
        invariant SweepAll(Chain(), start, pairs) ==
                  SweepAll(Chain(), SweepState(store.rows, staleBatches, releasedEntries), pairs[k..])
      {
        assert pairs[k..][0] == pairs[k] && pairs[k..][1..] == pairs[k + 1..];
        var onChain := anchor.GetBatch(operator, pairs[k].0);
        if !(onChain.Some? && onChain.value.merkleRoot == pairs[k].1) {
          staleBatches := staleBatches + [pairs[k].0];
          var changes := store.ReleaseBatch(pairs[k].0);
          releasedEntries := releasedEntries + changes;
        }
        k := k + 1;
      }
      result := Some(ReconcileResult(staleBatches, releasedEntries));
    }

    /**
     One guarded reconcile-then-flush cycle. An overlapping call does nothing; an error is
     swallowed and the flag is always cleared.
     */
    method AnchorTick(now: nat, fate: Fate) returns (result: Option<FlushResult>)
      requires Valid()
      modifies this, store, anchor
      ensures Valid() && anchoring == old(anchoring)
      ensures old(anchoring) || anchor == null ==> result.None? && store.rows == old(store.rows)
      ensures old(anchoring) && anchor != null ==> anchor.State() == old(anchor.State())
      ensures !old(anchoring) && anchor != null ==>
        var kept := Reconciled(old(Chain()), old(store.rows)).rows;
        && (store.rows, Chain()) == FlushEffect(Cfg(), old(Chain()), kept, now,
                                                if Select(kept, Untagged()) == [] then Works else fate)
        && (result.Some? <==> Select(kept, Untagged()) != [] && fate.Works?)
      ensures !old(anchoring) && anchor != null && fate.Works? ==>
        (store.rows, Chain()) == Ticked(Cfg(), old(Chain()), old(store.rows), now)
    {
      if anchoring { return None; }
      anchoring := true;
      var _ := Reconcile();
      var flushed := Flush(now, fate);
      if anchor != null { NothingPending(Cfg(), Chain(), store.rows, now); }
      result := match flushed case Returned(r) => r case Threw => None;
      anchoring := false;
    }

    method ProofAt(batch: MerkleAuditBatch, rows: seq<AuditEntry>, index: nat, j: nat) returns (proof: EntryProof)
      requires anchor != null && batch.Valid() && batch.word == anchor.word && batch.lib == lib && j < |rows|
      requires |batch.values| == |rows| && TupleHashes(batch.values) == LeafHashes(rows, Cfg().ctx)
      modifies batch`tree
      ensures batch.Valid() && proof == ProofOf(Cfg(), rows, index, j)
    {
      var localRoot := batch.Root();
      var leaf := batch.LeafAt(j);
      var path := batch.ProofAt(j);
      proof := EntryProof(index, leaf.value, path.value, localRoot, FieldsOf(rows[j]), Intact(rows[j]));
    }

    /** All proofs of one batch, from a tree over the rows as they are now. */
    method ProofsForBatch(batchIndex: nat) returns (proofs: map<string, EntryProof>)
      requires Valid() && anchor != null
      ensures Valid() && IsProofMap(Cfg(), Select(store.rows, InBatch(batchIndex)), batchIndex, proofs)
    {
      var rows := store.EntriesInBatch(batchIndex);
      SelectedIdsUnique(store.rows, InBatch(batchIndex));
      assert rows == Select(store.rows, InBatch(batchIndex));
      var list := ProofList(rows, batchIndex);
      proofs := Index(Ids(rows), list);
      IndexedProofs(Cfg(), rows, batchIndex, list);
    }

    method ProofList(rows: seq<AuditEntry>, index: nat) returns (list: seq<EntryProof>)
      requires anchor != null
      ensures |list| == |rows| && forall j :: 0 <= j < |rows| ==> list[j] == ProofOf(Cfg(), rows, index, j)
    {
      var batch := BuildBatch(rows);
      list := [];
      for j := 0 to |rows|
        invariant batch.Valid() && |batch.values| == |rows| && TupleHashes(batch.values) == LeafHashes(rows, Cfg().ctx)
        invariant |list| == j && forall i :: 0 <= i < j ==> list[i] == ProofOf(Cfg(), rows, index, i)
      {
        var proof := ProofAt(batch, rows, index, j);
        list := list + [proof];
      }
    }
  }

  /** One proof per entry, filed under the entry's id, and nothing else. */
  ghost predicate IsProofMap(cfg: Config, es: seq<AuditEntry>, index: nat, proofs: map<string, EntryProof>) {
    && |proofs| == |es|
    && (forall id :: id in proofs <==> id in Ids(es))
    && (forall j :: 0 <= j < |es| ==> es[j].id in proofs && proofs[es[j].id] == ProofOf(cfg, es, index, j))
  }

  /** File each value under its id. */
  function Index<T>(ids: seq<string>, values: seq<T>): map<string, T>
    requires |ids| == |values|
  {
    if ids == [] then map[]
    else
      var n := |ids| - 1;
      Index(ids[..n], values[..n])[ids[n] := values[n]]
  }

  ghost predicate Distinct(ids: seq<string>) { forall a, b :: 0 <= a < b < |ids| ==> ids[a] != ids[b] }

  /** Each id leads to its own value, and there are no others. */
  ghost predicate Files<T>(m: map<string, T>, ids: seq<string>, values: seq<T>) {
    && |m| == |ids| == |values| && (forall id :: id in m <==> id in ids)
    && forall j :: 0 <= j < |ids| ==> ids[j] in m && m[ids[j]] == values[j]
  }

  lemma FilesOneMore<T>(m: map<string, T>, ids: seq<string>, values: seq<T>, id: string, v: T)
    requires Files(m, ids, values) && id !in ids
    ensures Files(m[id := v], ids + [id], values + [v])
  {
    assert m[id := v].Keys == m.Keys + {id};
  }

  lemma DistinctFront(ids: seq<string>)
    requires Distinct(ids) && ids != []
    ensures Distinct(ids[..|ids| - 1]) && ids[|ids| - 1] !in ids[..|ids| - 1]
  {
  }

  /** With distinct ids nothing is overwritten. */
  lemma {:induction false} IndexFiles<T>(ids: seq<string>, values: seq<T>)
    requires |ids| == |values| && Distinct(ids)
    ensures Files(Index(ids, values), ids, values)
  {
    if ids != [] {
      var n := |ids| - 1;
      var front := Index(ids[..n], values[..n]);
      assert Files(front[ids[n] := values[n]], ids[..n] + [ids[n]], values[..n] + [values[n]]) by {
        DistinctFront(ids);
        IndexFiles(ids[..n], values[..n]);
        FilesOneMore(front, ids[..n], values[..n], ids[n], values[n]);
      }
      assert ids == ids[..n] + [ids[n]];
      assert values == values[..n] + [values[n]];
    }
  }

  lemma {:induction false} IndexedProofs(cfg: Config, es: seq<AuditEntry>, index: nat, list: seq<EntryProof>)
    requires |list| == |es| && forall j :: 0 <= j < |es| ==> list[j] == ProofOf(cfg, es, index, j)
    requires forall a, b :: 0 <= a < b < |es| ==> es[a].id != es[b].id
    ensures IsProofMap(cfg, es, index, Index(Ids(es), list))
  {
    var m := Index(Ids(es), list);
    IndexFiles(Ids(es), list);
    forall j | 0 <= j < |es| ensures es[j].id in m && m[es[j].id] == ProofOf(cfg, es, index, j) {
      assert Ids(es)[j] == es[j].id;
    }
  }

  /** A flush with nothing pending changes nothing, however its commit call would have ended. */
  lemma NothingPending(cfg: Config, chain: seq<Batch>, rows: seq<Row>, now: nat)
    ensures Select(rows, Untagged()) == [] ==> Flushed(cfg, chain, rows, now) == (rows, chain)
  {
  }

  lemma {:induction false} SelectedIdsUnique(rows: seq<Row>, p: Row -> bool)
    requires UniqueIds(rows)
    ensures var es := Select(rows, p); forall a, b :: 0 <= a < b < |es| ==> es[a].id != es[b].id
  {
    if rows != [] {
      var front, last := rows[..|rows| - 1], rows[|rows| - 1];
      SelectedIdsUnique(front, p);
      forall e | e in Select(front, p) ensures e.id != last.entry.id {
        SelectedIff(front, p, e);
        var k :| 0 <= k < |front| && p(front[k]) && front[k].entry == e;
        assert rows[k] == front[k];
      }
      var es := Select(rows, p);
      forall a, b | 0 <= a < b < |es| ensures es[a].id != es[b].id {
        assert es[a] == Select(front, p)[a];
        if b < |Select(front, p)| { assert es[b] == Select(front, p)[b]; }
      }
    }
  }
}
