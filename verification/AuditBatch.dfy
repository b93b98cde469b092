/** From audit entries to leaves, and the client-side batch that caches its tree. */
module AuditBatch {
  import opened Text
  import opened Types
  import opened Merkle

  datatype LeafContext = LeafContext(chainId: nat, anchor: Account, operator: Account)

  /** ABI encoding keeps the 20 bytes of the recipient, so its case is lost. */
  function EntryToLeaf(e: AuditEntry, ctx: LeafContext): LeafTuple {
    LeafTuple(ctx.chainId, ctx.anchor, ctx.operator, e.agentId, e.timestamp,
              Lower(e.request.recipient), VerdictNum(e.decision.verdict), e.entryHash)
  }

  /** What is anchored: the row as it stands, under a hash computed from it rather than the stored one. */
  function Canonicalize(e: AuditEntry): AuditEntry {
    e.(entryHash := RecomputeHash(e))
  }

  function LeafOf(e: AuditEntry, ctx: LeafContext): Hash {
    Leaf(EntryToLeaf(Canonicalize(e), ctx))
  }

  function LeafHashes(es: seq<AuditEntry>, ctx: LeafContext): (hs: seq<Hash>)
    ensures |hs| == |es| && AllLeafHashes(hs)
  {
    seq(|es|, k requires 0 <= k < |es| => LeafOf(es[k], ctx))
  }

  /** Two entries with one leaf agree on everything the audit covers. */
  lemma SameLeafSameContent(a: AuditEntry, b: AuditEntry, ctxA: LeafContext, ctxB: LeafContext)
    ensures LeafOf(a, ctxA) == LeafOf(b, ctxB) <==>
            && ctxA == ctxB && a.agentId == b.agentId && a.timestamp == b.timestamp
            && RecomputeHash(a) == RecomputeHash(b)
  {
    if RecomputeHash(a) == RecomputeHash(b) {
      assert RecomputeHash(a).content.verdict == a.decision.verdict;
      assert RecomputeHash(b).content.verdict == b.decision.verdict;
      assert RecomputeHash(a).content.recipient == Lower(a.request.recipient);
      assert RecomputeHash(b).content.recipient == Lower(b.request.recipient);
    }
  }

  function TupleHashes(values: seq<LeafTuple>): (hs: seq<Hash>)
    ensures |hs| == |values| && AllLeafHashes(hs)
  {
    seq(|values|, k requires 0 <= k < |values| => Leaf(values[k]))
  }

  class MerkleAuditBatch {
    const word: Hash -> real
    const lib: TreeLibrary
    const ctx: LeafContext
    var values: seq<LeafTuple>
    var tree: Option<Tree>

    ghost predicate Valid()
      reads this
    {
      tree.Some? ==> values != [] && tree.value == lib.build(TupleHashes(values))
    }

    constructor (word: Hash -> real, lib: TreeLibrary, ctx: LeafContext)
      ensures Valid() && this.word == word && this.lib == lib && this.ctx == ctx && values == []
    {
      this.word, this.lib, this.ctx := word, lib, ctx;
      values, tree := [], None;
    }

    /** Adding an entry invalidates the cached tree. */
    method AddEntry(entry: AuditEntry)
      requires Valid()
      modifies this
      ensures Valid() && values == old(values) + [EntryToLeaf(entry, ctx)]
    {
      values := values + [EntryToLeaf(entry, ctx)];
      tree := None;
    }

    /** The library's tree over the values added so far, built at most once per set of values. */
    method Build() returns (built: Tree)
      requires Valid() && values != []
      modifies this`tree
      ensures Valid() && built == lib.build(TupleHashes(values))
      ensures Tips(built) == multiset(TupleHashes(values)) && LeafTips(built) && Balanced(Height(built), |values|)
    {
      if tree.None? { tree := Some(lib.build(TupleHashes(values))); }
      built := tree.value;
      assert Builds(lib, TupleHashes(values));
      RootDeterminesLeaves(word, lib, TupleHashes(values));
    }

    /** The zero hash when empty; otherwise the root over the values added so far. */
    method Root() returns (root: Hash)
      requires Valid()
      modifies this`tree
      ensures Valid()
      ensures root == if values == [] then Zero else RootOf(word, lib.build(TupleHashes(values)))
      ensures root == Zero <==> values == []
      ensures values != [] ==> Bottom(root) == multiset(TupleHashes(values))
    {
      if values == [] { return Zero; }
      var built := Build();
      RootDeterminesLeaves(word, lib, TupleHashes(values));
      root := RootOf(word, built);
    }

    /** None stands for the range error raised when there is no entry at that index. */
    method LeafAt(index: nat) returns (leaf: Option<Hash>)
      ensures leaf == if index < |values| then Some(TupleHashes(values)[index]) else None
    {
      leaf := if index < |values| then Some(Leaf(values[index])) else None;
    }

    /** The library's proof for the index; None stands for its range error. */
    method ProofAt(index: nat) returns (proof: Option<seq<Hash>>)
      requires Valid()
      modifies this`tree
      ensures Valid() && (proof.Some? <==> index < |values|)
      ensures index < |values| ==>
        proof.value == ProofFor(word, lib, TupleHashes(values), index) && Balanced(|proof.value|, |values|)
    {
      if index >= |values| { return None; }
      var built := Build();
      ghost var hs := TupleHashes(values);
      assert Builds(lib, hs) && Places(lib, hs, index);
      PathIsShort(word, built, lib.place(hs, index));
      proof := Some(Siblings(word, built, lib.place(TupleHashes(values), index)));
    }

    /** Local verification accepts every entry that was added, and nothing out of range. */
    method Verify(index: nat) returns (ok: bool)
      requires Valid() && CollisionFree(word)
      modifies this`tree
      ensures Valid()
      ensures ok <==> index < |values|
    {
      if index >= |values| { return false; }
      var proof := ProofAt(index);
      var root := Root();
      BuiltProof(word, lib, TupleHashes(values), index);
      ok := Fold(word, Leaf(values[index]), proof.value) == root;
    }
  }
}
