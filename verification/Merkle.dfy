/**
 Sorted-pair Merkle trees: the walk of `verifyEntry`, the promote-odd builder and its
 proof extractor, and what a proof that folds to a root says about the leaves.

 Every definition takes the map `word` from hashes to their values, because siblings are
 ordered by value. The only thing ever assumed about it is that different hashes have
 different values. The values are reals because an entry's contents hold a real score, so
 there are as many symbolic hashes as reals and no fewer values could tell them apart.
 */
module Merkle {
  import opened Powers
  import opened Types

  ghost predicate CollisionFree(word: Hash -> real) {
    forall a, b {:trigger word(a), word(b)} :: word(a) == word(b) ==> a == b
  }

  function HashPair(word: Hash -> real, a: Hash, b: Hash): Hash {
    if word(a) < word(b) then Node(a, b) else Node(b, a)
  }

  /** The contract's verification walk, from leaf to root. */
  function Fold(word: Hash -> real, h: Hash, proof: seq<Hash>): Hash
    decreases |proof|
  {
    if proof == [] then h else Fold(word, HashPair(word, h, proof[0]), proof[1..])
  }

  /** The hashes at the bottom of the tree below a hash. */
  function Bottom(h: Hash): multiset<Hash> {
    match h
    case Node(lo, hi) => Bottom(lo) + Bottom(hi)
    case _ => multiset{h}
  }

  lemma BottomOfPair(word: Hash -> real, a: Hash, b: Hash)
    ensures Bottom(HashPair(word, a, b)) == Bottom(a) + Bottom(b)
  {
  }

  lemma PairCommutes(word: Hash -> real, a: Hash, b: Hash)
    requires CollisionFree(word)
    ensures HashPair(word, a, b) == HashPair(word, b, a)
  {
    if word(a) == word(b) { assert a == b; }
  }

  // ─── Trees of any shape ───────────────────────────────────────────────────

  datatype Tree = Tip(hash: Hash) | Fork(left: Tree, right: Tree)

  function RootOf(word: Hash -> real, t: Tree): Hash {
    match t
    case Tip(h) => h
    case Fork(l, r) => HashPair(word, RootOf(word, l), RootOf(word, r))
  }

  function Tips(t: Tree): multiset<Hash> {
    match t
    case Tip(h) => multiset{h}
    case Fork(l, r) => Tips(l) + Tips(r)
  }

  function Height(t: Tree): nat {
    match t
    case Tip(_) => 0
    case Fork(l, r) => 1 + if Height(l) < Height(r) then Height(r) else Height(l)
  }

  /** Every tip is a leaf hash, which is how both the client and the contract build trees. */
  predicate LeafTips(t: Tree) {
    match t
    case Tip(h) => h.Leaf?
    case Fork(l, r) => LeafTips(l) && LeafTips(r)
  }

  lemma {:induction false} RootDeterminesTips(word: Hash -> real, t: Tree)
    requires LeafTips(t)
    ensures Bottom(RootOf(word, t)) == Tips(t)
  {
    match t
    case Tip(_) =>
    case Fork(l, r) =>
      RootDeterminesTips(word, l);
      RootDeterminesTips(word, r);
      BottomOfPair(word, RootOf(word, l), RootOf(word, r));
  }

  lemma {:induction false} FoldKeepsStart(word: Hash -> real, h: Hash, proof: seq<Hash>)
    ensures Bottom(h) <= Bottom(Fold(word, h, proof))
    decreases |proof|
  {
    if proof != [] {
      BottomOfPair(word, h, proof[0]);
      FoldKeepsStart(word, HashPair(word, h, proof[0]), proof[1..]);
    }
  }

  /**
   Soundness for any shape: whatever the proof array holds, a leaf hash that folds to
   the root is one of the committed leaves. Internal nodes and roots are never leaves.
   */
  lemma ProofSound(word: Hash -> real, t: Tree, leaf: Hash, proof: seq<Hash>)
    requires LeafTips(t) && leaf.Leaf?
    requires Fold(word, leaf, proof) == RootOf(word, t)
    ensures leaf in Tips(t)
  {
    FoldKeepsStart(word, leaf, proof);
    RootDeterminesTips(word, t);
    assert leaf in Bottom(leaf);
  }

  lemma {:induction false} FoldAppend(word: Hash -> real, h: Hash, proof: seq<Hash>, last: Hash)
    ensures Fold(word, h, proof + [last]) == HashPair(word, Fold(word, h, proof), last)
    decreases |proof|
  {
    var longer := proof + [last];
    if proof == [] {
      assert Fold(word, h, longer) == Fold(word, HashPair(word, h, last), longer[1..]);
    } else {
      FoldAppend(word, HashPair(word, h, proof[0]), proof[1..], last);
      assert longer[0] == proof[0] && longer[1..] == proof[1..] + [last];
    }
  }

  /** The hash of the tip that turns from the root lead to, true for right. */
  function At(t: Tree, turns: seq<bool>): Option<Hash> {
    match t
    case Tip(h) => if turns == [] then Some(h) else None
    case Fork(l, r) =>
      if turns == [] then None
      else At(if turns[0] then r else l, turns[1..])
  }

  /** The siblings met on the way up from that tip. */
  function Siblings(word: Hash -> real, t: Tree, turns: seq<bool>): seq<Hash>
    requires At(t, turns).Some?
  {
    match t
    case Tip(_) => []
    case Fork(l, r) =>
      if turns[0] then Siblings(word, r, turns[1..]) + [RootOf(word, l)]
      else Siblings(word, l, turns[1..]) + [RootOf(word, r)]
  }

  /** Completeness for any shape: the siblings of every tip are a proof of its leaf. */
  lemma {:induction false} TipHasProof(word: Hash -> real, t: Tree, turns: seq<bool>)
    requires CollisionFree(word) && At(t, turns).Some?
    ensures Fold(word, At(t, turns).value, Siblings(word, t, turns)) == RootOf(word, t)
  {
    match t
    case Tip(_) =>
    case Fork(l, r) =>
      var (near, far) := if turns[0] then (r, l) else (l, r);
      TipHasProof(word, near, turns[1..]);
      FoldAppend(word, At(t, turns).value, Siblings(word, near, turns[1..]), RootOf(word, far));
      PairCommutes(word, RootOf(word, near), RootOf(word, far));
  }

  lemma {:induction false} PathIsShort(word: Hash -> real, t: Tree, turns: seq<bool>)
    requires At(t, turns).Some?
    ensures |Siblings(word, t, turns)| == |turns| <= Height(t)
  {
    match t
    case Tip(_) =>
    case Fork(l, r) => PathIsShort(word, if turns[0] then r else l, turns[1..]);
  }

  /** Turns that lead to a tip with the leaf. */
  function TurnsTo(t: Tree, leaf: Hash): (turns: seq<bool>)
    requires leaf in Tips(t)
    ensures At(t, turns) == Some(leaf)
  {
    match t
    case Tip(_) => []
    case Fork(l, r) =>
      if leaf in Tips(l) then [false] + TurnsTo(l, leaf) else [true] + TurnsTo(r, leaf)
  }

  // ─── Tree libraries ───────────────────────────────────────────────────────

  predicate AllLeafHashes(hs: seq<Hash>) { forall k :: 0 <= k < |hs| ==> hs[k].Leaf? }

  /** No higher than a balanced tree over that many leaves. */
  ghost predicate Balanced(height: nat, leaves: nat) {
    forall k: nat :: leaves <= Pow2(k) ==> height <= k
  }

  /** How a library builds a tree over hashes, and where in it the hash of an index ends up. */
  datatype Library = Library(build: seq<Hash> -> Tree, place: (seq<Hash>, nat) -> seq<bool>)

  ghost predicate Builds(lib: Library, hs: seq<Hash>) {
    hs != [] ==>
      && Tips(lib.build(hs)) == multiset(hs) && Balanced(Height(lib.build(hs)), |hs|)
      && forall i: nat :: i < |hs| ==> Places(lib, hs, i)
  }

  predicate Places(lib: Library, hs: seq<Hash>, i: nat)
    requires i < |hs|
  {
    At(lib.build(hs), lib.place(hs, i)) == Some(hs[i])
  }

  /** A library puts exactly the given hashes, in any order and shape, at the tips of a balanced tree. */
  ghost predicate Faithful(lib: Library) { forall hs: seq<Hash> :: Builds(lib, hs) }

  type TreeLibrary = lib: Library | Faithful(lib) ghost witness (PromoteOddFaithful(); PromoteOddLibrary())

  lemma {:induction false} LeavesAtTips(t: Tree)
    requires forall h :: h in Tips(t) ==> h.Leaf?
    ensures LeafTips(t)
  {
    match t
    case Tip(h) => assert h in Tips(t);
    case Fork(l, r) =>
      forall h | h in Tips(l) || h in Tips(r) ensures h.Leaf? { assert h in Tips(t); }
      LeavesAtTips(l);
      LeavesAtTips(r);
  }

  /** A built root over leaf hashes determines their multiset, whatever the count and the library. */
  lemma RootDeterminesLeaves(word: Hash -> real, lib: TreeLibrary, leaves: seq<Hash>)
    requires leaves != [] && AllLeafHashes(leaves)
    ensures Bottom(RootOf(word, lib.build(leaves))) == multiset(leaves)
    ensures RootOf(word, lib.build(leaves)) != Zero && LeafTips(lib.build(leaves))
  {
    var t := lib.build(leaves);
    assert Builds(lib, leaves);
    forall h | h in Tips(t) ensures h.Leaf? { assert h in leaves; }
    LeavesAtTips(t);
    RootDeterminesTips(word, t);
    assert leaves[0] in multiset(leaves);
    assert Zero !in multiset(leaves) by { assert Zero !in leaves; }
  }

  /** The library's proof for an index: the siblings on the way up from where it put the leaf. */
  function ProofFor(word: Hash -> real, lib: TreeLibrary, hs: seq<Hash>, i: nat): seq<Hash>
    requires i < |hs|
  {
    assert Builds(lib, hs) && Places(lib, hs, i);
    Siblings(word, lib.build(hs), lib.place(hs, i))
  }

  /** It folds from that leaf to the root and is short enough for that many leaves. */
  lemma BuiltProof(word: Hash -> real, lib: TreeLibrary, hs: seq<Hash>, i: nat)
    requires CollisionFree(word) && i < |hs|
    ensures Fold(word, hs[i], ProofFor(word, lib, hs, i)) == RootOf(word, lib.build(hs))
    ensures Balanced(|ProofFor(word, lib, hs, i)|, |hs|)
  {
    assert Builds(lib, hs) && Places(lib, hs, i);
    TipHasProof(word, lib.build(hs), lib.place(hs, i));
    PathIsShort(word, lib.build(hs), lib.place(hs, i));
  }

  /**
   For any library, acceptance by the bounded walk is membership: some proof of at most
   `limit` elements folds a leaf hash to the root exactly when that leaf was built in.
   */
  lemma ProvableIffMember(word: Hash -> real, lib: TreeLibrary, leaves: seq<Hash>, leaf: Hash, limit: nat)
    requires CollisionFree(word) && leaf.Leaf?
    requires leaves != [] && AllLeafHashes(leaves) && |leaves| <= Pow2(limit)
    ensures (exists proof :: |proof| <= limit && Fold(word, leaf, proof) == RootOf(word, lib.build(leaves))) <==>
            leaf in leaves
  {
    var t := lib.build(leaves);
    assert Builds(lib, leaves);
    RootDeterminesLeaves(word, lib, leaves);
    forall proof | |proof| <= limit && Fold(word, leaf, proof) == RootOf(word, t) ensures leaf in leaves {
      ProofSound(word, t, leaf, proof);
    }
    if leaf in leaves {
      var i :| 0 <= i < |leaves| && leaves[i] == leaf;
      BuiltProof(word, lib, leaves, i);
      var proof := ProofFor(word, lib, leaves, i);
      assert |proof| <= limit && Fold(word, leaf, proof) == RootOf(word, t);
    }
  }

  // ─── The promote-odd builder ──────────────────────────────────────────────

  /** One level up: neighbours are paired and an odd last hash is promoted unchanged. */
  function NextLevel(word: Hash -> real, cur: seq<Hash>): (next: seq<Hash>)
    ensures |next| == (|cur| + 1) / 2
  {
    seq((|cur| + 1) / 2, k requires 0 <= k < (|cur| + 1) / 2 =>
      if 2 * k + 1 < |cur| then HashPair(word, cur[2 * k], cur[2 * k + 1]) else cur[2 * k])
  }

  function Levels(word: Hash -> real, leaves: seq<Hash>): (levels: seq<seq<Hash>>)
    requires leaves != []
    ensures levels != []
    decreases |leaves|
  {
    if |leaves| == 1 then [leaves] else [leaves] + Levels(word, NextLevel(word, leaves))
  }

  function Root(word: Hash -> real, leaves: seq<Hash>): Hash
    requires leaves != []
    decreases |leaves|
  {
    if |leaves| == 1 then leaves[0] else Root(word, NextLevel(word, leaves))
  }

  function SiblingIndex(i: nat): int { if i % 2 == 0 then i + 1 else i - 1 }

  function SiblingAt(level: seq<Hash>, i: nat): seq<Hash>
    requires i < |level|
  {
    if SiblingIndex(i) < |level| then [level[SiblingIndex(i)]] else []
  }

  /** The proof of leaf `i`: the sibling at each level that has one. */
  function Proof(word: Hash -> real, leaves: seq<Hash>, i: nat): seq<Hash>
    requires i < |leaves|
    decreases |leaves|
  {
    if |leaves| == 1 then []
    else SiblingAt(leaves, i) + Proof(word, NextLevel(word, leaves), i / 2)
  }

  lemma {:induction false} FoldConcat(word: Hash -> real, h: Hash, p: seq<Hash>, q: seq<Hash>)
    ensures Fold(word, h, p + q) == Fold(word, Fold(word, h, p), q)
    decreases |p|
  {
    if p == [] {
      assert p + q == q;
    } else {
      assert (p + q)[0] == p[0] && (p + q)[1..] == p[1..] + q;
      FoldConcat(word, HashPair(word, h, p[0]), p[1..], q);
    }
  }

  lemma ClimbOneLevel(word: Hash -> real, leaves: seq<Hash>, i: nat)
    requires CollisionFree(word) && i < |leaves|
    ensures Fold(word, leaves[i], SiblingAt(leaves, i)) == NextLevel(word, leaves)[i / 2]
  {
    var s := SiblingIndex(i);
    if s < |leaves| {
      assert Fold(word, leaves[i], [leaves[s]]) == HashPair(word, leaves[i], leaves[s]) by {
        FoldAppend(word, leaves[i], [], leaves[s]);
        assert [] + [leaves[s]] == [leaves[s]];
      }
      PairCommutes(word, leaves[i], leaves[s]);
    }
  }

  /** Completeness: the extracted proof of every leaf folds to the root. */
  lemma {:induction false} ProofFoldsToRoot(word: Hash -> real, leaves: seq<Hash>, i: nat)
    requires CollisionFree(word) && i < |leaves|
    ensures Fold(word, leaves[i], Proof(word, leaves, i)) == Root(word, leaves)
    decreases |leaves|
  {
    if |leaves| > 1 {
      var next := NextLevel(word, leaves);
      ClimbOneLevel(word, leaves, i);
      FoldConcat(word, leaves[i], SiblingAt(leaves, i), Proof(word, next, i / 2));
      ProofFoldsToRoot(word, next, i / 2);
    }
  }

  /** An extracted proof is at most ceil(log2 n) long. */
  lemma ProofLength(word: Hash -> real, leaves: seq<Hash>, i: nat, k: nat)
    requires i < |leaves| <= Pow2(k)
    ensures |Proof(word, leaves, i)| <= k
  {
    ProofHalves(word, leaves, i);
    HalvingsBound(|leaves|, k);
  }

  lemma {:induction false} ProofHalves(word: Hash -> real, leaves: seq<Hash>, i: nat)
    requires i < |leaves|
    ensures |Proof(word, leaves, i)| <= Halvings(|leaves|)
    decreases |leaves|
  {
    if |leaves| > 1 { ProofHalves(word, NextLevel(word, leaves), i / 2); }
  }

  // ─── The promote-odd tree as a builder ────────────────────────────────────

  function PairUp(ts: seq<Tree>): (next: seq<Tree>)
    ensures |next| == (|ts| + 1) / 2
  {
    seq((|ts| + 1) / 2, k requires 0 <= k < (|ts| + 1) / 2 =>
      if 2 * k + 1 < |ts| then Fork(ts[2 * k], ts[2 * k + 1]) else ts[2 * k])
  }

  function Grow(ts: seq<Tree>): Tree
    requires ts != []
    decreases |ts|
  {
    if |ts| == 1 then ts[0] else Grow(PairUp(ts))
  }

  function AsTips(hs: seq<Hash>): (ts: seq<Tree>)
    ensures |ts| == |hs|
  {
    seq(|hs|, k requires 0 <= k < |hs| => Tip(hs[k]))
  }

  function PromoteOdd(hs: seq<Hash>): Tree { if hs == [] then Tip(Zero) else Grow(AsTips(hs)) }

  function RootsOf(word: Hash -> real, ts: seq<Tree>): (hs: seq<Hash>)
    ensures |hs| == |ts|
  {
    seq(|ts|, k requires 0 <= k < |ts| => RootOf(word, ts[k]))
  }

  lemma {:induction false} GrownRoot(word: Hash -> real, ts: seq<Tree>)
    requires ts != []
    ensures RootOf(word, Grow(ts)) == Root(word, RootsOf(word, ts))
    decreases |ts|
  {
    if |ts| > 1 {
      assert RootsOf(word, PairUp(ts)) == NextLevel(word, RootsOf(word, ts));
      GrownRoot(word, PairUp(ts));
    }
  }

  /** The level-by-level computation yields the root of the promote-odd tree. */
  lemma PromoteOddRoot(word: Hash -> real, leaves: seq<Hash>)
    requires leaves != []
    ensures RootOf(word, PromoteOdd(leaves)) == Root(word, leaves)
  {
    GrownRoot(word, AsTips(leaves));
    assert RootsOf(word, AsTips(leaves)) == leaves;
  }

  ghost predicate AllLow(ts: seq<Tree>, h: nat) { forall k :: 0 <= k < |ts| ==> Height(ts[k]) <= h }

  lemma {:induction false} GrownHeight(ts: seq<Tree>, h: nat, k: nat)
    requires ts != [] && AllLow(ts, h) && |ts| <= Pow2(k)
    ensures Height(Grow(ts)) <= h + k
    decreases |ts|
  {
    if |ts| > 1 {
      Halves(|ts|, k);
      GrownHeight(PairUp(ts), h + 1, k - 1);
    }
  }

  function TipsOfAll(ts: seq<Tree>): multiset<Hash> {
    if ts == [] then multiset{} else Tips(ts[0]) + TipsOfAll(ts[1..])
  }

  lemma {:induction false} PairingKeepsTips(ts: seq<Tree>)
    ensures TipsOfAll(PairUp(ts)) == TipsOfAll(ts)
    decreases |ts|
  {
    var next := PairUp(ts);
    if |ts| >= 2 {
      assert next[1..] == PairUp(ts[2..]);
      PairingKeepsTips(ts[2..]);
      assert ts[1..][1..] == ts[2..];
      assert TipsOfAll(ts) == Tips(ts[0]) + (Tips(ts[1]) + TipsOfAll(ts[2..])) by {
        assert TipsOfAll(ts[1..]) == Tips(ts[1]) + TipsOfAll(ts[2..]);
      }
    } else if |ts| == 1 {
      assert next == ts;
    }
  }

  lemma {:induction false} GrownTips(ts: seq<Tree>)
    requires ts != []
    ensures Tips(Grow(ts)) == TipsOfAll(ts)
    decreases |ts|
  {
    if |ts| == 1 {
      assert ts[1..] == [];
    } else {
      PairingKeepsTips(ts);
      GrownTips(PairUp(ts));
    }
  }

  lemma {:induction false} TipsAreAll(hs: seq<Hash>)
    ensures TipsOfAll(AsTips(hs)) == multiset(hs)
  {
    if hs != [] {
      TipsAreAll(hs[1..]);
      assert AsTips(hs)[1..] == AsTips(hs[1..]);
      assert hs == [hs[0]] + hs[1..];
    }
  }

  function PromoteOddLibrary(): Library {
    Library(PromoteOdd, (hs: seq<Hash>, i: nat) =>
      if i < |hs| && hs[i] in Tips(PromoteOdd(hs)) then TurnsTo(PromoteOdd(hs), hs[i]) else [])
  }

  /** The promote-odd construction keeps every leaf and is balanced, as a library must. */
  lemma PromoteOddFaithful()
    ensures Faithful(PromoteOddLibrary())
  {
    forall hs: seq<Hash> ensures Builds(PromoteOddLibrary(), hs) {
      if hs != [] { PromoteOddBuilds(hs); }
    }
  }

  lemma PromoteOddBuilds(hs: seq<Hash>)
    requires hs != []
    ensures Builds(PromoteOddLibrary(), hs)
  {
    GrownTips(AsTips(hs));
    TipsAreAll(hs);
    forall k: nat | |hs| <= Pow2(k) ensures Height(PromoteOdd(hs)) <= k { GrownHeight(AsTips(hs), 0, k); }
    forall i: nat | i < |hs| ensures Places(PromoteOddLibrary(), hs, i) { assert hs[i] in multiset(hs); }
  }

  // ─── The builder and the extractor as they run ────────────────────────────

  /** Depth slots of the builder's scratch array. */
  const MAX_LEVELS := 32

  lemma LevelCount(word: Hash -> real, leaves: seq<Hash>, k: nat)
    requires leaves != [] && |leaves| <= Pow2(k)
    ensures |Levels(word, leaves)| <= k + 1
  {
    LevelHalves(word, leaves);
    HalvingsBound(|leaves|, k);
  }

  lemma {:induction false} LevelHalves(word: Hash -> real, leaves: seq<Hash>)
    requires leaves != []
    ensures |Levels(word, leaves)| == 1 + Halvings(|leaves|)
    decreases |leaves|
  {
    if |leaves| > 1 { LevelHalves(word, NextLevel(word, leaves)); }
  }

  method FillNextLevel(word: Hash -> real, cur: seq<Hash>) returns (next: array<Hash>)
    ensures fresh(next) && next[..] == NextLevel(word, cur)
  {
    next := new Hash[(|cur| + 1) / 2](_ => Zero);
    var i := 0;
    while i < |cur|
      invariant i % 2 == 0 && 0 <= i <= |cur| + 1
      invariant forall k :: 0 <= k < i / 2 ==> next[k] == NextLevel(word, cur)[k]
    {
      next[i / 2] := if i + 1 < |cur| then HashPair(word, cur[i], cur[i + 1]) else cur[i];
      i := i + 2;
    }
    assert forall k :: 0 <= k < next.Length ==> next[..][k] == NextLevel(word, cur)[k];
  }

  /** The levels `done` lie below `cur`, and the tree of `cur` completes that of `leaves`. */
  ghost predicate Climbed(word: Hash -> real, leaves: seq<Hash>, done: seq<seq<Hash>>, cur: seq<Hash>) {
    && leaves != [] && cur != []
    && Levels(word, leaves) == done + Levels(word, cur)
    && Root(word, leaves) == Root(word, cur)
  }

  lemma ClimbStep(word: Hash -> real, leaves: seq<Hash>, done: seq<seq<Hash>>, cur: seq<Hash>)
    requires Climbed(word, leaves, done, cur) && |cur| > 1
    ensures Climbed(word, leaves, done + [cur], NextLevel(word, cur))
    ensures |Levels(word, leaves)| >= |done| + 2
  {
    var upper := Levels(word, NextLevel(word, cur));
    assert done + ([cur] + upper) == done + [cur] + upper;
  }

  lemma ClimbEnd(word: Hash -> real, leaves: seq<Hash>, done: seq<seq<Hash>>, cur: seq<Hash>)
    requires Climbed(word, leaves, done, cur) && |cur| == 1
    ensures done + [cur] == Levels(word, leaves) && cur[0] == Root(word, leaves)
  {
  }

  /** Build all levels bottom-up; the scratch array bounds the depth to 31. */
  method BuildTree(word: Hash -> real, leaves: seq<Hash>) returns (root: Hash, levels: seq<seq<Hash>>)
    requires leaves != [] && |leaves| <= Pow2(MAX_LEVELS - 1)
    ensures levels == Levels(word, leaves)
    ensures root == Root(word, leaves)
  {
    var acc := new seq<Hash>[MAX_LEVELS](_ => []);
    var depth := 0;
    acc[0] := leaves;
    LevelCount(word, leaves, MAX_LEVELS - 1);
    while |acc[depth]| > 1
      invariant 0 <= depth < MAX_LEVELS
      invariant Climbed(word, leaves, acc[..depth], acc[depth])
      decreases |acc[depth]|
    {
      ghost var below, cur := acc[..depth], acc[depth];
      ClimbStep(word, leaves, below, cur);
      var filled := FillNextLevel(word, acc[depth]);
      depth := depth + 1;
      acc[depth] := filled[..];
      assert acc[..depth] == below + [cur];
    }
    ClimbEnd(word, leaves, acc[..depth], acc[depth]);
    levels := acc[..depth + 1];
    assert levels == acc[..depth] + [acc[depth]];
    root := acc[depth][0];
  }

  /** The levels from `l` on belong to `rest`; peel off the first of several. */
  lemma PeelLevel(word: Hash -> real, levels: seq<seq<Hash>>, l: nat, rest: seq<Hash>)
    requires rest != [] && l + 1 < |levels| && levels[l..] == Levels(word, rest)
    ensures |rest| > 1 && levels[l] == rest
    ensures levels[l + 1..] == Levels(word, NextLevel(word, rest))
  {
    assert levels[l..][0] == levels[l];
    assert levels[l..][1..] == levels[l + 1..];
  }

  /** What the extractor still owes after `l` levels, and what it has written. */
  ghost predicate Extracted(word: Hash -> real, leaves: seq<Hash>, index: nat, levels: seq<seq<Hash>>,
                            l: nat, rest: seq<Hash>, idx: nat, written: seq<Hash>)
  {
    && index < |leaves| && idx < |rest| && l < |levels|
    && levels[l..] == Levels(word, rest)
    && Proof(word, leaves, index) == written + Proof(word, rest, idx)
  }

  lemma ExtractedStart(word: Hash -> real, leaves: seq<Hash>, index: nat)
    requires index < |leaves|
    ensures Extracted(word, leaves, index, Levels(word, leaves), 0, leaves, index, [])
  {
    var levels := Levels(word, leaves);
    assert levels[0..] == levels;
  }

  lemma ExtractedStep(word: Hash -> real, leaves: seq<Hash>, index: nat, levels: seq<seq<Hash>>,
                      l: nat, rest: seq<Hash>, idx: nat, written: seq<Hash>)
    requires Extracted(word, leaves, index, levels, l, rest, idx, written) && l + 1 < |levels|
    ensures levels[l] == rest && idx < |rest|
    ensures Extracted(word, leaves, index, levels, l + 1, NextLevel(word, rest), idx / 2,
                      written + SiblingAt(rest, idx))
  {
    PeelLevel(word, levels, l, rest);
    var upper := Proof(word, NextLevel(word, rest), idx / 2);
    assert written + (SiblingAt(rest, idx) + upper) == written + SiblingAt(rest, idx) + upper;
  }

  lemma ExtractedEnd(word: Hash -> real, leaves: seq<Hash>, index: nat, levels: seq<seq<Hash>>,
                     l: nat, rest: seq<Hash>, idx: nat, written: seq<Hash>)
    requires Extracted(word, leaves, index, levels, l, rest, idx, written) && l + 1 == |levels|
    ensures written == Proof(word, leaves, index)
  {
    assert |Levels(word, rest)| == 1;
    assert |rest| == 1;
  }

  /** Append the sibling at one level to the filled part, if the level has one. */
  method WriteSibling(tmp: array<Hash>, count: nat, level: seq<Hash>, idx: nat) returns (filled: nat)
    requires count < tmp.Length && idx < |level|
    modifies tmp
    ensures count <= filled <= count + 1
    ensures tmp[..filled] == old(tmp[..count]) + SiblingAt(level, idx)
  {
    filled := count;
    var sib := SiblingIndex(idx);
    if sib < |level| {
      tmp[filled] := level[sib];
      filled := filled + 1;
    }
  }

  /** Collect the siblings of `index` into a scratch array and return the filled part. */
  method ExtractProof(word: Hash -> real, ghost leaves: seq<Hash>, levels: seq<seq<Hash>>, index: nat)
    returns (proof: seq<Hash>)
    requires index < |leaves| && levels == Levels(word, leaves)
    ensures proof == Proof(word, leaves, index)
  {
    var tmp := new Hash[|levels|](_ => Zero);
    var count, idx: nat, l := 0, index, 0;
    ghost var rest, written := leaves, [];
    ExtractedStart(word, leaves, index);
    while l + 1 < |levels|
      invariant 0 <= count <= l < |levels|
      invariant Extracted(word, leaves, index, levels, l, rest, idx, written)
      invariant tmp[..count] == written
    {
      ExtractedStep(word, leaves, index, levels, l, rest, idx, written);
      count := WriteSibling(tmp, count, levels[l], idx);
      written := written + SiblingAt(rest, idx);
      rest, idx, l := NextLevel(word, rest), idx / 2, l + 1;
    }
    ExtractedEnd(word, leaves, index, levels, l, rest, idx, written);
    proof := tmp[..count];
  }
}
