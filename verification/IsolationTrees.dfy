/**
 The isolation forest: random trees whose leaf sizes agree with the way a point is later
 routed down them. Numbers are reals and the generator may return any value in [0, 1).
 */
module IsolationTrees {
  import opened Powers

  type Point = seq<real>

  datatype Node = Leaf(size: nat) | Split(f: nat, v: real, left: Node, right: Node)

  /** A missing coordinate reads as zero. */
  function Feature(x: Point, f: nat): real { if f < |x| then x[f] else 0.0 }

  predicate GoesLeft(x: Point, f: nat, v: real) { Feature(x, f) < v }

  /** The points that take one side of a split, in order. */
  function Side(data: seq<Point>, f: nat, v: real, left: bool): seq<Point> {
    if data == [] then []
    else
      var x := data[|data| - 1];
      Side(data[..|data| - 1], f, v, left) + if GoesLeft(x, f, v) == left then [x] else []
  }

  /** A tree describes a sample: every node's leaves share out the points that reach the node. */
  ghost predicate Describes(node: Node, data: seq<Point>) {
    match node
    case Leaf(size) => size == |data|
    case Split(f, v, l, r) => Describes(l, Side(data, f, v, true)) && Describes(r, Side(data, f, v, false))
  }

  function Dims(data: seq<Point>): nat { if data == [] then 0 else |data[0]| }

  ghost predicate Varies(data: seq<Point>, f: nat) {
    exists i, j :: 0 <= i < |data| && 0 <= j < |data| && Feature(data[i], f) < Feature(data[j], f)
  }

  /** A split value lies above or on some point's feature and strictly below another's. */
  ghost predicate Separates(data: seq<Point>, f: nat, v: real) {
    && (exists i :: 0 <= i < |data| && Feature(data[i], f) <= v)
    && (exists j :: 0 <= j < |data| && !GoesLeft(data[j], f, v) && v != Feature(data[j], f))
  }

  ghost predicate Stops(data: seq<Point>, room: nat) {
    room == 0 || |data| <= 1 || forall f :: 0 <= f < Dims(data) ==> !Varies(data, f)
  }

  /**
   What the random build may produce with `room` levels left: it stops exactly when no level
   is left, one point or none remains, or no feature of the sample varies; otherwise it splits
   on a feature, at a value that leaves somebody on the right.
   */
  ghost predicate Grown(node: Node, data: seq<Point>, room: nat)
    decreases room
  {
    match node
    case Leaf(size) => Stops(data, room) && size == |data|
    case Split(f, v, l, r) =>
      && !Stops(data, room) && f < Dims(data) && Separates(data, f, v)
      && Grown(l, Side(data, f, v, true), room - 1) && Grown(r, Side(data, f, v, false), room - 1)
  }

  function Depth(node: Node): nat {
    match node
    case Leaf(_) => 0
    case Split(_, _, l, r) => 1 + if Depth(l) < Depth(r) then Depth(r) else Depth(l)
  }

  // ─── Routing ──────────────────────────────────────────────────────────────

  /** The turns a point takes on its way to a leaf. */
  function Route(x: Point, node: Node): seq<bool> {
    match node
    case Leaf(_) => []
    case Split(f, v, l, r) => if GoesLeft(x, f, v) then [true] + Route(x, l) else [false] + Route(x, r)
  }

  /** The size stored at the leaf a list of turns leads to; zero if it leads nowhere. */
  function SizeAt(node: Node, turns: seq<bool>): nat
    decreases node
  {
    match node
    case Leaf(size) => if turns == [] then size else 0
    case Split(_, _, l, r) => if turns == [] then 0 else SizeAt(if turns[0] then l else r, turns[1..])
  }

  function RoutedTo(data: seq<Point>, node: Node, turns: seq<bool>): nat {
    if data == [] then 0
    else RoutedTo(data[..|data| - 1], node, turns) + if Route(data[|data| - 1], node) == turns then 1 else 0
  }

  function PathLength(c: nat -> real, x: Point, node: Node, depth: nat): real {
    match node
    case Leaf(size) => depth as real + c(size)
    case Split(f, v, l, r) => PathLength(c, x, if GoesLeft(x, f, v) then l else r, depth + 1)
  }

  function TotalSize(node: Node): nat {
    match node
    case Leaf(size) => size
    case Split(_, _, l, r) => TotalSize(l) + TotalSize(r)
  }

  lemma {:induction false} SidesPartition(data: seq<Point>, f: nat, v: real)
    ensures |Side(data, f, v, true)| + |Side(data, f, v, false)| == |data|
  {
    if data != [] { SidesPartition(data[..|data| - 1], f, v); }
  }

  /** Leaf sizes add up to the sample. */
  lemma {:induction false} SizesSum(node: Node, data: seq<Point>)
    requires Describes(node, data)
    ensures TotalSize(node) == |data|
    decreases node
  {
    match node
    case Leaf(_) =>
    case Split(f, v, l, r) =>
      SizesSum(l, Side(data, f, v, true));
      SizesSum(r, Side(data, f, v, false));
      SidesPartition(data, f, v);
  }

  /** Those routed through a split to further turns are those of that side routed there. */
  lemma {:induction false} RoutedThroughSplit(data: seq<Point>, node: Node, turns: seq<bool>)
    requires node.Split?
    ensures RoutedTo(data, node, turns) ==
            if turns == [] then 0
            else RoutedTo(Side(data, node.f, node.v, turns[0]), if turns[0] then node.left else node.right, turns[1..])
  {
    if data != [] {
      var front, x := data[..|data| - 1], data[|data| - 1];
      RoutedThroughSplit(front, node, turns);
      if turns != [] {
        var child := if turns[0] then node.left else node.right;
        var side := Side(front, node.f, node.v, turns[0]);
        assert Route(x, node) == turns <==> GoesLeft(x, node.f, node.v) == turns[0] && Route(x, child) == turns[1..] by {
          assert turns == [turns[0]] + turns[1..];
        }
        if GoesLeft(x, node.f, node.v) == turns[0] {
          assert (side + [x])[..|side|] == side;
        } else {
          assert side + [] == side;
        }
      }
    }
  }

  /** Each leaf's size is exactly the number of sample points whose descent ends there. */
  lemma {:induction false} SizeIsRouted(node: Node, data: seq<Point>, turns: seq<bool>)
    requires Describes(node, data)
    ensures SizeAt(node, turns) == RoutedTo(data, node, turns)
    decreases node
  {
    match node
    case Leaf(_) => LeafRoutesAll(data, node, turns);
    case Split(f, v, l, r) =>
      RoutedThroughSplit(data, node, turns);
      if turns != [] {
        SizeIsRouted(if turns[0] then l else r, Side(data, f, v, turns[0]), turns[1..]);
      }
  }

  lemma {:induction false} LeafRoutesAll(data: seq<Point>, node: Node, turns: seq<bool>)
    requires node.Leaf?
    ensures RoutedTo(data, node, turns) == if turns == [] then |data| else 0
  {
    if data != [] { LeafRoutesAll(data[..|data| - 1], node, turns); }
  }

  lemma {:induction false} PathLengthIsRoute(c: nat -> real, x: Point, node: Node, depth: nat)
    ensures PathLength(c, x, node, depth) == (depth + |Route(x, node)|) as real + c(SizeAt(node, Route(x, node)))
    ensures |Route(x, node)| <= Depth(node)
    decreases node
  {
    match node
    case Leaf(_) =>
    case Split(f, v, l, r) =>
      PathLengthIsRoute(c, x, if GoesLeft(x, f, v) then l else r, depth + 1);
  }

  /**
   What a point's path length measures: the turns it takes, plus the correction for the
   number of sample points that take the very same turns.
   */
  lemma PathLengthMeaning(c: nat -> real, x: Point, node: Node, data: seq<Point>)
    requires Describes(node, data)
    ensures PathLength(c, x, node, 0) == |Route(x, node)| as real + c(RoutedTo(data, node, Route(x, node)))
  {
    PathLengthIsRoute(c, x, node, 0);
    SizeIsRouted(node, data, Route(x, node));
  }

  // ─── Building ─────────────────────────────────────────────────────────────

  datatype Range = Range(f: nat, min: real, max: real)

  /** The extremes of a varying feature, both attained. */
  ghost predicate RangeOf(data: seq<Point>, r: Range) {
    && r.min < r.max
    && (forall k :: 0 <= k < |data| ==> r.min <= Feature(data[k], r.f) <= r.max)
    && (exists i :: 0 <= i < |data| && Feature(data[i], r.f) == r.min)
    && (exists j :: 0 <= j < |data| && Feature(data[j], r.f) == r.max)
  }

  /** Any value in [0, 1): nothing below depends on the generator. */
  method Draw() returns (u: real)
    ensures 0.0 <= u < 1.0
  {
    u :| 0.0 <= u < 1.0;
  }

  method DrawIndex(n: nat) returns (k: nat)
    requires n > 0
    ensures k < n
  {
    var u := Draw();
    var scaled := u * n as real;
    assert 0.0 <= scaled < n as real;
    k := scaled.Floor;
  }

  /** The least and greatest value of one feature. */
  method Extremes(data: seq<Point>, f: nat) returns (min: real, max: real)
    requires data != []
    ensures forall k :: 0 <= k < |data| ==> min <= Feature(data[k], f) <= max
    ensures exists i :: 0 <= i < |data| && Feature(data[i], f) == min
    ensures exists j :: 0 <= j < |data| && Feature(data[j], f) == max
  {
    min, max := Feature(data[0], f), Feature(data[0], f);
    for k := 0 to |data|
      invariant exists i :: 0 <= i < |data| && Feature(data[i], f) == min
      invariant exists j :: 0 <= j < |data| && Feature(data[j], f) == max
      invariant forall i :: 0 <= i < k ==> min <= Feature(data[i], f) <= max
      invariant min <= max
    {
      var x := Feature(data[k], f);
      if x < min { min := x; }
      if x > max { max := x; }
    }
  }

  /** The features that vary over the sample, each once with its extremes, and no other. */
  method VaryingRanges(data: seq<Point>, dims: nat) returns (ranges: seq<Range>)
    requires data != []
    ensures forall k :: 0 <= k < |ranges| ==> ranges[k].f < dims && RangeOf(data, ranges[k])
    ensures forall f :: 0 <= f < dims && Varies(data, f) ==> exists k :: 0 <= k < |ranges| && ranges[k].f == f
  {
    ranges := [];
    for f := 0 to dims
      invariant forall k :: 0 <= k < |ranges| ==> ranges[k].f < f && RangeOf(data, ranges[k])
      invariant forall g :: 0 <= g < f && Varies(data, g) ==> exists k :: 0 <= k < |ranges| && ranges[k].f == g
    {
      ghost var was := ranges;
      var min, max := Extremes(data, f);
      if max > min {
        ranges := ranges + [Range(f, min, max)];
        assert ranges[|was|].f == f && forall k :: 0 <= k < |was| ==> ranges[k] == was[k];
      } else {
        assert !Varies(data, f);
      }
    }
  }

  method Partition(data: seq<Point>, f: nat, v: real) returns (left: seq<Point>, right: seq<Point>)
    ensures left == Side(data, f, v, true) && right == Side(data, f, v, false)
  {
    left, right := [], [];
    for k := 0 to |data|
      invariant left == Side(data[..k], f, v, true) && right == Side(data[..k], f, v, false)
    {
      assert data[..k + 1][..k] == data[..k];
      if GoesLeft(data[k], f, v) { left := left + [data[k]]; } else { right := right + [data[k]]; }
    }
    assert data[..|data|] == data;
  }

  /** A point of the range, short of its end. */
  method SplitPoint(min: real, spread: real) returns (v: real)
    requires spread > 0.0
    ensures min <= v < min + spread
  {
    var u := Draw();
    ShareBelow(u, spread);
    v := min + u * spread;
  }

  /** A feature that varies, and a value between its extremes. */
  method ChooseSplit(data: seq<Point>, ranges: seq<Range>) returns (f: nat, v: real)
    requires ranges != [] && forall k :: 0 <= k < |ranges| ==> ranges[k].f < Dims(data) && RangeOf(data, ranges[k])
    ensures f < Dims(data) && Varies(data, f) && Separates(data, f, v)
  {
    var i := DrawIndex(|ranges|);
    var pick := ranges[i];
    assert RangeOf(data, pick);
    f := pick.f;
    v := SplitPoint(pick.min, pick.max - pick.min);
  }

  /** The ranges of the features that vary; none exactly when the build must stop. */
  method SplitRanges(data: seq<Point>, depth: nat, maxDepth: nat) returns (ranges: seq<Range>)
    requires depth <= maxDepth
    ensures ranges == [] <==> Stops(data, maxDepth - depth)
    ensures forall k :: 0 <= k < |ranges| ==> ranges[k].f < Dims(data) && RangeOf(data, ranges[k])
  {
    var n := |data|;
    var dims := if n == 0 then 0 else |data[0]|;
    if depth >= maxDepth || n <= 1 || dims == 0 { return []; }
    ranges := VaryingRanges(data, dims);
    if ranges != [] { VariesInRange(data, ranges[0]); }
  }

  lemma VariesInRange(data: seq<Point>, r: Range)
    requires RangeOf(data, r)
    ensures Varies(data, r.f)
  {
  }

  method BuildTree(data: seq<Point>, depth: nat, maxDepth: nat) returns (node: Node)
    requires depth <= maxDepth
    ensures Grown(node, data, maxDepth - depth)
    decreases maxDepth - depth
  {
    var ranges := SplitRanges(data, depth, maxDepth);
    if ranges == [] { return Leaf(|data|); }
    var f, v := ChooseSplit(data, ranges);
    var left, right := Partition(data, f, v);
    var l := BuildTree(left, depth + 1, maxDepth);
    var r := BuildTree(right, depth + 1, maxDepth);
    node := Split(f, v, l, r);
  }

  /** A share below one of a positive spread stays below the spread. */
  lemma ShareBelow(u: real, spread: real)
    requires 0.0 <= u < 1.0 && spread > 0.0
    ensures 0.0 <= u * spread && u * spread < spread
  {
    var rest := 1.0 - u;
    assert rest * spread > 0.0;
    assert rest * spread == spread - u * spread;
  }

  /** Whatever the generator returned, the tree describes its sample and keeps to the depth limit. */
  lemma {:induction false} GrownDescribes(node: Node, data: seq<Point>, room: nat)
    requires Grown(node, data, room)
    ensures Describes(node, data) && Depth(node) <= room
    decreases room
  {
    match node
    case Leaf(_) =>
    case Split(f, v, l, r) =>
      GrownDescribes(l, Side(data, f, v, true), room - 1);
      GrownDescribes(r, Side(data, f, v, false), room - 1);
  }

  // ─── The forest ───────────────────────────────────────────────────────────

  /** The depth limit: the least k with 2^k not below the sample size. */
  method CeilLog2(n: nat) returns (k: nat)
    requires n >= 1
    ensures n <= Pow2(k) && (k > 0 ==> Pow2(k - 1) < n)
  {
    k := 0;
    var p := 1;
    while p < n
      invariant p == Pow2(k) && (k > 0 ==> Pow2(k - 1) < n)
      decreases 2 * n - p
    {
      p := 2 * p;
      k := k + 1;
    }
  }

  /** All points when they fit, otherwise `k` draws with replacement. */
  method Subsample(data: seq<Point>, k: nat) returns (sample: seq<Point>)
    ensures |data| <= k ==> sample == data
    ensures |data| > k ==> |sample| == k && forall x :: x in sample ==> x in data
  {
    if |data| <= k { return data; }
    sample := [];
    for i := 0 to k
      invariant |sample| == i && forall x :: x in sample ==> x in data
    {
      var j := DrawIndex(|data|);
      sample := sample + [data[j]];
    }
  }

  /** A tree grown from a sample of the data: the data itself when it fits, else `size` draws from it. */
  ghost predicate TreeOk(tree: Node, data: seq<Point>, size: nat, maxDepth: nat) {
    exists sample :: Grown(tree, sample, maxDepth) && SampleOf(sample, data, size)
  }

  ghost predicate SampleOf(sample: seq<Point>, data: seq<Point>, size: nat) {
    if |data| <= size then sample == data else |sample| == size && forall x :: x in sample ==> x in data
  }

  /** Leaf sizes of every tree of the forest add up to the sample, and no path exceeds the limit. */
  lemma TreeBounds(tree: Node, data: seq<Point>, size: nat, maxDepth: nat, x: Point)
    requires TreeOk(tree, data, size, maxDepth)
    ensures TotalSize(tree) == if |data| <= size then |data| else size
    ensures |Route(x, tree)| <= maxDepth
  {
    var sample :| Grown(tree, sample, maxDepth) && SampleOf(sample, data, size);
    GrownDescribes(tree, sample, maxDepth);
    SizesSum(tree, sample);
    PathLengthIsRoute(_ => 0.0, x, tree, 0);
  }

  class IsolationForest {
    var trees: seq<Node>
    const sampleSize: nat
    const maxDepth: nat

    /** Every tree is grown from a sample of the data, down to the ceiling of log2 of its size. */
    constructor (data: seq<Point>, treeCount: nat, requestedSize: nat)
      ensures |trees| == treeCount
      ensures sampleSize >= 1 && (sampleSize == 1 || (sampleSize <= requestedSize && sampleSize <= |data|))
      ensures sampleSize == requestedSize || sampleSize == |data| || (sampleSize == 1 && (requestedSize == 0 || data == []))
      ensures maxDepth >= 1 && sampleSize <= Pow2(maxDepth) && (maxDepth > 1 ==> Pow2(maxDepth - 1) < sampleSize)
      ensures forall t :: 0 <= t < treeCount ==> TreeOk(trees[t], data, sampleSize, maxDepth)
    {
      var limit := if requestedSize < |data| then requestedSize else |data|;
      var size := if limit < 1 then 1 else limit;
      var deep := CeilLog2(if size < 2 then 2 else size);
      sampleSize, maxDepth, trees := size, deep, [];
      new;
      assert Pow2(0) == 1;
      for i := 0 to treeCount
        invariant |trees| == i
        invariant forall t :: 0 <= t < i ==> TreeOk(trees[t], data, sampleSize, maxDepth)
      {
        var sample := Subsample(data, sampleSize);
        var tree := BuildTree(sample, 0, maxDepth);
        assert SampleOf(sample, data, sampleSize);
        assert TreeOk(tree, data, sampleSize, maxDepth);
        trees := trees + [tree];
      }
    }
  }
}
