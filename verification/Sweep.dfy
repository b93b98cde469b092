/** One pass of `reconcile` over the locally recorded batches, as a function of table and chain. */
module Sweep {
  import opened Types
  import opened AuditStore
  import opened AnchorContract

  /** The table so far, the stale indices met, and the running count of released entries. */
  datatype SweepState = SweepState(rows: seq<Row>, stale: seq<nat>, released: nat)

  predicate OnChain(chain: seq<Batch>, index: nat, root: Hash) {
    index < |chain| && chain[index].merkleRoot == root
  }

  function SweepOne(chain: seq<Batch>, s: SweepState, pair: (nat, Hash)): SweepState {
    if OnChain(chain, pair.0, pair.1) then s
    else SweepState(
      Release(s.rows, pair.0), s.stale + [pair.0],
      s.released + |Select(s.rows, InBatch(pair.0))|)
  }

  function SweepAll(chain: seq<Batch>, s: SweepState, pairs: seq<(nat, Hash)>): SweepState
    decreases |pairs|
  {
    if pairs == [] then s else SweepAll(chain, SweepOne(chain, s, pairs[0]), pairs[1..])
  }

  function Reconciled(chain: seq<Batch>, rows: seq<Row>): SweepState {
    SweepAll(chain, SweepState(rows, [], 0), AnchoredPairs(rows))
  }

  /** A row loses its tag when any root recorded at its index is not on chain there. */
  predicate Doomed(chain: seq<Batch>, pairs: seq<(nat, Hash)>, r: Row) {
    r.batchIndex.Some? &&
    exists k :: 0 <= k < |pairs| && pairs[k].0 == r.batchIndex.value && !OnChain(chain, pairs[k].0, pairs[k].1)
  }

  function Untag(r: Row): Row { Row(r.entry, None, None) }

  lemma {:induction false} SweepEffect(chain: seq<Batch>, s: SweepState, pairs: seq<(nat, Hash)>)
    ensures var out := SweepAll(chain, s, pairs);
            && |out.rows| == |s.rows|
            && (forall k :: 0 <= k < |s.rows| ==>
                  out.rows[k] == if Doomed(chain, pairs, s.rows[k]) then Untag(s.rows[k]) else s.rows[k])
    decreases |pairs|
  {
    if pairs != [] {
      var mid := SweepOne(chain, s, pairs[0]);
      var out := SweepAll(chain, s, pairs);
      SweepEffect(chain, mid, pairs[1..]);
      forall k | 0 <= k < |s.rows|
        ensures out.rows[k] == if Doomed(chain, pairs, s.rows[k]) then Untag(s.rows[k]) else s.rows[k]
      {
        var r := s.rows[k];
        if j :| r.batchIndex.Some? && 0 <= j < |pairs| && pairs[j].0 == r.batchIndex.value
                && !OnChain(chain, pairs[j].0, pairs[j].1) {
          if j > 0 { assert pairs[1..][j - 1] == pairs[j]; }
        }
        if Doomed(chain, pairs[1..], r) {
          var j :| 0 <= j < |pairs[1..]| && pairs[1..][j].0 == r.batchIndex.value
                   && !OnChain(chain, pairs[1..][j].0, pairs[1..][j].1);
          assert pairs[j + 1] == pairs[1..][j];
        }
      }
    }
  }

  lemma {:induction false} SweepCounts(chain: seq<Batch>, s: SweepState, pairs: seq<(nat, Hash)>)
    ensures var out := SweepAll(chain, s, pairs);
            out.released - s.released == |Select(out.rows, Untagged())| - |Select(s.rows, Untagged())|
    decreases |pairs|
  {
    if pairs != [] {
      ReleaseCount(s.rows, pairs[0].0);
      SweepCounts(chain, SweepOne(chain, s, pairs[0]), pairs[1..]);
    }
  }

  /** Both batch columns are null or neither is. */
  ghost predicate Paired(rows: seq<Row>) {
    forall k :: 0 <= k < |rows| ==> (rows[k].batchIndex.Some? <==> rows[k].batchRoot.Some?)
  }

  /** Some row recorded at the index of row `k`, maybe itself, names a root not on chain there. */
  ghost predicate SharesStaleIndex(chain: seq<Batch>, rows: seq<Row>, k: nat)
    requires k < |rows|
  {
    exists j :: 0 <= j < |rows| && StaleAt(chain, rows[j], rows[k])
  }

  predicate StaleAt(chain: seq<Batch>, stale: Row, r: Row) {
    && r.batchIndex.Some? && stale.batchIndex == r.batchIndex && stale.batchRoot.Some?
    && !OnChain(chain, stale.batchIndex.value, stale.batchRoot.value)
  }

  lemma {:induction false} DoomedIff(chain: seq<Batch>, rows: seq<Row>, k: nat)
    requires k < |rows|
    ensures Doomed(chain, AnchoredPairs(rows), rows[k]) <==> SharesStaleIndex(chain, rows, k)
  {
    var pairs := AnchoredPairs(rows);
    if Doomed(chain, pairs, rows[k]) {
      var q :| 0 <= q < |pairs| && pairs[q].0 == rows[k].batchIndex.value && !OnChain(chain, pairs[q].0, pairs[q].1);
      PairsComplete(rows, pairs[q]);
      var j :| 0 <= j < |rows| && InGroup(pairs[q].0, pairs[q].1)(rows[j]);
      assert StaleAt(chain, rows[j], rows[k]);
    }
    if SharesStaleIndex(chain, rows, k) {
      var j :| 0 <= j < |rows| && StaleAt(chain, rows[j], rows[k]);
      var pair := (rows[j].batchIndex.value, rows[j].batchRoot.value);
      assert InGroup(pair.0, pair.1)(rows[j]);
      PairsComplete(rows, pair);
      var q :| 0 <= q < |pairs| && pairs[q] == pair;
    }
  }

  /**
   What one reconcile achieves. Every row that still names a root names one the chain holds
   at its index; a row lost its tag exactly when some root recorded at its index is not
   there, even if its own is or it has none, as an older table may hold; and the reported
   count is the number of rows un-tagged.
   */
  lemma ReconcileExact(chain: seq<Batch>, rows: seq<Row>)
    ensures var out := Reconciled(chain, rows);
            && |out.rows| == |rows| && (Paired(rows) ==> Paired(out.rows))
            && (forall k :: 0 <= k < |rows| ==>
                  out.rows[k] == if SharesStaleIndex(chain, rows, k) then Untag(rows[k]) else rows[k])
            && (forall k :: 0 <= k < |rows| && out.rows[k].batchIndex.Some? && out.rows[k].batchRoot.Some? ==>
                  OnChain(chain, out.rows[k].batchIndex.value, out.rows[k].batchRoot.value))
            && out.released == |Select(out.rows, Untagged())| - |Select(rows, Untagged())|
  {
    var pairs := AnchoredPairs(rows);
    var out := Reconciled(chain, rows);
    SweepEffect(chain, SweepState(rows, [], 0), pairs);
    SweepCounts(chain, SweepState(rows, [], 0), pairs);
    forall k | 0 <= k < |rows|
      ensures out.rows[k] == if SharesStaleIndex(chain, rows, k) then Untag(rows[k]) else rows[k]
    {
      DoomedIff(chain, rows, k);
    }
    forall k | 0 <= k < |rows| && out.rows[k].batchIndex.Some? && out.rows[k].batchRoot.Some?
      ensures OnChain(chain, out.rows[k].batchIndex.value, out.rows[k].batchRoot.value)
    {
      assert !StaleAt(chain, rows[k], rows[k]);
    }
  }
}
