/** The audit table: one row per entry in insertion order, with its two batch columns. */
module AuditStore {
  import opened Types
  import opened EntryList

  datatype Row = Row(entry: AuditEntry, batchIndex: Option<nat>, batchRoot: Option<Hash>)

  /** The primary key: no two rows share an id. */
  ghost predicate UniqueIds(rows: seq<Row>) {
    forall a, b :: 0 <= a < b < |rows| ==> rows[a].entry.id != rows[b].entry.id
  }

  predicate HasId(rows: seq<Row>, id: string) {
    exists k :: 0 <= k < |rows| && rows[k].entry.id == id
  }

  /** The entries of the rows a `WHERE` clause selects, in row order. */
  function Select(rows: seq<Row>, where: Row -> bool): seq<AuditEntry> {
    if rows == [] then []
    else
      var last := rows[|rows| - 1];
      Select(rows[..|rows| - 1], where) + if where(last) then [last.entry] else []
  }

  function Everything(): Row -> bool { (r: Row) => true }

  function Untagged(): Row -> bool { (r: Row) => r.batchIndex.None? }

  function InBatch(index: nat): Row -> bool { (r: Row) => r.batchIndex == Some(index) }

  function InGroup(index: nat, root: Hash): Row -> bool {
    (r: Row) => r.batchIndex == Some(index) && r.batchRoot == Some(root)
  }

  function IdIn(ids: seq<string>): Row -> bool { (r: Row) => r.entry.id in ids }

  function OfAgent(agentId: string): Row -> bool { (r: Row) => r.entry.agentId == agentId }

  function Ids(es: seq<AuditEntry>): (ids: seq<string>)
    ensures |ids| == |es|
  {
    seq(|es|, k requires 0 <= k < |es| => es[k].id)
  }

  function MarkRow(r: Row, ids: seq<string>, index: nat, root: Hash): Row {
    if r.entry.id in ids then Row(r.entry, Some(index), Some(root)) else r
  }

  function Mark(rows: seq<Row>, ids: seq<string>, index: nat, root: Hash): (r: seq<Row>)
    ensures |r| == |rows|
  {
    seq(|rows|, k requires 0 <= k < |rows| => MarkRow(rows[k], ids, index, root))
  }

  function ReleaseRow(r: Row, index: nat): Row {
    if r.batchIndex == Some(index) then Row(r.entry, None, None) else r
  }

  function Release(rows: seq<Row>, index: nat): (r: seq<Row>)
    ensures |r| == |rows|
  {
    seq(|rows|, k requires 0 <= k < |rows| => ReleaseRow(rows[k], index))
  }

  /** Insert a pair into an index-ordered list unless it is already there. */
  function InsertPair(pairs: seq<(nat, Hash)>, p: (nat, Hash)): (r: seq<(nat, Hash)>)
    ensures forall q :: q in r <==> q in pairs || q == p
  {
    if pairs == [] then [p]
    else if pairs[0] == p then pairs
    else if p.0 < pairs[0].0 then [p] + pairs
    else [pairs[0]] + InsertPair(pairs[1..], p)
  }

  /** `SELECT DISTINCT batch_index, batch_root ... ORDER BY batch_index`, nulls excluded. */
  function AnchoredPairs(rows: seq<Row>): seq<(nat, Hash)> {
    if rows == [] then []
    else
      var last := rows[|rows| - 1];
      var before := AnchoredPairs(rows[..|rows| - 1]);
      if last.batchIndex.Some? && last.batchRoot.Some?
      then InsertPair(before, (last.batchIndex.value, last.batchRoot.value)) else before
  }

  // ─── What the clauses select ──────────────────────────────────────────────

  /** Selections depend only on which rows are picked and what entries they carry. */
  lemma {:induction false} SameSelection(rows: seq<Row>, p: Row -> bool, rows': seq<Row>, q: Row -> bool)
    requires |rows| == |rows'|
    requires forall k :: 0 <= k < |rows| ==> rows[k].entry == rows'[k].entry && p(rows[k]) == q(rows'[k])
    ensures Select(rows, p) == Select(rows', q)
  {
    if rows != [] {
      SameSelection(rows[..|rows| - 1], p, rows'[..|rows| - 1], q);
    }
  }

  lemma {:induction false} SelectedIff(rows: seq<Row>, p: Row -> bool, e: AuditEntry)
    ensures e in Select(rows, p) <==> exists k :: 0 <= k < |rows| && p(rows[k]) && rows[k].entry == e
  {
    if rows != [] {
      var front := rows[..|rows| - 1];
      SelectedIff(front, p, e);
      if e in Select(rows, p) && e !in Select(front, p) {
        assert p(rows[|rows| - 1]) && rows[|rows| - 1].entry == e;
      }
      if k :| 0 <= k < |rows| && p(rows[k]) && rows[k].entry == e {
        if k < |rows| - 1 { assert front[k] == rows[k]; }
      }
    }
  }

  lemma {:induction false} NoneSelected(rows: seq<Row>, p: Row -> bool)
    ensures Select(rows, p) == [] <==> forall k :: 0 <= k < |rows| ==> !p(rows[k])
  {
    if rows != [] {
      var front := rows[..|rows| - 1];
      NoneSelected(front, p);
      if Select(rows, p) == [] {
        forall k | 0 <= k < |rows| ensures !p(rows[k]) {
          if k < |front| { assert front[k] == rows[k]; }
        }
      }
    }
  }

  lemma SelectAppend(rows: seq<Row>, r: Row, p: Row -> bool)
    ensures Select(rows + [r], p) == Select(rows, p) + if p(r) then [r.entry] else []
  {
    assert (rows + [r])[..|rows|] == rows;
  }

  lemma {:induction false} PairsComplete(rows: seq<Row>, p: (nat, Hash))
    ensures p in AnchoredPairs(rows) <==> exists k :: 0 <= k < |rows| && InGroup(p.0, p.1)(rows[k])
  {
    if rows != [] {
      var front := rows[..|rows| - 1];
      PairsComplete(front, p);
      if k :| 0 <= k < |rows| && InGroup(p.0, p.1)(rows[k]) {
        if k < |front| { assert front[k] == rows[k]; }
      }
      if k :| 0 <= k < |front| && InGroup(p.0, p.1)(front[k]) {
        assert rows[k] == front[k];
      }
    }
  }

  /** Selecting rows by the ids of an earlier selection selects the same entries again. */
  lemma SelectByIds(rows: seq<Row>, p: Row -> bool)
    requires UniqueIds(rows)
    ensures Select(rows, IdIn(Ids(Select(rows, p)))) == Select(rows, p)
    ensures forall k :: 0 <= k < |rows| ==> (rows[k].entry.id in Ids(Select(rows, p)) <==> p(rows[k]))
  {
    var chosen := Select(rows, p);
    forall k | 0 <= k < |rows| ensures rows[k].entry.id in Ids(chosen) <==> p(rows[k]) {
      SelectedIff(rows, p, rows[k].entry);
      if rows[k].entry.id in Ids(chosen) {
        var j :| 0 <= j < |chosen| && Ids(chosen)[j] == rows[k].entry.id;
        SelectedIff(rows, p, chosen[j]);
        var m :| 0 <= m < |rows| && p(rows[m]) && rows[m].entry == chosen[j];
        assert m == k;
      }
      if p(rows[k]) {
        var j :| 0 <= j < |chosen| && chosen[j] == rows[k].entry;
        assert Ids(chosen)[j] == rows[k].entry.id;
      }
    }
    SameSelection(rows, IdIn(Ids(chosen)), rows, p);
  }

  /** Only null columns come back from a release, and it reports exactly the rows it changed. */
  lemma {:induction false} ReleaseCount(rows: seq<Row>, index: nat)
    ensures |Select(Release(rows, index), Untagged())| ==
            |Select(rows, Untagged())| + |Select(rows, InBatch(index))|
  {
    if rows != [] {
      var front := rows[..|rows| - 1];
      ReleaseCount(front, index);
      assert Release(rows, index)[..|rows| - 1] == Release(front, index);
    }
  }

  // ─── The store ────────────────────────────────────────────────────────────

  class SqliteAuditStore {
    var rows: seq<Row>

    ghost predicate Valid()
      reads this
    {
      UniqueIds(rows)
    }

    constructor ()
      ensures Valid() && rows == []
    {
      rows := [];
    }

    /** A second row with a known id violates the primary key and changes nothing. */
    method Insert(entry: AuditEntry) returns (ok: bool)
      requires Valid()
      modifies this
      ensures Valid()
      ensures ok == !HasId(old(rows), entry.id)
      ensures rows == if ok then old(rows) + [Row(entry, None, None)] else old(rows)
    {
      ok := !HasId(rows, entry.id);
      if ok { rows := rows + [Row(entry, None, None)]; }
    }

    /** An empty agent id lists everything, as a falsy argument does. */
    function List(agentId: Option<string>): seq<AuditEntry>
      reads this
    {
      if agentId.Some? && agentId.value != "" then Select(rows, OfAgent(agentId.value))
      else Select(rows, Everything())
    }

    function ListSince(agentId: string, since: int): seq<AuditEntry>
      reads this
    {
      Since(Select(rows, Everything()), agentId, since)
    }

    method GetById(id: string) returns (found: Option<Row>)
      requires Valid()
      ensures found.Some? <==> HasId(rows, id)
      ensures found.Some? ==> found.value in rows && found.value.entry.id == id
    {
      found := None;
      for k := 0 to |rows|
        invariant found.None? ==> forall j :: 0 <= j < k ==> rows[j].entry.id != id
        invariant found.Some? ==> found.value in rows && found.value.entry.id == id
      {
        if rows[k].entry.id == id { found := Some(rows[k]); }
      }
    }

    function Unbatched(): seq<AuditEntry>
      reads this
    {
      Select(rows, Untagged())
    }

    /** One update per id, in a single transaction. */
    method MarkBatched(ids: seq<string>, batchIndex: nat, batchRoot: Hash)
      requires Valid()
      modifies this
      ensures Valid()
      ensures rows == Mark(old(rows), ids, batchIndex, batchRoot)
    {
      ghost var before := rows;
      for k := 0 to |ids|
        invariant |rows| == |before|
        invariant forall j :: 0 <= j < |rows| ==> rows[j] == MarkRow(before[j], ids[..k], batchIndex, batchRoot)
      {
        ghost var mid := rows;
        assert ids[..k + 1] == ids[..k] + [ids[k]];
        rows := Mark(rows, [ids[k]], batchIndex, batchRoot);
        forall j | 0 <= j < |rows|
          ensures rows[j] == MarkRow(before[j], ids[..k + 1], batchIndex, batchRoot)
        {
          assert mid[j] == MarkRow(before[j], ids[..k], batchIndex, batchRoot);
        }
      }
      assert ids[..|ids|] == ids;
      assert rows == Mark(before, ids, batchIndex, batchRoot);
    }

    function EntriesInBatch(batchIndex: nat): seq<AuditEntry>
      reads this
    {
      Select(rows, InBatch(batchIndex))
    }

    function AnchoredBatches(): seq<(nat, Hash)>
      reads this
    {
      AnchoredPairs(rows)
    }

    method ReleaseBatch(batchIndex: nat) returns (changes: nat)
      requires Valid()
      modifies this
      ensures Valid()
      ensures rows == Release(old(rows), batchIndex)
      ensures changes == |Select(old(rows), InBatch(batchIndex))|
    {
      changes := |Select(rows, InBatch(batchIndex))|;
      rows := Release(rows, batchIndex);
    }
  }
}
