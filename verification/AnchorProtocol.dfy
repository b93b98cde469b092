/**
 Anchoring as a step system: one operator's on-chain chain, and any number of logger
 processes under that operator's key, each with its own table and at most one anchoring
 cycle in flight. Between any two steps of a process the chain may be extended by others,
 lose a suffix to a reorg, or become durable up to a higher block.
 */
module AnchorProtocol {
  import opened Types
  import opened Merkle
  import opened AuditBatch
  import opened AuditStore
  import opened AnchorContract
  import opened Sweep

  /**
   `lib` is the tree library. `waits` says that every flush waits for durability; it is false
   under the "latest" tag, and wherever a read of the durable block may fail, since one failed
   read ends the wait at once, whether or not the chain has the tag.
   */
  datatype Config = Config(word: Hash -> real, lib: TreeLibrary, ctx: LeafContext, waits: bool)

  /** A committed batch and the block that carries it. */
  datatype Mined = Mined(batch: Batch, block: nat)

  /** Where a process stands in its anchoring cycle. */
  datatype Flight =
    | Idle
    | Reconciling(pending: seq<(nat, Hash)>, stale: seq<nat>, released: nat)
    | Built(ids: seq<string>, root: Hash, count: nat)
    | Named(ids: seq<string>, root: Hash, count: nat, prev: Hash)
    | Landed(ids: seq<string>, root: Hash, prev: Hash, index: nat, block: nat)

  datatype Proc = Proc(rows: seq<Row>, flight: Flight)

  /** A completed flush: which process tagged rows, with what. */
  datatype Tagging = Tagging(pid: nat, index: nat, root: Hash)

  /** `safe` is the height reorgs no longer reach; `tags` is the history of completed flushes. */
  datatype World = World(chain: seq<Mined>, safe: nat, procs: seq<Proc>, tags: seq<Tagging>)

  function Batches(chain: seq<Mined>): (bs: seq<Batch>)
    ensures |bs| == |chain|
  {
    seq(|chain|, k requires 0 <= k < |chain| => chain[k].batch)
  }

  function GroupRoot(cfg: Config, es: seq<AuditEntry>): Hash
    requires es != []
  {
    RootOf(cfg.word, cfg.lib.build(LeafHashes(es, cfg.ctx)))
  }

  /** The root determines the leaves of the group, and is never zero. */
  lemma GroupRootFixesLeaves(cfg: Config, es: seq<AuditEntry>)
    requires es != []
    ensures Bottom(GroupRoot(cfg, es)) == multiset(LeafHashes(es, cfg.ctx)) && GroupRoot(cfg, es) != Zero
  {
    RootDeterminesLeaves(cfg.word, cfg.lib, LeafHashes(es, cfg.ctx));
  }

  // ─── Steps ────────────────────────────────────────────────────────────────

  datatype Action =
    | Record(pid: nat, entry: AuditEntry)
    | StartTick(pid: nat)
    | ReconcileOne(pid: nat)
    | Snapshot(pid: nat)
    | ReadHead(pid: nat, seen: Hash)
    | Commit(pid: nat, now: nat, block: nat)
    | Tag(pid: nat)
    | Crash(pid: nat)
    | ForeignCommit(prev: Hash, root: Hash, count: nat, now: nat, block: nat)
    | Finalize(height: nat)
    | Reorg(keep: nat)

  /** A new block lies above the durable height and not below the last one used. */
  predicate Includable(w: World, block: nat) {
    block > w.safe && (w.chain == [] || block >= w.chain[|w.chain| - 1].block)
  }

  predicate ReorgAllowed(w: World, keep: nat) {
    keep <= |w.chain| && forall k :: keep <= k < |w.chain| ==> w.chain[k].block > w.safe
  }

  function Put(w: World, p: nat, proc: Proc): World
    requires p < |w.procs|
  {
    w.(procs := w.procs[p := proc])
  }

  /** Snapshot of the untagged rows: nothing to do, or a tree over exactly those rows. */
  function BuildFlight(cfg: Config, rows: seq<Row>): Flight {
    var pending := Select(rows, Untagged());
    if pending == [] then Idle else Built(Ids(pending), GroupRoot(cfg, pending), |pending|)
  }

  /** `awaitDurable` compares block heights only. */
  predicate MayTag(cfg: Config, w: World, p: nat) {
    && p < |w.procs| && w.procs[p].flight.Landed?
    && (cfg.waits ==> w.procs[p].flight.block <= w.safe)
  }

  function StepOf(cfg: Config, w: World, p: nat, a: Action): World
    requires p < |w.procs|
  {
    var rows, flight := w.procs[p].rows, w.procs[p].flight;
    match a
    case Record(_, e) =>
      if HasId(rows, e.id) then w else Put(w, p, Proc(rows + [Row(e, None, None)], flight))
    case StartTick(_) =>
      if flight.Idle? then Put(w, p, Proc(rows, Reconciling(AnchoredPairs(rows), [], 0))) else w
    case ReconcileOne(_) =>
      if flight.Reconciling? && flight.pending != [] then
        var s := SweepOne(Batches(w.chain), SweepState(rows, flight.stale, flight.released), flight.pending[0]);
        Put(w, p, Proc(s.rows, Reconciling(flight.pending[1..], s.stale, s.released)))
      else w
    case Snapshot(_) =>
      if flight.Idle? || (flight.Reconciling? && flight.pending == [])
      then Put(w, p, Proc(rows, BuildFlight(cfg, rows))) else w
    case ReadHead(_, seen) =>
      if flight.Built? then Put(w, p, Proc(rows, Named(flight.ids, flight.root, flight.count, seen))) else w
    case Commit(_, now, block) =>
      if !flight.Named? || !Includable(w, block) then w
      else if Accepts(Batches(w.chain), flight.prev, flight.root, flight.count) then
        var landed := Landed(flight.ids, flight.root, flight.prev, |w.chain|, block);
        Put(w, p, Proc(rows, landed)).(chain := w.chain + [Mined(Batch(flight.root, now, flight.count), block)])
      else Put(w, p, Proc(rows, Idle))
    case Tag(_) =>
      if MayTag(cfg, w, p) then
        Put(w, p, Proc(Mark(rows, flight.ids, flight.index, flight.root), Idle))
          .(tags := w.tags + [Tagging(p, flight.index, flight.root)])
      else w
    case Crash(_) => Put(w, p, Proc(rows, Idle))
    case _ => w
  }

  /** One step; an action that is not enabled leaves the world as it is. */
  function Step(cfg: Config, w: World, a: Action): World {
    match a
    case ForeignCommit(prev, root, count, now, block) =>
      if Includable(w, block) && Accepts(Batches(w.chain), prev, root, count)
      then w.(chain := w.chain + [Mined(Batch(root, now, count), block)]) else w
    case Finalize(height) => if height > w.safe then w.(safe := height) else w
    case Reorg(keep) => if ReorgAllowed(w, keep) then w.(chain := w.chain[..keep]) else w
    case _ => if a.pid < |w.procs| then StepOf(cfg, w, a.pid, a) else w
  }

  function Run(cfg: Config, w: World, acts: seq<Action>): World
    decreases |acts|
  {
    if acts == [] then w else Run(cfg, Step(cfg, w, acts[0]), acts[1..])
  }

  lemma {:induction false} RunConcat(cfg: Config, w: World, a: seq<Action>, b: seq<Action>)
    ensures Run(cfg, w, a + b) == Run(cfg, Run(cfg, w, a), b)
    decreases |a|
  {
    if a == [] {
      assert a + b == b;
    } else {
      assert (a + b)[0] == a[0] && (a + b)[1..] == a[1..] + b;
      RunConcat(cfg, Step(cfg, w, a[0]), a[1..], b);
    }
  }

  // ─── The table invariant ──────────────────────────────────────────────────

  ghost predicate DistinctLeaves(cfg: Config, rows: seq<Row>) {
    forall a, b :: 0 <= a < b < |rows| ==> LeafOf(rows[a].entry, cfg.ctx) != LeafOf(rows[b].entry, cfg.ctx)
  }

  /** Rows sharing an index and a root rebuild exactly that root. */
  ghost predicate GroupsRebuild(cfg: Config, rows: seq<Row>) {
    forall i, root {:trigger Select(rows, InGroup(i, root))} :: Select(rows, InGroup(i, root)) != [] ==>
      GroupRoot(cfg, Select(rows, InGroup(i, root))) == root
  }

  /** The rows in flight are still there, still untagged, and still build the root in flight. */
  ghost predicate Carries(cfg: Config, rows: seq<Row>, ids: seq<string>, root: Hash, count: nat) {
    && (forall id :: id in ids ==> HasId(rows, id))
    && (forall k :: 0 <= k < |rows| && rows[k].entry.id in ids ==> rows[k].batchIndex.None?)
    && Select(rows, IdIn(ids)) != [] && |Select(rows, IdIn(ids))| == count
    && GroupRoot(cfg, Select(rows, IdIn(ids))) == root
  }

  ghost predicate FlightOk(cfg: Config, rows: seq<Row>, f: Flight) {
    match f
    case Built(ids, root, count) => Carries(cfg, rows, ids, root, count)
    case Named(ids, root, count, _) => Carries(cfg, rows, ids, root, count)
    case Landed(ids, root, _, _, _) => Carries(cfg, rows, ids, root, |Select(rows, IdIn(ids))|)
    case _ => true
  }

  ghost predicate TableOk(cfg: Config, rows: seq<Row>) {
    UniqueIds(rows) && Paired(rows) && DistinctLeaves(cfg, rows) && GroupsRebuild(cfg, rows)
  }

  ghost predicate ProcOk(cfg: Config, proc: Proc) {
    TableOk(cfg, proc.rows) && FlightOk(cfg, proc.rows, proc.flight)
  }

  ghost predicate ProcsOk(cfg: Config, w: World) {
    forall p :: 0 <= p < |w.procs| ==> ProcOk(cfg, w.procs[p])
  }

  /**
   The leaf carries no row id, so two rows with equal contents and time would share a
   leaf. Everything below assumes a process never records such a twin.
   */
  ghost predicate NoTwin(cfg: Config, w: World, a: Action) {
    a.Record? && a.pid < |w.procs| ==>
      forall k :: 0 <= k < |w.procs[a.pid].rows| ==>
        LeafOf(w.procs[a.pid].rows[k].entry, cfg.ctx) != LeafOf(a.entry, cfg.ctx)
  }

  ghost predicate NoTwins(cfg: Config, w: World, acts: seq<Action>)
    decreases |acts|
  {
    acts != [] ==> NoTwin(cfg, w, acts[0]) && NoTwins(cfg, Step(cfg, w, acts[0]), acts[1..])
  }

  lemma RecordKeeps(cfg: Config, proc: Proc, e: AuditEntry)
    requires ProcOk(cfg, proc) && !HasId(proc.rows, e.id)
    requires forall k :: 0 <= k < |proc.rows| ==> LeafOf(proc.rows[k].entry, cfg.ctx) != LeafOf(e, cfg.ctx)
    ensures ProcOk(cfg, Proc(proc.rows + [Row(e, None, None)], proc.flight))
  {
    RecordKeepsTable(cfg, proc.rows, e);
    match proc.flight
    case Built(ids, root, count) => RecordKeepsCarried(cfg, proc.rows, e, ids, root, count);
    case Named(ids, root, count, _) => RecordKeepsCarried(cfg, proc.rows, e, ids, root, count);
    case Landed(ids, root, _, _, _) =>
      RecordKeepsCarried(cfg, proc.rows, e, ids, root, |Select(proc.rows, IdIn(ids))|);
    case _ =>
  }

  lemma RecordKeepsTable(cfg: Config, rows: seq<Row>, e: AuditEntry)
    requires TableOk(cfg, rows) && !HasId(rows, e.id)
    requires forall k :: 0 <= k < |rows| ==> LeafOf(rows[k].entry, cfg.ctx) != LeafOf(e, cfg.ctx)
    ensures TableOk(cfg, rows + [Row(e, None, None)])
  {
    var r := Row(e, None, None);
    forall i, root | Select(rows + [r], InGroup(i, root)) != []
      ensures GroupRoot(cfg, Select(rows + [r], InGroup(i, root))) == root
    {
      SelectAppend(rows, r, InGroup(i, root));
      assert Select(rows + [r], InGroup(i, root)) == Select(rows, InGroup(i, root));
    }
  }

  /** A later record never joins the rows already in flight. */
  lemma RecordKeepsCarried(cfg: Config, rows: seq<Row>, e: AuditEntry, ids: seq<string>,
      root: Hash, count: nat)
    requires Carries(cfg, rows, ids, root, count) && !HasId(rows, e.id)
    ensures Select(rows + [Row(e, None, None)], IdIn(ids)) == Select(rows, IdIn(ids))
    ensures Carries(cfg, rows + [Row(e, None, None)], ids, root, count)
  {
    var r := Row(e, None, None);
    assert e.id !in ids;
    SelectAppend(rows, r, IdIn(ids));
    assert Select(rows + [r], IdIn(ids)) == Select(rows, IdIn(ids));
    forall id | id in ids ensures HasId(rows + [r], id) {
      var k :| 0 <= k < |rows| && rows[k].entry.id == id;
      assert (rows + [r])[k].entry.id == id;
    }
  }

  lemma ReleaseKeeps(cfg: Config, rows: seq<Row>, index: nat)
    requires TableOk(cfg, rows)
    ensures TableOk(cfg, Release(rows, index))
  {
    ReleaseKeepsRows(cfg, rows, index);
    forall i, root | Select(Release(rows, index), InGroup(i, root)) != []
      ensures GroupRoot(cfg, Select(Release(rows, index), InGroup(i, root))) == root
    {
      ReleasedGroup(rows, index, i, root);
    }
  }

  lemma ReleaseKeepsRows(cfg: Config, rows: seq<Row>, index: nat)
    requires UniqueIds(rows) && Paired(rows) && DistinctLeaves(cfg, rows)
    ensures var rows' := Release(rows, index);
            UniqueIds(rows') && Paired(rows') && DistinctLeaves(cfg, rows')
  {
    var rows' := Release(rows, index);
    assert forall k :: 0 <= k < |rows| ==> rows'[k] == ReleaseRow(rows[k], index) && rows'[k].entry == rows[k].entry;
  }

  /** A release empties every group at its index and leaves the others as they were. */
  lemma ReleasedGroup(rows: seq<Row>, index: nat, i: nat, root: Hash)
    ensures Select(Release(rows, index), InGroup(i, root)) ==
            if i == index then [] else Select(rows, InGroup(i, root))
  {
    var rows' := Release(rows, index);
    assert forall k :: 0 <= k < |rows| ==> rows'[k] == ReleaseRow(rows[k], index);
    if i == index {
      NoneSelected(rows', InGroup(i, root));
    } else {
      SameSelection(rows, InGroup(i, root), rows', InGroup(i, root));
    }
  }

  lemma SnapshotOk(cfg: Config, rows: seq<Row>)
    requires TableOk(cfg, rows)
    ensures FlightOk(cfg, rows, BuildFlight(cfg, rows))
  {
    var pending := Select(rows, Untagged());
    if pending != [] {
      var ids := Ids(pending);
      SelectByIds(rows, Untagged());
      forall id | id in ids ensures HasId(rows, id) {
        var j :| 0 <= j < |ids| && ids[j] == id;
        SelectedIff(rows, Untagged(), pending[j]);
        var k :| 0 <= k < |rows| && Untagged()(rows[k]) && rows[k].entry == pending[j];
        assert rows[k].entry.id == id;
      }
    }
  }

  /** Groups of different rows never share a root, because a root determines its leaves. */
  lemma GroupsDiffer(cfg: Config, rows: seq<Row>, p: Row -> bool, q: Row -> bool)
    requires DistinctLeaves(cfg, rows)
    requires forall k :: 0 <= k < |rows| ==> !(p(rows[k]) && q(rows[k]))
    requires Select(rows, p) != [] && Select(rows, q) != []
    ensures GroupRoot(cfg, Select(rows, p)) != GroupRoot(cfg, Select(rows, q))
  {
    var lp, lq := LeafHashes(Select(rows, p), cfg.ctx), LeafHashes(Select(rows, q), cfg.ctx);
    forall j | 0 <= j < |lq| ensures lq[j] != lp[0] {
      SelectedLeavesDiffer(cfg, rows, p, q, 0, j);
    }
    GroupRootFixesLeaves(cfg, Select(rows, p));
    GroupRootFixesLeaves(cfg, Select(rows, q));
    assert lp[0] in multiset(lp) && lp[0] !in multiset(lq);
  }

  lemma SelectedLeavesDiffer(cfg: Config, rows: seq<Row>, p: Row -> bool, q: Row -> bool, i: nat,
      j: nat)
    requires DistinctLeaves(cfg, rows)
    requires forall k :: 0 <= k < |rows| ==> !(p(rows[k]) && q(rows[k]))
    requires i < |Select(rows, p)| && j < |Select(rows, q)|
    ensures LeafOf(Select(rows, p)[i], cfg.ctx) != LeafOf(Select(rows, q)[j], cfg.ctx)
  {
    var x, y := Select(rows, p)[i], Select(rows, q)[j];
    SelectedIff(rows, p, x);
    SelectedIff(rows, q, y);
    var a :| 0 <= a < |rows| && p(rows[a]) && rows[a].entry == x;
    var b :| 0 <= b < |rows| && q(rows[b]) && rows[b].entry == y;
    assert a != b;
  }

  lemma TagKeeps(cfg: Config, rows: seq<Row>, ids: seq<string>, index: nat, root: Hash, count: nat)
    requires TableOk(cfg, rows) && Carries(cfg, rows, ids, root, count)
    ensures TableOk(cfg, Mark(rows, ids, index, root))
  {
    var rows' := Mark(rows, ids, index, root);
    MarkKeepsRows(cfg, rows, ids, index, root);
    NewGroupIsFresh(cfg, rows, ids, index, root, count);
    MarkedGroup(rows, ids, index, root);
    forall i, r | Select(rows', InGroup(i, r)) != []
      ensures GroupRoot(cfg, Select(rows', InGroup(i, r))) == r
    {
      if i != index || r != root { OtherGroup(rows, ids, index, root, i, r); }
    }
  }

  lemma MarkKeepsRows(cfg: Config, rows: seq<Row>, ids: seq<string>, index: nat, root: Hash)
    requires UniqueIds(rows) && Paired(rows) && DistinctLeaves(cfg, rows)
    ensures var rows' := Mark(rows, ids, index, root);
            UniqueIds(rows') && Paired(rows') && DistinctLeaves(cfg, rows')
  {
    var rows' := Mark(rows, ids, index, root);
    assert forall k :: 0 <= k < |rows| ==> rows'[k] == MarkRow(rows[k], ids, index, root) && rows'[k].entry == rows[k].entry;
  }

  /** No tagged row already sits under the index and root the rows in flight are about to get. */
  lemma NewGroupIsFresh(cfg: Config, rows: seq<Row>, ids: seq<string>, index: nat, root: Hash,
      count: nat)
    requires TableOk(cfg, rows) && Carries(cfg, rows, ids, root, count)
    ensures forall k :: 0 <= k < |rows| ==> !InGroup(index, root)(rows[k])
  {
    if Select(rows, InGroup(index, root)) != [] {
      assert GroupRoot(cfg, Select(rows, InGroup(index, root))) == root;
      GroupsDiffer(cfg, rows, IdIn(ids), InGroup(index, root));
      assert false;
    }
    NoneSelected(rows, InGroup(index, root));
  }

  lemma MarkedGroup(rows: seq<Row>, ids: seq<string>, index: nat, root: Hash)
    requires forall k :: 0 <= k < |rows| ==> !InGroup(index, root)(rows[k])
    ensures Select(Mark(rows, ids, index, root), InGroup(index, root)) == Select(rows, IdIn(ids))
  {
    var rows' := Mark(rows, ids, index, root);
    forall k | 0 <= k < |rows|
      ensures InGroup(index, root)(rows'[k]) == IdIn(ids)(rows[k]) && rows'[k].entry == rows[k].entry
    {
      assert rows'[k] == MarkRow(rows[k], ids, index, root) && !InGroup(index, root)(rows[k]);
    }
    SameSelection(rows, IdIn(ids), rows', InGroup(index, root));
  }

  /** Tagging untagged rows leaves every other group as it was. */
  lemma OtherGroup(rows: seq<Row>, ids: seq<string>, index: nat, root: Hash, i: nat, r: Hash)
    requires forall k :: 0 <= k < |rows| && rows[k].entry.id in ids ==> rows[k].batchIndex.None?
    requires i != index || r != root
    ensures Select(Mark(rows, ids, index, root), InGroup(i, r)) == Select(rows, InGroup(i, r))
  {
    var rows' := Mark(rows, ids, index, root);
    forall k | 0 <= k < |rows|
      ensures InGroup(i, r)(rows'[k]) == InGroup(i, r)(rows[k]) && rows'[k].entry == rows[k].entry
    {
      assert rows'[k] == MarkRow(rows[k], ids, index, root);
    }
    SameSelection(rows, InGroup(i, r), rows', InGroup(i, r));
  }

  lemma StepKeepsProc(cfg: Config, w: World, p: nat, a: Action)
    requires p < |w.procs| && ProcOk(cfg, w.procs[p])
    requires a.Record? ==> a.pid == p && NoTwin(cfg, w, a)
    ensures |StepOf(cfg, w, p, a).procs| == |w.procs|
    ensures ProcOk(cfg, StepOf(cfg, w, p, a).procs[p])
    ensures forall q :: 0 <= q < |w.procs| && q != p ==> StepOf(cfg, w, p, a).procs[q] == w.procs[q]
  {
    var proc := w.procs[p];
    match a
    case Record(_, e) =>
      if !HasId(proc.rows, e.id) { RecordKeeps(cfg, proc, e); }
    case ReconcileOne(_) =>
      if proc.flight.Reconciling? && proc.flight.pending != [] {
        ReleaseKeeps(cfg, proc.rows, proc.flight.pending[0].0);
      }
    case Snapshot(_) =>
      SnapshotOk(cfg, proc.rows);
    case Tag(_) =>
      if MayTag(cfg, w, p) {
        var f := proc.flight;
        TagKeeps(cfg, proc.rows, f.ids, f.index, f.root, |Select(proc.rows, IdIn(f.ids))|);
      }
    case _ =>
  }

  lemma StepKeepsProcs(cfg: Config, w: World, a: Action)
    requires ProcsOk(cfg, w) && NoTwin(cfg, w, a)
    ensures ProcsOk(cfg, Step(cfg, w, a))
    ensures |Step(cfg, w, a).procs| == |w.procs|
  {
    if !(a.ForeignCommit? || a.Finalize? || a.Reorg?) && a.pid < |w.procs| {
      StepKeepsProc(cfg, w, a.pid, a);
    }
  }

  /**
   Crash and reorg invariant, first half: over every run, in every process, each group of
   rows sharing an index and a root rebuilds exactly that root.
   */
  lemma {:induction false} GroupsAlwaysRebuild(cfg: Config, w: World, acts: seq<Action>)
    requires ProcsOk(cfg, w) && NoTwins(cfg, w, acts)
    ensures ProcsOk(cfg, Run(cfg, w, acts))
    decreases |acts|
  {
    if acts != [] {
      StepKeepsProcs(cfg, w, acts[0]);
      GroupsAlwaysRebuild(cfg, Step(cfg, w, acts[0]), acts[1..]);
    }
  }
}
