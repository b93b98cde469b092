/**
 Where tagged rows stand on the chain, over whole runs: when the tag is true for good,
 how it can be wrong, and what racing committers under one key can and cannot do.
 */
module AnchorDurability {
  import opened Types
  import opened AuditStore
  import opened AnchorContract
  import opened AnchorProtocol

  /** The chain holds that root at that index, at a height reorgs no longer reach. */
  predicate Durable(w: World, index: nat, root: Hash) {
    && index < |w.chain| && w.chain[index].batch.merkleRoot == root
    && w.chain[index].block <= w.safe
  }

  ghost predicate RowsDurable(w: World, rows: seq<Row>) {
    forall k :: 0 <= k < |rows| && rows[k].batchIndex.Some? && rows[k].batchRoot.Some? ==>
      Durable(w, rows[k].batchIndex.value, rows[k].batchRoot.value)
  }

  /** Every tagged row of every process names a root the chain durably holds at its index. */
  ghost predicate AllDurable(w: World) {
    forall p :: 0 <= p < |w.procs| ==> RowsDurable(w, w.procs[p].rows)
  }

  predicate Tags(cfg: Config, w: World, a: Action) {
    a.Tag? && MayTag(cfg, w, a.pid)
  }

  /** At the moment of tagging, the batch read from the receipt is still durably in the chain. */
  predicate TagIsTrue(cfg: Config, w: World, a: Action) {
    Tags(cfg, w, a) ==> Durable(w, w.procs[a.pid].flight.index, w.procs[a.pid].flight.root)
  }

  ghost predicate AlwaysDurable(cfg: Config, w: World, acts: seq<Action>)
    decreases |acts|
  {
    AllDurable(w) && (acts != [] ==> AlwaysDurable(cfg, Step(cfg, w, acts[0]), acts[1..]))
  }

  predicate TagsAlwaysTrue(cfg: Config, w: World, acts: seq<Action>)
    decreases |acts|
  {
    acts != [] ==> TagIsTrue(cfg, w, acts[0]) && TagsAlwaysTrue(cfg, Step(cfg, w, acts[0]), acts[1..])
  }

  /** Chain changes never disturb a durable batch. */
  lemma DurableStays(cfg: Config, w: World, a: Action, index: nat, root: Hash)
    requires Durable(w, index, root)
    ensures Durable(Step(cfg, w, a), index, root)
  {
  }

  lemma StepKeepsRowsDurable(cfg: Config, w: World, a: Action, p: nat)
    requires p < |w.procs| && RowsDurable(w, w.procs[p].rows)
    requires TagIsTrue(cfg, w, a)
    ensures p < |Step(cfg, w, a).procs| && RowsDurable(Step(cfg, w, a), Step(cfg, w, a).procs[p].rows)
  {
    var w' := Step(cfg, w, a);
    var rows' := w'.procs[p].rows;
    forall k | 0 <= k < |rows'| && rows'[k].batchIndex.Some? && rows'[k].batchRoot.Some?
      ensures Durable(w', rows'[k].batchIndex.value, rows'[k].batchRoot.value)
    {
      if k < |w.procs[p].rows| && rows'[k] == w.procs[p].rows[k] {
        DurableStays(cfg, w, a, rows'[k].batchIndex.value, rows'[k].batchRoot.value);
      } else {
        assert Tags(cfg, w, a) && a.pid == p;
        var f := w.procs[p].flight;
        assert rows'[k] == MarkRow(w.procs[p].rows[k], f.ids, f.index, f.root);
        DurableStays(cfg, w, a, f.index, f.root);
      }
    }
  }

  /** Tagging leaves a row that names the flight's batch. */
  lemma TagLeavesRow(cfg: Config, w: World, a: Action) returns (k: nat)
    requires ProcsOk(cfg, w) && Tags(cfg, w, a)
    ensures var f, rows := w.procs[a.pid].flight, Step(cfg, w, a).procs[a.pid].rows;
            k < |rows| && rows[k].batchIndex == Some(f.index) && rows[k].batchRoot == Some(f.root)
  {
    var rows, f := w.procs[a.pid].rows, w.procs[a.pid].flight;
    assert Select(rows, IdIn(f.ids)) != [] by { assert ProcOk(cfg, w.procs[a.pid]); }
    assert Step(cfg, w, a).procs[a.pid].rows == Mark(rows, f.ids, f.index, f.root);
    k := MarkedRow(rows, f.ids, f.index, f.root);
  }

  lemma MarkedRow(rows: seq<Row>, ids: seq<string>, index: nat, root: Hash) returns (k: nat)
    requires Select(rows, IdIn(ids)) != []
    ensures var marked := Mark(rows, ids, index, root);
            k < |marked| && marked[k].batchIndex == Some(index) && marked[k].batchRoot == Some(root)
  {
    NoneSelected(rows, IdIn(ids));
    k :| 0 <= k < |rows| && rows[k].entry.id in ids;
  }

  /** A single false tag shows at once: some row then names a batch the chain does not hold. */
  lemma FalseTagShows(cfg: Config, w: World, a: Action)
    requires ProcsOk(cfg, w) && Tags(cfg, w, a) && !TagIsTrue(cfg, w, a)
    ensures !AllDurable(Step(cfg, w, a))
  {
    var w', f := Step(cfg, w, a), w.procs[a.pid].flight;
    var k := TagLeavesRow(cfg, w, a);
    FalseRowShows(w', w'.procs[a.pid].rows, k, f.index, f.root);
  }

  lemma FalseRowShows(w: World, rows: seq<Row>, k: nat, index: nat, root: Hash)
    requires k < |rows| && rows[k].batchIndex == Some(index) && rows[k].batchRoot == Some(root) && !Durable(w, index, root)
    ensures !RowsDurable(w, rows)
  {
  }

  /**
   Crash and reorg invariant, second half, as an exact condition. Over any run, with any
   reorgs of non-durable blocks, the chain holds the root of every tagged row at its index
   at all times if and only if no flush tags after its own batch has left the chain.
   */
  lemma {:induction false} DurableIffTagsTrue(cfg: Config, w: World, acts: seq<Action>)
    requires ProcsOk(cfg, w) && NoTwins(cfg, w, acts) && AllDurable(w)
    ensures AlwaysDurable(cfg, w, acts) <==> TagsAlwaysTrue(cfg, w, acts)
    decreases |acts|
  {
    if acts != [] {
      var a := acts[0];
      var w' := Step(cfg, w, a);
      StepKeepsProcs(cfg, w, a);
      if TagIsTrue(cfg, w, a) {
        forall p | 0 <= p < |w'.procs| ensures RowsDurable(w', w'.procs[p].rows) {
          StepKeepsRowsDurable(cfg, w, a, p);
        }
        DurableIffTagsTrue(cfg, w', acts[1..]);
      } else {
        FalseTagShows(cfg, w, a);
      }
    }
  }

  /** A deployment before anything happened: no batches and any number of processes with empty tables. */
  function FreshWorld(processes: nat, safe: nat): World {
    World([], safe, seq(processes, _ => Proc([], Idle)), [])
  }

  lemma FreshWorldOk(cfg: Config, processes: nat, safe: nat)
    ensures ProcsOk(cfg, FreshWorld(processes, safe)) && AllDurable(FreshWorld(processes, safe))
    ensures RaceOk(FreshWorld(processes, safe))
  {
  }

  /**
   The crash and reorg invariant from a fresh deployment, over every run: groups always
   rebuild their root, and they match the chain at all times exactly when no flush tags
   after its batch has left the chain.
   */
  lemma EveryRunFromDeployment(cfg: Config, processes: nat, safe: nat, acts: seq<Action>)
    requires NoTwins(cfg, FreshWorld(processes, safe), acts)
    ensures ProcsOk(cfg, Run(cfg, FreshWorld(processes, safe), acts))
    ensures AlwaysDurable(cfg, FreshWorld(processes, safe), acts) <==> TagsAlwaysTrue(cfg, FreshWorld(processes, safe), acts)
    ensures NoTwinRoots(cfg, FreshWorld(processes, safe), acts, {}) ==>
              (AlwaysDurable(cfg, FreshWorld(processes, safe), acts) <==>
                 AllWaited(cfg, FreshWorld(processes, safe), acts, {}))
  {
    FreshWorldOk(cfg, processes, safe);
    GroupsAlwaysRebuild(cfg, FreshWorld(processes, safe), acts);
    DurableIffTagsTrue(cfg, FreshWorld(processes, safe), acts);
    if NoTwinRoots(cfg, FreshWorld(processes, safe), acts, {}) {
      DurableIffWaited(cfg, FreshWorld(processes, safe), acts, {});
    }
  }

  // ─── Reorgs that spare commits in flight ──────────────────────────────────

  /** Each commit still waiting for its tag sits in the chain where its receipt said. */
  ghost predicate FlightsHeld(w: World) {
    forall p :: 0 <= p < |w.procs| && w.procs[p].flight.Landed? ==> FlightHeld(w, w.procs[p].flight)
  }

  ghost predicate FlightHeld(w: World, f: Flight)
    requires f.Landed?
  {
    && f.index < |w.chain| && w.chain[f.index].batch.merkleRoot == f.root
    && w.chain[f.index].block == f.block
    && f.prev == (if f.index == 0 then Zero else w.chain[f.index - 1].batch.merkleRoot)
  }

  /** No reorg drops a commit some process is waiting on. */
  ghost predicate Spares(w: World, a: Action) {
    a.Reorg? && ReorgAllowed(w, a.keep) ==>
      forall p :: 0 <= p < |w.procs| && w.procs[p].flight.Landed? ==> w.procs[p].flight.index < a.keep
  }

  ghost predicate AllSpare(cfg: Config, w: World, acts: seq<Action>)
    decreases |acts|
  {
    acts != [] ==> Spares(w, acts[0]) && AllSpare(cfg, Step(cfg, w, acts[0]), acts[1..])
  }

  lemma StepKeepsFlights(cfg: Config, w: World, a: Action)
    requires FlightsHeld(w) && Spares(w, a)
    ensures FlightsHeld(Step(cfg, w, a))
  {
    var w' := Step(cfg, w, a);
    forall p | 0 <= p < |w'.procs| && w'.procs[p].flight.Landed? ensures FlightHeld(w', w'.procs[p].flight) {
      if w.procs[p].flight.Landed? && w'.procs[p].flight == w.procs[p].flight {
        assert FlightHeld(w, w.procs[p].flight);
      } else {
        assert a.Commit? && a.pid == p;
      }
    }
  }

  /** If every flush waits for durability and reorgs spare commits in flight, tags stay true forever. */
  lemma {:induction false} SparedRunsStayDurable(cfg: Config, w: World, acts: seq<Action>)
    requires cfg.waits && AllSpare(cfg, w, acts) && FlightsHeld(w)
    ensures TagsAlwaysTrue(cfg, w, acts)
    decreases |acts|
  {
    if acts != [] {
      if Tags(cfg, w, acts[0]) { assert FlightHeld(w, w.procs[acts[0].pid].flight); }
      StepKeepsFlights(cfg, w, acts[0]);
      SparedRunsStayDurable(cfg, Step(cfg, w, acts[0]), acts[1..]);
    }
  }

  // ─── Durability by what happened during the wait ──────────────────────────

  /** A reorg drops the commit process `p` is waiting on. */
  predicate Cuts(w: World, a: Action, p: nat) {
    && a.Reorg? && ReorgAllowed(w, a.keep)
    && p < |w.procs| && w.procs[p].flight.Landed? && w.procs[p].flight.index >= a.keep
  }

  /** The processes whose landed commit a reorg has dropped since it landed. */
  function CutAfter(cfg: Config, w: World, a: Action, cut: set<nat>): set<nat> {
    var w' := Step(cfg, w, a);
    set p | 0 <= p < |w'.procs| && w'.procs[p].flight.Landed? && (p in cut || Cuts(w, a, p))
  }

  /** The flush that tags waited until its block was durable, and no reorg cut its commit meanwhile. */
  predicate Waited(cfg: Config, w: World, a: Action, cut: set<nat>) {
    Tags(cfg, w, a) ==> w.procs[a.pid].flight.block <= w.safe && a.pid !in cut
  }

  predicate AllWaited(cfg: Config, w: World, acts: seq<Action>, cut: set<nat>)
    decreases |acts|
  {
    acts != [] ==>
      Waited(cfg, w, acts[0], cut) && AllWaited(cfg, Step(cfg, w, acts[0]), acts[1..], CutAfter(cfg, w, acts[0], cut))
  }

  /** Nobody commits a dropped batch's root again at the very index it was dropped from. */
  ghost predicate NoTwinRoot(cfg: Config, w: World, a: Action, cut: set<nat>) {
    var w' := Step(cfg, w, a);
    |w'.chain| > |w.chain| ==>
      forall p :: p in cut && p < |w.procs| && w.procs[p].flight.Landed? && w.procs[p].flight.index == |w.chain| ==>
        w'.chain[|w.chain|].batch.merkleRoot != w.procs[p].flight.root
  }

  ghost predicate NoTwinRoots(cfg: Config, w: World, acts: seq<Action>, cut: set<nat>)
    decreases |acts|
  {
    acts != [] ==>
      NoTwinRoot(cfg, w, acts[0], cut) && NoTwinRoots(cfg, Step(cfg, w, acts[0]), acts[1..], CutAfter(cfg, w, acts[0], cut))
  }

  predicate OffChain(w: World, f: Flight)
    requires f.Landed?
  {
    f.index < |w.chain| ==> w.chain[f.index].batch.merkleRoot != f.root
  }

  /** Commits not cut sit where their receipts said; commits cut are off the chain. */
  ghost predicate CutsTracked(w: World, cut: set<nat>) {
    && (forall p :: p in cut ==> p < |w.procs| && w.procs[p].flight.Landed?)
    && (forall p :: 0 <= p < |w.procs| && w.procs[p].flight.Landed? ==>
          if p in cut then OffChain(w, w.procs[p].flight) else FlightHeld(w, w.procs[p].flight))
  }

  lemma StepTracksCuts(cfg: Config, w: World, a: Action, cut: set<nat>)
    requires CutsTracked(w, cut) && NoTwinRoot(cfg, w, a, cut)
    ensures CutsTracked(Step(cfg, w, a), CutAfter(cfg, w, a, cut))
  {
    var w', cut' := Step(cfg, w, a), CutAfter(cfg, w, a, cut);
    forall p | 0 <= p < |w'.procs| && w'.procs[p].flight.Landed?
      ensures if p in cut' then OffChain(w', w'.procs[p].flight) else FlightHeld(w', w'.procs[p].flight)
    {
      if w.procs[p].flight.Landed? {
        FlightStays(cfg, w, a, p);
      } else {
        assert p !in cut && p !in cut' && a.Commit? && a.pid == p;
      }
    }
  }

  /** A landed commit's own process does not land again before it is idle. */
  lemma FlightStays(cfg: Config, w: World, a: Action, p: nat)
    requires p < |w.procs| && w.procs[p].flight.Landed? && Step(cfg, w, a).procs[p].flight.Landed?
    ensures Step(cfg, w, a).procs[p].flight == w.procs[p].flight
    ensures a.Reorg? && ReorgAllowed(w, a.keep) ==> Step(cfg, w, a).chain == w.chain[..a.keep]
    ensures !(a.Reorg? && ReorgAllowed(w, a.keep)) ==>
              w.chain <= Step(cfg, w, a).chain && |Step(cfg, w, a).chain| <= |w.chain| + 1
  {
  }

  /**
   Durability in terms of events. Absent another commit of the same root at the index a
   batch was dropped from, the chain holds every tagged row's root at its index at all
   times if and only if each flush waited until its block was durable and no reorg cut its
   commit between landing and tagging.
   */
  lemma DurableIffWaited(cfg: Config, w: World, acts: seq<Action>, cut: set<nat>)
    requires ProcsOk(cfg, w) && NoTwins(cfg, w, acts) && AllDurable(w)
    requires CutsTracked(w, cut) && NoTwinRoots(cfg, w, acts, cut)
    ensures AlwaysDurable(cfg, w, acts) <==> AllWaited(cfg, w, acts, cut)
    decreases |acts|
  {
    WaitedIffTrue(cfg, w, acts, cut);
    DurableIffTagsTrue(cfg, w, acts);
  }

  lemma {:induction false} WaitedIffTrue(cfg: Config, w: World, acts: seq<Action>, cut: set<nat>)
    requires CutsTracked(w, cut) && NoTwinRoots(cfg, w, acts, cut)
    ensures TagsAlwaysTrue(cfg, w, acts) <==> AllWaited(cfg, w, acts, cut)
    decreases |acts|
  {
    if acts != [] {
      var a := acts[0];
      if Tags(cfg, w, a) {
        assert if a.pid in cut then OffChain(w, w.procs[a.pid].flight) else FlightHeld(w, w.procs[a.pid].flight);
      }
      assert TagIsTrue(cfg, w, a) <==> Waited(cfg, w, a, cut);
      StepTracksCuts(cfg, w, a, cut);
      WaitedIffTrue(cfg, Step(cfg, w, a), acts[1..], CutAfter(cfg, w, a, cut));
    }
  }

  /** A fresh deployment: no batches, no tags, one process that has recorded one entry. */
  function OneRow(e: AuditEntry): World {
    World([], 3, [Proc([Row(e, None, None)], Idle)], [])
  }

  /** A commit lands in block 5, a reorg drops it, and the durable height then passes 5. */
  function ReorgWhileWaiting(): seq<Action> {
    [Snapshot(0), ReadHead(0, Zero), Commit(0, 1, 5), Reorg(0), Finalize(6), Tag(0)]
  }

  /**
   The condition is needed: because only block heights are compared, a commit dropped while
   its flush waits is still tagged, and its row names a batch of an empty chain.
   */
  lemma WaitingOnHeightIsNotEnough(cfg: Config, e: AuditEntry)
    requires cfg.waits
    ensures var w := Run(cfg, OneRow(e), ReorgWhileWaiting());
            w.chain == [] && w.procs[0].rows[0].batchIndex == Some(0)
  {
    var root, acts := GroupRoot(cfg, [e]), ReorgWhileWaiting();
    var w1 := Step(cfg, OneRow(e), acts[0]);
    var w2 := Step(cfg, w1, acts[1]);
    var w3 := Step(cfg, w2, acts[2]);
    FirstCommitLands(cfg, e, w1, w2, w3);
    var w4 := Step(cfg, w3, acts[3]);
    assert w4.chain == [] && w4.procs == w3.procs;
    var w5 := Step(cfg, w4, acts[4]);
    var w6 := Step(cfg, w5, acts[5]);
    assert e.id in [e.id];
    assert w6.procs[0].rows[0] == MarkRow(Row(e, None, None), [e.id], 0, root);
    SixSteps(cfg, OneRow(e), acts, w1, w2, w3, w4, w5, w6);
  }

  lemma FirstCommitLands(cfg: Config, e: AuditEntry, w1: World, w2: World, w3: World)
    requires w1 == Step(cfg, OneRow(e), Snapshot(0)) && w2 == Step(cfg, w1, ReadHead(0, Zero))
    requires w3 == Step(cfg, w2, Commit(0, 1, 5))
    ensures var root := GroupRoot(cfg, [e]);
            && w3.procs == [Proc([Row(e, None, None)], Landed([e.id], root, Zero, 0, 5))]
            && w3.chain == [Mined(Batch(root, 1, 1), 5)] && w3.safe == 3
  {
    var rows := [Row(e, None, None)];
    assert rows[..0] == [];
    assert Select(rows, Untagged()) == [e];
    var root := GroupRoot(cfg, [e]);
    assert Ids([e]) == [e.id];
    assert w1.procs[0] == Proc(rows, Built([e.id], root, 1));
    assert w2.procs[0] == Proc(rows, Named([e.id], root, 1, Zero));
    GroupRootFixesLeaves(cfg, [e]);
  }

  lemma SixSteps(cfg: Config, w: World, acts: seq<Action>, w1: World, w2: World, w3: World,
                                    w4: World, w5: World, w6: World)
    requires |acts| == 6
    requires w1 == Step(cfg, w, acts[0]) && w2 == Step(cfg, w1, acts[1]) && w3 == Step(cfg, w2, acts[2])
    requires w4 == Step(cfg, w3, acts[3]) && w5 == Step(cfg, w4, acts[4]) && w6 == Step(cfg, w5, acts[5])
    ensures Run(cfg, w, acts) == w6
  {
    assert acts[1..][1..] == acts[2..];
    assert acts[2..][1..] == acts[3..];
    assert acts[3..][1..] == acts[4..];
    assert acts[4..][1..] == acts[5..];
    assert acts[5..][1..] == [];
    assert Run(cfg, w5, acts[5..]) == w6;
    assert Run(cfg, w4, acts[4..]) == w6;
    assert Run(cfg, w3, acts[3..]) == w6;
    assert Run(cfg, w2, acts[2..]) == w6;
    assert Run(cfg, w1, acts[1..]) == w6;
  }

  // ─── Racing committers ────────────────────────────────────────────────────

  /** Each completed flush sits in the chain, and no two sit at one index. */
  ghost predicate TagsSit(chain: seq<Mined>, tags: seq<Tagging>) {
    && (forall j :: 0 <= j < |tags| ==>
          tags[j].index < |chain| && chain[tags[j].index].batch.merkleRoot == tags[j].root)
    && (forall i, j :: 0 <= i < j < |tags| ==> tags[i].index != tags[j].index)
  }

  /** No landed commit sits where a completed flush does, or where another landed. */
  ghost predicate FlightsApart(procs: seq<Proc>, tags: seq<Tagging>) {
    && (forall j, p :: 0 <= j < |tags| && 0 <= p < |procs| && procs[p].flight.Landed? ==>
          procs[p].flight.index != tags[j].index)
    && (forall p, q :: 0 <= p < q < |procs| && procs[p].flight.Landed? && procs[q].flight.Landed? ==>
          procs[p].flight.index != procs[q].flight.index)
  }

  ghost predicate RaceOk(w: World) {
    FlightsHeld(w) && TagsSit(w.chain, w.tags) && FlightsApart(w.procs, w.tags)
  }

  lemma LandingStaysApart(chain: seq<Mined>, procs: seq<Proc>, tags: seq<Tagging>, p: nat,
      proc: Proc)
    requires TagsSit(chain, tags) && FlightsApart(procs, tags) && p < |procs|
    requires forall q :: 0 <= q < |procs| && procs[q].flight.Landed? ==> procs[q].flight.index < |chain|
    requires proc.flight.Landed? ==> proc.flight.index == |chain| || proc.flight == procs[p].flight
    ensures FlightsApart(procs[p := proc], tags)
  {
  }

  lemma StepKeepsRace(cfg: Config, w: World, a: Action)
    requires RaceOk(w) && !a.Reorg?
    ensures RaceOk(Step(cfg, w, a))
  {
    StepKeepsFlights(cfg, w, a);
    forall q | 0 <= q < |w.procs| && w.procs[q].flight.Landed? ensures w.procs[q].flight.index < |w.chain| {
      assert FlightHeld(w, w.procs[q].flight);
    }
    if !(a.ForeignCommit? || a.Finalize?) && a.pid < |w.procs| {
      var p := a.pid;
      var w' := StepOf(cfg, w, p, a);
      if Tags(cfg, w, a) {
        TagKeepsRace(w, p, w'.procs[p]);
      } else if a.Commit? {
        LandingStaysApart(w.chain, w.procs, w.tags, p, w'.procs[p]);
      } else {
        assert w'.chain == w.chain && w'.tags == w.tags;
        LandingStaysApart(w.chain, w.procs, w.tags, p, w'.procs[p]);
      }
    }
  }

  lemma TagKeepsRace(w: World, p: nat, proc: Proc)
    requires RaceOk(w) && p < |w.procs| && w.procs[p].flight.Landed? && proc.flight.Idle?
    ensures var tags' := w.tags + [Tagging(p, w.procs[p].flight.index, w.procs[p].flight.root)];
            TagsSit(w.chain, tags') && FlightsApart(w.procs[p := proc], tags')
  {
    assert FlightHeld(w, w.procs[p].flight);
  }

  /**
   With any number of processes and foreign committers, and no reorg: every completed flush
   tagged the index where its own root sits, and no index was ever tagged by two flushes.
   */
  lemma {:induction false} NoIndexTaggedTwice(cfg: Config, w: World, acts: seq<Action>)
    requires RaceOk(w) && forall a :: a in acts ==> !a.Reorg?
    ensures RaceOk(Run(cfg, w, acts))
    decreases |acts|
  {
    if acts != [] {
      StepKeepsRace(cfg, w, acts[0]);
      NoIndexTaggedTwice(cfg, Step(cfg, w, acts[0]), acts[1..]);
    }
  }

  /**
   What one submitted commit does: it extends exactly the head it named and remembers the
   index its root landed at, or it changes neither chain nor table and gives up.
   */
  lemma CommitExtendsOrGivesUp(cfg: Config, w: World, p: nat, now: nat, block: nat)
    requires p < |w.procs| && w.procs[p].flight.Named? && Includable(w, block)
    requires ProcOk(cfg, w.procs[p])
    ensures var w' := Step(cfg, w, Commit(p, now, block));
            var f := w.procs[p].flight;
            && w'.procs[p].rows == w.procs[p].rows
            && (f.prev == LastRoot(Batches(w.chain)) <==> w'.procs[p].flight.Landed?)
            && (w'.procs[p].flight.Landed? ==>
                  w'.chain == w.chain + [Mined(Batch(f.root, now, f.count), block)] && FlightHeld(w', w'.procs[p].flight))
            && (!w'.procs[p].flight.Landed? ==> w'.chain == w.chain && w'.procs[p].flight.Idle?)
  {
    var f := w.procs[p].flight;
    RootNotZero(cfg, w.procs[p].rows, f);
    var w' := StepOf(cfg, w, p, Commit(p, now, block));
    if f.prev == LastRoot(Batches(w.chain)) {
      assert w'.procs[p].flight == Landed(f.ids, f.root, f.prev, |w.chain|, block);
      LandedIsHeld(w, w', w'.procs[p].flight, Mined(Batch(f.root, now, f.count), block));
    }
  }

  lemma RootNotZero(cfg: Config, rows: seq<Row>, f: Flight)
    requires f.Named? && Carries(cfg, rows, f.ids, f.root, f.count)
    ensures f.root != Zero && f.count > 0
  {
    GroupRootFixesLeaves(cfg, Select(rows, IdIn(f.ids)));
  }

  lemma LandedIsHeld(w: World, w': World, f: Flight, m: Mined)
    requires f.Landed? && w'.chain == w.chain + [m] && f.index == |w.chain|
    requires f.root == m.batch.merkleRoot && f.block == m.block && f.prev == LastRoot(Batches(w.chain))
    ensures FlightHeld(w', f)
  {
  }
}
