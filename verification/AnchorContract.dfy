/**
 The on-chain anchor: an append-only chain of Merkle roots per operator.

 `Ledger` is the contract's storage as a value; the class is the contract itself, and
 each of its methods is tied to the functions on that value.
 */
module AnchorContract {
  import opened Types
  import opened Merkle
  import opened AuditBatch

  datatype Batch = Batch(merkleRoot: Hash, timestamp: nat, entryCount: nat)

  datatype CommitResult =
    | Committed(batchIndex: nat)
    | EmptyRoot
    | EmptyBatch
    | WrongPrevRoot(expected: Hash, supplied: Hash)

  datatype Ledger = Ledger(batches: map<Account, seq<Batch>>, head: map<Account, Hash>) {
    /** A Solidity mapping reads as empty where it was never written. */
    function Of(operator: Account): seq<Batch> {
      if operator in batches then batches[operator] else []
    }

    function Head(operator: Account): Hash {
      if operator in head then head[operator] else Zero
    }
  }

  const EMPTY_LEDGER := Ledger(map[], map[])

  /** The root a chain ends in; zero before the first commit. */
  function LastRoot(chain: seq<Batch>): Hash {
    if chain == [] then Zero else chain[|chain| - 1].merkleRoot
  }

  /** The contract's three guards: a real root, a real batch, and the head the caller named. */
  predicate Accepts(chain: seq<Batch>, prevRoot: Hash, root: Hash, count: nat) {
    root != Zero && count > 0 && prevRoot == LastRoot(chain)
  }

  ghost predicate WellFormed(l: Ledger) {
    && (forall op {:trigger l.Head(op)} :: l.Head(op) == LastRoot(l.Of(op)))
    && (forall op, i {:trigger l.Of(op)[i]} :: 0 <= i < |l.Of(op)| ==>
          l.Of(op)[i].merkleRoot != Zero && l.Of(op)[i].entryCount > 0)
  }

  function Commit(l: Ledger, sender: Account, prevRoot: Hash, root: Hash, count: nat, now: nat)
    : (Ledger, CommitResult)
  {
    if root == Zero then (l, EmptyRoot)
    else if count == 0 then (l, EmptyBatch)
    else if prevRoot != l.Head(sender) then (l, WrongPrevRoot(l.Head(sender), prevRoot))
    else
      (Ledger(l.batches[sender := l.Of(sender) + [Batch(root, now, count)]], l.head[sender := root]),
       Committed(|l.Of(sender)|))
  }

  // ─── Verification of an entry ─────────────────────────────────────────────

  const MAX_PROOF_LENGTH := 64

  datatype LeafFields = LeafFields(
    agentId: string, timestamp: nat, recipient: Account, verdict: nat, entryHash: Hash)

  function LeafHash(ctx: LeafContext, f: LeafFields): Hash {
    Leaf(LeafTuple(ctx.chainId, ctx.anchor, ctx.operator, f.agentId, f.timestamp,
                   f.recipient, f.verdict, f.entryHash))
  }

  function VerifyIn(word: Hash -> real, chain: seq<Batch>, index: nat, leaf: Hash, proof: seq<Hash>): bool {
    index < |chain| && |proof| <= MAX_PROOF_LENGTH && Fold(word, leaf, proof) == chain[index].merkleRoot
  }

  /**
   Soundness of the public check, for a committed tree of any size and shape: acceptance
   under `ctx` means that very leaf, with this chain id, contract and operator, was committed.
   */
  lemma VerifiedMeansCommitted(word: Hash -> real, chain: seq<Batch>, index: nat, t: Tree,
                               ctx: LeafContext, f: LeafFields, proof: seq<Hash>)
    requires index < |chain| && LeafTips(t) && chain[index].merkleRoot == RootOf(word, t)
    requires VerifyIn(word, chain, index, LeafHash(ctx, f), proof)
    ensures LeafHash(ctx, f) in Tips(t)
  {
    ProofSound(word, t, LeafHash(ctx, f), proof);
  }

  /** A root built, by whatever builder, for one chain id, contract and operator accepts entries of no other. */
  lemma NoReplayAcrossContexts(word: Hash -> real, chain: seq<Batch>, index: nat,
      t: Tree, es: seq<AuditEntry>, builtFor: LeafContext, ctx: LeafContext, f: LeafFields, proof: seq<Hash>)
    requires index < |chain| && Tips(t) == multiset(LeafHashes(es, builtFor))
    requires chain[index].merkleRoot == RootOf(word, t)
    requires VerifyIn(word, chain, index, LeafHash(ctx, f), proof)
    ensures ctx == builtFor
    ensures LeafHash(ctx, f) in LeafHashes(es, builtFor)
  {
    var hs := LeafHashes(es, builtFor);
    forall h | h in Tips(t) ensures h.Leaf? { assert h in hs; }
    LeavesAtTips(t);
    ProofSound(word, t, LeafHash(ctx, f), proof);
    assert LeafHash(ctx, f) in hs;
  }

  // ─── Histories ────────────────────────────────────────────────────────────

  datatype Call = Call(sender: Account, prevRoot: Hash, root: Hash, count: nat, now: nat)

  /** What a `BatchCommitted` event carries, but for the clock. */
  datatype Event = Event(operator: Account, batchIndex: nat, root: Hash, prevRoot: Hash, count: nat)

  function After(l: Ledger, c: Call): Ledger {
    Commit(l, c.sender, c.prevRoot, c.root, c.count, c.now).0
  }

  function Emitted(l: Ledger, c: Call): seq<Event> {
    match Commit(l, c.sender, c.prevRoot, c.root, c.count, c.now).1
    case Committed(i) => [Event(c.sender, i, c.root, c.prevRoot, c.count)]
    case _ => []
  }

  function RunCalls(l: Ledger, calls: seq<Call>): Ledger
    decreases |calls|
  {
    if calls == [] then l else RunCalls(After(l, calls[0]), calls[1..])
  }

  function Events(l: Ledger, calls: seq<Call>): seq<Event>
    decreases |calls|
  {
    if calls == [] then [] else Emitted(l, calls[0]) + Events(After(l, calls[0]), calls[1..])
  }

  lemma CommitStep(l: Ledger, c: Call)
    requires WellFormed(l)
    ensures WellFormed(After(l, c))
    ensures forall op :: op != c.sender ==> After(l, c).Of(op) == l.Of(op) && After(l, c).Head(op) == l.Head(op)
    ensures After(l, c).Of(c.sender) ==
            if Emitted(l, c) == [] then l.Of(c.sender) else l.Of(c.sender) + [Batch(c.root, c.now, c.count)]
    ensures Emitted(l, c) != [] ==>
              Emitted(l, c) == [Event(c.sender, |l.Of(c.sender)|, c.root, LastRoot(l.Of(c.sender)), c.count)]
    ensures Emitted(l, c) != [] <==> Accepts(l.Of(c.sender), c.prevRoot, c.root, c.count)
  {
    var l' := After(l, c);
    assert l.Head(c.sender) == LastRoot(l.Of(c.sender));
    forall op ensures l'.Head(op) == LastRoot(l'.Of(op)) {
      assert l.Head(op) == LastRoot(l.Of(op));
    }
    forall op, i | 0 <= i < |l'.Of(op)|
      ensures l'.Of(op)[i].merkleRoot != Zero && l'.Of(op)[i].entryCount > 0
    {
      if i < |l.Of(op)| { assert l.Of(op)[i] == l'.Of(op)[i]; }
    }
  }

  /**
   Over any calls by any senders: storage stays well formed, and every operator's stored
   batches only ever grow at the end.
   */
  lemma {:induction false} ChainsOnlyGrow(l: Ledger, calls: seq<Call>, op: Account)
    requires WellFormed(l)
    ensures WellFormed(RunCalls(l, calls))
    ensures l.Of(op) <= RunCalls(l, calls).Of(op)
    decreases |calls|
  {
    if calls != [] {
      CommitStep(l, calls[0]);
      ChainsOnlyGrow(After(l, calls[0]), calls[1..], op);
    }
  }

  /** An operator who never calls is never touched. */
  lemma {:induction false} StrangersUntouched(l: Ledger, calls: seq<Call>, op: Account)
    requires WellFormed(l) && forall c :: c in calls ==> c.sender != op
    ensures RunCalls(l, calls).Of(op) == l.Of(op)
    ensures RunCalls(l, calls).Head(op) == l.Head(op)
    decreases |calls|
  {
    if calls != [] {
      CommitStep(l, calls[0]);
      StrangersUntouched(After(l, calls[0]), calls[1..], op);
    }
  }

  function EventsOf(events: seq<Event>, op: Account): seq<Event> {
    if events == [] then []
    else (if events[0].operator == op then [events[0]] else []) + EventsOf(events[1..], op)
  }

  lemma {:induction false} EventsOfConcat(a: seq<Event>, b: seq<Event>, op: Account)
    ensures EventsOf(a + b, op) == EventsOf(a, op) + EventsOf(b, op)
  {
    if a == [] {
      assert a + b == b;
    } else {
      EventsOfConcat(a[1..], b, op);
      assert (a + b)[0] == a[0] && (a + b)[1..] == a[1..] + b;
      var first := if a[0].operator == op then [a[0]] else [];
      assert first + (EventsOf(a[1..], op) + EventsOf(b, op)) == first + EventsOf(a[1..], op) + EventsOf(b, op);
    }
  }

  function RootBefore(chain: seq<Batch>, i: nat): Hash
    requires i <= |chain|
  {
    if i == 0 then Zero else chain[i - 1].merkleRoot
  }

  /** `e` announces the batch at its own index, naming the root just before it. */
  ghost predicate Announces(e: Event, chain: seq<Batch>, i: nat) {
    && i < |chain| && e.batchIndex == i
    && e.root == chain[i].merkleRoot && e.count == chain[i].entryCount && e.prevRoot == RootBefore(chain, i)
  }

  /** The events are exactly those of the batches from index `start` on, in order. */
  ghost predicate AnnounceAll(events: seq<Event>, chain: seq<Batch>, start: nat)
    decreases |events|
  {
    if events == [] then start == |chain|
    else Announces(events[0], chain, start) && AnnounceAll(events[1..], chain, start + 1)
  }

  lemma {:induction false} AnnounceAllAt(events: seq<Event>, chain: seq<Batch>, start: nat, k: nat)
    requires AnnounceAll(events, chain, start) && k < |events|
    ensures |chain| == start + |events| && Announces(events[k], chain, start + k)
    decreases |events|
  {
    if |events| == 1 {
      assert AnnounceAll(events[1..], chain, start + 1);
    } else if k == 0 {
      AnnounceAllAt(events[1..], chain, start + 1, 0);
    } else {
      AnnounceAllAt(events[1..], chain, start + 1, k - 1);
    }
  }

  /** The first accepted call of `op`, seen from the chain it ends up in. */
  lemma FirstEventAnnounced(l: Ledger, c: Call, later: seq<Call>)
    requires WellFormed(l) && Emitted(l, c) != []
    ensures Announces(Emitted(l, c)[0], RunCalls(After(l, c), later).Of(c.sender), |l.Of(c.sender)|)
  {
    var mine := l.Of(c.sender);
    var l' := After(l, c);
    var chain := RunCalls(l', later).Of(c.sender);
    CommitStep(l, c);
    ChainsOnlyGrow(l', later, c.sender);
    assert chain[..|mine| + 1] == mine + [Batch(c.root, c.now, c.count)];
    assert chain[|mine|] == chain[..|mine| + 1][|mine|];
    if mine != [] { assert chain[|mine| - 1] == chain[..|mine| + 1][|mine| - 1]; }
  }

  /**
   The accepted commits of an operator are one unforked line: the k-th event carries the
   k-th index and root and names the root just before it, and nothing else was stored.
   */
  lemma {:induction false} LinearHistory(l: Ledger, calls: seq<Call>, op: Account)
    requires WellFormed(l)
    ensures AnnounceAll(EventsOf(Events(l, calls), op), RunCalls(l, calls).Of(op), |l.Of(op)|)
    decreases |calls|
  {
    if calls != [] {
      var c := calls[0];
      var l' := After(l, c);
      CommitStep(l, c);
      LinearHistory(l', calls[1..], op);
      FirstCallEvents(l, c, calls[1..], op);
      if c.sender == op && Emitted(l, c) != [] {
        FirstEventAnnounced(l, c, calls[1..]);
      }
    }
  }

  /** The operator's events of a run: its own first call's, if accepted, then those of the rest. */
  lemma FirstCallEvents(l: Ledger, c: Call, later: seq<Call>, op: Account)
    ensures var rest := EventsOf(Events(After(l, c), later), op);
            var all := EventsOf(Emitted(l, c) + Events(After(l, c), later), op);
            if c.sender == op && Emitted(l, c) != [] then all != [] && all[0] == Emitted(l, c)[0] && all[1..] == rest
            else all == rest
  {
    var rest := EventsOf(Events(After(l, c), later), op);
    EventsOfConcat(Emitted(l, c), Events(After(l, c), later), op);
    if c.sender == op && Emitted(l, c) != [] {
      assert EventsOf(Emitted(l, c), op) == Emitted(l, c);
    } else {
      assert EventsOf(Emitted(l, c), op) + rest == rest;
    }
  }

  /** An entry that verified once verifies after any further calls by anyone. */
  lemma VerifiedForever(word: Hash -> real, l: Ledger, calls: seq<Call>, ctx: LeafContext,
                        index: nat, leaf: Hash, proof: seq<Hash>)
    requires WellFormed(l) && VerifyIn(word, l.Of(ctx.operator), index, leaf, proof)
    ensures VerifyIn(word, RunCalls(l, calls).Of(ctx.operator), index, leaf, proof)
  {
    ChainsOnlyGrow(l, calls, ctx.operator);
  }

  // ─── The contract ─────────────────────────────────────────────────────────

  class AuditAnchor {
    const word: Hash -> real
    const chainId: nat
    const address: Account
    var batches: map<Account, seq<Batch>>
    var head: map<Account, Hash>

    function State(): Ledger
      reads this
    {
      Ledger(batches, head)
    }

    ghost predicate Valid()
      reads this
    {
      WellFormed(State())
    }

    function Context(operator: Account): LeafContext {
      LeafContext(chainId, address, operator)
    }

    constructor (word: Hash -> real, chainId: nat, address: Account)
      ensures Valid() && State() == EMPTY_LEDGER
      ensures this.word == word && this.chainId == chainId && this.address == address
    {
      this.word, this.chainId, this.address := word, chainId, address;
      batches, head := map[], map[];
    }

    method CommitBatch(sender: Account, prevRoot: Hash, merkleRoot: Hash, entryCount: nat, now: nat)
      returns (result: CommitResult)
      requires Valid()
      modifies this
      ensures Valid()
      ensures (State(), result) == Commit(old(State()), sender, prevRoot, merkleRoot, entryCount, now)
    {
      if merkleRoot == Zero { return EmptyRoot; }
      if entryCount == 0 { return EmptyBatch; }
      var expected := State().Head(sender);
      if prevRoot != expected { return WrongPrevRoot(expected, prevRoot); }
      ghost var before := State();
      var mine := State().Of(sender) + [Batch(merkleRoot, now, entryCount)];
      batches := batches[sender := mine];
      head := head[sender := merkleRoot];
      CommitStep(before, Call(sender, prevRoot, merkleRoot, entryCount, now));
      result := Committed(|mine| - 1);
    }

    /** The walk over the proof; false, never an error, on an unknown batch or a long proof. */
    method VerifyEntry(operator: Account, batchIndex: nat, f: LeafFields, proof: seq<Hash>) returns (ok: bool)
      ensures ok == VerifyIn(word, State().Of(operator), batchIndex, LeafHash(Context(operator), f), proof)
    {
      var mine := State().Of(operator);
      if batchIndex >= |mine| { return false; }
      if |proof| > MAX_PROOF_LENGTH { return false; }
      var computed := LeafHash(Context(operator), f);
      var i := 0;
      while i < |proof|
        invariant 0 <= i <= |proof|
        invariant Fold(word, LeafHash(Context(operator), f), proof) == Fold(word, computed, proof[i..])
      {
        assert proof[i..][1..] == proof[i + 1..];
        computed := if word(computed) < word(proof[i]) then Node(computed, proof[i]) else Node(proof[i], computed);
        i := i + 1;
      }
      ok := computed == mine[batchIndex].merkleRoot;
    }

    function GetBatch(operator: Account, batchIndex: nat): Option<Batch>
      reads this
    {
      if batchIndex < |State().Of(operator)| then Some(State().Of(operator)[batchIndex]) else None
    }
  }
}
