/**
 `agentctl audit --verify`: the local log against the operator's chain, and what a clean
 report proves.
 */
module LogVerifier {
  import opened Powers
  import opened Types
  import opened Merkle
  import opened AuditBatch
  import opened AuditStore
  import opened AnchorContract
  import opened AnchorProtocol
  import opened AnchorRecovery
  import opened AuditLog

  datatype Problem =
    | NotOnChain(batchIndex: nat)
    | RootMismatch(batchIndex: nat)
    | CountMismatch(batchIndex: nat)
    | PostdatesBatch(id: string)
    | Edited(id: string)
    | TotalMismatch
    | TotalUnreadable

  /**
   What the endpoint fails to answer: it is on another chain, some batch headers, some entry
   proofs (by entry id), the operator's batch list.
   */
  datatype Outage = Outage(wrongChain: bool, batches: set<nat>, entries: set<string>, list: bool)

  const NOTHING_DOWN := Outage(false, {}, {}, false)

  datatype Report = Report(verified: nat, failed: nat, errored: nat, unanchored: nat, problems: seq<Problem>)

  function ExitCode(r: Report): nat {
    if r.failed > 0 || r.problems != [] then 2 else if r.errored > 0 then 1 else 0
  }

  // ─── Which batch an entry is filed under ──────────────────────────────────

  function TagOf(rows: seq<Row>, id: string): Option<nat> {
    if rows == [] then None
    else if rows[|rows| - 1].entry.id == id then rows[|rows| - 1].batchIndex
    else TagOf(rows[..|rows| - 1], id)
  }

  lemma {:induction false} TagOfRow(rows: seq<Row>, k: nat)
    requires UniqueIds(rows) && k < |rows|
    ensures TagOf(rows, rows[k].entry.id) == rows[k].batchIndex
  {
    if k < |rows| - 1 { TagOfRow(rows[..|rows| - 1], k); }
  }

  /** The listed entries filed under a batch, in listing order. */
  function FiledUnder(rows: seq<Row>, es: seq<AuditEntry>, index: nat): seq<AuditEntry> {
    if es == [] then []
    else
      var last := es[|es| - 1];
      FiledUnder(rows, es[..|es| - 1], index) + if TagOf(rows, last.id) == Some(index) then [last] else []
  }

  /** How many listed entries are filed under one of the given batches. */
  function FiledIn(rows: seq<Row>, es: seq<AuditEntry>, batches: set<nat>): nat {
    if es == [] then 0
    else
      var tag := TagOf(rows, es[|es| - 1].id);
      FiledIn(rows, es[..|es| - 1], batches) + if tag.Some? && tag.value in batches then 1 else 0
  }

  function AnchoredCount(rows: seq<Row>, es: seq<AuditEntry>): nat {
    if es == [] then 0
    else AnchoredCount(rows, es[..|es| - 1]) + if TagOf(rows, es[|es| - 1].id).Some? then 1 else 0
  }

  lemma {:induction false} FiledIff(rows: seq<Row>, es: seq<AuditEntry>, index: nat, e: AuditEntry)
    ensures e in FiledUnder(rows, es, index) <==> e in es && TagOf(rows, e.id) == Some(index)
  {
    if es != [] {
      var front := es[..|es| - 1];
      FiledIff(rows, front, index, e);
      assert es == front + [es[|es| - 1]];
    }
  }

  lemma {:induction false} FiledInGrows(rows: seq<Row>, es: seq<AuditEntry>, batches: set<nat>, index: nat)
    requires index !in batches
    ensures FiledIn(rows, es, batches + {index}) == FiledIn(rows, es, batches) + |FiledUnder(rows, es, index)|
  {
    if es != [] { FiledInGrows(rows, es[..|es| - 1], batches, index); }
  }

  lemma {:induction false} FiledInNone(rows: seq<Row>, es: seq<AuditEntry>)
    ensures FiledIn(rows, es, {}) == 0
  {
    if es != [] { FiledInNone(rows, es[..|es| - 1]); }
  }

  lemma {:induction false} FiledInAll(rows: seq<Row>, es: seq<AuditEntry>, batches: set<nat>)
    requires forall e :: e in es && TagOf(rows, e.id).Some? ==> TagOf(rows, e.id).value in batches
    ensures FiledIn(rows, es, batches) == AnchoredCount(rows, es)
  {
    if es != [] {
      assert es[|es| - 1] in es;
      FiledInAll(rows, es[..|es| - 1], batches);
    }
  }

  /** Anchored entries of the whole log are its tagged rows. */
  lemma {:induction false} AnchoredCountIsTagged(rows: seq<Row>, n: nat)
    requires UniqueIds(rows) && n <= |rows|
    ensures AnchoredCount(rows, Select(rows[..n], Everything())) ==
            |Select(rows[..n], Tagged())|
  {
    if n > 0 {
      assert rows[..n][..n - 1] == rows[..n - 1];
      AnchoredCountIsTagged(rows, n - 1);
      TagOfRow(rows, n - 1);
      var before := Select(rows[..n - 1], Everything());
      assert Select(rows[..n], Everything()) == before + [rows[n - 1].entry];
    }
  }

  function Tagged(): Row -> bool { (r: Row) => r.batchIndex.Some? }

  function TaggedBelow(n: nat): Row -> bool { (r: Row) => r.batchIndex.Some? && r.batchIndex.value < n }

  // ─── The clean report ─────────────────────────────────────────────────────

  predicate EntryFine(chain: seq<Batch>, index: nat, e: AuditEntry) {
    index < |chain| && e.timestamp <= chain[index].timestamp * 1000 && Intact(e)
  }

  predicate Answered(group: seq<AuditEntry>, down: Outage) {
    forall e :: e in group ==> e.id !in down.entries
  }

  /** Nothing to report about one batch, of which `group` is listed. */
  ghost predicate BatchClean(cfg: Config, chain: seq<Batch>, rows: seq<Row>, index: nat,
                             group: seq<AuditEntry>, down: Outage)
  {
    var es := Select(rows, InBatch(index));
    && index !in down.batches && index < |chain| && es != []
    && GroupRoot(cfg, es) == chain[index].merkleRoot && |es| == chain[index].entryCount
    && AllFine(chain, index, group) && Answered(group, down)
  }

  function SumCounts(chain: seq<Batch>): nat {
    if chain == [] then 0 else SumCounts(chain[..|chain| - 1]) + chain[|chain| - 1].entryCount
  }

  /** Every batch that holds a listed entry is clean. */
  ghost predicate FiledClean(cfg: Config, chain: seq<Batch>, rows: seq<Row>, es: seq<AuditEntry>, down: Outage) {
    forall i: nat :: FiledUnder(rows, es, i) != [] ==>
      BatchClean(cfg, chain, rows, i, FiledUnder(rows, es, i), down)
  }

  /** What the verifier must find for a zero exit code. */
  ghost predicate Clean(cfg: Config, chain: seq<Batch>, rows: seq<Row>, es: seq<AuditEntry>,
                        wholeLog: bool, down: Outage)
  {
    && !down.wrongChain && FiledClean(cfg, chain, rows, es, down)
    && (wholeLog ==> !down.list && SumCounts(chain) == AnchoredCount(rows, es))
  }

  lemma {:induction false} Minimum(s: set<nat>) returns (m: nat)
    requires s != {}
    ensures m in s && forall k :: k in s ==> m <= k
  {
    var x :| x in s;
    m := x;
    if s != {x} {
      var least := Minimum(s - {x});
      if least < x { m := least; }
      forall k | k in s ensures m <= k {
        if k != x { assert k in s - {x}; }
      }
    }
  }

  /** The rebuilt proof of any entry of a batch is accepted exactly if the rebuilt root is the committed one. */
  lemma ProofDecidesRoot(cfg: Config, chain: seq<Batch>, es: seq<AuditEntry>, index: nat, j: nat)
    requires CollisionFree(cfg.word) && j < |es| <= Pow2(MAX_PROOF_LENGTH) && index < |chain|
    ensures VerifyIn(cfg.word, chain, index, LeafOf(es[j], cfg.ctx), GroupProof(cfg, es, j))
            <==> GroupRoot(cfg, es) == chain[index].merkleRoot
  {
    GroupProofFolds(cfg, es, j);
  }

  /** Each batch with a listed entry maps to those entries. */
  ghost predicate Grouped(rows: seq<Row>, es: seq<AuditEntry>, byBatch: map<nat, seq<AuditEntry>>) {
    && (forall i :: i in byBatch <==> FiledUnder(rows, es, i) != [])
    && (forall i :: i in byBatch ==> byBatch[i] == FiledUnder(rows, es, i))
  }

  lemma GroupOne(rows: seq<Row>, es: seq<AuditEntry>, byBatch: map<nat, seq<AuditEntry>>, e: AuditEntry)
    requires Grouped(rows, es, byBatch)
    ensures match TagOf(rows, e.id)
            case None => Grouped(rows, es + [e], byBatch)
            case Some(i) => Grouped(rows, es + [e], byBatch[i := (if i in byBatch then byBatch[i] else []) + [e]])
  {
    forall i: nat ensures FiledUnder(rows, es + [e], i) ==
                     FiledUnder(rows, es, i) + if TagOf(rows, e.id) == Some(i) then [e] else []
    {
      assert (es + [e])[..|es|] == es;
    }
  }

  /** Group the listed entries by the batch of their row; the rest are not anchored yet. */
  method GroupByBatch(store: SqliteAuditStore, entries: seq<AuditEntry>)
    returns (byBatch: map<nat, seq<AuditEntry>>, unanchored: nat)
    requires store.Valid() && AreRows(store.rows, entries)
    ensures unanchored + AnchoredCount(store.rows, entries) == |entries|
    ensures Grouped(store.rows, entries, byBatch)
  {
    byBatch, unanchored := map[], 0;
    for k := 0 to |entries|
      invariant unanchored + AnchoredCount(store.rows, entries[..k]) == k
      invariant Grouped(store.rows, entries[..k], byBatch)
    {
      assert entries[..k + 1][..k] == entries[..k];
      assert entries[..k + 1] == entries[..k] + [entries[k]];
      GroupOne(store.rows, entries[..k], byBatch, entries[k]);
      assert entries[k] in entries;
      var tag := BatchOf(store, entries[k].id);
      match tag
      case None => unanchored := unanchored + 1;
      case Some(i) =>
        var group := if i in byBatch then byBatch[i] else [];
        byBatch := byBatch[i := group + [entries[k]]];
    }
    assert entries[..|entries|] == entries;
  }

  /** The batch the stored row of an id names. */
  method BatchOf(store: SqliteAuditStore, id: string) returns (tag: Option<nat>)
    requires store.Valid() && HasId(store.rows, id)
    ensures tag == TagOf(store.rows, id)
  {
    var stored := store.GetById(id);
    ghost var r :| 0 <= r < |store.rows| && store.rows[r] == stored.value;
    TagOfRow(store.rows, r);
    tag := stored.value.batchIndex;
  }

  /**
   Check one listed entry against the chain; exactly one of the three counters moves. `es`
   are the rows the proofs were rebuilt from.
   */
  method CheckEntry(log: AuditLogger, index: nat, e: AuditEntry, proofs: map<string, EntryProof>,
                    ghost chain: seq<Batch>, ghost es: seq<AuditEntry>)
    returns (verified: nat, failed: nat, errored: nat, problems: seq<Problem>)
    requires log.anchor != null && log.Chain() == chain && index < |chain|
    requires CollisionFree(log.anchor.word) && |es| <= Pow2(MAX_PROOF_LENGTH)
    requires es != [] && IsProofMap(log.Cfg(), es, index, proofs)
    ensures verified + failed + errored == 1
    ensures errored == 1 <==> e.id !in Ids(es)
    ensures e in es ==> (problems == [] <==> EntryFine(chain, index, e))
    ensures e in es ==>
              (verified == 1 <==> EntryFine(chain, index, e) && GroupRoot(log.Cfg(), es) == chain[index].merkleRoot)
    ensures e in es ==>
              (Quiet(failed, errored, problems) <==>
                 EntryFine(chain, index, e) && GroupRoot(log.Cfg(), es) == chain[index].merkleRoot)
  {
    IdsOfMembers(es, e);
    if e.id !in proofs { return 0, 0, 1, []; }
    var onChain := log.Chain()[index];
    var proof := proofs[e.id];
    if e in es { StoredHashOf(log.Cfg(), es, index, proofs, e); }
    var ok := AskContract(log, index, e, proof, es);
    var withinTime := e.timestamp <= onChain.timestamp * 1000;
    problems := NameProblems(e, withinTime, proof.storedHashMatches);
    if ok && withinTime && proof.storedHashMatches {
      verified, failed, errored := 1, 0, 0;
    } else {
      verified, failed, errored := 0, 1, 0;
    }
  }

  method NameProblems(e: AuditEntry, withinTime: bool, hashMatches: bool) returns (problems: seq<Problem>)
    ensures PostdatesBatch(e.id) in problems <==> !withinTime
    ensures Edited(e.id) in problems <==> !hashMatches
    ensures problems == [] <==> withinTime && hashMatches
  {
    problems := [];
    if !withinTime { problems := problems + [PostdatesBatch(e.id)]; }
    if !hashMatches { problems := problems + [Edited(e.id)]; }
  }

  /** The contract's answer on an entry and its rebuilt proof. */
  method AskContract(log: AuditLogger, index: nat, e: AuditEntry, proof: EntryProof, ghost es: seq<AuditEntry>)
    returns (ok: bool)
    requires log.anchor != null && index < |log.Chain()| && es != []
    requires CollisionFree(log.anchor.word) && |es| <= Pow2(MAX_PROOF_LENGTH)
    requires e in es ==> exists j :: 0 <= j < |es| && es[j] == e && proof == ProofOf(log.Cfg(), es, index, j)
    ensures e in es ==> (ok <==> GroupRoot(log.Cfg(), es) == log.Chain()[index].merkleRoot)
  {
    ok := log.anchor.VerifyEntry(log.operator, index, proof.fields, proof.proof);
    if e in es {
      ghost var j :| 0 <= j < |es| && es[j] == e && proof == ProofOf(log.Cfg(), es, index, j);
      ProofDecidesRoot(log.Cfg(), log.Chain(), es, index, j);
      FieldsGiveLeaf(e, log.Cfg().ctx);
    }
  }

  lemma StoredHashOf(cfg: Config, es: seq<AuditEntry>, index: nat, proofs: map<string, EntryProof>, e: AuditEntry)
    requires IsProofMap(cfg, es, index, proofs) && e in es
    ensures e.id in proofs && (proofs[e.id].storedHashMatches <==> Intact(e))
    ensures exists j :: 0 <= j < |es| && es[j] == e && proofs[e.id] == ProofOf(cfg, es, index, j)
  {
    var j :| 0 <= j < |es| && es[j] == e;
    assert proofs[es[j].id] == ProofOf(cfg, es, index, j);
  }

  lemma IdsOfMembers(es: seq<AuditEntry>, e: AuditEntry)
    ensures e in es ==> e.id in Ids(es)
  {
    if e in es {
      var j :| 0 <= j < |es| && es[j] == e;
      assert Ids(es)[j] == e.id;
    }
  }

  predicate AllFine(chain: seq<Batch>, index: nat, group: seq<AuditEntry>) {
    forall e :: e in group ==> EntryFine(chain, index, e)
  }

  lemma AllFineAppend(chain: seq<Batch>, index: nat, group: seq<AuditEntry>, k: nat)
    requires k < |group|
    ensures AllFine(chain, index, group[..k + 1]) <==> AllFine(chain, index, group[..k]) && EntryFine(chain, index, group[k])
  {
    assert group[..k + 1] == group[..k] + [group[k]];
  }

  /** Nothing went wrong. */
  predicate Quiet(failed: nat, errored: nat, problems: seq<Problem>) {
    failed == 0 && errored == 0 && problems == []
  }

  lemma QuietAdds(f: nat, x: nat, p: seq<Problem>, f': nat, x': nat, p': seq<Problem>)
    ensures Quiet(f + f', x + x', p + p') <==> Quiet(f, x, p) && Quiet(f', x', p')
  {
    assert |p + p'| == |p| + |p'|;
  }

  /** The position of the first entry whose proof goes unanswered; the length if none does. */
  function FirstLost(group: seq<AuditEntry>, down: Outage): (k: nat)
    ensures k <= |group| && (forall j :: 0 <= j < k ==> group[j].id !in down.entries)
    ensures k < |group| ==> group[k].id in down.entries
  {
    if group == [] || group[0].id in down.entries then 0 else 1 + FirstLost(group[1..], down)
  }

  lemma AnsweredIff(group: seq<AuditEntry>, down: Outage)
    ensures Answered(group, down) <==> FirstLost(group, down) == |group|
  {
    if FirstLost(group, down) < |group| { assert group[FirstLost(group, down)] in group; }
  }

  /** How many entries of a batch's group are counted a second time when one of its proofs goes unanswered. */
  function Recount(length: nat, index: nat, group: seq<AuditEntry>, down: Outage): nat {
    if index in down.batches || index >= length || Answered(group, down) then 0 else FirstLost(group, down)
  }

  /** The same over the groups of the given batches, and over all batches, of a chain of some length. */
  function RecountedIn(rows: seq<Row>, es: seq<AuditEntry>, length: nat, n: nat, batches: set<nat>, down: Outage): nat {
    if n == 0 then 0
    else
      RecountedIn(rows, es, length, n - 1, batches, down)
      + if n - 1 in batches then Recount(length, n - 1, FiledUnder(rows, es, n - 1), down) else 0
  }

  function Recounted(rows: seq<Row>, es: seq<AuditEntry>, length: nat, n: nat, down: Outage): nat {
    if n == 0 then 0
    else Recounted(rows, es, length, n - 1, down) + Recount(length, n - 1, FiledUnder(rows, es, n - 1), down)
  }

  lemma {:induction false} RecountedNone(rows: seq<Row>, es: seq<AuditEntry>, length: nat, n: nat, down: Outage)
    ensures RecountedIn(rows, es, length, n, {}, down) == 0
  {
    if n > 0 { RecountedNone(rows, es, length, n - 1, down); }
  }

  lemma {:induction false} RecountedGrows(rows: seq<Row>, es: seq<AuditEntry>, length: nat, n: nat, batches: set<nat>,
      down: Outage, i: nat)
    requires i !in batches
    ensures RecountedIn(rows, es, length, n, batches + {i}, down) ==
            RecountedIn(rows, es, length, n, batches, down)
            + if i < n then Recount(length, i, FiledUnder(rows, es, i), down) else 0
  {
    if n > 0 { RecountedGrows(rows, es, length, n - 1, batches, down, i); }
  }

  lemma {:induction false} RecountedAll(rows: seq<Row>, es: seq<AuditEntry>, length: nat, n: nat, batches: set<nat>,
      down: Outage)
    requires forall i: nat :: i !in batches ==> FiledUnder(rows, es, i) == []
    ensures RecountedIn(rows, es, length, n, batches, down) == Recounted(rows, es, length, n, down)
  {
    if n > 0 { RecountedAll(rows, es, length, n - 1, batches, down); }
  }

  lemma {:induction false} NothingRecounted(rows: seq<Row>, es: seq<AuditEntry>, length: nat, n: nat, down: Outage)
    requires Answered(es, down)
    ensures Recounted(rows, es, length, n, down) == 0
  {
    if n > 0 {
      FiledAnswered(rows, es, n - 1, down);
      NothingRecounted(rows, es, length, n - 1, down);
    }
  }

  /**
   Check all listed entries of one batch that is on chain. An unanswered read abandons the
   batch: what was counted so far stays counted, and the whole group counts as errored.
   */
  method CheckEntries(log: AuditLogger, index: nat, group: seq<AuditEntry>, proofs: map<string, EntryProof>,
                      down: Outage, ghost chain: seq<Batch>, ghost es: seq<AuditEntry>)
    returns (verified: nat, failed: nat, errored: nat, problems: seq<Problem>)
    requires log.anchor != null && log.Chain() == chain && index < |chain|
    requires CollisionFree(log.anchor.word) && |es| <= Pow2(MAX_PROOF_LENGTH)
    requires IsProofMap(log.Cfg(), es, index, proofs)
    requires es != [] && group != [] && forall e :: e in group ==> e in es
    ensures verified + failed + errored == |group| + if Answered(group, down) then 0 else FirstLost(group, down)
    ensures Quiet(failed, errored, problems) <==>
              AllFine(chain, index, group) && GroupRoot(log.Cfg(), es) == chain[index].merkleRoot && Answered(group, down)
  {
    verified, failed, errored, problems := 0, 0, 0, [];
    AnsweredIff(group, down);
    ghost var first := FirstLost(group, down);
    for k := 0 to |group|
      invariant k <= first
      invariant Tallied(log.Cfg(), chain, index, es, group[..k], verified + failed + errored,
                        Quiet(failed, errored, problems))
    {
      assert group[k] in es;
      IdsOfMembers(es, group[k]);
      if group[k].id in proofs && group[k].id in down.entries {
        errored := errored + |group|;
        return;
      }
      assert k != first;
      var v, f, x, p := CheckEntry(log, index, group[k], proofs, chain, es);
      QuietAdds(failed, errored, problems, f, x, p);
      TallyOne(log.Cfg(), chain, index, es, group, k, verified + failed + errored,
               Quiet(failed, errored, problems), Quiet(f, x, p));
      verified, failed, errored, problems := verified + v, failed + f, errored + x, problems + p;
    }
    assert group[..|group|] == group;
  }

  /** The entries checked so far, how many were counted, and whether anything was wrong. */
  ghost predicate Tallied(cfg: Config, chain: seq<Batch>, index: nat, es: seq<AuditEntry>, part: seq<AuditEntry>,
                          count: nat, quiet: bool)
    requires es != [] && index < |chain|
  {
    && count == |part|
    && (quiet <==> AllFine(chain, index, part) && (part == [] || GroupRoot(cfg, es) == chain[index].merkleRoot))
  }

  lemma TallyOne(cfg: Config, chain: seq<Batch>, index: nat, es: seq<AuditEntry>, group: seq<AuditEntry>, k: nat,
      count: nat, quiet: bool, fine: bool)
    requires es != [] && index < |chain| && k < |group| && Tallied(cfg, chain, index, es, group[..k], count, quiet)
    requires fine <==> EntryFine(chain, index, group[k]) && GroupRoot(cfg, es) == chain[index].merkleRoot
    ensures Tallied(cfg, chain, index, es, group[..k + 1], count + 1, quiet && fine)
  {
    AllFineAppend(chain, index, group, k);
  }

  /** Root and count of a batch on chain against the proofs rebuilt locally. */
  method CheckMembership(index: nat, onChain: Batch, proofs: map<string, EntryProof>, ghost cfg: Config,
      ghost es: seq<AuditEntry>)
    returns (problems: seq<Problem>)
    requires es != [] && IsProofMap(cfg, es, index, proofs)
    ensures problems == [] <==> GroupRoot(cfg, es) == onChain.merkleRoot && |es| == onChain.entryCount
  {
    problems := [];
    assert Ids(es)[0] in proofs;
    var id :| id in proofs;
    ghost var j :| 0 <= j < |es| && Ids(es)[j] == id;
    assert proofs[es[j].id] == ProofOf(cfg, es, index, j);
    if proofs[id].localRoot != onChain.merkleRoot { problems := problems + [RootMismatch(index)]; }
    if |proofs| != onChain.entryCount { problems := problems + [CountMismatch(index)]; }
  }

  /** One batch: presence, root, count, then its listed entries. */
  method CheckBatch(log: AuditLogger, index: nat, group: seq<AuditEntry>, down: Outage)
    returns (verified: nat, failed: nat, errored: nat, problems: seq<Problem>)
    requires log.Valid() && log.anchor != null
    requires CollisionFree(log.anchor.word) && |log.store.rows| <= Pow2(MAX_PROOF_LENGTH)
    requires group != [] && forall e :: e in group ==> e in Select(log.store.rows, InBatch(index))
    ensures verified + failed + errored == |group| + Recount(|log.Chain()|, index, group, down)
    ensures Quiet(failed, errored, problems) <==>
              BatchClean(log.Cfg(), log.Chain(), log.store.rows, index, group, down)
  {
    ghost var es := Select(log.store.rows, InBatch(index));
    assert group[0] in es;
    if index in down.batches { return 0, 0, |group|, []; }
    var onChain := log.anchor.GetBatch(log.operator, index);
    if onChain.None? { return 0, |group|, 0, [NotOnChain(index)]; }
    SelectBound(log.store.rows, InBatch(index));
    var proofs := log.ProofsForBatch(index);
    verified, failed, errored, problems := CheckGroup(log, index, onChain.value, group, proofs, down, es);
  }

  /** A batch both sides know: root and count, then each listed entry. */
  method CheckGroup(log: AuditLogger, index: nat, onChain: Batch, group: seq<AuditEntry>,
                    proofs: map<string, EntryProof>, down: Outage, ghost es: seq<AuditEntry>)
    returns (verified: nat, failed: nat, errored: nat, problems: seq<Problem>)
    requires log.anchor != null && index < |log.Chain()| && log.Chain()[index] == onChain
    requires CollisionFree(log.anchor.word) && |es| <= Pow2(MAX_PROOF_LENGTH)
    requires es != [] && IsProofMap(log.Cfg(), es, index, proofs)
    requires group != [] && forall e :: e in group ==> e in es
    ensures verified + failed + errored == |group| + if Answered(group, down) then 0 else FirstLost(group, down)
    ensures Quiet(failed, errored, problems) <==>
              GroupRoot(log.Cfg(), es) == onChain.merkleRoot && |es| == onChain.entryCount
              && AllFine(log.Chain(), index, group) && Answered(group, down)
  {
    var early := CheckMembership(index, onChain, proofs, log.Cfg(), es);
    var late;
    verified, failed, errored, late := CheckEntries(log, index, group, proofs, down, log.Chain(), es);
    problems := early + late;
    assert problems == [] <==> early == [] && late == [];
  }

  method TotalCommitted(chain: seq<Batch>) returns (total: nat)
    ensures total == SumCounts(chain)
  {
    total := 0;
    for k := 0 to |chain|
      invariant total == SumCounts(chain[..k])
    {
      assert chain[..k + 1][..k] == chain[..k];
      total := total + chain[k].entryCount;
    }
    assert chain[..|chain|] == chain;
  }

  /**
   The whole verification. Without a contract address or an operator, which stand as no
   anchor, it checks nothing and still exits with zero. On the wrong chain it stops with exit
   code two. Otherwise every listed entry is counted, exactly once unless a later proof of its
   batch goes unanswered, and exactly twice then. The exit code is then zero exactly when there
   is nothing wrong with any batch that holds a listed entry and, over the whole log, the
   operator's committed total equals the local anchored count.
   */
  method VerifyEntries(log: AuditLogger, agent: Option<string>, down: Outage) returns (exitCode: nat, report: Report)
    requires log.Valid()
    requires log.anchor != null ==> CollisionFree(log.anchor.word) && |log.store.rows| <= Pow2(MAX_PROOF_LENGTH)
    ensures log.anchor == null ==> exitCode == 0 && report == Report(0, 0, 0, 0, [])
    ensures log.anchor != null && down.wrongChain ==> exitCode == 2
    ensures log.anchor != null && !down.wrongChain ==>
              var es, length := log.store.List(agent), |log.Chain()|;
              && exitCode == ExitCode(report)
              && report.verified + report.failed + report.errored + report.unanchored ==
                   |es| + Recounted(log.store.rows, es, length, length, down)
              && report.unanchored + AnchoredCount(log.store.rows, es) == |es|
    ensures log.anchor != null ==>
              (exitCode == 0 <==>
                 Clean(log.Cfg(), log.Chain(), log.store.rows, log.store.List(agent), agent.None?, down))
  {
    if log.anchor == null { return 0, Report(0, 0, 0, 0, []); }
    if down.wrongChain { return 2, Report(0, 0, 0, 0, []); }
    var entries := log.store.List(agent);
    ListedAreRows(log.store, agent);
    var byBatch, unanchored := GroupByBatch(log.store, entries);
    var verified, failed, errored, problems := CheckAllBatches(log, entries, byBatch, down);
    var totals := [];
    if agent.None? { totals := CheckTotal(log, |entries| - unanchored, down); }
    QuietAdds(failed, errored, problems, 0, 0, totals);
    report := Report(verified, failed, errored, unanchored, problems + totals);
    exitCode := ExitCode(report);
  }

  /** The operator's committed total against the local anchored count. */
  method CheckTotal(log: AuditLogger, anchored: nat, down: Outage) returns (problems: seq<Problem>)
    requires log.Valid() && log.anchor != null
    ensures problems == [] <==> !down.list && SumCounts(log.Chain()) == anchored
  {
    if down.list { return [TotalUnreadable]; }
    var committedTotal := TotalCommitted(log.Chain());
    problems := if committedTotal != anchored then [TotalMismatch] else [];
  }

  /** The batches checked so far, how many entries were counted, and whether anything was wrong. */
  ghost predicate Walked(cfg: Config, chain: seq<Batch>, rows: seq<Row>, es: seq<AuditEntry>, done: set<nat>,
                         down: Outage, count: nat, quiet: bool)
  {
    && count == FiledIn(rows, es, done) + RecountedIn(rows, es, |chain|, |chain|, done, down)
    && (quiet <==> GroupsClean(cfg, chain, rows, es, done, down))
  }

  lemma WalkOne(cfg: Config, chain: seq<Batch>, rows: seq<Row>, es: seq<AuditEntry>, all: set<nat>, left: set<nat>,
      down: Outage, count: nat, quiet: bool, i: nat, counted: nat, clean: bool)
    requires Walked(cfg, chain, rows, es, all - left, down, count, quiet) && i in left && left <= all
    requires counted == |FiledUnder(rows, es, i)| + Recount(|chain|, i, FiledUnder(rows, es, i), down)
    requires clean <==> BatchClean(cfg, chain, rows, i, FiledUnder(rows, es, i), down)
    ensures Walked(cfg, chain, rows, es, all - (left - {i}), down, count + counted, quiet && clean)
  {
    assert all - (left - {i}) == all - left + {i};
    FiledInGrows(rows, es, all - left, i);
    RecountedGrows(rows, es, |chain|, |chain|, all - left, down, i);
  }

  lemma WalkedAll(cfg: Config, chain: seq<Batch>, rows: seq<Row>, es: seq<AuditEntry>, done: set<nat>, down: Outage,
      count: nat, quiet: bool)
    requires Walked(cfg, chain, rows, es, done, down, count, quiet)
    requires forall i: nat :: i in done <==> FiledUnder(rows, es, i) != []
    ensures count == AnchoredCount(rows, es) + Recounted(rows, es, |chain|, |chain|, down)
    ensures quiet <==> FiledClean(cfg, chain, rows, es, down)
  {
    forall e | e in es && TagOf(rows, e.id).Some? ensures TagOf(rows, e.id).value in done {
      FiledIff(rows, es, TagOf(rows, e.id).value, e);
    }
    FiledInAll(rows, es, done);
    RecountedAll(rows, es, |chain|, |chain|, done, down);
    AllFiledClean(cfg, chain, rows, es, done, down);
  }

  /** One batch and the listed entries filed under it. */
  method CheckFiled(log: AuditLogger, ghost entries: seq<AuditEntry>, i: nat, group: seq<AuditEntry>, down: Outage)
    returns (verified: nat, failed: nat, errored: nat, problems: seq<Problem>)
    requires log.Valid() && log.anchor != null
    requires CollisionFree(log.anchor.word) && |log.store.rows| <= Pow2(MAX_PROOF_LENGTH)
    requires AreRows(log.store.rows, entries) && group == FiledUnder(log.store.rows, entries, i) && group != []
    ensures verified + failed + errored == |group| + Recount(|log.Chain()|, i, group, down)
    ensures Quiet(failed, errored, problems) <==> BatchClean(log.Cfg(), log.Chain(), log.store.rows, i, group, down)
  {
    FiledAreInBatch(log.store.rows, entries, i);
    verified, failed, errored, problems := CheckBatch(log, i, group, down);
  }

  /** Walk the batches in ascending order, checking each. */
  method CheckAllBatches(log: AuditLogger, entries: seq<AuditEntry>, byBatch: map<nat, seq<AuditEntry>>,
      down: Outage)
    returns (verified: nat, failed: nat, errored: nat, problems: seq<Problem>)
    requires log.Valid() && log.anchor != null
    requires CollisionFree(log.anchor.word) && |log.store.rows| <= Pow2(MAX_PROOF_LENGTH)
    requires AreRows(log.store.rows, entries) && Grouped(log.store.rows, entries, byBatch)
    ensures verified + failed + errored ==
            AnchoredCount(log.store.rows, entries)
            + Recounted(log.store.rows, entries, |log.Chain()|, |log.Chain()|, down)
    ensures Quiet(failed, errored, problems) <==>
      FiledClean(log.Cfg(), log.Chain(), log.store.rows, entries, down)
  {
    ghost var rows, chain, cfg := log.store.rows, log.Chain(), log.Cfg();
    verified, failed, errored, problems := 0, 0, 0, [];
    var remaining := byBatch.Keys;
    NothingWalked(cfg, chain, rows, entries, byBatch.Keys, down);
    while remaining != {}
      invariant remaining <= byBatch.Keys
      invariant Walked(cfg, chain, rows, entries, byBatch.Keys - remaining, down, verified + failed + errored,
                       Quiet(failed, errored, problems))
      decreases remaining
    {
      ghost var least := Minimum(remaining);
      var i :| i in remaining && forall k :: k in remaining ==> i <= k;
      var v, f, e, p := CheckFiled(log, entries, i, byBatch[i], down);
      QuietAdds(failed, errored, problems, f, e, p);
      WalkOne(cfg, chain, rows, entries, byBatch.Keys, remaining, down, verified + failed + errored,
              Quiet(failed, errored, problems), i, v + f + e, Quiet(f, e, p));
      verified, failed, errored, problems := verified + v, failed + f, errored + e, problems + p;
      remaining := remaining - {i};
    }
    WalkedAll(cfg, chain, rows, entries, byBatch.Keys - remaining, down, verified + failed + errored,
              Quiet(failed, errored, problems));
  }

  lemma NothingWalked(cfg: Config, chain: seq<Batch>, rows: seq<Row>, es: seq<AuditEntry>, all: set<nat>, down: Outage)
    ensures Walked(cfg, chain, rows, es, all - all, down, 0, Quiet(0, 0, []))
  {
    assert all - all == {};
    FiledInNone(rows, es);
    RecountedNone(rows, es, |chain|, |chain|, down);
  }

  lemma FiledAnswered(rows: seq<Row>, es: seq<AuditEntry>, i: nat, down: Outage)
    requires Answered(es, down)
    ensures Answered(FiledUnder(rows, es, i), down)
  {
    forall e | e in FiledUnder(rows, es, i) ensures e.id !in down.entries { FiledIff(rows, es, i, e); }
  }

  /** The groups of the given batches are all clean. */
  ghost predicate GroupsClean(cfg: Config, chain: seq<Batch>, rows: seq<Row>, es: seq<AuditEntry>,
                              batches: set<nat>, down: Outage)
  {
    forall i :: i in batches ==> BatchClean(cfg, chain, rows, i, FiledUnder(rows, es, i), down)
  }

  /** Checking the groups one by one is checking every batch that holds a listed entry. */
  lemma AllFiledClean(cfg: Config, chain: seq<Batch>, rows: seq<Row>, es: seq<AuditEntry>,
                      batches: set<nat>, down: Outage)
    requires forall i: nat :: i in batches <==> FiledUnder(rows, es, i) != []
    ensures GroupsClean(cfg, chain, rows, es, batches, down) <==> FiledClean(cfg, chain, rows, es, down)
  {
    if FiledClean(cfg, chain, rows, es, down) {
      forall i | i in batches ensures BatchClean(cfg, chain, rows, i, FiledUnder(rows, es, i), down) {
        assert FiledUnder(rows, es, i) != [];
      }
    }
    if GroupsClean(cfg, chain, rows, es, batches, down) {
      forall i: nat | FiledUnder(rows, es, i) != []
        ensures BatchClean(cfg, chain, rows, i, FiledUnder(rows, es, i), down)
      {
        assert i in batches;
      }
    }
  }

  /** Every entry is that of some row. */
  ghost predicate AreRows(rows: seq<Row>, es: seq<AuditEntry>) {
    forall e :: e in es ==> exists k :: 0 <= k < |rows| && rows[k].entry == e
  }

  lemma ListedAreRows(store: SqliteAuditStore, agent: Option<string>)
    ensures AreRows(store.rows, store.List(agent))
  {
    var p := if agent.Some? && agent.value != "" then OfAgent(agent.value) else Everything();
    forall e | e in store.List(agent) ensures exists k :: 0 <= k < |store.rows| && store.rows[k].entry == e {
      SelectedIff(store.rows, p, e);
    }
  }

  lemma FiledAreInBatch(rows: seq<Row>, es: seq<AuditEntry>, i: nat)
    requires UniqueIds(rows) && AreRows(rows, es)
    ensures forall e :: e in FiledUnder(rows, es, i) ==> e in Select(rows, InBatch(i))
  {
    forall e | e in FiledUnder(rows, es, i) ensures e in Select(rows, InBatch(i)) {
      FiledIff(rows, es, i, e);
      var k :| 0 <= k < |rows| && rows[k].entry == e;
      TagOfRow(rows, k);
      assert InBatch(i)(rows[k]);
      SelectedIff(rows, InBatch(i), e);
    }
  }
}
