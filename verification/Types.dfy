/**
 The records the guard and the audit trail share, and the symbolic hash.

 A 32-byte hash is a term of a free datatype: two hashes are the same term exactly when
 they were computed from the same preimage. The message texts of checks and decisions
 are rendering and are not carried.
 */
module Types {
  import opened Text

  datatype Option<+T> = None | Some(value: T)

  /** A 20-byte account address, as its lower-case text. */
  type Account = string

  datatype Verdict = Allow | Escalate | Block

  datatype Severity = Info | Warning | Critical

  datatype PolicyCheck = PolicyCheck(id: string, passed: bool, severity: Severity)

  datatype PolicyDecision = PolicyDecision(verdict: Verdict, riskScore: real, checks: seq<PolicyCheck>)

  datatype PaymentRequest = PaymentRequest(
    intent: string,
    amount: int,
    token: string,
    recipient: string,
    chain: string,
    agentId: string,
    resourceUrl: Option<string>)

  datatype Settlement = Settlement(
    success: bool,
    txHash: Option<string>,
    nonce: Option<string>,
    facilitator: Option<string>)

  datatype AuditEntry = AuditEntry(
    id: string,
    timestamp: nat,
    agentId: string,
    request: PaymentRequest,
    decision: PolicyDecision,
    settlement: Option<Settlement>,
    entryHash: Hash)

  /** What `hashEntry` serialises: the audited fields, addresses and hashes lower-cased. */
  datatype EntryContent = EntryContent(
    intent: string,
    amount: int,
    token: string,
    recipient: string,
    chain: string,
    agentId: string,
    resourceUrl: Option<string>,
    verdict: Verdict,
    riskScore: real,
    checks: seq<(string, bool)>,
    settlement: Option<Settlement>)

  /** The tuple the contract and the logger both encode into a leaf. */
  datatype LeafTuple = LeafTuple(
    chainId: nat,
    anchor: Account,
    operator: Account,
    agentId: string,
    timestamp: nat,
    recipient: Account,
    verdict: nat,
    entryHash: Hash)

  datatype Hash =
    | Zero                          // bytes32(0)
    | Entry(content: EntryContent)  // keccak of an entry's canonical text
    | Leaf(tuple: LeafTuple)        // double keccak of an encoded leaf tuple
    | Node(lo: Hash, hi: Hash)      // keccak of two concatenated hashes
    | Word(value: nat)              // any other 32-byte value

  function LowerOption(s: Option<string>): Option<string> {
    match s
    case None => None
    case Some(text) => Some(Lower(text))
  }

  function CanonicalSettlement(s: Option<Settlement>): Option<Settlement> {
    match s
    case None => None
    case Some(x) => Some(Settlement(x.success, LowerOption(x.txHash), LowerOption(x.nonce), x.facilitator))
  }

  function CheckMarks(checks: seq<PolicyCheck>): seq<(string, bool)> {
    seq(|checks|, i requires 0 <= i < |checks| => (checks[i].id, checks[i].passed))
  }

  function HashEntry(req: PaymentRequest, decision: PolicyDecision, settlement: Option<Settlement>): Hash {
    Entry(EntryContent(
      req.intent, req.amount, Lower(req.token), Lower(req.recipient), req.chain, req.agentId,
      req.resourceUrl, decision.verdict, decision.riskScore, CheckMarks(decision.checks),
      CanonicalSettlement(settlement)))
  }

  function RecomputeHash(e: AuditEntry): Hash {
    HashEntry(e.request, e.decision, e.settlement)
  }

  /** The row's contents still match the hash stored when it was written. */
  predicate Intact(e: AuditEntry) { RecomputeHash(e) == e.entryHash }

  predicate SettledOk(e: AuditEntry) { e.settlement.Some? && e.settlement.value.success }

  function VerdictNum(v: Verdict): nat {
    match v
    case Allow => 0
    case Escalate => 1
    case Block => 2
  }
}
