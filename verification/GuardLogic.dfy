/**
 The guard: one payment attempt from evaluation to the audit record, and the rebuilding of
 all enforcement state from the log.

 What the outside world contributes to an attempt is an input: the clock at each place it
 is read, the behavioural score and checks, the intent check, the human's answer and the
 facilitator's.
 */
module GuardLogic {
  import opened Text
  import opened Types
  import opened Sorting
  import opened EntryList
  import opened AuditStore
  import opened PolicyRules
  import opened PolicyState
  import opened PayeeRegistry
  import opened BreakerLogic

  datatype GuardConfig = GuardConfig(
    platform: Platform,
    policy: Policy,
    breaker: Option<BreakerConfig>,
    facilitator: string)

  /** `baseline` is the history the behavioural model has been fed, `log` the audit entries. */
  datatype GuardState = GuardState(
    mem: Memory,
    bindings: Bindings,
    breaker: Breaker,
    baseline: seq<(PaymentRequest, int)>,
    log: seq<AuditEntry>)

  /** `Fails` is any error between approval and the facilitator's answer. */
  datatype Settling = Fails | Answers(success: bool, transaction: string)

  datatype Attempt = Attempt(
    req: PaymentRequest,
    id: string,
    lookedAt: int,
    evaluatedAt: int,
    decidedAt: int,
    baselinedAt: int,
    observedAt: int,
    loggedAt: nat,
    score: real,
    anomalies: seq<PolicyCheck>,
    intent: PolicyCheck,
    approved: bool,
    settling: Settling)

  /** The clock is read in this order and never runs backwards. */
  predicate OnTime(a: Attempt, clock: int) {
    clock <= a.lookedAt <= a.evaluatedAt <= a.decidedAt <= a.baselinedAt <= a.observedAt <= a.loggedAt
  }

  // ─── Validation and aggregation ───────────────────────────────────────────

  predicate IsLowerOrDigit(c: char) { 'a' <= c <= 'z' || '0' <= c <= '9' || c == '-' }

  predicate IsReferenceChar(c: char) {
    'a' <= c <= 'z' || 'A' <= c <= 'Z' || '0' <= c <= '9' || c == '.' || c == '_' || c == '-'
  }

  /** A CAIP-2 chain id: a namespace of 3 to 8, a colon, a reference of 1 to 32 characters. */
  predicate IsCaip2(s: string) {
    exists k :: 3 <= k <= 8 && k < |s| && s[k] == ':' && 1 <= |s| - k - 1 <= 32
      && (forall i :: 0 <= i < k ==> IsLowerOrDigit(s[i]))
      && (forall i :: k < i < |s| ==> IsReferenceChar(s[i]))
  }

  function Bad(id: string): Option<PolicyCheck> { Some(PolicyCheck(id, false, Critical)) }

  function Validate(pf: Platform, req: PaymentRequest): Option<PolicyCheck> {
    if req.amount <= 0 then Bad("invalid-amount")
    else if StartsWith(req.chain, "eip155:") && !pf.addressOk(req.recipient) then Bad("invalid-recipient")
    else if StartsWith(req.chain, "eip155:") && !pf.addressOk(req.token) then Bad("invalid-token")
    else if !IsCaip2(req.chain) then Bad("invalid-chain")
    else None
  }

  predicate Behavioral(c: PolicyCheck) { StartsWith(c.id, "behavioral-") }

  predicate FailsCritically(c: PolicyCheck) { !c.passed && c.severity == Critical }

  predicate HardCritical(checks: seq<PolicyCheck>) {
    exists k :: 0 <= k < |checks| && FailsCritically(checks[k]) && !Behavioral(checks[k])
  }

  predicate BehavioralCritical(checks: seq<PolicyCheck>) {
    exists k :: 0 <= k < |checks| && FailsCritically(checks[k]) && Behavioral(checks[k])
  }

  function AggregateVerdict(checks: seq<PolicyCheck>, score: real, policy: Policy, policyEscalate: bool): Verdict {
    var anomaly := score >= policy.anomalyThreshold || BehavioralCritical(checks);
    if HardCritical(checks) || (anomaly && policy.blockAnomalies) then Block
    else if policyEscalate || (anomaly && !policy.blockAnomalies) then Escalate
    else Allow
  }

  function Rank(v: Verdict): nat { VerdictNum(v) }

  /** More failed checks, a higher score or an escalating rule never soften a verdict. */
  lemma AggregateIsMonotone(checks: seq<PolicyCheck>, more: seq<PolicyCheck>, score: real,
      score': real, policy: Policy, escalate: bool, escalate': bool)
    requires checks <= more && score <= score' && (escalate ==> escalate')
    ensures Rank(AggregateVerdict(checks, score, policy, escalate)) <=
            Rank(AggregateVerdict(more, score', policy, escalate'))
  {
    if HardCritical(checks) {
      var k :| 0 <= k < |checks| && FailsCritically(checks[k]) && !Behavioral(checks[k]);
      assert more[k] == checks[k];
    }
    if BehavioralCritical(checks) {
      var k :| 0 <= k < |checks| && FailsCritically(checks[k]) && Behavioral(checks[k]);
      assert more[k] == checks[k];
    }
  }

  // ─── One attempt ──────────────────────────────────────────────────────────

  function BreakerAfterLook(cfg: GuardConfig, b: Breaker, now: int): Breaker {
    if cfg.breaker.Some? then Looked(cfg.breaker.value, b, now) else b
  }

  predicate Frozen(cfg: GuardConfig, b: Breaker) { cfg.breaker.Some? && b.openedAt.Some? }

  function AllChecks(cfg: GuardConfig, s: GuardState, a: Attempt): seq<PolicyCheck> {
    PolicyRules.Evaluate(cfg.platform, cfg.policy.rules, RuleContext(a.req, a.evaluatedAt, s.mem)).checks
    + a.anomalies + [CheckBinding(cfg.platform, s.bindings, a.req), a.intent]
  }

  function WantsHuman(cfg: GuardConfig, s: GuardState, a: Attempt): bool {
    PolicyRules.Evaluate(cfg.platform, cfg.policy.rules, RuleContext(a.req, a.evaluatedAt, s.mem)).escalate
  }

  /** The three layers behind the breaker and the boundary validation. */
  function Decide(cfg: GuardConfig, s: GuardState, a: Attempt): PolicyDecision {
    if Frozen(cfg, BreakerAfterLook(cfg, s.breaker, a.lookedAt)) then
      PolicyDecision(Block, 1.0, [PolicyCheck("circuit-breaker", false, Critical)])
    else match Validate(cfg.platform, a.req)
      case Some(invalid) => PolicyDecision(Block, 1.0, [invalid])
      case None =>
        var checks := AllChecks(cfg, s, a);
        PolicyDecision(AggregateVerdict(checks, a.score, cfg.policy, WantsHuman(cfg, s, a)), a.score, checks)
  }

  predicate Allowed(d: PolicyDecision, approved: bool) {
    d.verdict.Allow? || (d.verdict.Escalate? && approved)
  }

  predicate Settles(cfg: GuardConfig, s: GuardState, a: Attempt) {
    Allowed(Decide(cfg, s, a), a.approved) && a.settling.Answers? && a.settling.success
  }

  function BreakerAfter(cfg: GuardConfig, b: Breaker, d: PolicyDecision, lookedAt: int, decidedAt: int): Breaker {
    if cfg.breaker.None? then b
    else Recorded(cfg.breaker.value, BreakerAfterLook(cfg, b, lookedAt), Event(decidedAt, d.verdict, IsAnomalous(d)))
  }

  function EntryFor(a: Attempt, d: PolicyDecision, settlement: Option<Settlement>): AuditEntry {
    AuditEntry(a.id, a.loggedAt, a.req.agentId, a.req, d, settlement, HashEntry(a.req, d, settlement))
  }

  function SettlementOf(cfg: GuardConfig, s: Settling): Option<Settlement> {
    match s
    case Fails => None
    case Answers(ok, tx) => Some(Settlement(ok, if ok then Some(tx) else None, None, Some(cfg.facilitator)))
  }

  function AfterSettling(cfg: GuardConfig, s: GuardState, a: Attempt): GuardState {
    GuardState(
      Observed(s.mem, a.req, a.observedAt),
      Bound(cfg.platform, s.bindings, a.req.resourceUrl, a.req.recipient),
      s.breaker,
      s.baseline + [(a.req, a.baselinedAt)],
      s.log)
  }

  datatype ExecuteResult =
    | Declined(decision: PolicyDecision)
    | Finished(executed: bool, decision: PolicyDecision)
    | Threw

  /** The whole attempt: decide, feed the breaker, settle, advance state, record. */
  function Execute(cfg: GuardConfig, s: GuardState, a: Attempt): (GuardState, ExecuteResult) {
    var d := Decide(cfg, s, a);
    var s1 := s.(breaker := BreakerAfter(cfg, s.breaker, d, a.lookedAt, a.decidedAt));
    if !Allowed(d, a.approved) then
      (s1.(log := s1.log + [EntryFor(a, d, None)]), Declined(d))
    else if a.settling.Fails? then (s1, Threw)
    else
      var s2 := if a.settling.success then AfterSettling(cfg, s1, a) else s1;
      (s2.(log := s2.log + [EntryFor(a, d, SettlementOf(cfg, a.settling))]), Finished(a.settling.success, d))
  }

  // ─── Rebuilding ───────────────────────────────────────────────────────────

  const MAX_REPLAY := 10_000

  function IsIntact(): AuditEntry -> bool { (e: AuditEntry) => Intact(e) }

  function IsTampered(): AuditEntry -> bool { (e: AuditEntry) => !Intact(e) }

  /** An intact row that records a successful settlement. */
  function IsSettled(): AuditEntry -> bool { (e: AuditEntry) => Intact(e) && SettledOk(e) }

  /** What the behavioural model replays: the newest settled payments at their own times. */
  function Replay(settled: seq<AuditEntry>): seq<(PaymentRequest, int)> {
    var ordered := Sort(settled, EntryTime());
    var kept := if |ordered| > MAX_REPLAY then ordered[|ordered| - MAX_REPLAY..] else ordered;
    seq(|kept|, k requires 0 <= k < |kept| => (kept[k].request, kept[k].timestamp))
  }

  /**
   How far a rebuild looks back, and the clock at the three places it reads it: when the log
   is listed, when the spending memory is replayed, and, after the baseline has been
   replayed in between, when the breaker is.
   */
  datatype Rebuild = Rebuild(lookback: int, listedAt: int, hydratedAt: int, breakerAt: int) {
    function Start(): int { listedAt - lookback }

    /** The clock never runs backwards and the log is read for at least a day. */
    predicate FullDay() { lookback >= DAY_MS && listedAt <= hydratedAt <= breakerAt }
  }

  /**
   A guard constructed over a log: windows from settled and tampered rows, baselines and
   bindings from settled rows only, the breaker from every intact decision.
   */
  function Hydrate(cfg: GuardConfig, log: seq<AuditEntry>, r: Rebuild): GuardState {
    var entries := Since(log, cfg.policy.agentId, r.Start());
    var settled := Filtered(entries, IsSettled());
    GuardState(
      Hydrated(EMPTY_MEMORY, settled + Filtered(entries, IsTampered()), r.hydratedAt),
      BoundAll(cfg.platform, map[], settled),
      if cfg.breaker.Some? then Rebuilt(cfg.breaker.value, FRESH, Filtered(entries, IsIntact()), r.breakerAt) else FRESH,
      Replay(settled),
      log)
  }

  /** A guard that knows nothing but its log. */
  function Cold(log: seq<AuditEntry>): GuardState { GuardState(EMPTY_MEMORY, map[], FRESH, [], log) }

  /**
   What reading the log back may meet: a store that fails, and rows, by id, with a cell that
   cannot be parsed, or hashed once parsed.
   */
  datatype Damage = Damage(storeFails: bool, unreadable: set<string>)

  predicate AllReadable(es: seq<AuditEntry>, unreadable: set<string>) {
    forall e :: e in es ==> e.id !in unreadable
  }

  /** A single listed row that cannot be read is an error of the whole rebuild, which is swallowed. */
  predicate StartsCold(cfg: GuardConfig, log: seq<AuditEntry>, damage: Damage, r: Rebuild) {
    damage.storeFails || !AllReadable(Since(log, cfg.policy.agentId, r.Start()), damage.unreadable)
  }

  /** The state a guard starts in: rebuilt from its log, or cold. */
  function Started(cfg: GuardConfig, log: seq<AuditEntry>, damage: Damage, r: Rebuild): GuardState {
    if StartsCold(cfg, log, damage, r) then Cold(log) else Hydrate(cfg, log, r)
  }

  // ─── The guard object ─────────────────────────────────────────────────────

  class AgentGuard {
    const cfg: GuardConfig
    const evaluator: PolicyEvaluator
    const resources: ResourceRegistry
    const breaker: CircuitBreaker?
    const store: SqliteAuditStore
    var baseline: seq<(PaymentRequest, int)>

    ghost predicate Valid()
      reads this, evaluator, resources, breaker, store
    {
      && store.Valid()
      && evaluator.policy == cfg.policy && evaluator.platform == cfg.platform && resources.platform == cfg.platform
      && (cfg.breaker.Some? <==> breaker != null)
      && (breaker != null ==> breaker.cfg == cfg.breaker.value)
    }

    ghost function State(): GuardState
      reads this, evaluator, resources, breaker, store
    {
      GuardState(evaluator.State(), resources.bindings, if breaker == null then FRESH else breaker.State(),
                 baseline, Select(store.rows, Everything()))
    }

    constructor (cfg: GuardConfig, store: SqliteAuditStore)
      requires store.Valid()
      ensures Valid() && this.cfg == cfg && this.store == store
      ensures fresh(evaluator) && fresh(resources) && (breaker != null ==> fresh(breaker))
      ensures State() == Cold(Select(store.rows, Everything()))
    {
      this.cfg, this.store, baseline := cfg, store, [];
      evaluator := new PolicyEvaluator(cfg.policy, cfg.platform);
      resources := new ResourceRegistry(cfg.platform);
      if cfg.breaker.Some? {
        breaker := new CircuitBreaker(cfg.breaker.value);
      } else {
        breaker := null;
      }
    }

    /** Decide without executing; only the breaker may change, by cooling down. */
    method Evaluate(a: Attempt) returns (d: PolicyDecision)
      requires Valid()
      modifies breaker
      ensures Valid() && d == Decide(cfg, old(State()), a)
      ensures State() == old(State()).(breaker := BreakerAfterLook(cfg, old(State().breaker), a.lookedAt))
    {
      if breaker != null {
        var open := breaker.IsOpen(a.lookedAt);
        if open {
          return PolicyDecision(Block, 1.0, [PolicyCheck("circuit-breaker", false, Critical)]);
        }
      }
      var invalid := Validate(cfg.platform, a.req);
      if invalid.Some? {
        return PolicyDecision(Block, 1.0, [invalid.value]);
      }
      var policyChecks, policyEscalate := evaluator.Evaluate(a.req, a.evaluatedAt);
      var bindingCheck := resources.Check(a.req);
      var checks := policyChecks + a.anomalies + [bindingCheck, a.intent];
      d := PolicyDecision(AggregateVerdict(checks, a.score, cfg.policy, policyEscalate), a.score, checks);
    }

    /** Evaluate, feed the breaker, and ask the human about an escalation. */
    method RunGuard(a: Attempt) returns (d: PolicyDecision, allowed: bool)
      requires Valid()
      modifies breaker
      ensures Valid() && d == Decide(cfg, old(State()), a) && allowed == Allowed(d, a.approved)
      ensures State() == old(State()).(breaker := BreakerAfter(cfg, old(State().breaker), d, a.lookedAt, a.decidedAt))
    {
      d := Evaluate(a);
      if breaker != null {
        var anomaly := IsAnomalous(d);
        breaker.Record(d.verdict, anomaly, a.decidedAt);
      }
      if d.verdict.Block? { return d, false; }
      if d.verdict.Escalate? { return d, a.approved; }
      allowed := true;
    }

    /** What a settled payment changes: spending memory, payee binding, baseline; never the log. */
    method Settle(a: Attempt)
      requires Valid()
      modifies this, evaluator, resources
      ensures Valid() && State() == AfterSettling(cfg, old(State()), a)
    {
      baseline := baseline + [(a.req, a.baselinedAt)];
      evaluator.Observe(a.req, a.observedAt);
      resources.Bind(a.req.resourceUrl, a.req.recipient);
    }

    /** Add one entry to the log and change nothing else. */
    method Append(entry: AuditEntry)
      requires Valid() && !HasId(store.rows, entry.id)
      modifies store
      ensures Valid() && State() == old(State()).(log := old(State().log) + [entry])
    {
      SelectAppend(store.rows, Row(entry, None, None), Everything());
      var _ := store.Insert(entry);
    }

    /** Every attempt that returns leaves the state and the log the specification gives. */
    method ExecuteAttempt(a: Attempt) returns (result: ExecuteResult)
      requires Valid() && !HasId(store.rows, a.id)
      modifies this, evaluator, resources, breaker, store
      ensures Valid() && (State(), result) == Execute(cfg, old(State()), a)
    {
      var d, allowed := RunGuard(a);
      if !allowed {
        Append(EntryFor(a, d, None));
        return Declined(d);
      }
      if a.settling.Fails? { return Threw; }
      if a.settling.success { Settle(a); }
      Append(EntryFor(a, d, SettlementOf(cfg, a.settling)));
      result := Finished(a.settling.success, d);
    }

    /** Seed every layer from the sifted rows of the log. */
    method Rehydrate(ghost entries: seq<AuditEntry>, intact: seq<AuditEntry>, broken: seq<AuditEntry>, r: Rebuild)
      requires Valid() && State() == Cold(Select(store.rows, Everything()))
      requires entries == Since(State().log, cfg.policy.agentId, r.Start())
      requires intact == Filtered(entries, IsIntact()) && broken == Filtered(entries, IsTampered())
      modifies this, evaluator, resources, breaker
      ensures Valid() && State() == Hydrate(cfg, old(State().log), r)
    {
      var settled := Filtered(intact, IsSettled());
      SettledOfIntact(entries);
      evaluator.Hydrate(settled + broken, r.hydratedAt);
      baseline := Replay(settled);
      resources.Hydrate(settled);
      if breaker != null { breaker.Hydrate(intact, r.breakerAt); }
    }

    /**
     Rebuild the enforcement state of a freshly constructed guard from its log, and report
     the tampered rows; None after an error, which leaves the guard cold.
     */
    method HydrateFromLog(r: Rebuild, damage: Damage) returns (tampered: Option<nat>)
      requires Valid() && State() == Cold(Select(store.rows, Everything()))
      modifies this, evaluator, resources, breaker
      ensures Valid() && State() == Started(cfg, old(State().log), damage, r)
      ensures tampered ==
              if StartsCold(cfg, old(State().log), damage, r) then None
              else Some(|Filtered(Since(old(State().log), cfg.policy.agentId, r.Start()), IsTampered())|)
    {
      if damage.storeFails { return None; }
      ghost var log := State().log;
      var entries := store.ListSince(cfg.policy.agentId, r.Start());
      assert entries == Since(log, cfg.policy.agentId, r.Start());
      var readable, intact, broken := Sift(entries, damage.unreadable);
      if !readable { return None; }
      Rehydrate(entries, intact, broken, r);
      tampered := Some(|broken|);
    }
  }

  /**
   Separate the rows whose stored hash still matches from those whose does not; give up at
   the first that cannot be read.
   */
  method Sift(entries: seq<AuditEntry>, unreadable: set<string>)
    returns (readable: bool, intact: seq<AuditEntry>, broken: seq<AuditEntry>)
    ensures readable <==> AllReadable(entries, unreadable)
    ensures readable ==> intact == Filtered(entries, IsIntact()) && broken == Filtered(entries, IsTampered())
  {
    intact, broken := [], [];
    for k := 0 to |entries|
      invariant AllReadable(entries[..k], unreadable)
      invariant intact == Filtered(entries[..k], IsIntact()) && broken == Filtered(entries[..k], IsTampered())
    {
      if entries[k].id in unreadable { return false, intact, broken; }
      assert entries[..k + 1][..k] == entries[..k];
      assert entries[..k + 1] == entries[..k] + [entries[k]];
      if Intact(entries[k]) { intact := intact + [entries[k]]; } else { broken := broken + [entries[k]]; }
    }
    assert entries[..|entries|] == entries;
    readable := true;
  }

  lemma {:induction false} SettledOfIntact(es: seq<AuditEntry>)
    ensures Filtered(Filtered(es, IsIntact()), IsSettled()) == Filtered(es, IsSettled())
  {
    if es != [] {
      var front, last := es[..|es| - 1], es[|es| - 1];
      SettledOfIntact(front);
      var kept := Filtered(front, IsIntact());
      if Intact(last) {
        assert (kept + [last])[..|kept|] == kept;
      } else {
        assert Filtered(es, IsIntact()) == kept;
      }
    }
  }
}
