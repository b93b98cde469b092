/**
 The deterministic policy rules, and the spending memory they look at.

 `Platform` stands for what the runtime supplies: URL parsing, address checking, and the
 lower-casing of text that need not be ASCII.
 */
module PolicyRules {
  import opened Text
  import opened Types

  const HOUR_MS := 3_600_000
  const DAY_MS := 86_400_000

  datatype Url = Url(host: string, pathname: string)

  datatype Platform = Platform(
    parseUrl: string -> Option<Url>,
    addressOk: string -> bool,
    fold: string -> string)

  datatype SpendWindow = Transaction | Session | Hour | Day

  datatype AllowMode = Recipients | Resources

  datatype RuleAction = BlockIt | EscalateIt | WarnOnly

  datatype PolicyRule =
    | SpendCap(window: SpendWindow, maxAmount: int, token: string, escalateAbove: Option<int>)
    | Allowlist(mode: AllowMode, entries: seq<string>, enforce: bool)
    | RateLimit(maxPayments: int, windowSeconds: int)
    | Counterparty(flagNewRecipients: bool, action: RuleAction)
    | TimeWindow(startHour: int, endHour: int, action: RuleAction)

  datatype Policy = Policy(
    agentId: string,
    rules: seq<PolicyRule>,
    anomalyThreshold: real,
    blockAnomalies: bool)

  // ─── Spending memory ──────────────────────────────────────────────────────

  datatype SpendRecord = SpendRecord(ts: int, amount: int, token: string, hydrated: bool)

  datatype Memory = Memory(payments: seq<SpendRecord>, seen: set<string>)

  /** What is added up over a window: the spend in one token, or the number of payments. */
  datatype Measure = SpendIn(token: string) | PaymentCount

  function Weigh(m: Measure, amount: int, token: string): int {
    match m
    case SpendIn(t) => if token == t then amount else 0
    case PaymentCount => 1
  }

  /** The total over the records strictly after a cutoff, optionally leaving out replayed ones. */
  function Above(m: Measure, ps: seq<SpendRecord>, cutoff: int, liveOnly: bool): int {
    if ps == [] then 0
    else
      var p := ps[|ps| - 1];
      Above(m, ps[..|ps| - 1], cutoff, liveOnly) +
      if p.ts > cutoff && !(liveOnly && p.hydrated) then Weigh(m, p.amount, p.token) else 0
  }

  function CutoffOf(window: SpendWindow, now: int): int {
    match window
    case Hour => now - HOUR_MS
    case Day => now - DAY_MS
    case _ => 0
  }

  function WindowedSpend(mem: Memory, window: SpendWindow, token: string, now: int): int {
    Above(SpendIn(Lower(token)), mem.payments, CutoffOf(window, now), window.Session?)
  }

  function RecentPaymentCount(mem: Memory, windowSeconds: int, now: int): int {
    Above(PaymentCount, mem.payments, now - windowSeconds * 1000, false)
  }

  // ─── Rules ────────────────────────────────────────────────────────────────

  datatype RuleContext = RuleContext(req: PaymentRequest, now: int, mem: Memory)

  datatype RuleResult = RuleResult(check: Option<PolicyCheck>, escalate: bool)

  function Pass(id: string): RuleResult { RuleResult(Some(PolicyCheck(id, true, Info)), false) }

  function WindowName(w: SpendWindow): string {
    match w
    case Transaction => "transaction"
    case Session => "session"
    case Hour => "hour"
    case Day => "day"
  }

  function CapId(w: SpendWindow): string { "spend-cap-" + WindowName(w) }

  function CheckSpendCap(rule: PolicyRule, ctx: RuleContext): RuleResult
    requires rule.SpendCap?
  {
    if Lower(rule.token) != Lower(ctx.req.token) then RuleResult(None, false)
    else
      var id := CapId(rule.window);
      var prior := if rule.window.Transaction? then 0 else WindowedSpend(ctx.mem, rule.window, rule.token, ctx.now);
      if prior + ctx.req.amount > rule.maxAmount then
        RuleResult(Some(PolicyCheck(id, false, Critical)), false)
      else if rule.escalateAbove.Some? && ctx.req.amount > rule.escalateAbove.value then
        RuleResult(Some(PolicyCheck(id, false, Warning)), true)
      else Pass(id)
  }

  /** The first slash, or the length when there is none. */
  function IndexOfSlash(s: string): (i: nat)
    ensures i <= |s|
  {
    if s == "" || s[0] == '/' then 0 else 1 + IndexOfSlash(s[1..])
  }

  function StripSlashes(s: string): string {
    if s != "" && s[|s| - 1] == '/' then StripSlashes(s[..|s| - 1]) else s
  }

  /** Exact host or a subdomain of it, then an optional path prefix at a segment boundary. */
  predicate ResourceMatches(url: Url, entry: string) {
    var slash := IndexOfSlash(entry);
    var entryHost := entry[..slash];
    var entryPath := entry[slash..];
    var host, path := Lower(url.host), Lower(url.pathname);
    var prefix := StripSlashes(entryPath);
    && entryHost != ""
    && (host == entryHost || EndsWith(host, "." + entryHost))
    && (entryPath == "" || path == prefix || StartsWith(path, prefix + "/"))
  }

  /**
   A host-only entry permits a host that ends in it exactly when nothing precedes it or the
   part before it ends in a dot: a subdomain, never a lookalike.
   */
  lemma HostEntryMatches(url: Url, entry: string, front: string)
    requires entry != "" && IndexOfSlash(entry) == |entry| && Lower(url.host) == front + entry
    ensures ResourceMatches(url, entry) <==> front == "" || front[|front| - 1] == '.'
  {
    assert entry[..|entry|] == entry;
    HostPart(Lower(url.host), entry, front);
  }

  /**
   An entry with a path permits a URL that ends in its host and begins with its path, less
   any closing slashes, exactly when the host is it or a subdomain and the path goes on at a
   segment boundary or not at all.
   */
  lemma PathEntryMatches(url: Url, host: string, path: string, front: string, rest: string)
    requires host != "" && path != "" && IndexOfSlash(host + path) == |host|
    requires Lower(url.host) == front + host && Lower(url.pathname) == StripSlashes(path) + rest
    ensures ResourceMatches(url, host + path) <==>
              (front == "" || front[|front| - 1] == '.') && (rest == "" || rest[0] == '/')
  {
    var entry := host + path;
    assert entry[..|host|] == host && entry[|host|..] == path;
    HostPart(Lower(url.host), host, front);
    PathPart(StripSlashes(path), rest);
  }

  /** Any other host or path is refused. */
  lemma PathEntryRefuses(url: Url, host: string, path: string)
    requires host != "" && path != "" && IndexOfSlash(host + path) == |host|
    requires !EndsWith(Lower(url.host), host) || !StartsWith(Lower(url.pathname), StripSlashes(path))
    ensures !ResourceMatches(url, host + path)
  {
    var entry := host + path;
    assert entry[..|host|] == host && entry[|host|..] == path;
    LongerEnds(Lower(url.host), host);
    LongerStarts(Lower(url.pathname), StripSlashes(path));
  }

  lemma LongerEnds(asked: string, host: string)
    ensures EndsWith(asked, "." + host) ==> EndsWith(asked, host)
  {
    if EndsWith(asked, "." + host) {
      assert asked[|asked| - |host|..] == asked[|asked| - |"." + host|..][1..];
      assert ("." + host)[1..] == host;
    }
  }

  lemma LongerStarts(asked: string, prefix: string)
    ensures StartsWith(asked, prefix + "/") ==> StartsWith(asked, prefix)
  {
    if prefix + "/" <= asked {
      assert forall k :: 0 <= k < |prefix| ==> asked[k] == (prefix + "/")[k] == prefix[k];
    }
  }

  lemma HostPart(asked: string, host: string, front: string)
    requires asked == front + host && host != ""
    ensures asked == host || EndsWith(asked, "." + host) <==> front == "" || front[|front| - 1] == '.'
  {
    if front != "" {
      assert asked != host;
      assert asked[|asked| - |"." + host|..] == [front[|front| - 1]] + host;
      assert ("." + host)[0] == '.';
      if front[|front| - 1] == '.' { assert [front[|front| - 1]] + host == "." + host; }
    } else {
      assert front + host == host;
    }
  }

  lemma PathPart(prefix: string, rest: string)
    ensures prefix + rest == prefix || StartsWith(prefix + rest, prefix + "/") <==> rest == "" || rest[0] == '/'
  {
    var path := prefix + rest;
    if rest != "" {
      assert path != prefix;
      if rest[0] == '/' { assert path[..|prefix| + 1] == prefix + "/"; }
      if prefix + "/" <= path { assert path[|prefix|] == (prefix + "/")[|prefix|]; }
    } else {
      assert path == prefix;
    }
  }

  /** Trimmed, lower-cased and never empty. */
  function Normalize(pf: Platform, entries: seq<string>): seq<string> {
    if entries == [] then []
    else
      var e := pf.fold(Trim(entries[0]));
      (if e == "" then [] else [e]) + Normalize(pf, entries[1..])
  }

  /** No blank entry survives to match everything, and every other entry is kept. */
  lemma {:induction false} NormalizeExact(pf: Platform, entries: seq<string>, n: string)
    ensures n in Normalize(pf, entries) <==> n != "" && exists k :: 0 <= k < |entries| && pf.fold(Trim(entries[k])) == n
  {
    if entries != [] {
      NormalizeExact(pf, entries[1..], n);
      if k :| 0 <= k < |entries| && pf.fold(Trim(entries[k])) == n {
        if k > 0 { assert entries[1..][k - 1] == entries[k]; }
      }
      if k :| 0 <= k < |entries[1..]| && pf.fold(Trim(entries[1..][k])) == n {
        assert entries[k + 1] == entries[1..][k];
      }
    }
  }

  /** An unparseable or missing URL matches nothing. */
  predicate MatchesResource(pf: Platform, target: string, entries: seq<string>) {
    && target != "" && entries != [] && pf.parseUrl(target).Some?
    && exists k :: 0 <= k < |entries| && ResourceMatches(pf.parseUrl(target).value, entries[k])
  }

  function CheckAllowlist(pf: Platform, rule: PolicyRule, ctx: RuleContext): RuleResult
    requires rule.Allowlist?
  {
    var id := if rule.mode.Recipients? then "allowlist-recipients" else "allowlist-resources";
    var entries := Normalize(pf, rule.entries);
    var ok :=
      if rule.mode.Recipients? then Lower(ctx.req.recipient) in entries
      else MatchesResource(pf, if ctx.req.resourceUrl.Some? then ctx.req.resourceUrl.value else "", entries);
    if ok then Pass(id)
    else RuleResult(Some(PolicyCheck(id, false, if rule.enforce then Critical else Warning)), false)
  }

  function CheckRateLimit(rule: PolicyRule, ctx: RuleContext): RuleResult
    requires rule.RateLimit?
  {
    if RecentPaymentCount(ctx.mem, rule.windowSeconds, ctx.now) + 1 > rule.maxPayments then
      RuleResult(Some(PolicyCheck("rate-limit", false, Critical)), false)
    else Pass("rate-limit")
  }

  function Flagged(id: string, action: RuleAction): RuleResult {
    RuleResult(Some(PolicyCheck(id, false, if action.BlockIt? then Critical else Warning)), action.EscalateIt?)
  }

  function CheckCounterparty(rule: PolicyRule, ctx: RuleContext): RuleResult
    requires rule.Counterparty?
  {
    if !rule.flagNewRecipients then RuleResult(None, false)
    else if Lower(ctx.req.recipient) in ctx.mem.seen then Pass("counterparty-new")
    else Flagged("counterparty-new", rule.action)
  }

  function UtcHour(now: int): int { (now / HOUR_MS) % 24 }

  /** Equal bounds mean no restriction; a start after the end wraps past midnight. */
  predicate HourAllowed(hour: int, start: int, end: int) {
    if start == end then true
    else if start < end then start <= hour < end
    else start <= hour || hour < end
  }

  /** Swapping distinct bounds allows exactly the other hours; every hour is one of twenty-four. */
  lemma HoursComplement(now: int, start: int, end: int)
    requires start != end
    ensures 0 <= UtcHour(now) < 24
    ensures HourAllowed(UtcHour(now), start, end) <==> !HourAllowed(UtcHour(now), end, start)
  {
  }

  function CheckTimeWindow(rule: PolicyRule, ctx: RuleContext): RuleResult
    requires rule.TimeWindow?
  {
    if HourAllowed(UtcHour(ctx.now), rule.startHour, rule.endHour) then Pass("time-window")
    else Flagged("time-window", rule.action)
  }

  function Dispatch(pf: Platform, rule: PolicyRule, ctx: RuleContext): RuleResult {
    match rule
    case SpendCap(_, _, _, _) => CheckSpendCap(rule, ctx)
    case Allowlist(_, _, _) => CheckAllowlist(pf, rule, ctx)
    case RateLimit(_, _) => CheckRateLimit(rule, ctx)
    case Counterparty(_, _) => CheckCounterparty(rule, ctx)
    case TimeWindow(_, _, _) => CheckTimeWindow(rule, ctx)
  }

  // ─── A whole policy ───────────────────────────────────────────────────────

  datatype Evaluation = Evaluation(checks: seq<PolicyCheck>, escalate: bool)

  /** The checks of the rules in order, and whether any wants a human. */
  function RunRules(pf: Platform, rules: seq<PolicyRule>, ctx: RuleContext): Evaluation {
    if rules == [] then Evaluation([], false)
    else
      var before := RunRules(pf, rules[..|rules| - 1], ctx);
      var res := Dispatch(pf, rules[|rules| - 1], ctx);
      Evaluation(before.checks + (if res.check.Some? then [res.check.value] else []),
                 before.escalate || res.escalate)
  }

  predicate HasCap(rules: seq<PolicyRule>) {
    exists k :: 0 <= k < |rules| && rules[k].SpendCap?
  }

  predicate Covered(rules: seq<PolicyRule>, token: string) {
    exists k :: 0 <= k < |rules| && rules[k].SpendCap? && Lower(rules[k].token) == Lower(token)
  }

  const COVERAGE := PolicyCheck("spend-cap-coverage", true, Warning)

  /** All rule checks, plus a visible note when caps exist but none targets this token. */
  function Evaluate(pf: Platform, rules: seq<PolicyRule>, ctx: RuleContext): Evaluation {
    var run := RunRules(pf, rules, ctx);
    if HasCap(rules) && !Covered(rules, ctx.req.token)
    then Evaluation(run.checks + [COVERAGE], run.escalate) else run
  }

  /** No rule's check is ever lost from the evaluation. */
  lemma {:induction false} RuleCheckKept(pf: Platform, rules: seq<PolicyRule>, ctx: RuleContext, k: nat)
    requires k < |rules| && Dispatch(pf, rules[k], ctx).check.Some?
    ensures Dispatch(pf, rules[k], ctx).check.value in RunRules(pf, rules, ctx).checks
    ensures Dispatch(pf, rules[k], ctx).check.value in Evaluate(pf, rules, ctx).checks
  {
    if k < |rules| - 1 {
      RuleCheckKept(pf, rules[..|rules| - 1], ctx, k);
      var before := RunRules(pf, rules[..|rules| - 1], ctx).checks;
      var c := Dispatch(pf, rules[k], ctx).check.value;
      assert c in before;
      assert before <= RunRules(pf, rules, ctx).checks;
    }
  }
}
