/** The evaluator: payment memory that advances on settlement and is rebuilt from the log. */
module PolicyState {
  import opened Text
  import opened Types
  import opened Sorting
  import opened PolicyRules

  function TimeOf(): SpendRecord -> int { (p: SpendRecord) => p.ts }

  function Observed(mem: Memory, req: PaymentRequest, at: int): Memory {
    Memory(mem.payments + [SpendRecord(at, req.amount, Lower(req.token), false)], mem.seen + {Lower(req.recipient)})
  }

  function ReplayOf(e: AuditEntry): SpendRecord {
    SpendRecord(e.timestamp, e.request.amount, Lower(e.request.token), true)
  }

  /** The replayed records of the entries after the cutoff. */
  function Replayed(es: seq<AuditEntry>, cutoff: int): seq<SpendRecord> {
    if es == [] then []
    else
      var e := es[|es| - 1];
      Replayed(es[..|es| - 1], cutoff) + if e.timestamp > cutoff then [ReplayOf(e)] else []
  }

  function RecipientsOf(es: seq<AuditEntry>): set<string> {
    set e | e in es :: Lower(e.request.recipient)
  }

  /** Counterparties from all the history given; spend records from the last day of it. */
  function Hydrated(mem: Memory, es: seq<AuditEntry>, now: int): Memory {
    Memory(Sort(mem.payments + Replayed(es, now - DAY_MS), TimeOf()), mem.seen + RecipientsOf(es))
  }

  const EMPTY_MEMORY := Memory([], {})

  /** Rebuilding from nothing yields the sorted replayed records and the recipients named. */
  lemma HydratedFromEmpty(es: seq<AuditEntry>, now: int)
    ensures Hydrated(EMPTY_MEMORY, es, now) == Memory(Sort(Replayed(es, now - DAY_MS), TimeOf()), RecipientsOf(es))
  {
    var replayed := Replayed(es, now - DAY_MS);
    assert [] + replayed == replayed;
    assert {} + RecipientsOf(es) == RecipientsOf(es);
  }

  // ─── Totals ───────────────────────────────────────────────────────────────

  lemma {:induction false} AboveConcat(m: Measure, a: seq<SpendRecord>, b: seq<SpendRecord>, cutoff: int,
      liveOnly: bool)
    ensures Above(m, a + b, cutoff, liveOnly) == Above(m, a, cutoff, liveOnly) + Above(m, b, cutoff, liveOnly)
  {
    if b == [] {
      assert a + b == a;
    } else {
      assert (a + b)[..|a + b| - 1] == a + b[..|b| - 1];
      AboveConcat(m, a, b[..|b| - 1], cutoff, liveOnly);
    }
  }

  lemma {:induction false} AboveInsert(m: Measure, ps: seq<SpendRecord>, p: SpendRecord, cutoff: int, liveOnly: bool)
    ensures Above(m, Insert(ps, p, TimeOf()), cutoff, liveOnly) ==
            Above(m, ps, cutoff, liveOnly) + Above(m, [p], cutoff, liveOnly)
  {
    if ps == [] || TimeOf()(ps[|ps| - 1]) <= TimeOf()(p) {
      AboveConcat(m, ps, [p], cutoff, liveOnly);
    } else {
      var front, last := ps[..|ps| - 1], [ps[|ps| - 1]];
      AboveInsert(m, front, p, cutoff, liveOnly);
      AboveConcat(m, Insert(front, p, TimeOf()), last, cutoff, liveOnly);
      AboveConcat(m, front, last, cutoff, liveOnly);
      assert ps == front + last;
    }
  }

  /** The final sort of a rebuild changes no total. */
  lemma {:induction false} AboveSort(m: Measure, ps: seq<SpendRecord>, cutoff: int, liveOnly: bool)
    ensures Above(m, Sort(ps, TimeOf()), cutoff, liveOnly) == Above(m, ps, cutoff, liveOnly)
  {
    if ps != [] {
      var front, last := ps[..|ps| - 1], ps[|ps| - 1];
      AboveSort(m, front, cutoff, liveOnly);
      AboveInsert(m, Sort(front, TimeOf()), last, cutoff, liveOnly);
      AboveConcat(m, front, [last], cutoff, liveOnly);
      assert ps == front + [last];
    }
  }

  // ─── The evaluator itself ─────────────────────────────────────────────────

  class PolicyEvaluator {
    const policy: Policy
    const platform: Platform
    var payments: seq<SpendRecord>
    var seen: set<string>

    function State(): Memory
      reads this
    {
      Memory(payments, seen)
    }

    constructor (policy: Policy, platform: Platform)
      ensures this.policy == policy && this.platform == platform && State() == EMPTY_MEMORY
    {
      this.policy, this.platform := policy, platform;
      payments, seen := [], {};
    }

    /** One pass over the rules with the two coverage counters; reads the memory only. */
    method Evaluate(req: PaymentRequest, now: int) returns (checks: seq<PolicyCheck>, escalate: bool)
      ensures Evaluation(checks, escalate) == PolicyRules.Evaluate(platform, policy.rules, RuleContext(req, now, State()))
    {
      var ctx := RuleContext(req, now, State());
      var rules := policy.rules;
      checks, escalate := [], false;
      var spendCapRules, spendCapApplied := 0, 0;
      for k := 0 to |rules|
        invariant Evaluation(checks, escalate) == RunRules(platform, rules[..k], ctx)
        invariant spendCapRules >= 0 && (spendCapRules > 0 <==> HasCap(rules[..k]))
        invariant spendCapApplied >= 0 && (spendCapApplied > 0 <==> Covered(rules[..k], req.token))
      {
        var rule := rules[k];
        RunAppend(platform, rules, k, ctx);
        CapsAppend(rules[..k], rule, req.token);
        if rule.SpendCap? { spendCapRules := spendCapRules + 1; }
        var res := Dispatch(platform, rule, ctx);
        if res.check.Some? {
          checks := checks + [res.check.value];
          if rule.SpendCap? { spendCapApplied := spendCapApplied + 1; }
        }
        if res.escalate { escalate := true; }
      }
      assert rules[..|rules|] == rules;
      if spendCapRules > 0 && spendCapApplied == 0 { checks := checks + [COVERAGE]; }
    }

    /** Record a settled payment. */
    method Observe(req: PaymentRequest, at: int)
      modifies this
      ensures State() == Observed(old(State()), req, at)
    {
      payments := payments + [SpendRecord(at, req.amount, Lower(req.token), false)];
      seen := seen + {Lower(req.recipient)};
    }

    /** Replay recorded history; replayed records are marked and the list re-sorted by time. */
    method Hydrate(entries: seq<AuditEntry>, now: int)
      modifies this
      ensures State() == Hydrated(old(State()), entries, now)
    {
      var cutoff := now - DAY_MS;
      ghost var before := State();
      for k := 0 to |entries|
        invariant payments == before.payments + Replayed(entries[..k], cutoff)
        invariant seen == before.seen + RecipientsOf(entries[..k])
      {
        var e := entries[k];
        assert entries[..k + 1][..k] == entries[..k];
        assert RecipientsOf(entries[..k + 1]) == RecipientsOf(entries[..k]) + {Lower(e.request.recipient)};
        seen := seen + {Lower(e.request.recipient)};
        if e.timestamp > cutoff {
          payments := payments + [SpendRecord(e.timestamp, e.request.amount, Lower(e.request.token), true)];
        }
      }
      assert entries[..|entries|] == entries;
      payments := Sort(payments, TimeOf());
    }
  }

  /** The run over one more rule, and that rule's own check if it applied. */
  lemma RunAppend(pf: Platform, rules: seq<PolicyRule>, k: nat, ctx: RuleContext)
    requires k < |rules|
    ensures rules[..k + 1] == rules[..k] + [rules[k]]
    ensures var before, res := RunRules(pf, rules[..k], ctx), Dispatch(pf, rules[k], ctx);
            RunRules(pf, rules[..k + 1], ctx) ==
            Evaluation(before.checks + (if res.check.Some? then [res.check.value] else []), before.escalate || res.escalate)
    ensures Dispatch(pf, rules[k], ctx).check.Some? && rules[k].SpendCap? ==> Lower(rules[k].token) == Lower(ctx.req.token)
    ensures rules[k].SpendCap? && Lower(rules[k].token) == Lower(ctx.req.token) ==> Dispatch(pf, rules[k], ctx).check.Some?
  {
    assert rules[..k + 1][..k] == rules[..k];
  }

  lemma CapsAppend(rules: seq<PolicyRule>, rule: PolicyRule, token: string)
    ensures HasCap(rules + [rule]) <==> HasCap(rules) || rule.SpendCap?
    ensures Covered(rules + [rule], token) <==>
              Covered(rules, token) || (rule.SpendCap? && Lower(rule.token) == Lower(token))
  {
    var all := rules + [rule];
    assert all[|rules|] == rule;
    if k :| 0 <= k < |rules| && rules[k].SpendCap? { assert all[k] == rules[k]; }
    if k :| 0 <= k < |rules| && rules[k].SpendCap? && Lower(rules[k].token) == Lower(token) { assert all[k] == rules[k]; }
  }
}
