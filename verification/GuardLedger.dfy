/** One process from start to stop: what each attempt adds to memory, baseline, bindings and log. */
module GuardLedger {
  import opened Text
  import opened Types
  import opened EntryList
  import opened PolicyRules
  import opened PolicyState
  import opened PayeeRegistry
  import opened GuardLogic

  /** The state after a list of attempts, and the attempts that settled, in order. */
  function RunAttempts(cfg: GuardConfig, s: GuardState, attempts: seq<Attempt>): (GuardState, seq<Attempt>) {
    if attempts == [] then (s, [])
    else
      var a := attempts[|attempts| - 1];
      var (mid, paid) := RunAttempts(cfg, s, attempts[..|attempts| - 1]);
      (Execute(cfg, mid, a).0, if Settles(cfg, mid, a) then paid + [a] else paid)
  }

  /** How many attempts returned to their caller. */
  function ReturnCount(cfg: GuardConfig, s: GuardState, attempts: seq<Attempt>): nat {
    if attempts == [] then 0
    else
      var front := attempts[..|attempts| - 1];
      var mid := RunAttempts(cfg, s, front).0;
      ReturnCount(cfg, s, front) + if Execute(cfg, mid, attempts[|attempts| - 1]).1.Threw? then 0 else 1
  }

  function RecordsOf(paid: seq<Attempt>): (r: seq<SpendRecord>)
    ensures |r| == |paid|
  {
    seq(|paid|, k requires 0 <= k < |paid| =>
      SpendRecord(paid[k].observedAt, paid[k].req.amount, Lower(paid[k].req.token), false))
  }

  function BaselinesOf(paid: seq<Attempt>): (r: seq<(PaymentRequest, int)>)
    ensures |r| == |paid|
  {
    seq(|paid|, k requires 0 <= k < |paid| => (paid[k].req, paid[k].baselinedAt))
  }

  /** Request and time of each payment, as its audit entry states them. */
  function StampsOf(paid: seq<Attempt>): (r: seq<(PaymentRequest, nat)>)
    ensures |r| == |paid|
  {
    seq(|paid|, k requires 0 <= k < |paid| => (paid[k].req, paid[k].loggedAt))
  }

  function Stamps(es: seq<AuditEntry>): (r: seq<(PaymentRequest, nat)>)
    ensures |r| == |es|
  {
    seq(|es|, k requires 0 <= k < |es| => (es[k].request, es[k].timestamp))
  }

  function BindAll(pf: Platform, b: Bindings, paid: seq<Attempt>): Bindings {
    if paid == [] then b
    else
      var a := paid[|paid| - 1];
      Bound(pf, BindAll(pf, b, paid[..|paid| - 1]), a.req.resourceUrl, a.req.recipient)
  }

  /**
   Ledger agreement over any attempts: memory, baseline and bindings gain exactly the
   settled payments, in order; the log gains one entry per attempt that returned; and its
   settled entries are those same payments, in the same order.
   */
  ghost predicate Agrees(cfg: GuardConfig, s: GuardState, attempts: seq<Attempt>, added: seq<AuditEntry>) {
    var (s', paid) := RunAttempts(cfg, s, attempts);
    StateGains(cfg, s, s', paid) && LogGains(s, s', paid, added) && |added| == ReturnCount(cfg, s, attempts)
  }

  ghost predicate StateGains(cfg: GuardConfig, s: GuardState, s': GuardState, paid: seq<Attempt>) {
    && s'.mem.payments == s.mem.payments + RecordsOf(paid)
    && s'.baseline == s.baseline + BaselinesOf(paid)
    && s'.bindings == BindAll(cfg.platform, s.bindings, paid)
  }

  ghost predicate TrueRecord(e: AuditEntry) { Intact(e) && e.agentId == e.request.agentId }

  ghost predicate LogGains(s: GuardState, s': GuardState, paid: seq<Attempt>, added: seq<AuditEntry>) {
    && s'.log == s.log + added
    && (forall e :: e in added ==> TrueRecord(e))
    && Stamps(Filtered(added, IsSettled())) == StampsOf(paid)
  }

  /** A true record of an attempt that did not settle. */
  ghost predicate IdleEntry(e: AuditEntry, a: Attempt) {
    Intact(e) && !SettledOk(e) && e.request == a.req && e.agentId == a.req.agentId
  }

  /** One attempt that did not settle: at most an unsettled entry, nothing else. */
  lemma UnsettledStep(cfg: GuardConfig, s: GuardState, a: Attempt)
    requires !Settles(cfg, s, a)
    ensures var (s', r) := Execute(cfg, s, a);
            && s'.mem == s.mem && s'.baseline == s.baseline && s'.bindings == s.bindings
            && (r.Threw? ==> s'.log == s.log)
            && (!r.Threw? ==> exists e :: s'.log == s.log + [e] && IdleEntry(e, a))
  {
    var d := Decide(cfg, s, a);
    var none, some := EntryFor(a, d, None), EntryFor(a, d, SettlementOf(cfg, a.settling));
    assert IdleEntry(none, a);
    if a.settling.Answers? && !a.settling.success { assert IdleEntry(some, a); }
  }

  lemma SettledStep(cfg: GuardConfig, s: GuardState, a: Attempt)
    requires Settles(cfg, s, a)
    ensures var (s', r) := Execute(cfg, s, a);
            var e := EntryFor(a, Decide(cfg, s, a), SettlementOf(cfg, a.settling));
            && !r.Threw? && s'.log == s.log + [e] && Intact(e) && SettledOk(e)
            && s'.mem == Observed(s.mem, a.req, a.observedAt)
            && s'.baseline == s.baseline + [(a.req, a.baselinedAt)]
            && s'.bindings == Bound(cfg.platform, s.bindings, a.req.resourceUrl, a.req.recipient)
  {
  }

  lemma RunLast(cfg: GuardConfig, s: GuardState, attempts: seq<Attempt>)
    requires attempts != []
    ensures var (mid, paid) := RunAttempts(cfg, s, attempts[..|attempts| - 1]);
            var a := attempts[|attempts| - 1];
            RunAttempts(cfg, s, attempts) == (Execute(cfg, mid, a).0, if Settles(cfg, mid, a) then paid + [a] else paid)
  {
  }

  lemma AppendPaid(pf: Platform, b: Bindings, paid: seq<Attempt>, a: Attempt)
    ensures RecordsOf(paid + [a]) == RecordsOf(paid) + [SpendRecord(a.observedAt, a.req.amount, Lower(a.req.token), false)]
    ensures BaselinesOf(paid + [a]) == BaselinesOf(paid) + [(a.req, a.baselinedAt)]
    ensures StampsOf(paid + [a]) == StampsOf(paid) + [(a.req, a.loggedAt)]
    ensures BindAll(pf, b, paid + [a]) == Bound(pf, BindAll(pf, b, paid), a.req.resourceUrl, a.req.recipient)
  {
    assert (paid + [a])[..|paid|] == paid;
  }

  lemma StampsAppend(es: seq<AuditEntry>, e: AuditEntry)
    ensures Stamps(es + [e]) == Stamps(es) + [(e.request, e.timestamp)]
  {
  }

  lemma AppendSettledEntry(added: seq<AuditEntry>, e: AuditEntry)
    ensures Stamps(Filtered(added + [e], IsSettled())) ==
            if IsSettled()(e) then Stamps(Filtered(added, IsSettled())) + [(e.request, e.timestamp)]
            else Stamps(Filtered(added, IsSettled()))
  {
    FilteredAppend(added, e, IsSettled());
    if IsSettled()(e) {
      StampsAppend(Filtered(added, IsSettled()), e);
    } else {
      assert Filtered(added, IsSettled()) + [] == Filtered(added, IsSettled());
    }
  }

  /** Appending a settled entry and its payment to ledgers that agreed. */
  lemma LogGainsSettled(s: GuardState, mid: GuardState, s': GuardState, paid: seq<Attempt>,
      a: Attempt, before: seq<AuditEntry>, e: AuditEntry)
    requires LogGains(s, mid, paid, before) && s'.log == mid.log + [e]
    requires TrueRecord(e) && SettledOk(e) && e.request == a.req && e.timestamp == a.loggedAt
    ensures LogGains(s, s', paid + [a], before + [e])
  {
    AppendSettledEntry(before, e);
    assert IsSettled()(e);
    assert StampsOf(paid + [a]) == StampsOf(paid) + [(a.req, a.loggedAt)];
    assert s.log + before + [e] == s.log + (before + [e]);
  }

  lemma LogGainsIdle(s: GuardState, mid: GuardState, s': GuardState, paid: seq<Attempt>,
      before: seq<AuditEntry>, e: AuditEntry)
    requires LogGains(s, mid, paid, before) && s'.log == mid.log + [e] && TrueRecord(e) && !SettledOk(e)
    ensures LogGains(s, s', paid, before + [e])
  {
    AppendSettledEntry(before, e);
    assert !IsSettled()(e);
    assert s.log + before + [e] == s.log + (before + [e]);
  }

  lemma SettledExtends(cfg: GuardConfig, s: GuardState, attempts: seq<Attempt>,
      before: seq<AuditEntry>)
    returns (added: seq<AuditEntry>)
    requires attempts != [] && Agrees(cfg, s, attempts[..|attempts| - 1], before)
    requires Settles(cfg, RunAttempts(cfg, s, attempts[..|attempts| - 1]).0, attempts[|attempts| - 1])
    ensures Agrees(cfg, s, attempts, added)
  {
    var front, a := attempts[..|attempts| - 1], attempts[|attempts| - 1];
    var (mid, paid) := RunAttempts(cfg, s, front);
    RunLast(cfg, s, attempts);
    SettledStep(cfg, mid, a);
    var e := EntryFor(a, Decide(cfg, mid, a), SettlementOf(cfg, a.settling));
    var s' := Execute(cfg, mid, a).0;
    added := before + [e];
    StateGainsSettled(cfg, s, mid, s', paid, a);
    LogGainsSettled(s, mid, s', paid, a, before, e);
  }

  lemma StateGainsSettled(cfg: GuardConfig, s: GuardState, mid: GuardState, s': GuardState, paid: seq<Attempt>,
      a: Attempt)
    requires StateGains(cfg, s, mid, paid) && s'.mem == Observed(mid.mem, a.req, a.observedAt)
    requires s'.baseline == mid.baseline + [(a.req, a.baselinedAt)]
    requires s'.bindings == Bound(cfg.platform, mid.bindings, a.req.resourceUrl, a.req.recipient)
    ensures StateGains(cfg, s, s', paid + [a])
  {
    AppendPaid(cfg.platform, s.bindings, paid, a);
  }

  lemma UnsettledExtends(cfg: GuardConfig, s: GuardState, attempts: seq<Attempt>,
      before: seq<AuditEntry>)
    returns (added: seq<AuditEntry>)
    requires attempts != [] && Agrees(cfg, s, attempts[..|attempts| - 1], before)
    requires !Settles(cfg, RunAttempts(cfg, s, attempts[..|attempts| - 1]).0, attempts[|attempts| - 1])
    ensures Agrees(cfg, s, attempts, added)
  {
    var front, a := attempts[..|attempts| - 1], attempts[|attempts| - 1];
    var (mid, paid) := RunAttempts(cfg, s, front);
    RunLast(cfg, s, attempts);
    UnsettledStep(cfg, mid, a);
    var (s', r) := Execute(cfg, mid, a);
    added := before;
    if !r.Threw? {
      var e :| s'.log == mid.log + [e] && IdleEntry(e, a);
      added := before + [e];
      LogGainsIdle(s, mid, s', paid, before, e);
    }
  }

  lemma {:induction false} LedgerAgreement(cfg: GuardConfig, s: GuardState, attempts: seq<Attempt>)
    returns (added: seq<AuditEntry>)
    ensures Agrees(cfg, s, attempts, added)
  {
    if attempts == [] {
      added := [];
    } else {
      var before := LedgerAgreement(cfg, s, attempts[..|attempts| - 1]);
      if Settles(cfg, RunAttempts(cfg, s, attempts[..|attempts| - 1]).0, attempts[|attempts| - 1]) {
        added := SettledExtends(cfg, s, attempts, before);
      } else {
        added := UnsettledExtends(cfg, s, attempts, before);
      }
    }
  }

  // ─── One payee per host ───────────────────────────────────────────────────

  function HostOfAttempt(cfg: GuardConfig, a: Attempt): Option<string> { HostOf(cfg.platform, a.req.resourceUrl) }

  /** A payment that settles names a payee its host already has, or the host had none. */
  lemma SettlingMatchesBinding(cfg: GuardConfig, s: GuardState, a: Attempt, host: string)
    requires Settles(cfg, s, a) && HostOfAttempt(cfg, a) == Some(host)
    ensures Known(s.bindings, host) == {} || Lower(a.req.recipient) in Known(s.bindings, host)
  {
    var c := CheckBinding(cfg.platform, s.bindings, a.req);
    var checks := AllChecks(cfg, s, a);
    var n := |checks| - 2;
    assert checks[n] == c;
    assert BINDING_ID[0] == 'i' && "behavioral-"[0] == 'b';
    assert !Behavioral(c);
    assert !HardCritical(checks);
  }

  lemma {:induction false} KnownAfterRun(cfg: GuardConfig, b: Bindings, paid: seq<Attempt>, host: string, who: string)
    ensures who in Known(BindAll(cfg.platform, b, paid), host) <==>
              who in Known(b, host) ||
              exists k :: 0 <= k < |paid| && HostOfAttempt(cfg, paid[k]) == Some(host) && Lower(paid[k].req.recipient) == who
  {
    if paid != [] {
      var front := paid[..|paid| - 1];
      KnownAfterRun(cfg, b, front, host, who);
      if k :| 0 <= k < |paid| && HostOfAttempt(cfg, paid[k]) == Some(host) && Lower(paid[k].req.recipient) == who {
        if k < |front| { assert front[k] == paid[k]; }
      }
      if k :| 0 <= k < |front| && HostOfAttempt(cfg, front[k]) == Some(host) && Lower(front[k].req.recipient) == who {
        assert paid[k] == front[k];
      }
    }
  }

  ghost predicate OnePayee(cfg: GuardConfig, paid: seq<Attempt>, host: string) {
    forall i, j :: 0 <= i < j < |paid| && HostOfAttempt(cfg, paid[i]) == Some(host) && HostOfAttempt(cfg, paid[j]) == Some(host)
      ==> Lower(paid[i].req.recipient) == Lower(paid[j].req.recipient)
  }

  /** In any run that starts with a host unbound, all settled payments for it name one recipient. */
  lemma {:induction false} OnePayeePerHost(cfg: GuardConfig, s: GuardState, attempts: seq<Attempt>, host: string)
    requires Known(s.bindings, host) == {}
    ensures OnePayee(cfg, RunAttempts(cfg, s, attempts).1, host)
  {
    if attempts != [] {
      var front, a := attempts[..|attempts| - 1], attempts[|attempts| - 1];
      var (mid, paid) := RunAttempts(cfg, s, front);
      RunLast(cfg, s, attempts);
      OnePayeePerHost(cfg, s, front, host);
      var _ := LedgerAgreement(cfg, s, front);
      if Settles(cfg, mid, a) && HostOfAttempt(cfg, a) == Some(host) {
        SettlingMatchesBinding(cfg, mid, a, host);
        EarlierPayeesAgree(cfg, s.bindings, paid, host, Lower(a.req.recipient));
      }
    }
  }

  /** If the bindings built from `paid` already know `who` for a host with one payee, all of them named it. */
  lemma EarlierPayeesAgree(cfg: GuardConfig, b: Bindings, paid: seq<Attempt>, host: string,
      who: string)
    requires Known(b, host) == {} && OnePayee(cfg, paid, host)
    requires Known(BindAll(cfg.platform, b, paid), host) == {} || who in Known(BindAll(cfg.platform, b, paid), host)
    ensures forall i :: 0 <= i < |paid| && HostOfAttempt(cfg, paid[i]) == Some(host) ==> Lower(paid[i].req.recipient) == who
  {
    forall i | 0 <= i < |paid| && HostOfAttempt(cfg, paid[i]) == Some(host)
      ensures Lower(paid[i].req.recipient) == who
    {
      KnownAfterRun(cfg, b, paid, host, Lower(paid[i].req.recipient));
      KnownAfterRun(cfg, b, paid, host, who);
      var k :| 0 <= k < |paid| && HostOfAttempt(cfg, paid[k]) == Some(host) && Lower(paid[k].req.recipient) == who;
      assert k < i || k == i || i < k;
    }
  }
}
