/** Payee bindings across restarts: what a rebuild knows, and one payee per host over whole lives. */
module GuardPayees {
  import opened Text
  import opened Types
  import opened EntryList
  import opened PayeeRegistry
  import opened GuardLogic
  import opened RebuildTotals
  import opened GuardRuns
  import opened GuardLedger

  // ─── What a rebuild knows ─────────────────────────────────────────────────

  /** A rebuilt registry knows exactly the payees of the agent's settled rows within the lookback. */
  lemma RebuiltBindings(cfg: GuardConfig, log: seq<AuditEntry>, r: Rebuild, host: string, who: string)
    ensures who in Known(Hydrate(cfg, log, r).bindings, host) <==>
              exists e :: e in log && IsSettled()(e) && e.agentId == cfg.policy.agentId && e.timestamp >= r.Start()
                && HostOf(cfg.platform, e.request.resourceUrl) == Some(host) && Lower(e.request.recipient) == who
  {
    var settled := SettledRows(log, cfg.policy.agentId, r.Start());
    BoundAllExact(cfg.platform, map[], settled, host, who);
    forall e ensures e in settled <==>
      e in log && IsSettled()(e) && e.agentId == cfg.policy.agentId && e.timestamp >= r.Start()
    {
      SettledRowsIff(log, cfg.policy.agentId, r.Start(), e);
    }
  }

  lemma SettledRowsIff(log: seq<AuditEntry>, agentId: string, since: int, e: AuditEntry)
    ensures e in SettledRows(log, agentId, since) <==>
              e in log && IsSettled()(e) && e.agentId == agentId && e.timestamp >= since
  {
    FilteredIff(Since(log, agentId, since), IsSettled(), e);
    SinceIff(log, agentId, since, e);
  }

  /** The settled rows of a ledger that agrees are its payments, one for one. */
  lemma SettledRowsArePaid(settled: seq<AuditEntry>, paid: seq<Attempt>, k: nat)
    requires Stamps(settled) == StampsOf(paid) && k < |paid|
    ensures |settled| == |paid| && settled[k].request == paid[k].req && settled[k].timestamp == paid[k].loggedAt
  {
    assert |Stamps(settled)| == |StampsOf(paid)|;
    assert Stamps(settled)[k] == StampsOf(paid)[k];
  }

  /**
   For one process started cold whose settled payments were made under its own agent id and
   recorded within the lookback, a rebuild gives every host exactly the payees the running
   guard had bound.
   */
  lemma RebuildKeepsBindings(cfg: GuardConfig, start: int, attempts: seq<Attempt>, r: Rebuild, host: string,
      who: string)
    requires var paid := RunAttempts(cfg, Birth(start).state, attempts).1;
             forall a :: a in paid ==> a.req.agentId == cfg.policy.agentId && a.loggedAt >= r.Start()
    ensures var s := RunAttempts(cfg, Birth(start).state, attempts).0;
            who in Known(Hydrate(cfg, s.log, r).bindings, host) <==> who in Known(s.bindings, host)
  {
    var (s, paid) := RunAttempts(cfg, Birth(start).state, attempts);
    var added := LedgerAgreement(cfg, Birth(start).state, attempts);
    assert s.log == added;
    KnownAfterRun(cfg, map[], paid, host, who);
    RebuiltBindings(cfg, added, r, host, who);
    SameBindings(cfg, added, paid, r.Start(), host, who);
  }

  lemma SameBindings(cfg: GuardConfig, added: seq<AuditEntry>, paid: seq<Attempt>, since: int, host: string,
      who: string)
    requires (forall e :: e in added ==> TrueRecord(e)) && Stamps(Filtered(added, IsSettled())) == StampsOf(paid)
    requires forall a :: a in paid ==> a.req.agentId == cfg.policy.agentId && a.loggedAt >= since
    ensures (exists e :: e in added && IsSettled()(e) && e.agentId == cfg.policy.agentId && e.timestamp >= since
               && HostOf(cfg.platform, e.request.resourceUrl) == Some(host) && Lower(e.request.recipient) == who) <==>
            (exists k :: 0 <= k < |paid| && HostOfAttempt(cfg, paid[k]) == Some(host)
               && Lower(paid[k].req.recipient) == who)
  {
    var settled := Filtered(added, IsSettled());
    if k :| 0 <= k < |paid| && HostOfAttempt(cfg, paid[k]) == Some(host) && Lower(paid[k].req.recipient) == who {
      SettledRowsArePaid(settled, paid, k);
      assert settled[k] in settled;
      FilteredIff(added, IsSettled(), settled[k]);
      assert paid[k] in paid;
    }
    if e :| e in added && IsSettled()(e) && e.agentId == cfg.policy.agentId && e.timestamp >= since
            && HostOf(cfg.platform, e.request.resourceUrl) == Some(host) && Lower(e.request.recipient) == who {
      FilteredIff(added, IsSettled(), e);
      var k :| 0 <= k < |settled| && settled[k] == e;
      assert |Stamps(settled)| == |StampsOf(paid)|;
      SettledRowsArePaid(settled, paid, k);
      assert HostOfAttempt(cfg, paid[k]) == Some(host);
    }
  }

  // ─── One payee per host, restarts included ────────────────────────────────

  predicate ForHost(cfg: GuardConfig, p: Payment, host: string) {
    HostOf(cfg.platform, p.req.resourceUrl) == Some(host)
  }

  function PayeeOf(p: Payment): string { Lower(p.req.recipient) }

  ghost predicate SinglePayee(cfg: GuardConfig, h: seq<Payment>, host: string) {
    forall i, j :: 0 <= i < |h| && 0 <= j < |h| && ForHost(cfg, h[i], host) && ForHost(cfg, h[j], host) ==>
      PayeeOf(h[i]) == PayeeOf(h[j])
  }

  /** Some payment of the history is the one the row records. */
  ghost predicate NamedIn(h: seq<Payment>, e: AuditEntry) {
    exists k :: 0 <= k < |h| && Records(h[k], e)
  }

  predicate TrueSettled(e: AuditEntry) { IsSettled()(e) && e.agentId == e.request.agentId }

  /** Some settled row records the payment, under the request's agent id. */
  ghost predicate RowOf(log: seq<AuditEntry>, p: Payment) {
    exists e :: e in log && TrueSettled(e) && Records(p, e)
  }

  /** The settled rows of the log are the recorded payments of the history. */
  ghost predicate LogNames(log: seq<AuditEntry>, h: seq<Payment>) {
    && (forall e :: e in log && IsSettled()(e) ==> TrueSettled(e) && NamedIn(h, e))
    && (forall k :: 0 <= k < |h| && h[k].loggedAt.Some? ==> RowOf(log, h[k]))
  }

  predicate Records(p: Payment, e: AuditEntry) {
    p.req == e.request && p.loggedAt == Some(e.timestamp)
  }

  /** The host's bindings are exactly the payees of its payments. */
  ghost predicate BoundToHistory(cfg: GuardConfig, bindings: Bindings, h: seq<Payment>, host: string) {
    && (forall k :: 0 <= k < |h| && ForHost(cfg, h[k], host) ==> PayeeOf(h[k]) in Known(bindings, host))
    && (forall who :: who in Known(bindings, host) ==>
          exists k :: 0 <= k < |h| && ForHost(cfg, h[k], host) && PayeeOf(h[k]) == who)
  }

  /** A restart reads back some payment of the host, if there was any. */
  ghost predicate Recalls(cfg: GuardConfig, h: seq<Payment>, r: Rebuild, host: string) {
    (exists k :: 0 <= k < |h| && ForHost(cfg, h[k], host)) ==>
      exists k :: 0 <= k < |h| && ForHost(cfg, h[k], host) && InLog(cfg, h[k]) && h[k].loggedAt.value >= r.Start()
  }

  ghost predicate AlwaysRecalls(cfg: GuardConfig, l: Life, evs: seq<LifeEvent>, host: string) {
    evs != [] ==>
      var front, ev := evs[..|evs| - 1], evs[|evs| - 1];
      AlwaysRecalls(cfg, l, front, host)
      && (Restarts(ev) ==> Recalls(cfg, RunLife(cfg, l, evs).earlier, ev.rebuild, host))
  }

  ghost predicate PayeesOk(cfg: GuardConfig, l: Life, host: string) {
    && LogNames(l.state.log, l.History()) && BoundToHistory(cfg, l.state.bindings, l.History(), host)
    && SinglePayee(cfg, l.History(), host)
  }

  /** A payment that settles names the host's payee, if it has one. */
  lemma SettlingKeepsPayee(cfg: GuardConfig, l: Life, a: Attempt, p: Payment, host: string)
    requires PayeesOk(cfg, l, host) && Settles(cfg, l.state, a) && p.req == a.req
    ensures SinglePayee(cfg, l.History() + [p], host)
  {
    var h := l.History();
    if ForHost(cfg, p, host) {
      SettlingMatchesBinding(cfg, l.state, a, host);
      forall i | 0 <= i < |h| && ForHost(cfg, h[i], host) ensures PayeeOf(h[i]) == PayeeOf(p) {
        assert PayeeOf(h[i]) in Known(l.state.bindings, host);
      }
    }
  }

  lemma SettlingKeepsBound(cfg: GuardConfig, l: Life, a: Attempt, p: Payment, host: string)
    requires BoundToHistory(cfg, l.state.bindings, l.History(), host) && p.req == a.req
    ensures BoundToHistory(cfg, Bound(cfg.platform, l.state.bindings, a.req.resourceUrl, a.req.recipient),
                           l.History() + [p], host)
  {
    var h, after := l.History(), Bound(cfg.platform, l.state.bindings, a.req.resourceUrl, a.req.recipient);
    forall who | who in Known(after, host)
      ensures exists k :: 0 <= k < |h + [p]| && ForHost(cfg, (h + [p])[k], host) && PayeeOf((h + [p])[k]) == who
    {
      if who in Known(l.state.bindings, host) {
        var k :| 0 <= k < |h| && ForHost(cfg, h[k], host) && PayeeOf(h[k]) == who;
        assert (h + [p])[k] == h[k];
      } else {
        assert (h + [p])[|h|] == p;
      }
    }
  }

  lemma NamedInLonger(h: seq<Payment>, p: Payment, e: AuditEntry)
    ensures NamedIn(h, e) || Records(p, e) ==> NamedIn(h + [p], e)
  {
    if NamedIn(h, e) {
      var k :| 0 <= k < |h| && Records(h[k], e);
      assert (h + [p])[k] == h[k];
    } else {
      assert (h + [p])[|h|] == p;
    }
  }

  /** A payment and its row, or a payment whose record was lost, keep log and history in step. */
  lemma NamesWithPayment(log: seq<AuditEntry>, h: seq<Payment>, p: Payment, added: seq<AuditEntry>)
    requires LogNames(log, h) && |added| <= 1
    requires added == [] ==> p.loggedAt.None?
    requires added != [] ==> TrueSettled(added[0]) && Records(p, added[0])
    ensures LogNames(log + added, h + [p])
  {
    forall e | e in log + added && IsSettled()(e) ensures TrueSettled(e) && NamedIn(h + [p], e) {
      NamedInLonger(h, p, e);
    }
    forall k | 0 <= k < |h + [p]| && (h + [p])[k].loggedAt.Some? ensures RowOf(log + added, (h + [p])[k]) {
      RowStays(log, added, (h + [p])[k]);
      if k == |h| { assert added[0] in log + added; }
    }
  }

  lemma RowStays(log: seq<AuditEntry>, added: seq<AuditEntry>, p: Payment)
    ensures RowOf(log, p) ==> RowOf(log + added, p)
  {
    if e :| e in log && TrueSettled(e) && Records(p, e) { assert e in log + added; }
  }

  /** A row that does not record a settlement changes nothing. */
  lemma NamesWithIdleRow(log: seq<AuditEntry>, h: seq<Payment>, e: AuditEntry)
    requires LogNames(log, h) && !IsSettled()(e)
    ensures LogNames(log + [e], h)
  {
    forall k | 0 <= k < |h| && h[k].loggedAt.Some? ensures RowOf(log + [e], h[k]) { RowStays(log, [e], h[k]); }
  }

  lemma PayKeepsNames(cfg: GuardConfig, l: Life, a: Attempt)
    requires LogNames(l.state.log, l.History())
    ensures LogNames(Live(cfg, l, Pay(a)).state.log, Live(cfg, l, Pay(a)).History())
  {
    var e := EntryOf(cfg, l.state, a);
    PayEffect(cfg, l, a);
    HistoryGrows(cfg, l, Pay(a));
    if Settles(cfg, l.state, a) {
      NamesWithPayment(l.state.log, l.History(), PaymentsOf(cfg, l, a)[0], [e]);
    } else {
      NamesWithIdleRow(l.state.log, l.History(), e);
      assert l.History() + [] == l.History();
    }
  }

  lemma PayKeepsPayees(cfg: GuardConfig, l: Life, a: Attempt, host: string)
    requires PayeesOk(cfg, l, host)
    ensures PayeesOk(cfg, Live(cfg, l, Pay(a)), host)
  {
    PayKeepsNames(cfg, l, a);
    HistoryGrows(cfg, l, Pay(a));
    if Settles(cfg, l.state, a) {
      SettlingKeepsPayee(cfg, l, a, PaymentsOf(cfg, l, a)[0], host);
      SettlingKeepsBound(cfg, l, a, PaymentsOf(cfg, l, a)[0], host);
      SettledStep(cfg, l.state, a);
    } else {
      UnsettledStep(cfg, l.state, a);
      assert l.History() + [] == l.History();
    }
  }

  /** A host known to a rebuild was paid, to that payee, in a payment the rebuild read back. */
  lemma RebuiltFrom(cfg: GuardConfig, l: Life, r: Rebuild, host: string, who: string) returns (k: nat)
    requires LogNames(l.state.log, l.History()) && who in Known(Hydrate(cfg, l.state.log, r).bindings, host)
    ensures k < |l.History()| && ForHost(cfg, l.History()[k], host) && PayeeOf(l.History()[k]) == who
    ensures InLog(cfg, l.History()[k]) && l.History()[k].loggedAt.value >= r.Start()
  {
    RebuiltBindings(cfg, l.state.log, r, host, who);
    var e :| e in l.state.log && IsSettled()(e) && e.agentId == cfg.policy.agentId && e.timestamp >= r.Start()
             && HostOf(cfg.platform, e.request.resourceUrl) == Some(host) && Lower(e.request.recipient) == who;
    assert NamedIn(l.History(), e);
    k :| 0 <= k < |l.History()| && Records(l.History()[k], e);
  }

  /** And the payee of any payment it read back is known to it. */
  lemma ReadBack(cfg: GuardConfig, l: Life, r: Rebuild, host: string, k: nat)
    requires LogNames(l.state.log, l.History()) && k < |l.History()| && ForHost(cfg, l.History()[k], host)
    requires InLog(cfg, l.History()[k]) && l.History()[k].loggedAt.value >= r.Start()
    ensures PayeeOf(l.History()[k]) in Known(Hydrate(cfg, l.state.log, r).bindings, host)
  {
    assert RowOf(l.state.log, l.History()[k]);
    var e :| e in l.state.log && TrueSettled(e) && Records(l.History()[k], e);
    RebuiltBindings(cfg, l.state.log, r, host, PayeeOf(l.History()[k]));
  }

  /** A restart that recalls a payment of a single-payee host binds the host to that payee again. */
  lemma RebornBinds(cfg: GuardConfig, l: Life, r: Rebuild, host: string)
    requires LogNames(l.state.log, l.History()) && SinglePayee(cfg, l.History(), host)
    requires Recalls(cfg, l.History(), r, host)
    ensures BoundToHistory(cfg, Hydrate(cfg, l.state.log, r).bindings, l.History(), host)
  {
    var h, bindings := l.History(), Hydrate(cfg, l.state.log, r).bindings;
    forall who | who in Known(bindings, host)
      ensures exists k :: 0 <= k < |h| && ForHost(cfg, h[k], host) && PayeeOf(h[k]) == who
    {
      var k := RebuiltFrom(cfg, l, r, host, who);
    }
    forall k | 0 <= k < |h| && ForHost(cfg, h[k], host) ensures PayeeOf(h[k]) in Known(bindings, host) {
      var j :| 0 <= j < |h| && ForHost(cfg, h[j], host) && InLog(cfg, h[j]) && h[j].loggedAt.value >= r.Start();
      ReadBack(cfg, l, r, host, j);
    }
  }

  lemma RebornKeepsPayees(cfg: GuardConfig, l: Life, r: Rebuild, host: string)
    requires LogNames(l.state.log, l.History()) && SinglePayee(cfg, l.History(), host) && Recalls(cfg, l.History(), r, host)
    ensures PayeesOk(cfg, Reborn(cfg, l.state.log, l.History(), r), host)
  {
    RebornBinds(cfg, l, r, host);
    assert Reborn(cfg, l.state.log, l.History(), r).History() == l.History();
  }

  lemma DeathKeepsPayees(cfg: GuardConfig, l: Life, a: Attempt, r: Rebuild, host: string)
    requires PayeesOk(cfg, l, host) && Settles(cfg, l.state, a)
    requires Recalls(cfg, Live(cfg, l, DieUnlogged(a, r)).earlier, r, host)
    ensures PayeesOk(cfg, Live(cfg, l, DieUnlogged(a, r)), host)
  {
    var p := Payment(a.req, a.observedAt, None);
    var noticed := l.(current := l.current + [p]);
    assert noticed.History() == l.History() + [p];
    SettlingKeepsPayee(cfg, l, a, p, host);
    UnloggedKeepsNames(l.state.log, l.History(), p);
    assert Live(cfg, l, DieUnlogged(a, r)) == Reborn(cfg, l.state.log, noticed.History(), r);
    RebornKeepsPayees(cfg, noticed, r, host);
  }

  lemma UnloggedKeepsNames(log: seq<AuditEntry>, h: seq<Payment>, p: Payment)
    requires LogNames(log, h) && p.loggedAt.None?
    ensures LogNames(log, h + [p])
  {
    NamesWithPayment(log, h, p, []);
    assert log + [] == log;
  }

  lemma LiveKeepsPayees(cfg: GuardConfig, l: Life, ev: LifeEvent, host: string)
    requires PayeesOk(cfg, l, host) && Timely(cfg, l, ev)
    requires Restarts(ev) ==> Recalls(cfg, Live(cfg, l, ev).earlier, ev.rebuild, host)
    ensures PayeesOk(cfg, Live(cfg, l, ev), host)
  {
    match ev
    case Pay(a) => PayKeepsPayees(cfg, l, a, host);
    case Restart(r) => RebornKeepsPayees(cfg, l, r, host);
    case DieUnlogged(a, r) => DeathKeepsPayees(cfg, l, a, r, host);
    case _ =>
  }

  /**
   One payee per host over whole lives. From a first start, whatever restarts and deaths
   come between, all settled payments for a host name one recipient, as long as each restart
   reads back at least one of the host's payments.
   */
  lemma {:induction false} OnePayeeOverLives(cfg: GuardConfig, start: int, evs: seq<LifeEvent>, host: string)
    requires AllTimely(cfg, Birth(start), evs) && AlwaysRecalls(cfg, Birth(start), evs, host)
    ensures PayeesOk(cfg, RunLife(cfg, Birth(start), evs), host)
  {
    if evs != [] {
      var front, ev := evs[..|evs| - 1], evs[|evs| - 1];
      OnePayeeOverLives(cfg, start, front, host);
      LiveKeepsPayees(cfg, RunLife(cfg, Birth(start), front), ev, host);
    }
  }

  /**
   Otherwise a restart leaves the host unbound, open to any payee: for any life whose log and
   history are in step, single-payee or not, exactly when it reads back none of the host's
   payments.
   */
  lemma RestartUnbindsIff(cfg: GuardConfig, l: Life, r: Rebuild, host: string)
    requires LogNames(l.state.log, l.History())
    requires exists k :: 0 <= k < |l.History()| && ForHost(cfg, l.History()[k], host)
    ensures Known(Hydrate(cfg, l.state.log, r).bindings, host) == {} <==> !Recalls(cfg, l.History(), r, host)
  {
    var h, known := l.History(), Known(Hydrate(cfg, l.state.log, r).bindings, host);
    if Recalls(cfg, h, r, host) {
      var j :| 0 <= j < |h| && ForHost(cfg, h[j], host) && InLog(cfg, h[j]) && h[j].loggedAt.value >= r.Start();
      ReadBack(cfg, l, r, host, j);
    }
    if who :| who in known { var k := RebuiltFrom(cfg, l, r, host, who); }
  }

  /** Log and history are in step over any life from a first start. */
  lemma {:induction false} LivesKeepNames(cfg: GuardConfig, start: int, evs: seq<LifeEvent>)
    ensures LogNames(RunLife(cfg, Birth(start), evs).state.log, RunLife(cfg, Birth(start), evs).History())
  {
    if evs != [] {
      var front, ev := evs[..|evs| - 1], evs[|evs| - 1];
      LivesKeepNames(cfg, start, front);
      LiveKeepsNames(cfg, RunLife(cfg, Birth(start), front), ev);
    }
  }

  lemma LiveKeepsNames(cfg: GuardConfig, l: Life, ev: LifeEvent)
    requires LogNames(l.state.log, l.History())
    ensures LogNames(Live(cfg, l, ev).state.log, Live(cfg, l, ev).History())
  {
    HistoryGrows(cfg, l, ev);
    match ev
    case Pay(a) => PayKeepsNames(cfg, l, a);
    case DieUnlogged(a, r) =>
      UnloggedKeepsNames(l.state.log, l.History(), Payment(a.req, a.observedAt, None));
    case _ => assert l.History() + [] == l.History();
  }

  // ─── How a host gets a second payee ───────────────────────────────────────

  /** No rules, no breaker. */
  predicate Unguarded(cfg: GuardConfig) { cfg.breaker.None? && cfg.policy.rules == [] }

  /** A valid, unremarkable payment that the facilitator settles. */
  predicate Unremarkable(cfg: GuardConfig, a: Attempt) {
    && Validate(cfg.platform, a.req).None? && a.anomalies == [] && a.intent.passed
    && a.score < cfg.policy.anomalyThreshold && a.settling.Answers? && a.settling.success
  }

  lemma UnremarkableSettles(cfg: GuardConfig, s: GuardState, a: Attempt)
    requires Unguarded(cfg) && Unremarkable(cfg, a) && CheckBinding(cfg.platform, s.bindings, a.req).passed
    ensures Settles(cfg, s, a)
  {
    assert AllChecks(cfg, s, a) == [CheckBinding(cfg.platform, s.bindings, a.req), a.intent];
  }

  /**
   The break: a host is paid under another agent id, the guard restarts and reads nothing
   back, and the next payment for the host, to somebody else, settles.
   */
  lemma RestartAdmitsSecondPayee(cfg: GuardConfig, a: Attempt, b: Attempt, r: Rebuild, host: string)
    requires Unguarded(cfg) && Unremarkable(cfg, a) && Unremarkable(cfg, b) && a.req.agentId != cfg.policy.agentId
    requires HostOfAttempt(cfg, a) == Some(host) == HostOfAttempt(cfg, b)
    requires Lower(a.req.recipient) != Lower(b.req.recipient)
    requires OnTime(a, 0) && a.loggedAt <= r.listedAt && r.FullDay() && OnTime(b, r.breakerAt)
    ensures var paid := Live(cfg, Birth(0), Pay(a));
            var restarted := Live(cfg, paid, Restart(r));
            && Timely(cfg, Birth(0), Pay(a)) && Timely(cfg, paid, Restart(r)) && Timely(cfg, restarted, Pay(b))
            && SinglePayee(cfg, restarted.History(), host)
            && !SinglePayee(cfg, Live(cfg, restarted, Pay(b)).History(), host)
  {
    var paid := Live(cfg, Birth(0), Pay(a));
    var restarted := Live(cfg, paid, Restart(r));
    UnremarkableSettles(cfg, Birth(0).state, a);
    PayEffect(cfg, Birth(0), a);
    assert paid.History() == [Payment(a.req, a.observedAt, Some(a.loggedAt))] == restarted.History();
    OnlyForeignUnbinds(cfg, paid.state.log, r, host);
    UnremarkableSettles(cfg, restarted.state, b);
    HistoryGrows(cfg, restarted, Pay(b));
    var h := Live(cfg, restarted, Pay(b)).History();
    assert ForHost(cfg, h[0], host) && ForHost(cfg, h[1], host) && PayeeOf(h[0]) != PayeeOf(h[1]);
  }

  lemma OnlyForeignUnbinds(cfg: GuardConfig, log: seq<AuditEntry>, r: Rebuild, host: string)
    requires forall e :: e in log ==> e.agentId != cfg.policy.agentId
    ensures Known(Hydrate(cfg, log, r).bindings, host) == {}
  {
    if who :| who in Known(Hydrate(cfg, log, r).bindings, host) { RebuiltBindings(cfg, log, r, host, who); }
  }
}
