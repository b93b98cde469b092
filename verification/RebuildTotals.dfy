/** What a rebuilt spending memory adds up to, straight from the log it was rebuilt from. */
module RebuildTotals {
  import opened Text
  import opened Types
  import opened Sorting
  import opened EntryList
  import opened PolicyRules
  import opened PolicyState
  import opened GuardLogic

  function EntryWeight(m: Measure, e: AuditEntry): int {
    Weigh(m, e.request.amount, Lower(e.request.token))
  }

  /** The total over the chosen log entries strictly after a cutoff. */
  function LogTotal(m: Measure, es: seq<AuditEntry>, cutoff: int, p: AuditEntry -> bool): int {
    if es == [] then 0
    else
      var e := es[|es| - 1];
      LogTotal(m, es[..|es| - 1], cutoff, p) + if p(e) && e.timestamp > cutoff then EntryWeight(m, e) else 0
  }

  function All(): AuditEntry -> bool { (e: AuditEntry) => true }

  /** Counted by a rebuild: intact rows that settled, and every tampered row. */
  function Counted(agentId: string): AuditEntry -> bool {
    (e: AuditEntry) => e.agentId == agentId && (Intact(e) ==> SettledOk(e))
  }

  lemma {:induction false} LogTotalConcat(m: Measure, a: seq<AuditEntry>, b: seq<AuditEntry>, cutoff: int,
      p: AuditEntry -> bool)
    ensures LogTotal(m, a + b, cutoff, p) == LogTotal(m, a, cutoff, p) + LogTotal(m, b, cutoff, p)
  {
    if b == [] {
      assert a + b == a;
    } else {
      assert (a + b)[..|a + b| - 1] == a + b[..|b| - 1];
      LogTotalConcat(m, a, b[..|b| - 1], cutoff, p);
    }
  }

  lemma {:induction false} LogTotalFiltered(m: Measure, es: seq<AuditEntry>, cutoff: int,
                                            p: AuditEntry -> bool, q: AuditEntry -> bool, both: AuditEntry -> bool)
    requires forall e :: e in es && e.timestamp > cutoff ==> (both(e) <==> p(e) && q(e))
    ensures LogTotal(m, Filtered(es, p), cutoff, q) == LogTotal(m, es, cutoff, both)
  {
    if es != [] {
      var front, last := es[..|es| - 1], es[|es| - 1];
      assert forall e :: e in front ==> e in es;
      LogTotalFiltered(m, front, cutoff, p, q, both);
      assert last in es;
      if p(last) {
        LogTotalConcat(m, Filtered(front, p), [last], cutoff, q);
      } else {
        assert Filtered(es, p) == Filtered(front, p);
      }
    }
  }

  lemma {:induction false} LogTotalInsert(m: Measure, es: seq<AuditEntry>, e: AuditEntry, cutoff: int,
      p: AuditEntry -> bool)
    ensures LogTotal(m, Insert(es, e, EntryTime()), cutoff, p) ==
            LogTotal(m, es, cutoff, p) + LogTotal(m, [e], cutoff, p)
  {
    if es == [] || EntryTime()(es[|es| - 1]) <= EntryTime()(e) {
      LogTotalConcat(m, es, [e], cutoff, p);
    } else {
      var front, last := es[..|es| - 1], [es[|es| - 1]];
      LogTotalInsert(m, front, e, cutoff, p);
      LogTotalConcat(m, Insert(front, e, EntryTime()), last, cutoff, p);
      LogTotalConcat(m, front, last, cutoff, p);
      assert es == front + last;
    }
  }

  lemma {:induction false} LogTotalSort(m: Measure, es: seq<AuditEntry>, cutoff: int, p: AuditEntry -> bool)
    ensures LogTotal(m, Sort(es, EntryTime()), cutoff, p) == LogTotal(m, es, cutoff, p)
  {
    if es != [] {
      var front, last := es[..|es| - 1], es[|es| - 1];
      LogTotalSort(m, front, cutoff, p);
      LogTotalInsert(m, Sort(front, EntryTime()), last, cutoff, p);
      LogTotalConcat(m, front, [last], cutoff, p);
      assert es == front + [last];
    }
  }

  /** Dropping entries older than the replay cutoff is invisible to any later window. */
  lemma {:induction false} ReplayedTotal(m: Measure, es: seq<AuditEntry>, replayCutoff: int, cutoff: int)
    requires replayCutoff <= cutoff
    ensures Above(m, Replayed(es, replayCutoff), cutoff, false) == LogTotal(m, es, cutoff, All())
  {
    if es != [] {
      var front, last := es[..|es| - 1], es[|es| - 1];
      ReplayedTotal(m, front, replayCutoff, cutoff);
      if last.timestamp > replayCutoff {
        AboveConcat(m, Replayed(front, replayCutoff), [ReplayOf(last)], cutoff, false);
        assert [ReplayOf(last)][..0] == [];
      } else {
        assert Replayed(es, replayCutoff) == Replayed(front, replayCutoff);
      }
    }
  }

  lemma {:induction false} LogTotalSplit(m: Measure, es: seq<AuditEntry>, cutoff: int,
                                         p: AuditEntry -> bool, q: AuditEntry -> bool, either: AuditEntry -> bool)
    requires forall e :: e in es ==> !(p(e) && q(e)) && (either(e) <==> p(e) || q(e))
    ensures LogTotal(m, es, cutoff, either) == LogTotal(m, es, cutoff, p) + LogTotal(m, es, cutoff, q)
  {
    if es != [] {
      var front, last := es[..|es| - 1], es[|es| - 1];
      assert forall e :: e in front ==> e in es;
      LogTotalSplit(m, front, cutoff, p, q, either);
      assert last in es;
    }
  }

  /** The rows one part of a rebuild contributes, after listing, sorting and sifting. */
  lemma SiftedTotal(m: Measure, log: seq<AuditEntry>, agentId: string, since: int, cutoff: int,
                    p: AuditEntry -> bool, inLog: AuditEntry -> bool)
    requires since <= cutoff + 1
    requires forall e :: e in log ==> (inLog(e) <==> e.agentId == agentId && p(e))
    ensures LogTotal(m, Filtered(Since(log, agentId, since), p), cutoff, All()) == LogTotal(m, log, cutoff, inLog)
  {
    var scope := InScope(agentId, since);
    var listed := Since(log, agentId, since);
    LogTotalFiltered(m, listed, cutoff, p, All(), p);
    LogTotalSort(m, Filtered(log, scope), cutoff, p);
    LogTotalFiltered(m, log, cutoff, scope, p, inLog);
  }

  function SettledRows(log: seq<AuditEntry>, agentId: string, since: int): seq<AuditEntry> {
    Filtered(Since(log, agentId, since), IsSettled())
  }

  function TamperedRows(log: seq<AuditEntry>, agentId: string, since: int): seq<AuditEntry> {
    Filtered(Since(log, agentId, since), IsTampered())
  }

  lemma MemoryOf(cfg: GuardConfig, log: seq<AuditEntry>, r: Rebuild)
    ensures Hydrate(cfg, log, r).mem ==
            Hydrated(EMPTY_MEMORY, SettledRows(log, cfg.policy.agentId, r.Start())
                                 + TamperedRows(log, cfg.policy.agentId, r.Start()), r.hydratedAt)
  {
  }

  /**
   The rebuild, in one line: with at least a day of lookback, every hour or day window at or
   after the rebuild totals exactly the agent's settled or tampered log rows in that window.
   */
  lemma HydrateTotal(cfg: GuardConfig, log: seq<AuditEntry>, r: Rebuild, m: Measure, cutoff: int)
    requires r.FullDay() && cutoff >= r.hydratedAt - DAY_MS
    ensures Above(m, Hydrate(cfg, log, r).mem.payments, cutoff, false) ==
            LogTotal(m, log, cutoff, Counted(cfg.policy.agentId))
  {
    var agentId, since := cfg.policy.agentId, r.Start();
    MemoryOf(cfg, log, r);
    CountedTotal(m, log, agentId, since, cutoff);
    HydratedTotal(m, SettledRows(log, agentId, since), TamperedRows(log, agentId, since), r.hydratedAt, cutoff);
  }

  /** Joining, sorting and marking the replayed rows changes no total. */
  lemma HydratedTotal(m: Measure, settled: seq<AuditEntry>, tampered: seq<AuditEntry>,
      hydratedAt: int, cutoff: int)
    requires cutoff >= hydratedAt - DAY_MS
    ensures Above(m, Hydrated(EMPTY_MEMORY, settled + tampered, hydratedAt).payments, cutoff, false) ==
            LogTotal(m, settled, cutoff, All()) + LogTotal(m, tampered, cutoff, All())
  {
    var es := settled + tampered;
    LogTotalConcat(m, settled, tampered, cutoff, All());
    HydratedFromEmpty(es, hydratedAt);
    AboveSort(m, Replayed(es, hydratedAt - DAY_MS), cutoff, false);
    ReplayedTotal(m, es, hydratedAt - DAY_MS, cutoff);
  }

  /** Settled and tampered rows, sifted apart, total what the counted rows of the log total. */
  lemma CountedTotal(m: Measure, log: seq<AuditEntry>, agentId: string, since: int, cutoff: int)
    requires since <= cutoff + 1
    ensures LogTotal(m, SettledRows(log, agentId, since), cutoff, All())
          + LogTotal(m, TamperedRows(log, agentId, since), cutoff, All())
         == LogTotal(m, log, cutoff, Counted(agentId))
  {
    var s := (e: AuditEntry) => e.agentId == agentId && Intact(e) && SettledOk(e);
    var t := (e: AuditEntry) => e.agentId == agentId && !Intact(e);
    SiftedTotal(m, log, agentId, since, cutoff, IsSettled(), s);
    SiftedTotal(m, log, agentId, since, cutoff, IsTampered(), t);
    LogTotalSplit(m, log, cutoff, s, t, Counted(agentId));
  }

  /** No rebuilt record counts towards the session window. */
  lemma {:induction false} NothingLive(m: Measure, ps: seq<SpendRecord>, cutoff: int)
    requires forall k :: 0 <= k < |ps| ==> ps[k].hydrated
    ensures Above(m, ps, cutoff, true) == 0
  {
    if ps != [] { NothingLive(m, ps[..|ps| - 1], cutoff); }
  }

  lemma {:induction false} ReplayedAreHydrated(es: seq<AuditEntry>, cutoff: int)
    ensures forall k :: 0 <= k < |Replayed(es, cutoff)| ==> Replayed(es, cutoff)[k].hydrated
  {
    if es != [] { ReplayedAreHydrated(es[..|es| - 1], cutoff); }
  }

  lemma {:induction false} HydrateSession(cfg: GuardConfig, log: seq<AuditEntry>, r: Rebuild, m: Measure, cutoff: int)
    ensures Above(m, Hydrate(cfg, log, r).mem.payments, cutoff, true) == 0
  {
    var entries := Since(log, cfg.policy.agentId, r.Start());
    var es := Filtered(entries, IsSettled()) + Filtered(entries, IsTampered());
    var replayed := Replayed(es, r.hydratedAt - DAY_MS);
    HydratedFromEmpty(es, r.hydratedAt);
    AboveSort(m, replayed, cutoff, true);
    ReplayedAreHydrated(es, r.hydratedAt - DAY_MS);
    NothingLive(m, replayed, cutoff);
  }

  /** A rebuilt guard knows exactly the recipients of the agent's settled or tampered rows in the lookback. */
  lemma HydrateSeen(cfg: GuardConfig, log: seq<AuditEntry>, r: Rebuild, who: string)
    ensures who in Hydrate(cfg, log, r).mem.seen <==>
              exists e :: e in log && Counted(cfg.policy.agentId)(e) && e.timestamp >= r.Start()
                && Lower(e.request.recipient) == who
  {
    var agentId, since := cfg.policy.agentId, r.Start();
    var entries := Since(log, agentId, since);
    var es := Filtered(entries, IsSettled()) + Filtered(entries, IsTampered());
    forall e ensures e in es <==> e in log && Counted(agentId)(e) && e.timestamp >= since {
      SinceIff(log, agentId, since, e);
      FilteredIff(entries, IsSettled(), e);
      FilteredIff(entries, IsTampered(), e);
    }
  }
}
