/** Lists of audit entries: filtering, the time order, and what an agent's recent history is. */
module EntryList {
  import opened Types
  import opened Sorting

  function Filtered(es: seq<AuditEntry>, p: AuditEntry -> bool): seq<AuditEntry> {
    if es == [] then []
    else Filtered(es[..|es| - 1], p) + if p(es[|es| - 1]) then [es[|es| - 1]] else []
  }

  function EntryTime(): AuditEntry -> int { (e: AuditEntry) => e.timestamp }

  function InScope(agentId: string, since: int): AuditEntry -> bool {
    (e: AuditEntry) => e.agentId == agentId && e.timestamp >= since
  }

  function LaterThan(cutoff: int): AuditEntry -> bool { (e: AuditEntry) => e.timestamp > cutoff }

  /** The agent's entries since a time, oldest first. */
  function Since(log: seq<AuditEntry>, agentId: string, since: int): seq<AuditEntry> {
    Sort(Filtered(log, InScope(agentId, since)), EntryTime())
  }

  lemma {:induction false} FilteredIff(es: seq<AuditEntry>, p: AuditEntry -> bool, e: AuditEntry)
    ensures e in Filtered(es, p) <==> e in es && p(e)
  {
    if es != [] {
      var front := es[..|es| - 1];
      FilteredIff(front, p, e);
      assert es == front + [es[|es| - 1]];
    }
  }

  lemma FilteredAppend(es: seq<AuditEntry>, e: AuditEntry, p: AuditEntry -> bool)
    ensures Filtered(es + [e], p) == Filtered(es, p) + if p(e) then [e] else []
  {
    assert (es + [e])[..|es|] == es;
  }

  lemma {:induction false} NoneFiltered(es: seq<AuditEntry>, p: AuditEntry -> bool)
    requires forall e :: e in es ==> !p(e)
    ensures Filtered(es, p) == []
  {
    if es != [] {
      assert es[|es| - 1] in es;
      NoneFiltered(es[..|es| - 1], p);
    }
  }

  lemma SinceIff(log: seq<AuditEntry>, agentId: string, since: int, e: AuditEntry)
    ensures e in Since(log, agentId, since) <==> e in log && e.agentId == agentId && e.timestamp >= since
  {
    var scope := Filtered(log, InScope(agentId, since));
    FilteredIff(log, InScope(agentId, since), e);
    SortSorts(scope, EntryTime());
    assert e in Since(log, agentId, since) <==> e in multiset(Since(log, agentId, since));
    assert e in scope <==> e in multiset(scope);
  }

  lemma NoneSince(log: seq<AuditEntry>, agentId: string, since: int)
    requires forall e :: e in log ==> e.agentId != agentId
    ensures Since(log, agentId, since) == []
  {
    NoneFiltered(log, InScope(agentId, since));
  }
}
