/** Which addresses a resource's host has been paid at before. */
module PayeeRegistry {
  import opened Text
  import opened Types
  import opened PolicyRules

  type Bindings = map<string, set<string>>

  function HostOf(pf: Platform, resourceUrl: Option<string>): Option<string> {
    if resourceUrl.None? || resourceUrl.value == "" then None
    else match pf.parseUrl(resourceUrl.value)
      case None => None
      case Some(url) => if url.host == "" then None else Some(Lower(url.host))
  }

  function Known(b: Bindings, host: string): set<string> {
    if host in b then b[host] else {}
  }

  function Bound(pf: Platform, b: Bindings, resourceUrl: Option<string>, recipient: string): Bindings {
    match HostOf(pf, resourceUrl)
    case None => b
    case Some(host) => b[host := Known(b, host) + {Lower(recipient)}]
  }

  function BoundAll(pf: Platform, b: Bindings, es: seq<AuditEntry>): Bindings {
    if es == [] then b
    else
      var e := es[|es| - 1];
      Bound(pf, BoundAll(pf, b, es[..|es| - 1]), e.request.resourceUrl, e.request.recipient)
  }

  const BINDING_ID := "intent-resource-binding"

  /** A known host that suddenly names another payee fails critically; anything else passes. */
  function CheckBinding(pf: Platform, b: Bindings, req: PaymentRequest): PolicyCheck {
    match HostOf(pf, req.resourceUrl)
    case None => PolicyCheck(BINDING_ID, true, Info)
    case Some(host) =>
      if Known(b, host) == {} then PolicyCheck(BINDING_ID, true, Warning)
      else if Lower(req.recipient) in Known(b, host) then PolicyCheck(BINDING_ID, true, Info)
      else PolicyCheck(BINDING_ID, false, Critical)
  }

  /** A seeded registry knows exactly the recipients its entries named for a host. */
  lemma {:induction false} BoundAllExact(pf: Platform, b: Bindings, es: seq<AuditEntry>, host: string, who: string)
    ensures who in Known(BoundAll(pf, b, es), host) <==>
              who in Known(b, host) ||
              exists k :: 0 <= k < |es| && HostOf(pf, es[k].request.resourceUrl) == Some(host)
                && Lower(es[k].request.recipient) == who
  {
    if es != [] {
      var front := es[..|es| - 1];
      BoundAllExact(pf, b, front, host, who);
      if k :| 0 <= k < |es| && HostOf(pf, es[k].request.resourceUrl) == Some(host)
              && Lower(es[k].request.recipient) == who {
        if k < |front| { assert front[k] == es[k]; }
      }
      if k :| 0 <= k < |front| && HostOf(pf, front[k].request.resourceUrl) == Some(host)
              && Lower(front[k].request.recipient) == who {
        assert es[k] == front[k];
      }
    }
  }

  class ResourceRegistry {
    const platform: Platform
    var bindings: Bindings

    constructor (platform: Platform)
      ensures this.platform == platform && bindings == map[]
    {
      this.platform, bindings := platform, map[];
    }

    method Bind(resourceUrl: Option<string>, recipient: string)
      modifies this
      ensures bindings == Bound(platform, old(bindings), resourceUrl, recipient)
    {
      var host := HostOf(platform, resourceUrl);
      if host.None? { return; }
      var addresses := if host.value in bindings then bindings[host.value] else {};
      bindings := bindings[host.value := addresses + {Lower(recipient)}];
    }

    method Hydrate(entries: seq<AuditEntry>)
      modifies this
      ensures bindings == BoundAll(platform, old(bindings), entries)
    {
      ghost var before := bindings;
      for k := 0 to |entries|
        invariant bindings == BoundAll(platform, before, entries[..k])
      {
        assert entries[..k + 1][..k] == entries[..k];
        Bind(entries[k].request.resourceUrl, entries[k].request.recipient);
      }
      assert entries[..|entries|] == entries;
    }

    /** Fails, critically, exactly when the host is known and the recipient is not among its payees. */
    method Check(req: PaymentRequest) returns (check: PolicyCheck)
      ensures check == CheckBinding(platform, bindings, req)
      ensures var host := HostOf(platform, req.resourceUrl);
              !check.passed <==> host.Some? && Known(bindings, host.value) != {}
                                 && Lower(req.recipient) !in Known(bindings, host.value)
      ensures !check.passed ==> check.severity == Critical
    {
      var host := HostOf(platform, req.resourceUrl);
      if host.None? { return PolicyCheck(BINDING_ID, true, Info); }
      var seen := if host.value in bindings then bindings[host.value] else {};
      if seen == {} { return PolicyCheck(BINDING_ID, true, Warning); }
      check := if Lower(req.recipient) in seen then PolicyCheck(BINDING_ID, true, Info)
               else PolicyCheck(BINDING_ID, false, Critical);
    }
  }
}
