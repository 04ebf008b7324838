/** The store: one object over the database connection, whose methods read and write its tables
    statement by statement. Run without interference, each method leaves the tables and returns the
    result that Machine's handler for the same request does; the conditions it promises are then the
    lemmas of Sequential and Ports. */
module Stores {
  import opened Text
  import opened Model
  import opened Tables
  import opened Plugin
  import opened Join
  import opened Machine
  import opened Sequential

  function TenantOutcome(r: Result<Tenant, Error>): Outcome {
    match r case Ok(row) => TenantRow(row) case Err(e) => Failed(e)
  }

  function ZoneOutcome(r: Result<Zone, Error>): Outcome {
    match r case Ok(row) => ZoneRow(row) case Err(e) => Failed(e)
  }

  function ResourceOutcome(r: Result<Resource, Error>): Outcome {
    match r case Ok(row) => ResourceRow(row) case Err(e) => Failed(e)
  }

  function GrantOutcome(r: Result<Grant, Error>): Outcome {
    match r case Ok(row) => GrantRow(row) case Err(e) => Failed(e)
  }

  function ProxyOutcome(r: Result<Proxy, Error>): Outcome {
    match r case Ok(row) => ProxyRow(row) case Err(e) => Failed(e)
  }

  function UpdateOutcome(err: Option<Error>): Outcome {
    match err case None => Updated case Some(e) => Failed(e)
  }

  class Store {
    var db: Db

    // security.VerifySecret as this process computes it; only the plugin calls it.
    const verify: Verify

    ghost predicate Valid()
      reads this
    {
      Inv(db)
    }

    constructor (verify: Verify)
      ensures Valid() && db == EMPTY && this.verify == verify
    {
      db := EMPTY;
      this.verify := verify;
    }

    // ---- tenants ----

    method GetTenantByID(id: int) returns (r: Result<Tenant, Error>)
      ensures TenantOutcome(r) == ExecFetch(db, FetchTenant(id)).next.outcome
    {
      if id !in db.tenants {
        return Err(TenantNotFound);
      }
      return Ok(db.tenants[id]);
    }

    method GetTenantByCode(code: string) returns (r: Result<Tenant, Error>)
      requires Valid()
      ensures r == match TenantByCode(db, code) case Some(t) => Ok(t) case None => Err(TenantNotFound)
    {
      if k :| k in db.tenants && db.tenants[k].code == code {
        return Ok(db.tenants[k]);
      }
      return Err(TenantNotFound);
    }

    method CreateTenant(input: TenantInput) returns (r: Result<Tenant, Error>)
      requires Valid()
      modifies this
      ensures Valid() && Finished(db, TenantOutcome(r)) == Serve(verify, old(db), Request.CreateTenant(input))
    {
      ServeKeepsInv(verify, db, Request.CreateTenant(input));
      ghost var e := Advance(verify, db, Start(Request.CreateTenant(input)));
      if Blank(input.code) || Blank(input.name) || input.tokenHash == "" {
        return Err(EmptyField);
      }
      var inserted := InsertTenant(db, input);
      if inserted.None? {
        return Err(DuplicateCode);
      }
      db := inserted.value;
      e := Advance(verify, db, e.next);
      r := GetTenantByID(db.lastTenant);
    }

    method UpdateTenantStatus(id: int, status: string) returns (err: Option<Error>)
      requires Valid()
      modifies this
      ensures Valid()
      ensures Finished(db, UpdateOutcome(err)) == Serve(verify, old(db), Request.UpdateTenantStatus(id, status))
    {
      ServeKeepsInv(verify, db, Request.UpdateTenantStatus(id, status));
      ghost var e := Advance(verify, db, Start(Request.UpdateTenantStatus(id, status)));
      var updated := SetTenantStatus(db, id, status);
      if updated.None? {
        return Some(TenantNotFound);
      }
      db := updated.value;
      return None;
    }

    method UpdateTenantTokenHash(id: int, tokenHash: string) returns (err: Option<Error>)
      requires Valid()
      modifies this
      ensures Valid() && Finished(db, UpdateOutcome(err)) == Serve(verify, old(db), UpdateTokenHash(id, tokenHash))
    {
      ServeKeepsInv(verify, db, UpdateTokenHash(id, tokenHash));
      ghost var e := Advance(verify, db, Start(UpdateTokenHash(id, tokenHash)));
      if tokenHash == "" {
        return Some(EmptyField);
      }
      var updated := SetTokenHash(db, id, tokenHash);
      if updated.None? {
        return Some(TenantNotFound);
      }
      db := updated.value;
      return None;
    }

    method UpdateTenantLastSeen(id: int, now: int) returns (err: Option<Error>)
      requires Valid()
      modifies this
      ensures Valid()
      ensures err.None? <==> id in old(db).tenants
      ensures db == if err.None? then SetLastSeen(old(db), id, now).value else old(db)
    {
      var updated := SetLastSeen(db, id, now);
      if updated.None? {
        return Some(TenantNotFound);
      }
      UpdateTenantSafe(db, id, db.tenants[id].(lastSeen := Some(now)));
      db := updated.value;
      return None;
    }

    // ---- domain zones ----

    method GetDomainZoneByID(id: int) returns (r: Result<Zone, Error>)
      ensures ZoneOutcome(r) == ExecFetch(db, FetchZone(id)).next.outcome
    {
      if id !in db.zones {
        return Err(DomainZoneNotFound);
      }
      return Ok(db.zones[id]);
    }

    method CreateDomainZone(name: string, zone: string) returns (r: Result<Zone, Error>)
      requires Valid()
      modifies this
      ensures Valid() && Finished(db, ZoneOutcome(r)) == Serve(verify, old(db), CreateZone(name, zone))
    {
      ServeKeepsInv(verify, db, CreateZone(name, zone));
      ghost var e := Advance(verify, db, Start(CreateZone(name, zone)));
      if Blank(name) || Blank(zone) {
        return Err(EmptyField);
      }
      var inserted := InsertZone(db, name, zone);
      if inserted.None? {
        return Err(DuplicateZone);
      }
      db := inserted.value;
      e := Advance(verify, db, e.next);
      r := GetDomainZoneByID(db.lastZone);
    }

    method UpdateDomainZoneStatus(id: int, status: string) returns (err: Option<Error>)
      requires Valid()
      modifies this
      ensures Valid() && Finished(db, UpdateOutcome(err)) == Serve(verify, old(db), UpdateZoneStatus(id, status))
    {
      ServeKeepsInv(verify, db, UpdateZoneStatus(id, status));
      ghost var e := Advance(verify, db, Start(UpdateZoneStatus(id, status)));
      var updated := SetZoneStatus(db, id, status);
      if updated.None? {
        return Some(DomainZoneNotFound);
      }
      db := updated.value;
      return None;
    }

    // ---- resources ----

    method GetResourceByID(id: int) returns (r: Result<Resource, Error>)
      ensures ResourceOutcome(r) == ExecFetch(db, FetchResource(id)).next.outcome
    {
      if id !in db.resources {
        return Err(Error.ResourceNotFound);
      }
      return Ok(db.resources[id]);
    }

    method InsertNewResource(typ: string, value: string, zoneId: Option<int>) returns (r: Result<Resource, Error>)
      modifies this
      ensures Finished(db, ResourceOutcome(r)) == RunAlone(verify, old(db), ResourceInsert(typ, value, zoneId))
    {
      ghost var e := Advance(verify, db, ResourceInsert(typ, value, zoneId));
      var inserted := InsertResource(db, typ, value, zoneId);
      if inserted.None? {
        return Err(DuplicateResource);
      }
      db := inserted.value;
      e := Advance(verify, db, e.next);
      r := GetResourceByID(db.lastResource);
    }

    method CreateSubdomainResource(value: string, zoneId: int) returns (r: Result<Resource, Error>)
      requires Valid()
      modifies this
      ensures Valid() && Finished(db, ResourceOutcome(r)) == Serve(verify, old(db), CreateSubdomain(value, zoneId))
    {
      ServeKeepsInv(verify, db, CreateSubdomain(value, zoneId));
      ghost var e := Advance(verify, db, Start(CreateSubdomain(value, zoneId)));
      if Blank(value) {
        return Err(EmptyField);
      }
      if !HasEnabledZone(db) {
        return Err(NoEnabledDomainZone);
      }
      e := Advance(verify, db, e.next);
      var zone := GetDomainZoneByID(zoneId);
      if zone == Err(DomainZoneNotFound) {
        return Err(SubdomainNeedsZone);
      }
      if zone.value.status != ENABLED {
        return Err(DomainZoneDisabled);
      }
      r := InsertNewResource(SUBDOMAIN, value, Some(zoneId));
    }

    method CreatePortResource(udp: bool, port: int) returns (r: Result<Resource, Error>)
      requires Valid()
      modifies this
      ensures Valid() && Finished(db, ResourceOutcome(r)) == Serve(verify, old(db), CreatePort(udp, port))
    {
      ServeKeepsInv(verify, db, CreatePort(udp, port));
      ghost var e := Advance(verify, db, Start(CreatePort(udp, port)));
      if !ValidPort(port) {
        return Err(InvalidPort);
      }
      r := InsertNewResource(if udp then UDP_PORT else TCP_PORT, Itoa(port), None);
    }

    method UpdateResourceStatus(id: int, status: string) returns (err: Option<Error>)
      requires Valid()
      modifies this
      ensures Valid()
      ensures Finished(db, UpdateOutcome(err)) == Serve(verify, old(db), Request.UpdateResourceStatus(id, status))
    {
      ServeKeepsInv(verify, db, Request.UpdateResourceStatus(id, status));
      ghost var e := Advance(verify, db, Start(Request.UpdateResourceStatus(id, status)));
      var updated := SetResourceStatus(db, id, status);
      if updated.None? {
        return Some(Error.ResourceNotFound);
      }
      db := updated.value;
      return None;
    }

    // ---- grants ----

    method GetGrantByResource(resourceId: int) returns (r: Result<Grant, Error>)
      requires Valid()
      ensures r == match GrantByResource(db, resourceId) case Some(g) => Ok(g) case None => Err(GrantNotFound)
    {
      if k :| k in db.grants && db.grants[k].resourceId == resourceId {
        return Ok(db.grants[k]);
      }
      return Err(GrantNotFound);
    }

    method GetGrantByID(id: int) returns (r: Result<Grant, Error>)
      ensures GrantOutcome(r) == ExecFetch(db, FetchGrant(id)).next.outcome
    {
      if id !in db.grants {
        return Err(GrantNotFound);
      }
      return Ok(db.grants[id]);
    }

    method InsertNewGrant(tenantId: int, resourceId: int) returns (r: Result<Grant, Error>)
      modifies this
      ensures Finished(db, GrantOutcome(r)) == RunAlone(verify, old(db), GrantInsert(tenantId, resourceId))
    {
      ghost var e := Advance(verify, db, GrantInsert(tenantId, resourceId));
      var inserted := InsertGrant(db, tenantId, resourceId);
      if inserted.None? {
        return Err(ResourceAlreadyGranted);
      }
      db := inserted.value;
      e := Advance(verify, db, e.next);
      r := GetGrantByID(db.lastGrant);
    }

    method GrantResourceToTenant(tenantId: int, resourceId: int) returns (r: Result<Grant, Error>)
      requires Valid()
      modifies this
      ensures Valid() && Finished(db, GrantOutcome(r)) == Serve(verify, old(db), GrantResource(tenantId, resourceId))
    {
      ServeKeepsInv(verify, db, GrantResource(tenantId, resourceId));
      ghost var e := Advance(verify, db, Start(GrantResource(tenantId, resourceId)));
      var tenant := GetTenantByID(tenantId);
      if tenant.Err? {
        return Err(tenant.error);
      }
      if tenant.value.status != ENABLED {
        return Err(Error.TenantDisabled);
      }
      assert e == Effect(db, GrantReadResource(tenantId, resourceId));
      e := Advance(verify, db, e.next);
      var resource := GetResourceByID(resourceId);
      if resource.Err? {
        return Err(resource.error);
      }
      if resource.value.status != AVAILABLE {
        return Err(Error.ResourceDisabled);
      }
      assert e == Effect(db, GrantReadGrant(tenantId, resourceId));
      e := Advance(verify, db, e.next);
      var existing := GetGrantByResource(resourceId);
      if existing.Ok? {
        return Err(ResourceAlreadyGranted);
      }
      assert e == Effect(db, GrantInsert(tenantId, resourceId));
      r := InsertNewGrant(tenantId, resourceId);
    }

    method UpdateGrantStatus(id: int, status: string) returns (err: Option<Error>)
      requires Valid()
      modifies this
      ensures Valid()
      ensures Finished(db, UpdateOutcome(err)) == Serve(verify, old(db), Request.UpdateGrantStatus(id, status))
    {
      ServeKeepsInv(verify, db, Request.UpdateGrantStatus(id, status));
      ghost var e := Advance(verify, db, Start(Request.UpdateGrantStatus(id, status)));
      var updated := SetGrantStatus(db, id, status);
      if updated.None? {
        return Some(GrantNotFound);
      }
      db := updated.value;
      return None;
    }

    // ---- proxies ----

    method GetProxyByID(id: int) returns (r: Result<Proxy, Error>)
      ensures ProxyOutcome(r) == ExecFetch(db, FetchProxy(id)).next.outcome
    {
      if id !in db.proxies {
        return Err(Internal);
      }
      return Ok(db.proxies[id]);
    }

    method InsertNewProxy(input: ProxyInput, localIP: string) returns (r: Result<Proxy, Error>)
      modifies this
      ensures Finished(db, ProxyOutcome(r)) == RunAlone(verify, old(db), ProxyInsert(input, localIP))
    {
      ghost var e := Advance(verify, db, ProxyInsert(input, localIP));
      var inserted := InsertProxy(db, input, localIP);
      if inserted.None? {
        return Err(DuplicateProxyName);
      }
      db := inserted.value;
      e := Advance(verify, db, e.next);
      r := GetProxyByID(db.lastProxy);
    }

    method CreateProxy(input: ProxyInput) returns (r: Result<Proxy, Error>)
      requires Valid()
      modifies this
      ensures Valid() && Finished(db, ProxyOutcome(r)) == Serve(verify, old(db), Request.CreateProxy(input))
    {
      ServeKeepsInv(verify, db, Request.CreateProxy(input));
      ghost var e := Advance(verify, db, Start(Request.CreateProxy(input)));
      if Blank(input.name) {
        return Err(EmptyField);
      }
      if !ValidProxyType(input.proxyType) {
        return Err(InvalidProxyType);
      }
      if !ValidPort(input.localPort) {
        return Err(InvalidPort);
      }
      var localIP := TrimSpace(input.localIP);
      if localIP == "" {
        localIP := DEFAULT_LOCAL_IP;
      }
      var resource := GetResourceByID(input.resourceId);
      if resource.Err? {
        return Err(resource.error);
      }
      e := Advance(verify, db, e.next);
      var grant := GetGrantByResource(input.resourceId);
      if grant.Err? {
        return Err(ResourceNotGrantedToTenant);
      }
      if grant.value.tenantId != input.tenantId || grant.value.status != ENABLED {
        return Err(ResourceNotGrantedToTenant);
      }
      if !ProxyTypeMatchesResource(input.proxyType, resource.value.typ) {
        return Err(ProxyTypeResourceMismatch);
      }
      r := InsertNewProxy(input, localIP);
    }

    method GetProxyByTenantAndName(tenantId: int, name: string) returns (r: Option<Proxy>)
      requires Valid()
      ensures r == ProxyByName(db, tenantId, name)
    {
      if k :| k in db.proxies && db.proxies[k].tenantId == tenantId && db.proxies[k].name == name {
        return Some(db.proxies[k]);
      }
      return None;
    }

    method UpdateProxyStatusByID(id: int, status: string) returns (err: Option<Error>)
      requires Valid()
      modifies this
      ensures Valid() && Finished(db, UpdateOutcome(err)) == Serve(verify, old(db), UpdateProxyStatus(id, status))
    {
      ServeKeepsInv(verify, db, UpdateProxyStatus(id, status));
      ghost var e := Advance(verify, db, Start(UpdateProxyStatus(id, status)));
      var updated := SetProxyStatus(db, id, status);
      if updated.None? {
        return Some(ProxyNotFound);
      }
      db := updated.value;
      return None;
    }

    // ---- contexts ----

    /** `fails(n)` says whether read n of this call fails, for whatever reason: then the error is returned as
        it is; otherwise the lookup chain is followed to its end. */
    method GetProxyAuthContext(tenantId: int, proxyName: string, fails: nat -> bool)
      returns (r: Result<AuthContext, Error>)
      requires Valid()
      ensures r == Err(Internal) <==>
              fails(0) || (ProxyByName(db, tenantId, proxyName).Some? && (fails(1) || fails(2)))
      ensures r != Err(Internal) ==> r == Plugin.GetProxyAuthContext(db, tenantId, proxyName)
    {
      if fails(0) {
        return Err(Internal);
      }
      var proxy := GetProxyByTenantAndName(tenantId, proxyName);
      if proxy.None? {
        return Err(ProxyNotFound);
      }
      if fails(1) {
        return Err(Internal);
      }
      var found := GetResourceByID(proxy.value.resourceId);
      match found {
        case Err(e) => return Err(e);
        case Ok(resource) =>
          if fails(2) {
            return Err(Internal);
          }
          var out := AuthContext(proxy.value, resource, None);
          var grant := GetGrantByResource(resource.id);
          if grant.Ok? {
            out := out.(grant := Some(grant.value));
          }
          return Ok(out);
      }
    }

    /** `rows` is what the database answers to the query: its rows, each once, ordered by name; or None when
        the query or the reading of its rows fails. */
    method ListEnabledProxyAuthContextsByTenant(tenantId: int, rows: Option<seq<JoinRow>>)
      returns (list: Option<seq<AuthContext>>)
      requires Valid() && (rows.Some? ==> QueryResult(db, tenantId, ContextsOf(rows.value)))
      ensures list == if rows.Some? then Some(JoinRows(db, tenantId)) else None
    {
      if rows.None? {
        return None;
      }
      var cs := ScanContexts(rows.value);
      QueryResultUnique(db, tenantId, cs);
      return Some(cs);
    }
  }
}
