/** What every step of every interleaving keeps: the table invariant, the facts each handler in flight
    relies on between its statements, and the growth of the tables. */
module Safety {
  import opened Text
  import opened Model
  import opened Tables
  import opened Plugin
  import opened Machine

  // ---- public endpoints and their owners ----

  datatype Endpoint = Host(subdomain: string) | TcpPort(port: int) | UdpPort(port: int)

  function EndpointOf(req: NewProxyRequest): Endpoint {
    if req.proxyType == TCP then TcpPort(req.remotePort)
    else if req.proxyType == UDP then UdpPort(req.remotePort)
    else Host(req.subdomain)
  }

  predicate Serves(r: Resource, e: Endpoint) {
    match e
    case Host(s) => r.typ == SUBDOMAIN && r.value == s
    case TcpPort(n) => r.typ == TCP_PORT && r.value == Itoa(n)
    case UdpPort(n) => r.typ == UDP_PORT && r.value == Itoa(n)
  }

  ghost predicate OwnsBy(db: Db, user: string, e: Endpoint, t: int, r: int) {
    && t in db.tenants && db.tenants[t].code == user
    && r in db.resources && Serves(db.resources[r], e) && OwnedBy(db.grants, r, t)
  }

  /** The tenant with this code holds the grant on the resource behind this endpoint. */
  ghost predicate Owns(db: Db, user: string, e: Endpoint) {
    exists t, r :: OwnsBy(db, user, e, t, r)
  }

  lemma OwnerIsUnique(db: Db, u: string, v: string, e: Endpoint)
    requires Inv(db) && Owns(db, u, e) && Owns(db, v, e)
    ensures u == v
  {
    var t1, r1 :| OwnsBy(db, u, e, t1, r1);
    var t2, r2 :| OwnsBy(db, v, e, t2, r2);
    ConstantsDistinct();
    assert r1 == r2;
  }

  lemma OwnsIsStable(a: Db, b: Db, user: string, e: Endpoint)
    requires Evolves(a, b) && Owns(a, user, e)
    ensures Owns(b, user, e)
  {
    var t, r :| OwnsBy(a, user, e, t, r);
    OwnershipIsStable(a, b, r, t);
    assert OwnsBy(b, user, e, t, r);
  }

  // ---- what a handler relies on ----

  ghost predicate TenantRead(db: Db, req: NewProxyRequest, t: Tenant) {
    t.id in db.tenants && db.tenants[t.id].code == req.user
  }

  ghost predicate ProxyRead(db: Db, req: NewProxyRequest, t: Tenant, p: Proxy) {
    && p.id in db.proxies && p == db.proxies[p.id].(status := p.status)
    && p.tenantId == t.id && p.name == req.name
  }

  ghost predicate ResourceRead(db: Db, p: Proxy, r: Resource) {
    r.id in db.resources && r == db.resources[r.id].(status := r.status) && r.id == p.resourceId
  }

  ghost predicate OutcomeOk(db: Db, o: Outcome) {
    match o
    case Decided(req, Allow) => Owns(db, req.user, EndpointOf(req))
    case Decided(req, d) => !Unreachable(d)
    case _ => true
  }

  ghost predicate HandlerOk(db: Db, h: Handler) {
    match h
    case Start(_) => true
    case SubdomainReadZone(value, _) => !Blank(value)
    case ResourceInsert(typ, value, zone) => ResourceShape(db.zones, typ, value, zone)
    case GrantReadResource(t, _) => t in db.tenants
    case GrantReadGrant(t, r) => t in db.tenants && r in db.resources
    case GrantInsert(t, r) => t in db.tenants && r in db.resources
    case ProxyReadGrant(input, localIP, res) =>
      && ProxyInputOk(input, localIP)
      && input.resourceId in db.resources && db.resources[input.resourceId].typ == res.typ
    case ProxyInsert(input, localIP) =>
      && ProxyInputOk(input, localIP) && input.resourceId in db.resources
      && ProxyTypeMatchesResource(input.proxyType, db.resources[input.resourceId].typ)
      && OwnedBy(db.grants, input.resourceId, input.tenantId)
    case FetchTenant(id) => id in db.tenants
    case FetchZone(id) => id in db.zones
    case FetchResource(id) => id in db.resources
    case FetchGrant(id) => id in db.grants
    case FetchProxy(id) => id in db.proxies
    case NewProxyReadProxy(req, t) => TenantRead(db, req, t) && CheckRequest(req).None?
    case NewProxyReadResource(req, t, p) => TenantRead(db, req, t) && ProxyRead(db, req, t, p)
    case NewProxyReadGrant(req, t, p, r) => TenantRead(db, req, t) && ProxyRead(db, req, t, p) && ResourceRead(db, p, r)
    case PingTouch(id, _) => id in db.tenants
    case ResetReadTenant(id, _, _) => id in db.tenants
    case RegisterReadTenant(id, _, _) => id in db.tenants
    case ConfigJoin(id, code, _, _, _) => id in db.tenants && (code == "" || db.tenants[id].code == code)
    case Done(o) => OutcomeOk(db, o)
  }

  /** What one handler has read stays usable whatever the others do. */
  lemma HandlerStaysOk(a: Db, b: Db, h: Handler)
    requires Evolves(a, b) && HandlerOk(a, h)
    ensures HandlerOk(b, h)
  {
    match h
    case ResourceInsert(typ, value, zone) => ShapeIsStable(a, b, typ, value, zone);
    case ProxyInsert(input, _) => OwnershipIsStable(a, b, input.resourceId, input.tenantId);
    case Done(Decided(req, Allow)) => OwnsIsStable(a, b, req.user, EndpointOf(req));
    case _ =>
  }

  // ---- one step ----

  ghost predicate StepOk(db: Db, e: Effect) {
    Safe(db, e.db) && HandlerOk(e.db, e.next)
  }

  /** Steps that leave the tables alone. */
  lemma StayOk(db: Db, h: Handler)
    requires Inv(db) && HandlerOk(db, h)
    ensures StepOk(db, Effect(db, h))
  {
  }

  lemma CreateTenantOk(db: Db, q: Request)
    requires Inv(db) && (q.CreateTenant? || q.RegisterTenant?)
    ensures StepOk(db, StartCreate(db, q))
  {
    if !Blank(q.tenant.code) && !Blank(q.tenant.name) {
      InsertTenantSafe(db, q.tenant);
    }
    StayOk(db, Done(Failed(EmptyField)));
    StayOk(db, Done(Failed(DuplicateCode)));
  }

  lemma CreateZoneOk(db: Db, name: string, zone: string)
    requires Inv(db)
    ensures StepOk(db, StartCreate(db, CreateZone(name, zone)))
  {
    InsertZoneSafe(db, name, zone);
    StayOk(db, Done(Failed(EmptyField)));
    StayOk(db, Done(Failed(DuplicateZone)));
  }

  /** The other creating requests start with a read: they only move their own program counter. */
  lemma StartResourceOk(db: Db, q: Request)
    requires Inv(db) && (q.CreateSubdomain? || q.CreatePort?)
    ensures StepOk(db, StartCreate(db, q))
  {
    var e := StartCreate(db, q);
    ConstantsDistinct();
    assert HandlerOk(db, e.next);
    StayOk(db, e.next);
  }

  lemma StartGrantOk(db: Db, q: Request)
    requires Inv(db) && q.GrantResource?
    ensures StepOk(db, StartCreate(db, q))
  {
    StayOk(db, StartCreate(db, q).next);
  }

  lemma StartProxyOk(db: Db, q: Request)
    requires Inv(db) && q.CreateProxy?
    ensures StepOk(db, StartCreate(db, q))
  {
    StayOk(db, StartCreate(db, q).next);
  }

  lemma StartPluginOk(verify: Verify, db: Db, q: Request)
    requires Inv(db) && Asks(q)
    ensures StepOk(db, StartPlugin(verify, db, q))
  {
    var e := StartPlugin(verify, db, q);
    assert HandlerOk(db, e.next);
    StayOk(db, e.next);
  }

  predicate WritesTenant(q: Request) {
    q.UpdateTenantStatus? || q.UpdateTokenHash? || q.ResetToken?
  }

  lemma RefusedOk(db: Db)
    requires Inv(db)
    ensures StepOk(db, Fail(db, EmptyField)) && StepOk(db, Fail(db, TenantNotFound))
  {
  }

  lemma TenantStatusOk(db: Db, id: int, status: string)
    requires Inv(db)
    ensures StepOk(db, StartOther(db, UpdateTenantStatus(id, status)))
  {
    RefusedOk(db);
    if id in db.tenants {
      UpdateTenantSafe(db, id, db.tenants[id].(status := status));
    }
  }

  lemma TokenHashOk(db: Db, id: int, hash: string)
    requires Inv(db)
    ensures StepOk(db, StartOther(db, UpdateTokenHash(id, hash)))
  {
    RefusedOk(db);
    if id in db.tenants {
      UpdateTenantSafe(db, id, db.tenants[id].(tokenHash := hash));
    }
  }

  lemma ResetOk(db: Db, q: Request)
    requires Inv(db) && q.ResetToken?
    ensures StepOk(db, StartOther(db, q))
  {
    RefusedOk(db);
    if q.id in db.tenants {
      UpdateTenantSafe(db, q.id, db.tenants[q.id].(tokenHash := q.hash));
    }
  }

  lemma WriteTenantOk(db: Db, q: Request)
    requires Inv(db) && WritesTenant(q)
    ensures StepOk(db, StartOther(db, q))
  {
    match q
    case UpdateTenantStatus(id, status) => TenantStatusOk(db, id, status);
    case UpdateTokenHash(id, hash) => TokenHashOk(db, id, hash);
    case _ => ResetOk(db, q);
  }

  predicate WritesStatus(q: Request) {
    q.UpdateZoneStatus? || q.UpdateResourceStatus? || q.UpdateGrantStatus? || q.UpdateProxyStatus?
  }

  lemma WriteStatusOk(db: Db, q: Request)
    requires Inv(db) && WritesStatus(q)
    ensures StepOk(db, StartOther(db, q))
  {
    var e := StartOther(db, q);
    if e.next == Done(Updated) {
      match q
      case UpdateZoneStatus(id, s) => SetZoneStatusSafe(db, id, s);
      case UpdateResourceStatus(id, s) => SetResourceStatusSafe(db, id, s);
      case UpdateGrantStatus(id, s) => SetGrantStatusSafe(db, id, s);
      case UpdateProxyStatus(id, s) => SetProxyStatusSafe(db, id, s);
    } else {
      StayOk(db, e.next);
    }
  }

  lemma StartConfigOk(db: Db, q: Request)
    requires Inv(db) && !WritesTenant(q) && !WritesStatus(q)
    ensures StepOk(db, StartOther(db, q))
  {
    var e := StartOther(db, q);
    assert HandlerOk(db, e.next);
    StayOk(db, e.next);
  }

  lemma ZoneReadOk(db: Db, h: Handler)
    requires Inv(db) && HandlerOk(db, h) && h.SubdomainReadZone?
    ensures StepOk(db, ExecCreate(db, h))
  {
    StayOk(db, ExecCreate(db, h).next);
  }

  lemma GrantReadOk(db: Db, h: Handler)
    requires Inv(db) && HandlerOk(db, h) && (h.GrantReadResource? || h.GrantReadGrant?)
    ensures StepOk(db, ExecCreate(db, h))
  {
    StayOk(db, ExecCreate(db, h).next);
  }

  lemma ProxyReadGrantOk(db: Db, h: Handler)
    requires Inv(db) && HandlerOk(db, h) && h.ProxyReadGrant?
    ensures StepOk(db, ExecCreate(db, h))
  {
    var e := ExecCreate(db, h);
    assert HandlerOk(db, e.next);
    StayOk(db, e.next);
  }

  lemma ResourceInsertOk(db: Db, h: Handler)
    requires Inv(db) && HandlerOk(db, h) && h.ResourceInsert?
    ensures StepOk(db, ExecCreate(db, h))
  {
    InsertResourceSafe(db, h.typ, h.value, h.zone);
    StayOk(db, Done(Failed(DuplicateResource)));
  }

  lemma GrantInsertOk(db: Db, h: Handler)
    requires Inv(db) && HandlerOk(db, h) && h.GrantInsert?
    ensures StepOk(db, ExecCreate(db, h))
  {
    InsertGrantSafe(db, h.tenantId, h.resourceId);
    StayOk(db, Done(Failed(ResourceAlreadyGranted)));
  }

  lemma ProxyInsertOk(db: Db, h: Handler)
    requires Inv(db) && HandlerOk(db, h) && h.ProxyInsert?
    ensures StepOk(db, ExecCreate(db, h))
  {
    InsertProxySafe(db, h.input, h.localIP);
    StayOk(db, Done(Failed(DuplicateProxyName)));
  }

  lemma FetchOk(db: Db, h: Handler)
    requires Inv(db) && HandlerOk(db, h) && IsFetch(h)
    ensures StepOk(db, ExecFetch(db, h))
  {
    StayOk(db, ExecFetch(db, h).next);
  }

  lemma AllowOwns(db: Db, req: NewProxyRequest, t: Tenant, p: Proxy, r: Resource)
    requires Inv(db) && TenantRead(db, req, t) && ProxyRead(db, req, t, p) && ResourceRead(db, p, r)
    requires Verdict(req, t, AuthContext(p, r, GrantByResource(db, r.id))) == Allow
    ensures Owns(db, req.user, EndpointOf(req))
  {
    ConstantsDistinct();
    var g := GrantByResource(db, r.id).value;
    assert OwnedBy(db.grants, r.id, t.id);
    assert Serves(db.resources[r.id], EndpointOf(req));
    assert OwnsBy(db, req.user, EndpointOf(req), t.id, r.id);
  }

  lemma DecideOk(db: Db, h: Handler)
    requires Inv(db) && HandlerOk(db, h) && h.NewProxyReadGrant?
    ensures OutcomeOk(db, ExecPlugin(db, h).next.outcome)
  {
    assert ProxyOk(db.proxies[h.proxy.id], db.resources, db.grants);
    VerdictNeverMismatches(db, h.req, h.tenant, h.proxy, h.resource);
    if Verdict(h.req, h.tenant, AuthContext(h.proxy, h.resource, GrantByResource(db, h.resource.id))) == Allow {
      AllowOwns(db, h.req, h.tenant, h.proxy, h.resource);
    }
  }

  lemma PingTouchOk(db: Db, h: Handler)
    requires Inv(db) && HandlerOk(db, h) && h.PingTouch?
    ensures StepOk(db, ExecPlugin(db, h))
  {
    UpdateTenantSafe(db, h.id, db.tenants[h.id].(lastSeen := Some(h.now)));
  }

  lemma ExecPluginOk(db: Db, h: Handler)
    requires Inv(db) && HandlerOk(db, h)
    requires !h.Done? && !h.Start? && !IsCreate(h) && !IsFetch(h) && !h.PingTouch?
    ensures StepOk(db, ExecPlugin(db, h))
  {
    var e := ExecPlugin(db, h);
    if h.NewProxyReadGrant? {
      DecideOk(db, h);
    }
    assert HandlerOk(db, e.next);
    StayOk(db, e.next);
  }

  lemma ExecCreateOk(db: Db, h: Handler)
    requires Inv(db) && HandlerOk(db, h) && IsCreate(h)
    ensures StepOk(db, ExecCreate(db, h))
  {
    if h.ResourceInsert? {
      ResourceInsertOk(db, h);
    } else if h.GrantInsert? {
      GrantInsertOk(db, h);
    } else if h.ProxyInsert? {
      ProxyInsertOk(db, h);
    } else if h.ProxyReadGrant? {
      ProxyReadGrantOk(db, h);
    } else if h.SubdomainReadZone? {
      ZoneReadOk(db, h);
    } else {
      GrantReadOk(db, h);
    }
  }

  lemma StartCreateOk(db: Db, q: Request)
    requires Inv(db) && Creates(q)
    ensures StepOk(db, StartCreate(db, q))
  {
    match q
    case CreateTenant(_) => CreateTenantOk(db, q);
    case RegisterTenant(_, _, _) => CreateTenantOk(db, q);
    case CreateZone(name, zone) => CreateZoneOk(db, name, zone);
    case CreateSubdomain(_, _) => StartResourceOk(db, q);
    case CreatePort(_, _) => StartResourceOk(db, q);
    case GrantResource(_, _) => StartGrantOk(db, q);
    case _ => StartProxyOk(db, q);
  }

  lemma StartUpdateOk(db: Db, q: Request)
    requires Inv(db)
    ensures StepOk(db, StartOther(db, q))
  {
    if WritesTenant(q) {
      WriteTenantOk(db, q);
    } else if WritesStatus(q) {
      WriteStatusOk(db, q);
    } else {
      StartConfigOk(db, q);
    }
  }

  lemma ExecStartOk(verify: Verify, db: Db, q: Request)
    requires Inv(db)
    ensures StepOk(db, ExecStart(verify, db, q))
  {
    if Creates(q) {
      StartCreateOk(db, q);
    } else if Asks(q) {
      StartPluginOk(verify, db, q);
    } else {
      StartUpdateOk(db, q);
    }
  }

  lemma ExecOk(verify: Verify, db: Db, h: Handler)
    requires Inv(db) && HandlerOk(db, h) && !h.Done?
    ensures StepOk(db, ExecOne(verify, db, h))
  {
    if h.Start? {
      ExecStartOk(verify, db, h.request);
    } else if IsCreate(h) {
      ExecCreateOk(db, h);
    } else if IsFetch(h) {
      FetchOk(db, h);
    } else if h.PingTouch? {
      PingTouchOk(db, h);
    } else {
      ExecPluginOk(db, h);
    }
  }

  // ---- every interleaving ----

  ghost predicate WorldOk(w: World) {
    Inv(w.db) && forall k :: k in w.handlers ==> HandlerOk(w.db, w.handlers[k])
  }

  lemma AbortOk(db: Db, h: Handler)
    requires HandlerOk(db, h) && !h.Done?
    ensures HandlerOk(db, AfterAbort(h))
  {
  }

  lemma NextOk(verify: Verify, w: World, a: Action, w': World)
    requires WorldOk(w) && Next(verify, w, a, w')
    ensures WorldOk(w') && Evolves(w.db, w'.db)
  {
    if a.Exec? {
      ExecOk(verify, w.db, w.handlers[a.k]);
    } else if a.Abort? {
      AbortOk(w.db, w.handlers[a.k]);
    }
    assert Evolves(w.db, w'.db);
    forall k | k in w'.handlers ensures HandlerOk(w'.db, w'.handlers[k]) {
      if k != a.k {
        HandlerStaysOk(w.db, w'.db, w.handlers[k]);
      }
    }
  }

  lemma {:induction false} RunOk(verify: Verify, run: Run, i: nat)
    requires IsRun(verify, run) && i < |run.worlds|
    ensures WorldOk(run.worlds[i])
  {
    if i > 0 {
      RunOk(verify, run, i - 1);
      NextOk(verify, run.worlds[i - 1], run.actions[i - 1], run.worlds[i]);
    }
  }

  lemma StepEvolves(verify: Verify, run: Run, i: nat)
    requires IsRun(verify, run) && i < |run.actions|
    ensures Evolves(run.worlds[i].db, run.worlds[i + 1].db)
  {
    RunOk(verify, run, i);
    NextOk(verify, run.worlds[i], run.actions[i], run.worlds[i + 1]);
  }

  lemma {:induction false} RunEvolves(verify: Verify, run: Run, i: nat, j: nat)
    requires IsRun(verify, run) && i <= j < |run.worlds|
    ensures Evolves(run.worlds[i].db, run.worlds[j].db)
    decreases j - i
  {
    var a, b := run.worlds[i].db, run.worlds[j].db;
    if i < j {
      var mid := run.worlds[j - 1].db;
      RunEvolves(verify, run, i, j - 1);
      StepEvolves(verify, run, j - 1);
      EvolvesTransitive(a, mid, b);
    }
  }
}
