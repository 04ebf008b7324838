/** Ownership over whole runs, for decisions taken in one instant and for requests whose four reads
    fall in different states. */
module Ownership {
  import opened Model
  import opened Tables
  import opened Plugin
  import opened Machine
  import opened Safety
  import opened Trace

  /** In every state of every interleaving, a proxy's resource has exactly one grant, held by the proxy's
      own tenant, and the proxy's type is valid and fits the resource. */
  lemma ProxiesAlwaysGranted(verify: Verify, run: Run, i: nat, p: int) returns (g: int)
    requires IsRun(verify, run) && i < |run.worlds| && p in run.worlds[i].db.proxies
    ensures var db := run.worlds[i].db; var row := db.proxies[p];
            && row.resourceId in db.resources && ValidProxyType(row.proxyType)
            && ProxyTypeMatchesResource(row.proxyType, db.resources[row.resourceId].typ)
            && g in db.grants && db.grants[g].resourceId == row.resourceId && db.grants[g].tenantId == row.tenantId
            && forall h :: h in db.grants && db.grants[h].resourceId == row.resourceId ==> h == g
  {
    RunOk(verify, run, i);
    var db := run.worlds[i].db;
    assert ProxyOk(db.proxies[p], db.resources, db.grants);
    g :| g in db.grants && db.grants[g].resourceId == db.proxies[p].resourceId
         && db.grants[g].tenantId == db.proxies[p].tenantId;
  }

  // ---- one endpoint, one tenant ----

  lemma AllowedOwns(verify: Verify, db: Db, req: NewProxyRequest)
    requires Inv(db) && HandleNewProxy(verify, db, req) == Allow
    ensures Owns(db, req.user, EndpointOf(req))
  {
    ConstantsDistinct();
    var t, p, r, g := AllowedIsEntitled(verify, db, req);
    assert ProxyOk(db.proxies[p], db.resources, db.grants);
    assert OwnedBy(db.grants, r, t);
    assert OwnsBy(db, req.user, EndpointOf(req), t, r);
  }

  lemma OwnersAgree(verify: Verify, run: Run, i: nat, j: nat, u: string, v: string, e: Endpoint)
    requires IsRun(verify, run) && i <= j < |run.worlds|
    requires Owns(run.worlds[i].db, u, e) && Owns(run.worlds[j].db, v, e)
    ensures u == v
  {
    RunOk(verify, run, j);
    RunEvolves(verify, run, i, j);
    OwnsIsStable(run.worlds[i].db, run.worlds[j].db, u, e);
    OwnerIsUnique(run.worlds[j].db, u, v, e);
  }

  /** If the same public endpoint is allowed at any two moments of a run, both requests name the same tenant. */
  lemma ExclusiveAtInstants(verify: Verify, run: Run, i: nat, j: nat, a: NewProxyRequest, b: NewProxyRequest)
    requires IsRun(verify, run) && i <= j < |run.worlds|
    requires HandleNewProxy(verify, run.worlds[i].db, a) == Allow
    requires HandleNewProxy(verify, run.worlds[j].db, b) == Allow
    requires EndpointOf(a) == EndpointOf(b)
    ensures a.user == b.user
  {
    RunOk(verify, run, i);
    RunOk(verify, run, j);
    AllowedOwns(verify, run.worlds[i].db, a);
    AllowedOwns(verify, run.worlds[j].db, b);
    OwnersAgree(verify, run, i, j, a.user, b.user, EndpointOf(a));
  }

  ghost predicate AllowedBy(w: World, k: nat, req: NewProxyRequest) {
    k in w.handlers && w.handlers[k] == Done(Decided(req, Allow))
  }

  /** The same for two requests served concurrently with anything else, whatever their reads interleaved with. */
  lemma ExclusiveWhenInterleaved(verify: Verify, run: Run, i: nat, j: nat, k: nat, l: nat,
                                 a: NewProxyRequest, b: NewProxyRequest)
    requires IsRun(verify, run) && i <= j < |run.worlds|
    requires AllowedBy(run.worlds[i], k, a) && AllowedBy(run.worlds[j], l, b)
    requires EndpointOf(a) == EndpointOf(b)
    ensures a.user == b.user
  {
    RunOk(verify, run, i);
    RunOk(verify, run, j);
    assert HandlerOk(run.worlds[i].db, run.worlds[i].handlers[k]);
    assert HandlerOk(run.worlds[j].db, run.worlds[j].handlers[l]);
    OwnersAgree(verify, run, i, j, a.user, b.user, EndpointOf(a));
  }

  /** No interleaving makes the plugin answer "not granted to this tenant" or "type mismatch". */
  lemma UnreachableWhenInterleaved(verify: Verify, run: Run, i: nat, k: nat, req: NewProxyRequest, d: Decision)
    requires IsRun(verify, run) && i < |run.worlds| && k in run.worlds[i].handlers
    requires run.worlds[i].handlers[k] == Done(Decided(req, d))
    ensures !Unreachable(d)
  {
    RunOk(verify, run, i);
    assert HandlerOk(run.worlds[i].db, run.worlds[i].handlers[k]);
  }

  // ---- every condition held when it was read ----

  ghost predicate TenantHeld(verify: Verify, db: Db, req: NewProxyRequest, t: Tenant) {
    && t.id in db.tenants && db.tenants[t.id] == t && t.code == req.user
    && req.token != "" && t.status == ENABLED && verify(t.tokenHash, req.token)
    && CheckRequest(req).None?
  }

  ghost predicate ProxyHeld(db: Db, req: NewProxyRequest, t: Tenant, p: Proxy) {
    && p.id in db.proxies && db.proxies[p.id] == p && p.tenantId == t.id && p.name == req.name
    && p.status == ENABLED && p.proxyType == req.proxyType
  }

  ghost predicate ResourceHeld(db: Db, req: NewProxyRequest, p: Proxy, r: Resource) {
    && r.id in db.resources && db.resources[r.id] == r && r.id == p.resourceId
    && r.status == AVAILABLE && CheckProxyResourceMatch(req, r) == Allow
  }

  ghost predicate GrantHeld(db: Db, t: Tenant, r: Resource, g: int) {
    && g in db.grants && db.grants[g].resourceId == r.id
    && db.grants[g].tenantId == t.id && db.grants[g].status == ENABLED
  }

  datatype Reads = Reads(i1: nat, i2: nat, i3: nat, i4: nat,
                         tenant: Tenant, proxy: Proxy, resource: Resource, grant: int)

  /** Steps i1 < i2 < i3 < i4 are the four statements of handler k serving this very request, and each
      condition held in the state its own statement read. */
  ghost predicate ReadsHeld(verify: Verify, run: Run, k: nat, req: NewProxyRequest, s: Reads) {
    && s.i1 < s.i2 < s.i3 < s.i4 < |run.actions| && |run.actions| < |run.worlds|
    && Executes(run, s.i1, k, Start(NewProxy(req))) && TenantHeld(verify, run.worlds[s.i1].db, req, s.tenant)
    && Executes(run, s.i2, k, NewProxyReadProxy(req, s.tenant))
    && ProxyHeld(run.worlds[s.i2].db, req, s.tenant, s.proxy)
    && Executes(run, s.i3, k, NewProxyReadResource(req, s.tenant, s.proxy))
    && ResourceHeld(run.worlds[s.i3].db, req, s.proxy, s.resource)
    && Executes(run, s.i4, k, NewProxyReadGrant(req, s.tenant, s.proxy, s.resource))
    && GrantHeld(run.worlds[s.i4].db, s.tenant, s.resource, s.grant)
  }

  lemma BeforeAllow(verify: Verify, db: Db, h: Handler, req: NewProxyRequest) returns (g: int)
    requires Inv(db) && HandlerOk(db, h) && !h.Done? && ExecOne(verify, db, h).next == Done(Decided(req, Allow))
    ensures h.NewProxyReadGrant? && h.req == req && GrantHeld(db, h.tenant, h.resource, g)
    ensures h.proxy.status == ENABLED && h.proxy.proxyType == req.proxyType
    ensures h.resource.status == AVAILABLE && CheckProxyResourceMatch(req, h.resource) == Allow
  {
    AfterStart(verify, db, h);
    g := GrantByResource(db, h.resource.id).value.id;
  }

  /** A start neither decides Allow nor skips a read. */
  lemma AfterStart(verify: Verify, db: Db, h: Handler)
    requires !h.Done?
    ensures var next := ExecOne(verify, db, h).next;
            && (h.Start? && next.Done? && next.outcome.Decided? ==> next.outcome.decision != Allow)
            && (next.Done? && next.outcome.Decided? && !h.Start? ==>
                  h.NewProxyReadProxy? || h.NewProxyReadResource? || h.NewProxyReadGrant?)
  {
  }

  lemma BeforeReadGrant(verify: Verify, db: Db, h: Handler, next: Handler)
    requires Inv(db) && !h.Done? && next.NewProxyReadGrant? && ExecOne(verify, db, h).next == next
    ensures h == NewProxyReadResource(next.req, next.tenant, next.proxy)
    ensures var r := next.resource; r.id in db.resources && db.resources[r.id] == r && r.id == next.proxy.resourceId
  {
  }

  lemma BeforeReadResource(verify: Verify, db: Db, h: Handler, next: Handler)
    requires Inv(db) && !h.Done? && next.NewProxyReadResource? && ExecOne(verify, db, h).next == next
    ensures h == NewProxyReadProxy(next.req, next.tenant)
    ensures var p := next.proxy;
            p.id in db.proxies && db.proxies[p.id] == p && p.tenantId == next.tenant.id && p.name == next.req.name
  {
  }

  lemma BeforeReadProxy(verify: Verify, db: Db, h: Handler, next: Handler)
    requires Inv(db) && !h.Done? && next.NewProxyReadProxy? && ExecOne(verify, db, h).next == next
    ensures h == Start(NewProxy(next.req)) && TenantHeld(verify, db, next.req, next.tenant)
  {
    StartsReadProxy(verify, db, h, next);
  }

  lemma StartsReadProxy(verify: Verify, db: Db, h: Handler, next: Handler)
    requires !h.Done? && next.NewProxyReadProxy? && ExecOne(verify, db, h).next == next
    ensures h == Start(NewProxy(next.req))
  {
  }

  lemma TenantReadStep(verify: Verify, run: Run, n: nat, k: nat, next: Handler) returns (i: nat)
    requires IsRun(verify, run) && At(run, n, k, next) && next.NewProxyReadProxy?
    ensures i < n && Executes(run, i, k, Start(NewProxy(next.req)))
    ensures TenantHeld(verify, run.worlds[i].db, next.req, next.tenant)
  {
    var h;
    i, h := LastStep(verify, run, n, k, next);
    RunOk(verify, run, i);
    BeforeReadProxy(verify, run.worlds[i].db, h, next);
  }

  lemma ProxyReadStep(verify: Verify, run: Run, n: nat, k: nat, next: Handler) returns (i: nat)
    requires IsRun(verify, run) && At(run, n, k, next) && next.NewProxyReadResource?
    ensures i < n && Executes(run, i, k, NewProxyReadProxy(next.req, next.tenant))
    ensures var db, p := run.worlds[i].db, next.proxy;
            p.id in db.proxies && db.proxies[p.id] == p && p.tenantId == next.tenant.id && p.name == next.req.name
  {
    var h;
    i, h := LastStep(verify, run, n, k, next);
    RunOk(verify, run, i);
    BeforeReadResource(verify, run.worlds[i].db, h, next);
  }

  lemma ResourceReadStep(verify: Verify, run: Run, n: nat, k: nat, next: Handler) returns (i: nat)
    requires IsRun(verify, run) && At(run, n, k, next) && next.NewProxyReadGrant?
    ensures i < n && Executes(run, i, k, NewProxyReadResource(next.req, next.tenant, next.proxy))
    ensures var db, r := run.worlds[i].db, next.resource;
            r.id in db.resources && db.resources[r.id] == r && r.id == next.proxy.resourceId
  {
    var h;
    i, h := LastStep(verify, run, n, k, next);
    RunOk(verify, run, i);
    BeforeReadGrant(verify, run.worlds[i].db, h, next);
  }

  lemma VerdictStep(verify: Verify, run: Run, n: nat, k: nat, req: NewProxyRequest) returns (i: nat, h: Handler, g: int)
    requires IsRun(verify, run) && At(run, n, k, Done(Decided(req, Allow)))
    ensures i < n && Executes(run, i, k, h) && h.NewProxyReadGrant? && h.req == req
    ensures GrantHeld(run.worlds[i].db, h.tenant, h.resource, g)
    ensures h.proxy.status == ENABLED && h.proxy.proxyType == req.proxyType
    ensures h.resource.status == AVAILABLE && CheckProxyResourceMatch(req, h.resource) == Allow
  {
    i, h := LastStep(verify, run, n, k, Done(Decided(req, Allow)));
    RunOk(verify, run, i);
    assert HandlerOk(run.worlds[i].db, h);
    g := BeforeAllow(verify, run.worlds[i].db, h, req);
  }

  /** An interleaved NewProxy is allowed only if each condition held in the state its own statement read. */
  lemma AllowedReads(verify: Verify, run: Run, n: nat, k: nat, req: NewProxyRequest) returns (s: Reads)
    requires IsRun(verify, run) && n < |run.worlds| && AllowedBy(run.worlds[n], k, req)
    ensures ReadsHeld(verify, run, k, req, s) && s.i4 < n
  {
    var i4, h, g := VerdictStep(verify, run, n, k, req);
    var i3 := ResourceReadStep(verify, run, i4, k, h);
    var i2 := ProxyReadStep(verify, run, i3, k, NewProxyReadResource(req, h.tenant, h.proxy));
    var i1 := TenantReadStep(verify, run, i2, k, NewProxyReadProxy(req, h.tenant));
    s := Reads(i1, i2, i3, i4, h.tenant, h.proxy, h.resource, g);
  }

  lemma HeldVerdict(verify: Verify, db: Db, req: NewProxyRequest, t: Tenant, p: Proxy, r: Resource, g: int)
    requires Inv(db) && GrantHeld(db, t, r, g)
    requires p.status == ENABLED && p.proxyType == req.proxyType
    requires r.status == AVAILABLE && CheckProxyResourceMatch(req, r) == Allow
    ensures ExecOne(verify, db, NewProxyReadGrant(req, t, p, r)).next == Done(Decided(req, Allow))
  {
    GrantLookup(db, g);
  }

  lemma HeldIsAllowed(verify: Verify, run: Run, n: nat, k: nat, req: NewProxyRequest, s: Reads)
    requires IsRun(verify, run) && n < |run.worlds| && ReadsHeld(verify, run, k, req, s) && s.i4 < n
    ensures AllowedBy(run.worlds[n], k, req)
  {
    RunOk(verify, run, s.i4);
    HeldVerdict(verify, run.worlds[s.i4].db, req, s.tenant, s.proxy, s.resource, s.grant);
    After(verify, run, s.i4, k, NewProxyReadGrant(req, s.tenant, s.proxy, s.resource));
    DoneStays(verify, run, s.i4 + 1, n, k, Decided(req, Allow));
  }

  /** A request served concurrently with anything else is allowed if and only if its own four statements read,
      one after the other, an enabled tenant with a matching token, its enabled proxy of the requested type,
      that proxy's available and matching resource, and an enabled grant of that resource to that tenant. */
  lemma AllowedIffReads(verify: Verify, run: Run, n: nat, k: nat, req: NewProxyRequest)
    requires IsRun(verify, run) && n < |run.worlds|
    ensures AllowedBy(run.worlds[n], k, req) <==> exists s :: ReadsHeld(verify, run, k, req, s) && s.i4 < n
  {
    if AllowedBy(run.worlds[n], k, req) {
      var s := AllowedReads(verify, run, n, k, req);
    }
    if s :| ReadsHeld(verify, run, k, req, s) && s.i4 < n {
      HeldIsAllowed(verify, run, n, k, req, s);
    }
  }

  lemma {:induction false} HandlersStay(verify: Verify, run: Run, i: nat, n: nat, k: nat)
    requires IsRun(verify, run) && i <= n < |run.worlds| && k in run.worlds[i].handlers
    ensures k in run.worlds[n].handlers
    decreases n
  {
    if i < n {
      HandlersStay(verify, run, i, n - 1, k);
      assert Next(verify, run.worlds[n - 1], run.actions[n - 1], run.worlds[n]);
    }
  }

  /** All reads of a request come after it arrived. */
  lemma ReadsFollowArrival(verify: Verify, run: Run, s: nat, n: nat, k: nat, req: NewProxyRequest) returns (r: Reads)
    requires IsRun(verify, run) && n < |run.worlds| && AllowedBy(run.worlds[n], k, req)
    requires s < |run.actions| && run.actions[s] == Spawn(k, NewProxy(req))
    ensures ReadsHeld(verify, run, k, req, r) && s < r.i1 < r.i2 < r.i3 < r.i4 < n
  {
    r := AllowedReads(verify, run, n, k, req);
    assert Next(verify, run.worlds[s], run.actions[s], run.worlds[s + 1]);
    if r.i1 <= s {
      HandlersStay(verify, run, r.i1, s, k);
    }
  }

  /** The identity of this request is refused. */
  ghost predicate LoginBlocked(verify: Verify, db: Db, req: NewProxyRequest) {
    HandleLogin(verify, db, req.user, req.token) != Allow
  }

  /** The proxy of this name is disabled, if its tenant has one. */
  ghost predicate ProxyBlocked(db: Db, req: NewProxyRequest) {
    forall p | p in db.proxies && OwnProxy(db, req, p) :: db.proxies[p].status != ENABLED
  }

  /** Its resource is disabled. */
  ghost predicate ResourceBlocked(db: Db, req: NewProxyRequest) {
    forall p | p in db.proxies && OwnProxy(db, req, p) && db.proxies[p].resourceId in db.resources ::
      db.resources[db.proxies[p].resourceId].status != AVAILABLE
  }

  /** The grant on its resource is disabled. */
  ghost predicate GrantBlocked(db: Db, req: NewProxyRequest) {
    forall p, g | p in db.proxies && OwnProxy(db, req, p) && g in db.grants ::
      db.grants[g].resourceId == db.proxies[p].resourceId ==> db.grants[g].status != ENABLED
  }

  ghost predicate OwnProxy(db: Db, req: NewProxyRequest, p: int)
    requires p in db.proxies
  {
    && db.proxies[p].name == req.name && db.proxies[p].tenantId in db.tenants
    && db.tenants[db.proxies[p].tenantId].code == req.user
  }

  lemma TenantReadNotBlocked(verify: Verify, run: Run, k: nat, req: NewProxyRequest, r: Reads)
    requires IsRun(verify, run) && ReadsHeld(verify, run, k, req, r)
    ensures !LoginBlocked(verify, run.worlds[r.i1].db, req)
  {
    RunOk(verify, run, r.i1);
    TenantLogsIn(verify, run.worlds[r.i1].db, req, r.tenant);
  }

  lemma ProxyReadNotBlocked(verify: Verify, run: Run, k: nat, req: NewProxyRequest, r: Reads)
    requires IsRun(verify, run) && ReadsHeld(verify, run, k, req, r)
    ensures !ProxyBlocked(run.worlds[r.i2].db, req)
  {
    RunEvolves(verify, run, r.i1, r.i2);
    assert OwnProxy(run.worlds[r.i2].db, req, r.proxy.id);
  }

  lemma ResourceReadNotBlocked(verify: Verify, run: Run, k: nat, req: NewProxyRequest, r: Reads)
    requires IsRun(verify, run) && ReadsHeld(verify, run, k, req, r)
    ensures !ResourceBlocked(run.worlds[r.i3].db, req)
  {
    RunEvolves(verify, run, r.i1, r.i3);
    RunEvolves(verify, run, r.i2, r.i3);
    assert OwnProxy(run.worlds[r.i3].db, req, r.proxy.id);
  }

  lemma GrantReadNotBlocked(verify: Verify, run: Run, k: nat, req: NewProxyRequest, r: Reads)
    requires IsRun(verify, run) && ReadsHeld(verify, run, k, req, r)
    ensures !GrantBlocked(run.worlds[r.i4].db, req)
  {
    RunEvolves(verify, run, r.i1, r.i4);
    RunEvolves(verify, run, r.i2, r.i4);
    assert OwnProxy(run.worlds[r.i4].db, req, r.proxy.id);
  }

  /** One and the same of the four conditions is bad in every world of (s, n). */
  ghost predicate BlockedThroughout(verify: Verify, run: Run, s: nat, n: nat, req: NewProxyRequest)
    requires n <= |run.worlds|
  {
    || (forall m: nat :: s < m < n ==> LoginBlocked(verify, run.worlds[m].db, req))
    || (forall m: nat :: s < m < n ==> ProxyBlocked(run.worlds[m].db, req))
    || (forall m: nat :: s < m < n ==> ResourceBlocked(run.worlds[m].db, req))
    || (forall m: nat :: s < m < n ==> GrantBlocked(run.worlds[m].db, req))
  }

  /** A request that arrives once its tenant, token, proxy, resource or grant has been revoked is refused for
      as long as that stays so, whatever it was allowed before. */
  lemma LateRequestRefused(verify: Verify, run: Run, s: nat, n: nat, k: nat, req: NewProxyRequest)
    requires IsRun(verify, run) && s < |run.actions| && run.actions[s] == Spawn(k, NewProxy(req)) && n < |run.worlds|
    requires BlockedThroughout(verify, run, s, n, req)
    ensures !AllowedBy(run.worlds[n], k, req)
  {
    if AllowedBy(run.worlds[n], k, req) {
      var r := ReadsFollowArrival(verify, run, s, n, k, req);
      TenantReadNotBlocked(verify, run, k, req, r);
      ProxyReadNotBlocked(verify, run, k, req, r);
      ResourceReadNotBlocked(verify, run, k, req, r);
      GrantReadNotBlocked(verify, run, k, req, r);
    }
  }

  lemma TenantLogsIn(verify: Verify, db: Db, req: NewProxyRequest, t: Tenant)
    requires Inv(db) && TenantHeld(verify, db, req, t)
    ensures HandleLogin(verify, db, req.user, req.token) == Allow
  {
    LoginIff(verify, db, req.user, req.token);
  }

  // ---- Login and Ping ----

  predicate AsksIdentity(q: Request) {
    q.Login? || q.Ping?
  }

  lemma BeforeAnswer(verify: Verify, db: Db, h: Handler, d: Decision)
    requires Inv(db) && HandlerOk(db, h) && !h.Done? && ExecOne(verify, db, h).next == Done(Answered(d))
    ensures if h.Start? then AsksIdentity(h.request) && d == HandleLogin(verify, db, h.request.user, h.request.token)
            else h.PingTouch? && d == Allow
  {
  }

  lemma BeforeTouch(verify: Verify, db: Db, h: Handler, next: Handler)
    requires !h.Done? && next.PingTouch? && ExecOne(verify, db, h).next == next
    ensures h.Start? && h.request.Ping? && HandleLogin(verify, db, h.request.user, h.request.token) == Allow
  {
  }

  /** The answer to an interleaved Login or Ping is the Login decision of the state in which its own first
      statement read the tenant, unless one of its statements failed, and then it rejects. */
  lemma AnswerReads(verify: Verify, run: Run, n: nat, k: nat, d: Decision) returns (i: nat, h: Handler, aborted: bool)
    requires IsRun(verify, run) && At(run, n, k, Done(Answered(d)))
    ensures i < n
    ensures if aborted then Aborts(run, i, k, h) && d == Reject(InternalError)
            else Executes(run, i, k, h) && h.Start? && AsksIdentity(h.request)
                 && d == HandleLogin(verify, run.worlds[i].db, h.request.user, h.request.token)
  {
    i, h := LastStep(verify, run, n, k, Done(Answered(d)));
    aborted := run.actions[i] == Abort(k);
    if !aborted {
      RunOk(verify, run, i);
      assert HandlerOk(run.worlds[i].db, h);
      BeforeAnswer(verify, run.worlds[i].db, h, d);
      if h.PingTouch? {
        var touch := h;
        i, h := LastStep(verify, run, i, k, touch);
        BeforeTouch(verify, run.worlds[i].db, h, touch);
      }
    }
  }
}
