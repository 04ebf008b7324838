/** What separate statements do not give, and exactly when they give it after all: whether the grant that
    CreateProxy checked still stands when it inserts, and whether NewProxy answers as one state would. */
module Interleaving {
  import opened Text
  import opened Model
  import opened Tables
  import opened Plugin
  import opened Machine
  import opened Safety
  import opened Trace
  import opened Ownership
  import Revocation
  import Isolation

  // ---- when what was read still stands ----

  /** A column that updates write and decisions read. */
  datatype Cell =
    | TenantStatus(id: int) | TokenHash(id: int) | ZoneStatus(id: int)
    | ProxyStatus(id: int) | ResourceStatus(id: int) | GrantStatus(id: int)

  predicate Present(db: Db, c: Cell) {
    match c
    case TenantStatus(id) => id in db.tenants
    case TokenHash(id) => id in db.tenants
    case ZoneStatus(id) => id in db.zones
    case ProxyStatus(id) => id in db.proxies
    case ResourceStatus(id) => id in db.resources
    case GrantStatus(id) => id in db.grants
  }

  function Value(db: Db, c: Cell): string
    requires Present(db, c)
  {
    match c
    case TenantStatus(id) => db.tenants[id].status
    case TokenHash(id) => db.tenants[id].tokenHash
    case ZoneStatus(id) => db.zones[id].status
    case ProxyStatus(id) => db.proxies[id].status
    case ResourceStatus(id) => db.resources[id].status
    case GrantStatus(id) => db.grants[id].status
  }

  /** What the statement of position h writes to the cell, if anything. */
  function WrittenBy(h: Handler, c: Cell): Option<string> {
    match h
    case Start(UpdateTenantStatus(id, s)) => if c == TenantStatus(id) then Some(s) else None
    case Start(UpdateTokenHash(id, hash)) => if c == TokenHash(id) && hash != "" then Some(hash) else None
    case Start(ResetToken(id, _, hash, _)) => if c == TokenHash(id) && hash != "" then Some(hash) else None
    case Start(UpdateZoneStatus(id, s)) => if c == ZoneStatus(id) then Some(s) else None
    case Start(UpdateProxyStatus(id, s)) => if c == ProxyStatus(id) then Some(s) else None
    case Start(UpdateResourceStatus(id, s)) => if c == ResourceStatus(id) then Some(s) else None
    case Start(UpdateGrantStatus(id, s)) => if c == GrantStatus(id) then Some(s) else None
    case _ => None
  }

  ghost function Written(run: Run, m: nat, c: Cell): Option<string>
    requires m < |run.actions| && m < |run.worlds|
  {
    var w, a := run.worlds[m], run.actions[m];
    if a.Exec? && a.k in w.handlers then WrittenBy(w.handlers[a.k], c) else None
  }

  ghost predicate Restores(run: Run, m: nat, c: Cell, good: string -> bool)
    requires m < |run.actions| && m < |run.worlds|
  {
    var s := Written(run, m, c);
    s.Some? && good(s.value)
  }

  ghost predicate Spoils(run: Run, m: nat, c: Cell, good: string -> bool)
    requires m < |run.actions| && m < |run.worlds|
  {
    var s := Written(run, m, c);
    s.Some? && !good(s.value)
  }

  /** In [i, j) every statement that spoils the cell is followed by one that restores it. */
  ghost predicate KeptAlive(run: Run, i: nat, j: nat, c: Cell, good: string -> bool)
    requires j <= |run.actions| && j <= |run.worlds|
  {
    forall m: nat | i <= m < j && Spoils(run, m, c, good) :: exists l: nat :: m < l < j && Restores(run, l, c, good)
  }

  ghost predicate CellMoves(a: Db, b: Db, c: Cell, written: Option<string>)
    requires Present(a, c)
  {
    Present(b, c) && Value(b, c) == if written.Some? then written.value else Value(a, c)
  }

  lemma TenantWriteMovesCell(db: Db, q: Request, c: Cell)
    requires Present(db, c) && WritesTenant(q)
    ensures CellMoves(db, StartOther(db, q).db, c, WrittenBy(Start(q), c))
  {
  }

  lemma StatusWriteMovesCell(db: Db, q: Request, c: Cell)
    requires Present(db, c) && WritesStatus(q)
    ensures CellMoves(db, StartOther(db, q).db, c, WrittenBy(Start(q), c))
  {
  }

  lemma AddingKeepsCell(a: Db, b: Db, c: Cell)
    requires Present(a, c) && OnlyAdds(a, b)
    ensures CellMoves(a, b, c, None)
  {
  }

  lemma StartMovesCell(verify: Verify, db: Db, q: Request, c: Cell)
    requires FreshIds(db) && Present(db, c)
    ensures CellMoves(db, ExecStart(verify, db, q).db, c, WrittenBy(Start(q), c))
  {
    if Creates(q) {
      Revocation.CreatingStartsOnlyAdd(db, q);
      AddingKeepsCell(db, StartCreate(db, q).db, c);
    } else if WritesTenant(q) {
      TenantWriteMovesCell(db, q, c);
    } else if WritesStatus(q) {
      StatusWriteMovesCell(db, q, c);
    }
  }

  lemma CreateMovesCell(db: Db, h: Handler, c: Cell)
    requires FreshIds(db) && Present(db, c) && IsCreate(h)
    ensures CellMoves(db, ExecCreate(db, h).db, c, None)
  {
    Revocation.CreatingStepsOnlyAdd(db, h);
    AddingKeepsCell(db, ExecCreate(db, h).db, c);
  }

  lemma PluginKeepsCell(db: Db, h: Handler, c: Cell)
    requires Present(db, c)
    ensures CellMoves(db, ExecPlugin(db, h).db, c, None)
  {
    PluginWrites(db, h);
  }

  lemma StepMovesCell(verify: Verify, db: Db, h: Handler, c: Cell)
    requires Inv(db) && Present(db, c) && !h.Done?
    ensures CellMoves(db, ExecOne(verify, db, h).db, c, WrittenBy(h, c))
  {
    InvGivesFreshIds(db);
    if h.Start? {
      StartMovesCell(verify, db, h.request, c);
    } else if IsCreate(h) {
      CreateMovesCell(db, h, c);
    } else if !IsFetch(h) {
      PluginKeepsCell(db, h, c);
    }
  }

  lemma CellNext(verify: Verify, run: Run, m: nat, c: Cell)
    requires IsRun(verify, run) && m < |run.actions| && Present(run.worlds[m].db, c)
    ensures CellMoves(run.worlds[m].db, run.worlds[m + 1].db, c, Written(run, m, c))
  {
    RunOk(verify, run, m);
    var w, a := run.worlds[m], run.actions[m];
    assert Next(verify, w, a, run.worlds[m + 1]);
    if a.Exec? {
      StepMovesCell(verify, w.db, w.handlers[a.k], c);
    }
  }

  lemma KeptAliveNext(run: Run, i: nat, j: nat, c: Cell, good: string -> bool)
    requires i <= j < |run.actions| && j < |run.worlds|
    ensures KeptAlive(run, i, j + 1, c, good) <==>
            !Spoils(run, j, c, good) && (Restores(run, j, c, good) || KeptAlive(run, i, j, c, good))
  {
    if !Spoils(run, j, c, good) && KeptAlive(run, i, j, c, good) {
      forall m: nat | i <= m < j + 1 && Spoils(run, m, c, good)
        ensures exists l: nat :: m < l < j + 1 && Restores(run, l, c, good)
      {
        var l: nat :| m < l < j && Restores(run, l, c, good);
      }
    }
    if KeptAlive(run, i, j + 1, c, good) && !Restores(run, j, c, good) {
      forall m: nat | i <= m < j && Spoils(run, m, c, good)
        ensures exists l: nat :: m < l < j && Restores(run, l, c, good)
      {
        var l: nat :| m < l < j + 1 && Restores(run, l, c, good);
      }
    }
  }

  lemma CellStandsNext(verify: Verify, run: Run, i: nat, j: nat, c: Cell, good: string -> bool)
    requires IsRun(verify, run) && i <= j < |run.actions| && Present(run.worlds[j].db, c)
    requires good(Value(run.worlds[j].db, c)) <==> KeptAlive(run, i, j, c, good)
    ensures Present(run.worlds[j + 1].db, c)
    ensures good(Value(run.worlds[j + 1].db, c)) <==> KeptAlive(run, i, j + 1, c, good)
  {
    CellNext(verify, run, j, c);
    KeptAliveNext(run, i, j, c, good);
  }

  /** A value that was good in one world of a run is good in a later one if and only if every statement that
      spoiled it in between was followed by one that restored it. */
  lemma {:induction false} CellStands(verify: Verify, run: Run, i: nat, j: nat, c: Cell, good: string -> bool)
    requires IsRun(verify, run) && i <= j < |run.worlds|
    requires Present(run.worlds[i].db, c) && good(Value(run.worlds[i].db, c))
    ensures Present(run.worlds[j].db, c)
    ensures good(Value(run.worlds[j].db, c)) <==> KeptAlive(run, i, j, c, good)
    decreases j
  {
    if i < j {
      CellStands(verify, run, i, j - 1, c, good);
      CellStandsNext(verify, run, i, j - 1, c, good);
    }
  }

  predicate Enabled(status: string) {
    status == ENABLED
  }

  predicate Available(status: string) {
    status == AVAILABLE
  }

  // ---- the grant of an insert ----

  lemma BeforeProxyInsert(verify: Verify, db: Db, h: Handler, next: Handler) returns (g: int)
    requires Inv(db) && !h.Done? && next.ProxyInsert? && ExecOne(verify, db, h).next == next
    ensures h.ProxyReadGrant? && h.input == next.input && h.localIP == next.localIP
    ensures g in db.grants && db.grants[g].resourceId == next.input.resourceId
    ensures db.grants[g].tenantId == next.input.tenantId && db.grants[g].status == ENABLED
  {
    if !h.ProxyReadGrant? {
      NoInsertBefore(verify, db, h);
    }
    g := GrantByResource(db, next.input.resourceId).value.id;
  }

  lemma NoInsertBefore(verify: Verify, db: Db, h: Handler)
    requires !h.Done? && !h.ProxyReadGrant?
    ensures !ExecOne(verify, db, h).next.ProxyInsert?
  {
  }

  /** Every proxy is inserted after its own handler saw its grant enabled, in an earlier statement; at the
      insert that grant is still enabled if and only if it was kept alive in between. */
  lemma InsertSeesLiveGrant(verify: Verify, run: Run, j: nat, k: nat, input: ProxyInput, localIP: string)
    returns (i: nat, g: int)
    requires IsRun(verify, run) && Executes(run, j, k, ProxyInsert(input, localIP))
    ensures i < j && exists res :: Executes(run, i, k, ProxyReadGrant(input, localIP, res))
    ensures var seen, now := run.worlds[i].db.grants, run.worlds[j].db.grants;
            && g in seen && seen[g].status == ENABLED && g in now
            && now[g].resourceId == input.resourceId && now[g].tenantId == input.tenantId
            && (now[g].status == ENABLED <==> KeptAlive(run, i, j, GrantStatus(g), Enabled))
  {
    var h;
    i, h := LastStep(verify, run, j, k, ProxyInsert(input, localIP));
    RunOk(verify, run, i);
    g := BeforeProxyInsert(verify, run.worlds[i].db, h, ProxyInsert(input, localIP));
    assert Executes(run, i, k, ProxyReadGrant(input, localIP, h.resource));
    RunEvolves(verify, run, i, j);
    CellStands(verify, run, i, j, GrantStatus(g), Enabled);
  }

  // ---- the zone of a subdomain ----

  predicate NotEnabled(status: string) {
    status != "enabled"
  }

  /** In a zone that was disabled at one moment of a run, a subdomain whose handler reads the zone later is
      refused there, unless the last statement on the zone's status in between has enabled it again. */
  lemma DisabledZoneRefuses(verify: Verify, run: Run, i: nat, j: nat, k: nat, value: string, z: int)
    requires IsRun(verify, run) && i <= j && Executes(run, j, k, SubdomainReadZone(value, z))
    requires z in run.worlds[i].db.zones && run.worlds[i].db.zones[z].status != "enabled"
    ensures At(run, j + 1, k, Done(Failed(DomainZoneDisabled))) <==> KeptAlive(run, i, j, ZoneStatus(z), NotEnabled)
  {
    CellStands(verify, run, i, j, ZoneStatus(z), NotEnabled);
    After(verify, run, j, k, SubdomainReadZone(value, z));
  }

  /** In particular as long as no statement enables it. */
  lemma DisabledZoneStays(verify: Verify, run: Run, i: nat, j: nat, k: nat, value: string, z: int)
    requires IsRun(verify, run) && i <= j && Executes(run, j, k, SubdomainReadZone(value, z))
    requires z in run.worlds[i].db.zones && run.worlds[i].db.zones[z].status != "enabled"
    requires forall m: nat, l: nat | i <= m < j :: !Executes(run, m, l, Start(UpdateZoneStatus(z, "enabled")))
    ensures At(run, j + 1, k, Done(Failed(DomainZoneDisabled)))
  {
    forall m: nat | i <= m < j ensures !Spoils(run, m, ZoneStatus(z), NotEnabled) {
      if Spoils(run, m, ZoneStatus(z), NotEnabled) {
        assert Executes(run, m, run.actions[m].k, Start(UpdateZoneStatus(z, "enabled")));
      }
    }
    DisabledZoneRefuses(verify, run, i, j, k, value, z);
  }

  lemma BeforeSubdomainInsert(verify: Verify, db: Db, h: Handler, value: string, z: int)
    requires !h.Done? && ExecOne(verify, db, h).next == ResourceInsert("subdomain", value, Some(z))
    ensures h == SubdomainReadZone(value, z) && z in db.zones && db.zones[z].status == "enabled"
  {
  }

  /** Every subdomain is inserted after its own handler saw its zone enabled; at the insert the zone is still
      enabled if and only if it was kept enabled in between. */
  lemma InsertSeesEnabledZone(verify: Verify, run: Run, j: nat, k: nat, value: string, z: int) returns (i: nat)
    requires IsRun(verify, run) && Executes(run, j, k, ResourceInsert("subdomain", value, Some(z)))
    ensures i < j && Executes(run, i, k, SubdomainReadZone(value, z))
    ensures var seen, now := run.worlds[i].db.zones, run.worlds[j].db.zones;
            && z in seen && seen[z].status == "enabled" && z in now
            && (now[z].status == "enabled" <==> KeptAlive(run, i, j, ZoneStatus(z), Enabled))
  {
    var h;
    i, h := LastStep(verify, run, j, k, ResourceInsert("subdomain", value, Some(z)));
    BeforeSubdomainInsert(verify, run.worlds[i].db, h, value, z);
    CellStands(verify, run, i, j, ZoneStatus(z), Enabled);
  }

  // ---- when an interleaved answer is the answer of one state ----

  /** Position h of the handler fits having read everything in the state db. */
  ghost predicate Snapshot(verify: Verify, db: Db, req: NewProxyRequest, h: Handler, aborted: bool) {
    match h
    case NewProxyReadProxy(q, tenant) => !aborted && q == req && Authorized(verify, db, req, tenant)
    case NewProxyReadResource(q, tenant, p) =>
      && !aborted && q == req && Authorized(verify, db, req, tenant)
      && var ctx := GetProxyAuthContext(db, tenant.id, req.name); ctx.Ok? && ctx.value.proxy == p
    case NewProxyReadGrant(q, tenant, p, r) =>
      && !aborted && q == req && Authorized(verify, db, req, tenant)
      && var ctx := GetProxyAuthContext(db, tenant.id, req.name);
         ctx.Ok? && ctx.value.proxy == p && ctx.value.resource == r
    case Done(o) =>
      o == Decided(req, if aborted then Reject(InternalError) else HandleNewProxy(verify, db, req))
    case _ => false
  }

  ghost predicate Authorized(verify: Verify, db: Db, req: NewProxyRequest, tenant: Tenant) {
    AuthTenant(verify, db, req.user, req.token) == Ok(tenant) && CheckRequest(req).None?
  }

  lemma SnapshotStart(verify: Verify, db: Db, req: NewProxyRequest)
    ensures Snapshot(verify, db, req, ExecOne(verify, db, Start(NewProxy(req))).next, false)
  {
  }

  lemma SnapshotLookup(verify: Verify, base: Db, db: Db, req: NewProxyRequest, h: Handler)
    requires Inv(base) && Inv(db) && Snapshot(verify, base, req, h, false) && !h.Done?
    requires GetProxyAuthContext(base, h.tenant.id, req.name) == GetProxyAuthContext(db, h.tenant.id, req.name)
    ensures Snapshot(verify, base, req, ExecPlugin(db, h).next, false)
  {
    var row := ProxyByName(db, h.tenant.id, req.name);
    if row.Some? {
      assert ProxyOk(row.value, db.resources, db.grants);
    }
  }

  lemma SnapshotAbort(verify: Verify, base: Db, req: NewProxyRequest, h: Handler)
    requires Snapshot(verify, base, req, h, false) && !h.Done?
    ensures Snapshot(verify, base, req, AfterAbort(h), true)
  {
  }

  ghost predicate AbortedIn(run: Run, i: nat, n: nat, k: nat)
    requires n <= |run.actions|
  {
    exists m: nat :: i <= m < n && run.actions[m] == Abort(k)
  }

  /** No statement of [i, n) touches a row of the tenant with this code. */
  ghost predicate Undisturbed(run: Run, i: nat, n: nat, user: string)
    requires i < |run.worlds| && n <= |run.actions| && n <= |run.worlds|
  {
    forall t | t in run.worlds[i].db.tenants && run.worlds[i].db.tenants[t].code == user ::
      forall m: nat :: i <= m < n ==> !Isolation.TouchedAt(run, m, t)
  }

  lemma SnapshotExec(verify: Verify, run: Run, i: nat, n: nat, req: NewProxyRequest, h: Handler)
    requires IsRun(verify, run) && i < n < |run.actions| && Undisturbed(run, i, n, req.user) && !h.Done?
    requires Snapshot(verify, run.worlds[i].db, req, h, false)
    ensures Snapshot(verify, run.worlds[i].db, req, ExecPlugin(run.worlds[n].db, h).next, false)
  {
    var base, db := run.worlds[i].db, run.worlds[n].db;
    RunOk(verify, run, i);
    RunOk(verify, run, n);
    Isolation.UntouchedView(verify, run, i, n, h.tenant.id);
    Isolation.SameContext(base, db, h.tenant.id, req.name);
    SnapshotLookup(verify, base, db, req, h);
  }

  lemma SnapshotNext(verify: Verify, run: Run, i: nat, n: nat, k: nat, req: NewProxyRequest)
    requires IsRun(verify, run) && i < n < |run.actions| && Undisturbed(run, i, n, req.user)
    requires k in run.worlds[n].handlers
    requires Snapshot(verify, run.worlds[i].db, req, run.worlds[n].handlers[k], AbortedIn(run, i, n, k))
    ensures k in run.worlds[n + 1].handlers
    ensures Snapshot(verify, run.worlds[i].db, req, run.worlds[n + 1].handlers[k], AbortedIn(run, i, n + 1, k))
  {
    var base, w, a := run.worlds[i].db, run.worlds[n], run.actions[n];
    assert Next(verify, w, a, run.worlds[n + 1]);
    var h := w.handlers[k];
    if a == Exec(k) {
      SnapshotExec(verify, run, i, n, req, h);
    } else if a == Abort(k) {
      SnapshotAbort(verify, base, req, h);
    }
    AbortedNext(run, i, n, k);
  }

  lemma AbortedNext(run: Run, i: nat, n: nat, k: nat)
    requires i <= n < |run.actions|
    ensures AbortedIn(run, i, n + 1, k) <==> AbortedIn(run, i, n, k) || run.actions[n] == Abort(k)
  {
    if m: nat :| i <= m < n && run.actions[m] == Abort(k) {
      assert m < n + 1;
    }
  }

  lemma {:induction false} SnapshotKept(verify: Verify, run: Run, i: nat, n: nat, k: nat, req: NewProxyRequest)
    requires IsRun(verify, run) && Executes(run, i, k, Start(NewProxy(req))) && i < n < |run.worlds|
    requires Undisturbed(run, i, n, req.user)
    ensures k in run.worlds[n].handlers
    ensures Snapshot(verify, run.worlds[i].db, req, run.worlds[n].handlers[k], AbortedIn(run, i, n, k))
    decreases n
  {
    if n == i + 1 {
      SnapshotStart(verify, run.worlds[i].db, req);
      After(verify, run, i, k, Start(NewProxy(req)));
    } else {
      SnapshotKept(verify, run, i, n - 1, k, req);
      SnapshotNext(verify, run, i, n - 1, k, req);
    }
  }

  /** If no statement touches the tenant's rows between the first and the last read of a request, whatever
      else happens, its answer is the decision of the state its first statement saw; an error on one of its
      own statements rejects it. */
  lemma UndisturbedIsSnapshot(verify: Verify, run: Run, i: nat, n: nat, k: nat, req: NewProxyRequest, o: Outcome)
    requires IsRun(verify, run) && Executes(run, i, k, Start(NewProxy(req))) && i < n
    requires At(run, n, k, Done(o)) && Undisturbed(run, i, n, req.user)
    ensures o == Decided(req, if AbortedIn(run, i, n, k) then Reject(InternalError)
                              else HandleNewProxy(verify, run.worlds[i].db, req))
  {
    SnapshotKept(verify, run, i, n, k, req);
  }

  /** Rows t, p, r and g are those the request names and its endpoint fits. */
  ghost predicate Names(db: Db, req: NewProxyRequest, t: int, p: int, r: int, g: int) {
    && t in db.tenants && db.tenants[t].code == req.user
    && p in db.proxies && db.proxies[p].tenantId == t && db.proxies[p].name == req.name
    && db.proxies[p].resourceId == r && db.proxies[p].proxyType == req.proxyType
    && r in db.resources && SameEndpoint(req, db.resources[r].value)
    && g in db.grants && db.grants[g].resourceId == r && db.grants[g].tenantId == t
    && req.token != "" && req.customDomains == []
  }

  predicate InUse(verify: Verify, db: Db, token: string, t: int, p: int, r: int, g: int)
    requires t in db.tenants && p in db.proxies && r in db.resources && g in db.grants
  {
    && db.tenants[t].status == ENABLED && verify(db.tenants[t].tokenHash, token)
    && db.proxies[p].status == ENABLED && db.resources[r].status == AVAILABLE && db.grants[g].status == ENABLED
  }

  lemma AllowedIffInUse(verify: Verify, db: Db, req: NewProxyRequest, t: int, p: int, r: int, g: int)
    requires Inv(db) && Names(db, req, t, p, r, g)
    ensures HandleNewProxy(verify, db, req) == Allow <==> InUse(verify, db, req.token, t, p, r, g)
  {
    if HandleNewProxy(verify, db, req) == Allow {
      var t', p', r', g' := AllowedIsEntitled(verify, db, req);
      assert db.tenants[t'].code == db.tenants[t].code && db.proxies[p'].name == db.proxies[p].name;
      assert db.grants[g'].resourceId == db.grants[g].resourceId;
    }
    if EntitledBy(verify, db, req, t, p, r, g) {
      EntitledIsAllowed(verify, db, req, t, p, r, g);
    }
  }

  lemma TenantNamed(verify: Verify, run: Run, k: nat, req: NewProxyRequest, s: Reads)
    requires IsRun(verify, run) && ReadsHeld(verify, run, k, req, s)
    ensures var tenants := run.worlds[s.i4].db.tenants;
            s.tenant.id in tenants && tenants[s.tenant.id].code == req.user
  {
    RunEvolves(verify, run, s.i1, s.i4);
  }

  lemma ProxyNamed(verify: Verify, run: Run, k: nat, req: NewProxyRequest, s: Reads)
    requires IsRun(verify, run) && ReadsHeld(verify, run, k, req, s)
    ensures var proxies := run.worlds[s.i4].db.proxies;
            s.proxy.id in proxies && proxies[s.proxy.id] == s.proxy.(status := proxies[s.proxy.id].status)
  {
    RunEvolves(verify, run, s.i2, s.i4);
  }

  lemma ResourceNamed(verify: Verify, run: Run, k: nat, req: NewProxyRequest, s: Reads)
    requires IsRun(verify, run) && ReadsHeld(verify, run, k, req, s)
    ensures var resources := run.worlds[s.i4].db.resources;
            s.resource.id in resources &&
            resources[s.resource.id] == s.resource.(status := resources[s.resource.id].status)
  {
    RunEvolves(verify, run, s.i3, s.i4);
  }

  lemma MatchedEndpoint(req: NewProxyRequest, r: Resource)
    requires CheckProxyResourceMatch(req, r) == Allow
    ensures SameEndpoint(req, r.value)
  {
    ConstantsDistinct();
  }

  lemma ReadsName(verify: Verify, run: Run, k: nat, req: NewProxyRequest, s: Reads)
    requires IsRun(verify, run) && ReadsHeld(verify, run, k, req, s)
    ensures Names(run.worlds[s.i4].db, req, s.tenant.id, s.proxy.id, s.resource.id, s.grant)
  {
    MatchedEndpoint(req, s.resource);
    TenantNamed(verify, run, k, req, s);
    ProxyNamed(verify, run, k, req, s);
    ResourceNamed(verify, run, k, req, s);
  }

  lemma NamesBefore(a: Db, b: Db, req: NewProxyRequest, t: int, p: int, r: int, g: int)
    requires Evolves(a, b) && Names(b, req, t, p, r, g)
    requires t in a.tenants && p in a.proxies && r in a.resources && g in a.grants
    ensures Names(a, req, t, p, r, g)
  {
  }

  lemma NamesAfter(a: Db, b: Db, req: NewProxyRequest, t: int, p: int, r: int, g: int)
    requires Evolves(a, b) && Names(a, req, t, p, r, g)
    ensures Names(b, req, t, p, r, g)
  {
  }

  /** Only these rows can entitle the request, before as well. */
  lemma AllowedHasRows(verify: Verify, a: Db, b: Db, req: NewProxyRequest, t: int, p: int, r: int, g: int)
    requires Inv(a) && Inv(b) && Evolves(a, b) && Names(b, req, t, p, r, g)
    requires HandleNewProxy(verify, a, req) == Allow
    ensures t in a.tenants && p in a.proxies && r in a.resources && g in a.grants
  {
    var t', p', r', g' := AllowedIsEntitled(verify, a, req);
    assert b.tenants[t'].code == b.tenants[t].code;
    assert b.proxies[p'].name == b.proxies[p].name;
    assert b.grants[g'].resourceId == b.grants[g].resourceId;
  }

  function Matches(verify: Verify, token: string): string -> bool {
    hash => verify(hash, token)
  }

  ghost predicate Good(db: Db, c: Cell, good: string -> bool) {
    Present(db, c) && good(Value(db, c))
  }

  /** The five values a request depends on are all good in this state. */
  ghost predicate Live(verify: Verify, db: Db, req: NewProxyRequest, s: Reads) {
    && Good(db, TenantStatus(s.tenant.id), Enabled)
    && Good(db, TokenHash(s.tenant.id), Matches(verify, req.token))
    && Good(db, ProxyStatus(s.proxy.id), Enabled)
    && Good(db, ResourceStatus(s.resource.id), Available)
    && Good(db, GrantStatus(s.grant), Enabled)
  }

  lemma LiveIffInUse(verify: Verify, db: Db, req: NewProxyRequest, s: Reads)
    requires s.tenant.id in db.tenants && s.proxy.id in db.proxies
    requires s.resource.id in db.resources && s.grant in db.grants
    ensures Live(verify, db, req, s) <==>
            InUse(verify, db, req.token, s.tenant.id, s.proxy.id, s.resource.id, s.grant)
  {
  }

  lemma NamedAllowedIffLive(verify: Verify, db: Db, req: NewProxyRequest, s: Reads)
    requires Inv(db) && Names(db, req, s.tenant.id, s.proxy.id, s.resource.id, s.grant)
    ensures HandleNewProxy(verify, db, req) == Allow <==> Live(verify, db, req, s)
  {
    AllowedIffInUse(verify, db, req, s.tenant.id, s.proxy.id, s.resource.id, s.grant);
    LiveIffInUse(verify, db, req, s);
  }

  lemma EarlierAllowedIffLive(verify: Verify, a: Db, b: Db, req: NewProxyRequest, s: Reads)
    requires Inv(a) && Inv(b) && Evolves(a, b) && Names(b, req, s.tenant.id, s.proxy.id, s.resource.id, s.grant)
    ensures HandleNewProxy(verify, a, req) == Allow <==> Live(verify, a, req, s)
  {
    var t, p, r, g := s.tenant.id, s.proxy.id, s.resource.id, s.grant;
    if HandleNewProxy(verify, a, req) == Allow {
      AllowedHasRows(verify, a, b, req, t, p, r, g);
    }
    if t in a.tenants && p in a.proxies && r in a.resources && g in a.grants {
      NamesBefore(a, b, req, t, p, r, g);
      NamedAllowedIffLive(verify, a, req, s);
    }
  }

  lemma AllowedIffLiveAt(verify: Verify, run: Run, k: nat, req: NewProxyRequest, s: Reads, m: nat)
    requires IsRun(verify, run) && ReadsHeld(verify, run, k, req, s) && m < |run.worlds|
    ensures HandleNewProxy(verify, run.worlds[m].db, req) == Allow <==> Live(verify, run.worlds[m].db, req, s)
  {
    var db, last := run.worlds[m].db, run.worlds[s.i4].db;
    RunOk(verify, run, m);
    RunOk(verify, run, s.i4);
    ReadsName(verify, run, k, req, s);
    if m <= s.i4 {
      RunEvolves(verify, run, m, s.i4);
      EarlierAllowedIffLive(verify, db, last, req, s);
    } else {
      RunEvolves(verify, run, s.i4, m);
      NamesAfter(last, db, req, s.tenant.id, s.proxy.id, s.resource.id, s.grant);
      NamedAllowedIffLive(verify, db, req, s);
    }
  }

  /** A value read good at step `read` is good in world m: kept alive since, if it was read by then, and
      otherwise good there already. */
  ghost predicate Stands(run: Run, read: nat, m: nat, c: Cell, good: string -> bool)
    requires m <= |run.actions| && m < |run.worlds|
  {
    if read <= m then KeptAlive(run, read, m, c, good) else Good(run.worlds[m].db, c, good)
  }

  lemma StandsIffGood(verify: Verify, run: Run, read: nat, m: nat, c: Cell, good: string -> bool)
    requires IsRun(verify, run) && read < |run.worlds| && m < |run.worlds|
    requires Good(run.worlds[read].db, c, good)
    ensures Stands(run, read, m, c, good) <==> Good(run.worlds[m].db, c, good)
  {
    if read <= m {
      CellStands(verify, run, read, m, c, good);
    }
  }

  /** In world m each of the five values stands, counted from the request's own read of it. */
  ghost predicate AllStand(verify: Verify, run: Run, req: NewProxyRequest, s: Reads, m: nat)
    requires m <= |run.actions| && m < |run.worlds|
  {
    && Stands(run, s.i1, m, TenantStatus(s.tenant.id), Enabled)
    && Stands(run, s.i1, m, TokenHash(s.tenant.id), Matches(verify, req.token))
    && Stands(run, s.i2, m, ProxyStatus(s.proxy.id), Enabled)
    && Stands(run, s.i3, m, ResourceStatus(s.resource.id), Available)
    && Stands(run, s.i4, m, GrantStatus(s.grant), Enabled)
  }

  lemma AllStandIffLive(verify: Verify, run: Run, k: nat, req: NewProxyRequest, s: Reads, m: nat)
    requires IsRun(verify, run) && ReadsHeld(verify, run, k, req, s) && m < |run.worlds|
    ensures AllStand(verify, run, req, s, m) <==> Live(verify, run.worlds[m].db, req, s)
  {
    StandsIffGood(verify, run, s.i1, m, TenantStatus(s.tenant.id), Enabled);
    StandsIffGood(verify, run, s.i1, m, TokenHash(s.tenant.id), Matches(verify, req.token));
    StandsIffGood(verify, run, s.i2, m, ProxyStatus(s.proxy.id), Enabled);
    StandsIffGood(verify, run, s.i3, m, ResourceStatus(s.resource.id), Available);
    StandsIffGood(verify, run, s.i4, m, GrantStatus(s.grant), Enabled);
  }

  /** Which states of a run allow an interleaved request that was allowed: exactly those in which every value
      stands that one of its statements has read by then or is still to read. */
  lemma AllowedInWorld(verify: Verify, run: Run, k: nat, req: NewProxyRequest, s: Reads, m: nat)
    requires IsRun(verify, run) && ReadsHeld(verify, run, k, req, s) && m < |run.worlds|
    ensures HandleNewProxy(verify, run.worlds[m].db, req) == Allow <==> AllStand(verify, run, req, s, m)
  {
    AllowedIffLiveAt(verify, run, k, req, s, m);
    AllStandIffLive(verify, run, k, req, s, m);
  }

  /** An allowed request is allowed by some one state of a stretch of the run, say from its arrival to its
      answer, if and only if all five values stand together at some moment of it. */
  lemma AllowedByOneState(verify: Verify, run: Run, k: nat, req: NewProxyRequest, s: Reads, first: nat, last: nat)
    requires IsRun(verify, run) && ReadsHeld(verify, run, k, req, s) && last < |run.worlds|
    ensures (exists m: nat :: first <= m <= last && HandleNewProxy(verify, run.worlds[m].db, req) == Allow) <==>
            (exists m: nat :: first <= m <= last && AllStand(verify, run, req, s, m))
  {
    forall m: nat | first <= m <= last
      ensures HandleNewProxy(verify, run.worlds[m].db, req) == Allow <==> AllStand(verify, run, req, s, m)
    {
      AllowedInWorld(verify, run, k, req, s, m);
    }
  }
}
