/** Admin and plugin requests served at the same time over one connection. Each SQL statement is one
    atomic step; a handler in flight is a program counter with the values it has already read, and any
    number of handlers interleave. A handler that runs without interference behaves as the sequential
    method (see Store.dfy). */
module Machine {
  import opened Text
  import opened Model
  import opened Tables
  import opened Plugin
  import Join
  import opened TenantConfig

  datatype Request =
    | CreateTenant(tenant: TenantInput)
    | CreateZone(name: string, zone: string)
    | CreateSubdomain(value: string, zoneId: int)
    | CreatePort(udp: bool, port: int)
    | GrantResource(tenantId: int, resourceId: int)
    | CreateProxy(proxy: ProxyInput)
    | UpdateTenantStatus(id: int, status: string)
    | UpdateTokenHash(id: int, hash: string)
    | UpdateZoneStatus(id: int, status: string)
    | UpdateResourceStatus(id: int, status: string)
    | UpdateGrantStatus(id: int, status: string)
    | UpdateProxyStatus(id: int, status: string)
    | Login(user: string, token: string)
    | NewProxy(req: NewProxyRequest)
    | Ping(user: string, token: string, now: int)
    | ResetToken(id: int, token: string, hash: string, server: Server)
    | GetConfig(id: int, server: Server)
    | RegisterTenant(tenant: TenantInput, token: string, server: Server)

  datatype Outcome =
    | Failed(error: Error)
    | Updated
    | TenantRow(tenant: Tenant) | ZoneRow(zone: Zone) | ResourceRow(resource: Resource)
    | GrantRow(grant: Grant) | ProxyRow(proxy: Proxy)
    | Answered(answer: Decision)
    | Decided(req: NewProxyRequest, decision: Decision)
    | ConfigFile(token: string, text: Option<string>)

  /** The next statement each handler will send, with its locals. */
  datatype Handler =
    | Start(request: Request)
    | SubdomainReadZone(value: string, zoneId: int)
    | ResourceInsert(typ: string, value: string, zone: Option<int>)
    | GrantReadResource(tenantId: int, resourceId: int)
    | GrantReadGrant(tenantId: int, resourceId: int)
    | GrantInsert(tenantId: int, resourceId: int)
    | ProxyReadGrant(input: ProxyInput, localIP: string, resource: Resource)
    | ProxyInsert(input: ProxyInput, localIP: string)
    | FetchTenant(id: int) | FetchZone(id: int) | FetchResource(id: int) | FetchGrant(id: int) | FetchProxy(id: int)
    | NewProxyReadProxy(req: NewProxyRequest, tenant: Tenant)
    | NewProxyReadResource(req: NewProxyRequest, tenant: Tenant, proxy: Proxy)
    | NewProxyReadGrant(req: NewProxyRequest, tenant: Tenant, proxy: Proxy, resource: Resource)
    | PingTouch(id: int, now: int)
    | ResetReadTenant(id: int, token: string, server: Server)
    | RegisterReadTenant(id: int, token: string, server: Server)
    | ConfigJoin(id: int, code: string, token: string, server: Server, tolerant: bool)
    | Done(outcome: Outcome)

  datatype Effect = Effect(db: Db, next: Handler)

  function Finish(db: Db, outcome: Outcome): Effect {
    Effect(db, Done(outcome))
  }

  function Fail(db: Db, error: Error): Effect {
    Finish(db, Failed(error))
  }

  /** An UPDATE by id: the row must exist. */
  function AfterUpdate(db: Db, r: Option<Db>, missing: Error): Effect {
    match r
    case Some(db') => Finish(db', Updated)
    case None => Fail(db, missing)
  }

  function LocalIPOf(input: ProxyInput): string {
    var trimmed := TrimSpace(input.localIP);
    if trimmed == "" then DEFAULT_LOCAL_IP else trimmed
  }

  /** What a handler answers with the file, or without one. A tolerant handler, which has a token to show,
      answers with an empty file. */
  function FileOutcome(token: string, text: Option<string>, tolerant: bool): Outcome {
    if text.None? && !tolerant then Failed(Internal) else ConfigFile(token, text)
  }

  predicate Creates(q: Request) {
    || q.CreateTenant? || q.RegisterTenant? || q.CreateZone?
    || q.CreateSubdomain? || q.CreatePort? || q.GrantResource? || q.CreateProxy?
  }

  predicate Asks(q: Request) {
    q.Login? || q.NewProxy? || q.Ping?
  }

  ghost function StartCreate(db: Db, q: Request): Effect
    requires Creates(q)
  {
    match q
    case CreateTenant(input) =>
      if Blank(input.code) || Blank(input.name) || input.tokenHash == "" then Fail(db, EmptyField)
      else (match InsertTenant(db, input)
            case None => Fail(db, DuplicateCode)
            case Some(db') => Effect(db', FetchTenant(db'.lastTenant)))
    case RegisterTenant(input, token, server) =>
      if Blank(input.code) || Blank(input.name) || input.tokenHash == "" then Fail(db, EmptyField)
      else (match InsertTenant(db, input)
            case None => Fail(db, DuplicateCode)
            case Some(db') => Effect(db', RegisterReadTenant(db'.lastTenant, token, server)))
    case CreateZone(name, zone) =>
      if Blank(name) || Blank(zone) then Fail(db, EmptyField)
      else (match InsertZone(db, name, zone)
            case None => Fail(db, DuplicateZone)
            case Some(db') => Effect(db', FetchZone(db'.lastZone)))
    case CreateSubdomain(value, zoneId) =>
      if Blank(value) then Fail(db, EmptyField)
      else if !HasEnabledZone(db) then Fail(db, NoEnabledDomainZone)
      else Effect(db, SubdomainReadZone(value, zoneId))
    case CreatePort(udp, port) =>
      if !ValidPort(port) then Fail(db, InvalidPort)
      else Effect(db, ResourceInsert(if udp then UDP_PORT else TCP_PORT, Itoa(port), None))
    case GrantResource(t, r) =>
      if t !in db.tenants then Fail(db, TenantNotFound)
      else if db.tenants[t].status != ENABLED then Fail(db, Error.TenantDisabled)
      else Effect(db, GrantReadResource(t, r))
    case CreateProxy(input) =>
      if Blank(input.name) then Fail(db, EmptyField)
      else if !ValidProxyType(input.proxyType) then Fail(db, InvalidProxyType)
      else if !ValidPort(input.localPort) then Fail(db, InvalidPort)
      else if input.resourceId !in db.resources then Fail(db, Error.ResourceNotFound)
      else Effect(db, ProxyReadGrant(input, LocalIPOf(input), db.resources[input.resourceId]))
  }

  ghost function StartPlugin(verify: Verify, db: Db, q: Request): Effect
    requires Asks(q)
  {
    match q
    case Login(user, token) =>
      Finish(db, Answered(HandleLogin(verify, db, user, token)))
    case NewProxy(req) =>
      (match AuthTenant(verify, db, req.user, req.token)
       case Err(reason) => Finish(db, Decided(req, Reject(reason)))
       case Ok(tenant) =>
         (match CheckRequest(req)
          case Some(reason) => Finish(db, Decided(req, Reject(reason)))
          case None => Effect(db, NewProxyReadProxy(req, tenant))))
    case Ping(user, token, now) =>
      (match AuthTenant(verify, db, user, token)
       case Err(reason) => Finish(db, Answered(Reject(reason)))
       case Ok(tenant) => Effect(db, PingTouch(tenant.id, now)))
  }

  ghost function StartOther(db: Db, q: Request): Effect {
    match q
    case UpdateTenantStatus(id, s) => AfterUpdate(db, SetTenantStatus(db, id, s), TenantNotFound)
    case UpdateTokenHash(id, h) =>
      if h == "" then Fail(db, EmptyField) else AfterUpdate(db, SetTokenHash(db, id, h), TenantNotFound)
    case UpdateZoneStatus(id, s) => AfterUpdate(db, SetZoneStatus(db, id, s), DomainZoneNotFound)
    case UpdateResourceStatus(id, s) => AfterUpdate(db, SetResourceStatus(db, id, s), Error.ResourceNotFound)
    case UpdateGrantStatus(id, s) => AfterUpdate(db, SetGrantStatus(db, id, s), GrantNotFound)
    case UpdateProxyStatus(id, s) => AfterUpdate(db, SetProxyStatus(db, id, s), ProxyNotFound)
    case ResetToken(id, token, hash, server) =>
      if hash == "" then Fail(db, EmptyField)
      else (match SetTokenHash(db, id, hash)
            case None => Fail(db, TenantNotFound)
            case Some(db') => Effect(db', ResetReadTenant(id, token, server)))
    case GetConfig(id, server) =>
      if id !in db.tenants then Fail(db, TenantNotFound)
      else Effect(db, ConfigJoin(id, db.tenants[id].code, PLACEHOLDER, server, false))
    case _ => Fail(db, Internal)
  }

  ghost function ExecStart(verify: Verify, db: Db, q: Request): Effect {
    if Creates(q) then StartCreate(db, q)
    else if Asks(q) then StartPlugin(verify, db, q)
    else StartOther(db, q)
  }

  ghost function ExecCreate(db: Db, h: Handler): Effect {
    match h
    case SubdomainReadZone(value, zoneId) =>
      if zoneId !in db.zones then Fail(db, SubdomainNeedsZone)
      else if db.zones[zoneId].status != ENABLED then Fail(db, DomainZoneDisabled)
      else Effect(db, ResourceInsert(SUBDOMAIN, value, Some(zoneId)))
    case ResourceInsert(typ, value, zone) =>
      (match InsertResource(db, typ, value, zone)
       case None => Fail(db, DuplicateResource)
       case Some(db') => Effect(db', FetchResource(db'.lastResource)))
    case GrantReadResource(t, r) =>
      if r !in db.resources then Fail(db, Error.ResourceNotFound)
      else if db.resources[r].status != AVAILABLE then Fail(db, Error.ResourceDisabled)
      else Effect(db, GrantReadGrant(t, r))
    case GrantReadGrant(t, r) =>
      if GrantByResource(db, r).Some? then Fail(db, ResourceAlreadyGranted) else Effect(db, GrantInsert(t, r))
    case GrantInsert(t, r) =>
      (match InsertGrant(db, t, r)
       case None => Fail(db, ResourceAlreadyGranted)
       case Some(db') => Effect(db', FetchGrant(db'.lastGrant)))
    case ProxyReadGrant(input, localIP, resource) =>
      (match GrantByResource(db, input.resourceId)
       case None => Fail(db, ResourceNotGrantedToTenant)
       case Some(g) =>
         if g.tenantId != input.tenantId || g.status != ENABLED then Fail(db, ResourceNotGrantedToTenant)
         else if !ProxyTypeMatchesResource(input.proxyType, resource.typ) then Fail(db, ProxyTypeResourceMismatch)
         else Effect(db, ProxyInsert(input, localIP)))
    case ProxyInsert(input, localIP) =>
      (match InsertProxy(db, input, localIP)
       case None => Fail(db, DuplicateProxyName)
       case Some(db') => Effect(db', FetchProxy(db'.lastProxy)))
    case _ => Fail(db, Internal)
  }

  ghost function ExecFetch(db: Db, h: Handler): Effect {
    match h
    case FetchTenant(id) => if id in db.tenants then Finish(db, TenantRow(db.tenants[id])) else Fail(db, TenantNotFound)
    case FetchZone(id) => if id in db.zones then Finish(db, ZoneRow(db.zones[id])) else Fail(db, DomainZoneNotFound)
    case FetchResource(id) =>
      if id in db.resources then Finish(db, ResourceRow(db.resources[id])) else Fail(db, Error.ResourceNotFound)
    case FetchGrant(id) => if id in db.grants then Finish(db, GrantRow(db.grants[id])) else Fail(db, GrantNotFound)
    case FetchProxy(id) => if id in db.proxies then Finish(db, ProxyRow(db.proxies[id])) else Fail(db, Internal)
    case _ => Fail(db, Internal)
  }

  ghost function ExecPlugin(db: Db, h: Handler): Effect {
    match h
    case NewProxyReadProxy(req, tenant) =>
      (match ProxyByName(db, tenant.id, req.name)
       case None => Finish(db, Decided(req, Reject(ProxyUnknown)))
       case Some(p) => Effect(db, NewProxyReadResource(req, tenant, p)))
    case NewProxyReadResource(req, tenant, p) =>
      if p.resourceId !in db.resources then Finish(db, Decided(req, Reject(InternalError)))
      else Effect(db, NewProxyReadGrant(req, tenant, p, db.resources[p.resourceId]))
    case NewProxyReadGrant(req, tenant, p, r) =>
      Finish(db, Decided(req, Verdict(req, tenant, AuthContext(p, r, GrantByResource(db, r.id)))))
    case PingTouch(id, now) =>
      (match SetLastSeen(db, id, now)
       case None => Finish(db, Answered(Reject(InternalError)))
       case Some(db') => Finish(db', Answered(Allow)))
    case ResetReadTenant(id, token, server) =>
      Effect(db, ConfigJoin(id, if id in db.tenants then db.tenants[id].code else "", token, server, true))
    case RegisterReadTenant(id, token, server) =>
      if id !in db.tenants then Fail(db, TenantNotFound)
      else Effect(db, ConfigJoin(id, db.tenants[id].code, token, server, true))
    case ConfigJoin(id, code, token, server, tolerant) =>
      Finish(db, FileOutcome(token, ConfigText(server, code, token, Join.JoinRows(db, id)), tolerant))
    case _ => Fail(db, Internal)
  }

  /** The only thing an answer to the plugin, or a configuration, writes. */
  lemma PluginWrites(db: Db, h: Handler)
    ensures ExecPlugin(db, h).db ==
            if h.PingTouch? && h.id in db.tenants then SetLastSeen(db, h.id, h.now).value else db
  {
  }

  predicate IsFetch(h: Handler) {
    h.FetchTenant? || h.FetchZone? || h.FetchResource? || h.FetchGrant? || h.FetchProxy?
  }

  predicate IsCreate(h: Handler) {
    h.SubdomainReadZone? || h.ResourceInsert? || h.GrantReadResource? || h.GrantReadGrant? || h.GrantInsert?
    || h.ProxyReadGrant? || h.ProxyInsert?
  }

  /** One statement of a handler, with the local checks around it. */
  ghost function ExecOne(verify: Verify, db: Db, h: Handler): Effect
    requires !h.Done?
  {
    if h.Start? then ExecStart(verify, db, h.request)
    else if IsCreate(h) then ExecCreate(db, h)
    else if IsFetch(h) then ExecFetch(db, h)
    else ExecPlugin(db, h)
  }

  /** A lost connection or any other error on the next statement: the plugin rejects, and the other handlers
      give up. Only a reset discards the error of its second statement and goes on with an empty code. */
  function AfterAbort(h: Handler): Handler {
    match h
    case Start(NewProxy(req)) => Done(Decided(req, Reject(InternalError)))
    case NewProxyReadProxy(req, _) => Done(Decided(req, Reject(InternalError)))
    case NewProxyReadResource(req, _, _) => Done(Decided(req, Reject(InternalError)))
    case NewProxyReadGrant(req, _, _, _) => Done(Decided(req, Reject(InternalError)))
    case Start(Login(_, _)) => Done(Answered(Reject(InternalError)))
    case Start(Ping(_, _, _)) => Done(Answered(Reject(InternalError)))
    case PingTouch(_, _) => Done(Answered(Reject(InternalError)))
    case ResetReadTenant(id, token, server) => ConfigJoin(id, "", token, server, true)
    case ConfigJoin(_, _, token, _, tolerant) => Done(FileOutcome(token, None, tolerant))
    case _ => Done(Failed(Internal))
  }

  // ---- interleaved runs ----

  datatype World = World(db: Db, handlers: map<nat, Handler>)

  datatype Action = Spawn(k: nat, request: Request) | Exec(k: nat) | Abort(k: nat)

  ghost predicate Next(verify: Verify, w: World, a: Action, w': World) {
    match a
    case Spawn(k, q) => k !in w.handlers && w' == World(w.db, w.handlers[k := Start(q)])
    case Exec(k) =>
      && k in w.handlers && !w.handlers[k].Done?
      && var e := ExecOne(verify, w.db, w.handlers[k]); w' == World(e.db, w.handlers[k := e.next])
    case Abort(k) =>
      k in w.handlers && !w.handlers[k].Done? && w' == World(w.db, w.handlers[k := AfterAbort(w.handlers[k])])
  }

  datatype Run = Run(worlds: seq<World>, actions: seq<Action>)

  ghost predicate IsRun(verify: Verify, run: Run) {
    && |run.worlds| == |run.actions| + 1
    && run.worlds[0] == World(EMPTY, map[])
    && forall i :: 0 <= i < |run.actions| ==> Next(verify, run.worlds[i], run.actions[i], run.worlds[i + 1])
  }

  // ---- a handler left alone ----

  function Rank(h: Handler): nat {
    match h
    case Start(_) => 6
    case SubdomainReadZone(_, _) => 4
    case GrantReadResource(_, _) => 5
    case GrantReadGrant(_, _) => 4
    case ProxyReadGrant(_, _, _) => 4
    case ResourceInsert(_, _, _) => 3
    case GrantInsert(_, _) => 3
    case ProxyInsert(_, _) => 3
    case NewProxyReadProxy(_, _) => 3
    case NewProxyReadResource(_, _, _) => 2
    case ResetReadTenant(_, _, _) => 2
    case RegisterReadTenant(_, _, _) => 2
    case Done(_) => 0
    case _ => 1
  }

  lemma StartLowersRank(verify: Verify, db: Db, q: Request)
    ensures Rank(ExecStart(verify, db, q).next) < 6
  {
  }

  lemma CreateLowersRank(db: Db, h: Handler)
    requires IsCreate(h)
    ensures Rank(ExecCreate(db, h).next) < Rank(h)
  {
  }

  lemma ExecLowersRank(verify: Verify, db: Db, h: Handler)
    requires !h.Done?
    ensures Rank(ExecOne(verify, db, h).next) < Rank(h)
  {
    if h.Start? {
      StartLowersRank(verify, db, h.request);
    } else if IsCreate(h) {
      CreateLowersRank(db, h);
    }
  }

  datatype Finished = Finished(db: Db, outcome: Outcome)

  ghost function RunAlone(verify: Verify, db: Db, h: Handler): Finished
    decreases Rank(h)
  {
    if h.Done? then Finished(db, h.outcome)
    else
      ExecLowersRank(verify, db, h);
      var e := ExecOne(verify, db, h);
      RunAlone(verify, e.db, e.next)
  }

  ghost function Serve(verify: Verify, db: Db, q: Request): Finished {
    RunAlone(verify, db, Start(q))
  }
}
