/** The frps plugin decisions: identity check, lookup of a registered proxy with its resource and
    grant, and the NewProxy verdict. Decisions are stated on one database state here; Machine.dfy
    lets the reads of one request fall in different states. */
module Plugin {
  import opened Text
  import opened Model
  import opened Tables

  datatype Reason =
    | MissingUser | MissingToken | BadCredentials | TenantIsDisabled
    | EmptyProxyName | UnsupportedProxyType | CustomDomainsForbidden
    | ProxyUnknown | InternalError
    | ProxyIsDisabled | ProxyTypeDiffers | NotGrantedToTenant | GrantIsDisabled | ResourceIsDisabled
    | TypeMismatch | EmptySubdomain | SubdomainDiffers | BadRemotePort | RemotePortDiffers

  datatype Decision = Allow | Reject(reason: Reason)

  datatype NewProxyRequest = NewProxyRequest(user: string, token: string, name: string, proxyType: string,
                                             subdomain: string, customDomains: seq<string>, remotePort: int)

  /** security.VerifySecret: does this token match this stored hash? */
  type Verify = (string, string) -> bool

  // ---- identity (authTenant) ----

  function CredentialsMissing(user: string, token: string): Option<Reason> {
    if Blank(user) then Some(MissingUser)
    else if token == "" then Some(MissingToken)
    else None
  }

  function CheckTenant(verify: Verify, row: Option<Tenant>, token: string): Result<Tenant, Reason> {
    match row
    case None => Err(BadCredentials)
    case Some(t) =>
      if t.status != ENABLED then Err(TenantIsDisabled)
      else if !verify(t.tokenHash, token) then Err(BadCredentials)
      else Ok(t)
  }

  ghost function AuthTenant(verify: Verify, db: Db, user: string, token: string): Result<Tenant, Reason> {
    match CredentialsMissing(user, token)
    case Some(reason) => Err(reason)
    case None => CheckTenant(verify, TenantByCode(db, user), token)
  }

  ghost function HandleLogin(verify: Verify, db: Db, user: string, token: string): Decision {
    match AuthTenant(verify, db, user, token)
    case Ok(_) => Allow
    case Err(reason) => Reject(reason)
  }

  /** Login allows exactly an enabled tenant presenting a token its stored hash matches. */
  lemma LoginIff(verify: Verify, db: Db, user: string, token: string)
    requires Inv(db)
    ensures HandleLogin(verify, db, user, token) == Allow <==>
            exists t :: t in db.tenants && db.tenants[t].code == user && db.tenants[t].status == ENABLED
                        && token != "" && verify(db.tenants[t].tokenHash, token)
  {
    if t :| t in db.tenants && db.tenants[t].code == user {
      TenantLookup(db, t);
    }
  }

  /** A wrong token is answered as an unknown tenant is, unless the tenant is disabled, which is always told. */
  lemma WrongTokenLooksUnknown(verify: Verify, db: Db, user: string, token: string)
    requires Inv(db) && !Blank(user) && token != ""
    requires forall t :: t in db.tenants && db.tenants[t].code == user ==> !verify(db.tenants[t].tokenHash, token)
    ensures HandleLogin(verify, db, user, token) ==
            if forall t :: t in db.tenants && db.tenants[t].code == user ==> db.tenants[t].status == ENABLED
            then Reject(BadCredentials) else Reject(TenantIsDisabled)
  {
    if t :| t in db.tenants && db.tenants[t].code == user {
      TenantLookup(db, t);
    }
  }

  // ---- registered proxy with its resource and grant (GetProxyAuthContext) ----

  datatype AuthContext = AuthContext(proxy: Proxy, resource: Resource, grant: Option<Grant>)

  ghost function GetProxyAuthContext(db: Db, tenantId: int, name: string): Result<AuthContext, Error> {
    match ProxyByName(db, tenantId, name)
    case None => Err(ProxyNotFound)
    case Some(p) =>
      if p.resourceId !in db.resources then Err(ResourceNotFound)
      else Ok(AuthContext(p, db.resources[p.resourceId], GrantByResource(db, db.resources[p.resourceId].id)))
  }

  // ---- NewProxy ----

  function CheckRequest(req: NewProxyRequest): Option<Reason> {
    if Blank(req.name) then Some(EmptyProxyName)
    else if !ValidProxyType(req.proxyType) then Some(UnsupportedProxyType)
    else if |req.customDomains| > 0 then Some(CustomDomainsForbidden)
    else None
  }

  function CheckPort(req: NewProxyRequest, resource: Resource, portType: string): Decision {
    if resource.typ != portType then Reject(TypeMismatch)
    else if req.remotePort <= 0 then Reject(BadRemotePort)
    else if Itoa(req.remotePort) != resource.value then Reject(RemotePortDiffers)
    else Allow
  }

  function CheckProxyResourceMatch(req: NewProxyRequest, resource: Resource): Decision {
    if req.proxyType == HTTP || req.proxyType == HTTPS then
      if resource.typ != SUBDOMAIN then Reject(TypeMismatch)
      else if Blank(req.subdomain) then Reject(EmptySubdomain)
      else if req.subdomain != resource.value then Reject(SubdomainDiffers)
      else Allow
    else if req.proxyType == TCP then CheckPort(req, resource, TCP_PORT)
    else if req.proxyType == UDP then CheckPort(req, resource, UDP_PORT)
    else Reject(UnsupportedProxyType)
  }

  function Verdict(req: NewProxyRequest, tenant: Tenant, ctx: AuthContext): Decision {
    if ctx.proxy.status != ENABLED then Reject(ProxyIsDisabled)
    else if ctx.proxy.proxyType != req.proxyType then Reject(ProxyTypeDiffers)
    else if ctx.grant.None? || ctx.grant.value.tenantId != tenant.id then Reject(NotGrantedToTenant)
    else if ctx.grant.value.status != ENABLED then Reject(GrantIsDisabled)
    else if ctx.resource.status != AVAILABLE then Reject(ResourceIsDisabled)
    else CheckProxyResourceMatch(req, ctx.resource)
  }

  ghost function HandleNewProxy(verify: Verify, db: Db, req: NewProxyRequest): Decision {
    match AuthTenant(verify, db, req.user, req.token)
    case Err(reason) => Reject(reason)
    case Ok(tenant) =>
      match CheckRequest(req)
      case Some(reason) => Reject(reason)
      case None =>
        match GetProxyAuthContext(db, tenant.id, req.name)
        case Err(e) => Reject(if e == ProxyNotFound then ProxyUnknown else InternalError)
        case Ok(ctx) => Verdict(req, tenant, ctx)
  }

  // ---- what the lookups return when the unique keys hold ----

  lemma TenantLookup(db: Db, id: int)
    requires Inv(db) && id in db.tenants
    ensures TenantByCode(db, db.tenants[id].code) == Some(db.tenants[id])
  {
  }

  lemma GrantLookup(db: Db, id: int)
    requires Inv(db) && id in db.grants
    ensures GrantByResource(db, db.grants[id].resourceId) == Some(db.grants[id])
  {
  }

  lemma ProxyLookup(db: Db, id: int)
    requires Inv(db) && id in db.proxies
    ensures ProxyByName(db, db.proxies[id].tenantId, db.proxies[id].name) == Some(db.proxies[id])
  {
  }

  lemma GrantOfProxy(db: Db, p: int) returns (g: int)
    requires Inv(db) && p in db.proxies
    ensures db.proxies[p].resourceId in db.resources && g in db.grants
    ensures db.grants[g].resourceId == db.proxies[p].resourceId && db.grants[g].tenantId == db.proxies[p].tenantId
  {
    assert ProxyOk(db.proxies[p], db.resources, db.grants);
    g :| g in db.grants && db.grants[g].resourceId == db.proxies[p].resourceId
         && db.grants[g].tenantId == db.proxies[p].tenantId;
  }

  lemma ContextLookup(db: Db, p: int, g: int)
    requires Inv(db) && p in db.proxies && g in db.grants && db.proxies[p].resourceId in db.resources
    requires db.grants[g].resourceId == db.proxies[p].resourceId
    ensures GetProxyAuthContext(db, db.proxies[p].tenantId, db.proxies[p].name) ==
            Ok(AuthContext(db.proxies[p], db.resources[db.proxies[p].resourceId], Some(db.grants[g])))
  {
    ProxyLookup(db, p);
    GrantLookup(db, g);
  }

  // ---- the relational meaning of Allow ----

  predicate SameEndpoint(req: NewProxyRequest, value: string) {
    if req.proxyType == HTTP || req.proxyType == HTTPS then req.subdomain == value
    else Itoa(req.remotePort) == value
  }

  /** Tenant t, proxy p, resource r and grant g are the rows that entitle this request. */
  ghost predicate EntitledBy(verify: Verify, db: Db, req: NewProxyRequest, t: int, p: int, r: int, g: int) {
    && t in db.tenants && p in db.proxies && r in db.resources && g in db.grants
    && db.tenants[t].code == req.user && db.tenants[t].status == ENABLED
    && req.token != "" && verify(db.tenants[t].tokenHash, req.token)
    && db.proxies[p].tenantId == t && db.proxies[p].name == req.name && db.proxies[p].resourceId == r
    && db.proxies[p].status == ENABLED && db.proxies[p].proxyType == req.proxyType
    && db.grants[g].resourceId == r && db.grants[g].tenantId == t && db.grants[g].status == ENABLED
    && db.resources[r].status == AVAILABLE && SameEndpoint(req, db.resources[r].value)
    && req.customDomains == []
  }

  ghost predicate Entitled(verify: Verify, db: Db, req: NewProxyRequest) {
    exists t, p, r, g :: EntitledBy(verify, db, req, t, p, r, g)
  }

  lemma EntitledIsAllowed(verify: Verify, db: Db, req: NewProxyRequest, t: int, p: int, r: int, g: int)
    requires Inv(db) && EntitledBy(verify, db, req, t, p, r, g)
    ensures HandleNewProxy(verify, db, req) == Allow
  {
    ConstantsDistinct();
    TenantLookup(db, t);
    ProxyLookup(db, p);
    GrantLookup(db, g);
    assert ProxyOk(db.proxies[p], db.resources, db.grants);
    var res := db.resources[r];
    assert ResourceShape(db.zones, res.typ, res.value, res.zoneId);
    if res.typ != SUBDOMAIN {
      var n: int :| ValidPort(n) && res.value == Itoa(n);
      ItoaInjective(n, req.remotePort);
    }
  }

  lemma AllowedIsEntitled(verify: Verify, db: Db, req: NewProxyRequest) returns (t: int, p: int, r: int, g: int)
    requires Inv(db) && HandleNewProxy(verify, db, req) == Allow
    ensures EntitledBy(verify, db, req, t, p, r, g)
  {
    ConstantsDistinct();
    t := AuthTenant(verify, db, req.user, req.token).value.id;
    var ctx := GetProxyAuthContext(db, t, req.name).value;
    p, r, g := ctx.proxy.id, ctx.resource.id, ctx.grant.value.id;
    assert ProxyOk(db.proxies[p], db.resources, db.grants);
  }

  /** NewProxy allows exactly the entitled requests. */
  lemma AllowedIffEntitled(verify: Verify, db: Db, req: NewProxyRequest)
    requires Inv(db)
    ensures HandleNewProxy(verify, db, req) == Allow <==> Entitled(verify, db, req)
  {
    if HandleNewProxy(verify, db, req) == Allow {
      var t, p, r, g := AllowedIsEntitled(verify, db, req);
    }
    if Entitled(verify, db, req) {
      var t, p, r, g :| EntitledBy(verify, db, req, t, p, r, g);
      EntitledIsAllowed(verify, db, req, t, p, r, g);
    }
  }

  predicate Unreachable(d: Decision) {
    d == Reject(NotGrantedToTenant) || d == Reject(TypeMismatch)
  }

  lemma VerdictNeverMismatches(db: Db, req: NewProxyRequest, tenant: Tenant, p: Proxy, res: Resource)
    requires Inv(db)
    requires ProxyOk(p, db.resources, db.grants) && tenant.id == p.tenantId
    requires res.typ == db.resources[p.resourceId].typ
    ensures !Unreachable(Verdict(req, tenant, AuthContext(p, res, GrantByResource(db, p.resourceId))))
  {
    ConstantsDistinct();
    var g :| g in db.grants && db.grants[g].resourceId == p.resourceId && db.grants[g].tenantId == p.tenantId;
    GrantLookup(db, g);
  }

  /** No proxy row exists without its tenant's grant and a matching resource, so these answers never occur. */
  lemma UnreachableRejections(verify: Verify, db: Db, req: NewProxyRequest)
    requires Inv(db)
    ensures !Unreachable(HandleNewProxy(verify, db, req))
    ensures HandleNewProxy(verify, db, req) != Reject(InternalError)
  {
    var auth := AuthTenant(verify, db, req.user, req.token);
    if auth.Ok? && CheckRequest(req).None? {
      var row := ProxyByName(db, auth.value.id, req.name);
      if row.Some? {
        assert ProxyOk(row.value, db.resources, db.grants);
        VerdictNeverMismatches(db, req, auth.value, row.value, db.resources[row.value.resourceId]);
      }
    }
  }
}
