/** What every request comes to when it is served alone, spelled out over rows, literal strings and numbers:
    the error for each way to fail, in the order of the checks, and otherwise the exact row and tables. */
module Outcomes {
  import opened Text
  import opened Model
  import opened Tables
  import opened Plugin
  import opened Machine
  import opened Sequential
  import Join
  import Ports
  import TenantConfig

  // ---- creating ----

  lemma TenantOutcome(verify: Verify, db: Db, input: TenantInput)
    ensures Serve(verify, db, CreateTenant(input)) ==
            if OnlyWhite(input.code) || OnlyWhite(input.name) || input.tokenHash == ""
            then Finished(db, Failed(EmptyField))
            else if exists t :: t in db.tenants && db.tenants[t].code == input.code
            then Finished(db, Failed(DuplicateCode))
            else
              var row := Tenant(db.lastTenant + 1, input.code, input.name, input.tokenHash, "enabled",
                                input.description, None);
              Finished(db.(tenants := db.tenants[row.id := row], lastTenant := row.id), TenantRow(row))
  {
    BlankIsOnlyWhite(input.code);
    BlankIsOnlyWhite(input.name);
    TenantAlone(verify, db, input);
    var e := Advance(verify, db, Start(CreateTenant(input)));
  }

  /** Registering a tenant fails exactly as creating it does. */
  lemma RegisterRefused(verify: Verify, db: Db, input: TenantInput, token: string, server: TenantConfig.Server)
    requires Serve(verify, db, CreateTenant(input)).outcome.Failed?
    ensures Serve(verify, db, RegisterTenant(input, token, server)) == Serve(verify, db, CreateTenant(input))
  {
    TenantAlone(verify, db, input);
    var e := Advance(verify, db, Start(CreateTenant(input)));
    e := Advance(verify, db, Start(RegisterTenant(input, token, server)));
  }

  /** And otherwise it leaves the same tables and returns a file for the new row. */
  lemma RegisterAccepted(verify: Verify, db: Db, input: TenantInput, token: string, server: TenantConfig.Server)
    requires Serve(verify, db, CreateTenant(input)).outcome.TenantRow?
    ensures var created := Serve(verify, db, CreateTenant(input));
            Serve(verify, db, RegisterTenant(input, token, server)) ==
            Finished(created.db,
                     ConfigFile(token, TenantConfig.ConfigText(server, input.code, token,
                                                               Join.JoinRows(created.db, created.outcome.tenant.id))))
  {
    TenantAlone(verify, db, input);
    RegisterAlone(verify, db, input, token, server);
  }

  lemma ZoneOutcome(verify: Verify, db: Db, name: string, zone: string)
    ensures Serve(verify, db, CreateZone(name, zone)) ==
            if OnlyWhite(name) || OnlyWhite(zone) then Finished(db, Failed(EmptyField))
            else if exists z :: z in db.zones && db.zones[z].zone == zone then Finished(db, Failed(DuplicateZone))
            else
              var row := Zone(db.lastZone + 1, name, zone, "enabled");
              Finished(db.(zones := db.zones[row.id := row], lastZone := row.id), ZoneRow(row))
  {
    BlankIsOnlyWhite(name);
    BlankIsOnlyWhite(zone);
    ZoneAlone(verify, db, name, zone);
    var e := Advance(verify, db, Start(CreateZone(name, zone)));
  }

  ghost predicate Occupied(db: Db, typ: string, value: string) {
    exists k :: k in db.resources && db.resources[k].typ == typ && db.resources[k].value == value
  }

  lemma SubdomainOutcome(verify: Verify, db: Db, value: string, zoneId: int)
    ensures Serve(verify, db, CreateSubdomain(value, zoneId)) ==
            if OnlyWhite(value) then Finished(db, Failed(EmptyField))
            else if !exists z :: z in db.zones && db.zones[z].status == "enabled"
            then Finished(db, Failed(NoEnabledDomainZone))
            else if zoneId !in db.zones then Finished(db, Failed(SubdomainNeedsZone))
            else if db.zones[zoneId].status != "enabled" then Finished(db, Failed(DomainZoneDisabled))
            else if Occupied(db, "subdomain", value) then Finished(db, Failed(DuplicateResource))
            else
              var row := Resource(db.lastResource + 1, "subdomain", value, Some(zoneId), "available");
              Finished(db.(resources := db.resources[row.id := row], lastResource := row.id), ResourceRow(row))
  {
    BlankIsOnlyWhite(value);
    var e := Advance(verify, db, Start(CreateSubdomain(value, zoneId)));
    if e.next.SubdomainReadZone? {
      e := Advance(verify, db, e.next);
      if e.next.ResourceInsert? {
        Ports.ResourceInsertAlone(verify, db, "subdomain", value, Some(zoneId));
      }
    }
  }

  lemma PortOutcome(verify: Verify, db: Db, udp: bool, n: int, value: string)
    requires DecimalOf(value, n)
    ensures var typ := if udp then "udp_port" else "tcp_port";
            Serve(verify, db, CreatePort(udp, n)) ==
            if n < 1 || n > 65535 then Finished(db, Failed(InvalidPort))
            else if Occupied(db, typ, value) then Finished(db, Failed(DuplicateResource))
            else
              var row := Resource(db.lastResource + 1, typ, value, None, "available");
              Finished(db.(resources := db.resources[row.id := row], lastResource := row.id), ResourceRow(row))
  {
    DecimalIsNatural(value, n);
    DecimalIsItoa(value, n);
    var e := Advance(verify, db, Start(CreatePort(udp, n)));
    Ports.ResourceInsertAlone(verify, db, if udp then "udp_port" else "tcp_port", value, None);
  }

  lemma DecimalIsNatural(s: string, n: int)
    requires DecimalOf(s, n)
    ensures n >= 0
  {
    DigitsValueIsPositional(s);
  }

  /** A typed port: any text that, white space around it aside, is not a number of 64 bits changes nothing;
      any other is the request for the number it denotes. */
  lemma PortTextOutcome(verify: Verify, db: Db, udp: bool, text: string, n: int)
    ensures (!exists m :: PaddedDenotes(text, m) && -0x8000_0000_0000_0000 <= m <= 0x7FFF_FFFF_FFFF_FFFF) ==>
              Ports.ServePortText(verify, db, udp, text) == Finished(db, Failed(NotANumber))
    ensures PaddedDenotes(text, n) && -0x8000_0000_0000_0000 <= n <= 0x7FFF_FFFF_FFFF_FFFF ==>
              Ports.ServePortText(verify, db, udp, text) == Serve(verify, db, CreatePort(udp, n))
  {
    TrimmedAtoiIff(text, n);
    if Atoi(TrimSpace(text)).Some? {
      TrimmedAtoiIff(text, Atoi(TrimSpace(text)).value);
    }
  }

  /** "abc" is refused; "0" and "65536" are out of range; "1" and "65535" are ports. */
  lemma PortExamples(verify: Verify, udp: bool)
    ensures Ports.ServePortText(verify, EMPTY, udp, "abc") == Finished(EMPTY, Failed(NotANumber))
    ensures Serve(verify, EMPTY, CreatePort(udp, 0)).outcome == Failed(InvalidPort)
    ensures Serve(verify, EMPTY, CreatePort(udp, 65536)).outcome == Failed(InvalidPort)
    ensures Serve(verify, EMPTY, CreatePort(udp, 1)).outcome.ResourceRow?
    ensures Serve(verify, EMPTY, CreatePort(udp, 65535)).outcome.ResourceRow?
  {
    TrimSpaceIdentity("abc");
    assert !IsDigit("abc"[0]);
    forall n | n == 0 || n == 65536 || n == 1 || n == 65535
      ensures if n < 1 || n > 65535 then Serve(verify, EMPTY, CreatePort(udp, n)).outcome == Failed(InvalidPort)
              else Serve(verify, EMPTY, CreatePort(udp, n)).outcome.ResourceRow?
    {
      DecimalIsItoa(Itoa(n), n);
      PortOutcome(verify, EMPTY, udp, n, Itoa(n));
    }
  }

  lemma GrantOutcome(verify: Verify, db: Db, t: int, r: int)
    ensures Serve(verify, db, GrantResource(t, r)) ==
            if t !in db.tenants then Finished(db, Failed(TenantNotFound))
            else if db.tenants[t].status != "enabled" then Finished(db, Failed(Error.TenantDisabled))
            else if r !in db.resources then Finished(db, Failed(Error.ResourceNotFound))
            else if db.resources[r].status != "available" then Finished(db, Failed(Error.ResourceDisabled))
            else if exists g :: g in db.grants && db.grants[g].resourceId == r
            then Finished(db, Failed(ResourceAlreadyGranted))
            else
              var row := Grant(db.lastGrant + 1, t, r, "enabled");
              Finished(db.(grants := db.grants[row.id := row], lastGrant := row.id), GrantRow(row))
  {
    GrantAlone(verify, db, t, r);
    var e := Advance(verify, db, Start(GrantResource(t, r)));
    if e.next.GrantReadResource? {
      e := Advance(verify, db, e.next);
      if e.next.GrantReadGrant? {
        e := Advance(verify, db, e.next);
      }
    }
  }

  // ---- registering a proxy ----

  predicate KnownType(t: string) {
    t == "http" || t == "https" || t == "tcp" || t == "udp"
  }

  predicate Fits(proxyType: string, resourceType: string) {
    || (proxyType == "http" && resourceType == "subdomain") || (proxyType == "https" && resourceType == "subdomain")
    || (proxyType == "tcp" && resourceType == "tcp_port") || (proxyType == "udp" && resourceType == "udp_port")
  }

  /** The address kept for a given one: the default for a blank, otherwise the text without its white space. */
  ghost predicate KeptAddress(given: string, kept: string) {
    if OnlyWhite(given) then kept == "127.0.0.1"
    else exists a: string, b: string :: Padding(given, kept, a, b)
  }

  predicate Padding(given: string, kept: string, a: string, b: string) {
    && OnlyWhite(a) && OnlyWhite(b) && given == a + kept + b
    && kept != "" && kept[0] !in WHITE_SPACE && kept[|kept| - 1] !in WHITE_SPACE
  }

  lemma AddressKept(input: ProxyInput)
    ensures KeptAddress(input.localIP, LocalIPOf(input))
  {
    BlankIsOnlyWhite(input.localIP);
    if !OnlyWhite(input.localIP) {
      var a, b := TrimSpaceSplits(input.localIP);
      assert Padding(input.localIP, LocalIPOf(input), a, b);
    }
  }

  /** There is only one such address. */
  lemma KeptAddressUnique(given: string, kept: string, a: string, s: string, b: string)
    requires KeptAddress(given, kept) && Padding(given, s, a, b)
    ensures kept == s
  {
    assert given[|a|] == s[0];
    var c: string, d: string :| Padding(given, kept, c, d);
    PaddingTrims(given, s, a, b);
    PaddingTrims(given, kept, c, d);
  }

  lemma PaddingTrims(given: string, s: string, a: string, b: string)
    requires Padding(given, s, a, b)
    ensures TrimSpace(given) == s
  {
    AllSpaceIsOnlyWhite(a);
    AllSpaceIsOnlyWhite(b);
    SpaceIsWhite(s[0]);
    SpaceIsWhite(s[|s| - 1]);
    TrimSpacePadding(a, s, b);
  }

  ghost predicate GrantedTo(db: Db, r: int, t: int) {
    exists g :: g in db.grants && db.grants[g].resourceId == r && db.grants[g].tenantId == t
                && db.grants[g].status == "enabled"
  }

  ghost predicate NameTaken(db: Db, t: int, name: string) {
    exists p :: p in db.proxies && db.proxies[p].tenantId == t && db.proxies[p].name == name
  }

  /** Why a proxy is refused before any grant is read. */
  function FormRefusal(db: Db, input: ProxyInput): Option<Error> {
    if OnlyWhite(input.name) then Some(EmptyField)
    else if !KnownType(input.proxyType) then Some(InvalidProxyType)
    else if input.localPort < 1 || input.localPort > 65535 then Some(InvalidPort)
    else if input.resourceId !in db.resources then Some(Error.ResourceNotFound)
    else None
  }

  /** Why a proxy is refused, if it is. */
  ghost function ProxyRefusal(db: Db, input: ProxyInput): Option<Error> {
    if FormRefusal(db, input).Some? then FormRefusal(db, input)
    else if !GrantedTo(db, input.resourceId, input.tenantId) then Some(ResourceNotGrantedToTenant)
    else if !Fits(input.proxyType, db.resources[input.resourceId].typ) then Some(ProxyTypeResourceMismatch)
    else if NameTaken(db, input.tenantId, input.name) then Some(DuplicateProxyName)
    else None
  }

  /** Row is the new row of this input. */
  ghost predicate NewProxyRow(db: Db, input: ProxyInput, row: Proxy) {
    && KeptAddress(input.localIP, row.localIP)
    && row == Proxy(db.lastProxy + 1, input.tenantId, input.resourceId, input.name, input.proxyType, row.localIP,
                    input.localPort, "enabled")
  }

  lemma ProxyGrantOutcome(verify: Verify, db: Db, input: ProxyInput, localIP: string, res: Resource)
    requires Inv(db)
    ensures var row := NewRow(db, input, localIP);
            RunAlone(verify, db, ProxyReadGrant(input, localIP, res)) ==
            if !GrantedTo(db, input.resourceId, input.tenantId) then Finished(db, Failed(ResourceNotGrantedToTenant))
            else if !Fits(input.proxyType, res.typ) then Finished(db, Failed(ProxyTypeResourceMismatch))
            else if NameTaken(db, input.tenantId, input.name) then Finished(db, Failed(DuplicateProxyName))
            else Finished(WithProxy(db, row), ProxyRow(row))
  {
    var e := Advance(verify, db, ProxyReadGrant(input, localIP, res));
    ProxyInsertAlone(verify, db, input, localIP);
  }

  lemma FormOutcome(verify: Verify, db: Db, input: ProxyInput)
    ensures Serve(verify, db, CreateProxy(input)) ==
            match FormRefusal(db, input)
            case Some(error) => Finished(db, Failed(error))
            case None =>
              RunAlone(verify, db, ProxyReadGrant(input, LocalIPOf(input), db.resources[input.resourceId]))
  {
    BlankIsOnlyWhite(input.name);
    var e := Advance(verify, db, Start(CreateProxy(input)));
  }

  lemma NewRowIsNewProxyRow(db: Db, input: ProxyInput)
    ensures NewProxyRow(db, input, NewRow(db, input, LocalIPOf(input)))
  {
    AddressKept(input);
  }

  lemma ProxyOutcome(verify: Verify, db: Db, input: ProxyInput)
    requires Inv(db)
    ensures var f := Serve(verify, db, CreateProxy(input)); var refusal := ProxyRefusal(db, input);
            if refusal.Some? then f == Finished(db, Failed(refusal.value))
            else
              && f.outcome.ProxyRow? && NewProxyRow(db, input, f.outcome.proxy)
              && f.db == db.(proxies := db.proxies[db.lastProxy + 1 := f.outcome.proxy], lastProxy := db.lastProxy + 1)
  {
    FormOutcome(verify, db, input);
    if FormRefusal(db, input).None? {
      ProxyGrantOutcome(verify, db, input, LocalIPOf(input), db.resources[input.resourceId]);
      NewRowIsNewProxyRow(db, input);
    }
  }

  /** The given address is kept but for white space around it. */
  lemma AddressOutcome(verify: Verify, db: Db, input: ProxyInput, a: string, s: string, b: string)
    requires Inv(db) && ProxyRefusal(db, input).None?
    ensures var o := Serve(verify, db, CreateProxy(input)).outcome;
            && o.ProxyRow? && (OnlyWhite(input.localIP) ==> o.proxy.localIP == "127.0.0.1")
            && (Padding(input.localIP, s, a, b) ==> o.proxy.localIP == s)
  {
    ProxyOutcome(verify, db, input);
    if Padding(input.localIP, s, a, b) {
      KeptAddressUnique(input.localIP, Serve(verify, db, CreateProxy(input)).outcome.proxy.localIP, a, s, b);
    }
  }

  /** A name of nothing but blanks is no name. */
  lemma BlanksRefused(verify: Verify, db: Db, blanks: string, input: ProxyInput, zone: string, zoneId: int)
    requires forall i :: 0 <= i < |blanks| ==> blanks[i] == ' '
    ensures Serve(verify, db, CreateZone(blanks, zone)) == Finished(db, Failed(EmptyField))
    ensures Serve(verify, db, CreateSubdomain(blanks, zoneId)) == Finished(db, Failed(EmptyField))
    ensures Serve(verify, db, CreateProxy(input.(name := blanks))) == Finished(db, Failed(EmptyField))
  {
    assert OnlyWhite(blanks);
    ZoneOutcome(verify, db, blanks, zone);
    SubdomainOutcome(verify, db, blanks, zoneId);
    FormOutcome(verify, db, input.(name := blanks));
  }

  // ---- from the registered proxy to the plugin ----

  /** The request a client sends for this proxy: its type and the endpoint of its resource. */
  predicate Requests(req: NewProxyRequest, row: Proxy, value: string) {
    && req.name == row.name && req.proxyType == row.proxyType && req.customDomains == []
    && (if row.proxyType == "http" || row.proxyType == "https" then req.subdomain == value
        else DecimalOf(value, req.remotePort))
  }

  lemma RequestsEndpoint(req: NewProxyRequest, row: Proxy, value: string)
    requires Requests(req, row, value)
    ensures SameEndpoint(req, value)
  {
    if row.proxyType != "http" && row.proxyType != "https" {
      DecimalIsNatural(value, req.remotePort);
      DecimalIsItoa(value, req.remotePort);
    }
  }

  /** Whatever of the four types it has, a proxy that CreateProxy has just registered is allowed by NewProxy. */
  lemma RegisteredIsAllowed(verify: Verify, db: Db, input: ProxyInput, req: NewProxyRequest)
    requires Inv(db) && ProxyRefusal(db, input).None? && input.tenantId in db.tenants
    requires var t, r := db.tenants[input.tenantId], db.resources[input.resourceId];
             && t.status == "enabled" && r.status == "available"
             && req.user == t.code && req.token != "" && verify(t.tokenHash, req.token)
             && var o := Serve(verify, db, CreateProxy(input)).outcome;
                o.ProxyRow? ==> Requests(req, o.proxy, r.value)
    ensures HandleNewProxy(verify, Serve(verify, db, CreateProxy(input)).db, req) == Allow
  {
    ProxyOutcome(verify, db, input);
    ServeKeepsInv(verify, db, CreateProxy(input));
    var f := Serve(verify, db, CreateProxy(input));
    var g :| g in db.grants && db.grants[g].resourceId == input.resourceId
             && db.grants[g].tenantId == input.tenantId && db.grants[g].status == "enabled";
    RequestsEndpoint(req, f.outcome.proxy, db.resources[input.resourceId].value);
    EntitledIsAllowed(verify, f.db, req, input.tenantId, f.outcome.proxy.id, input.resourceId, g);
  }

  // ---- why the plugin refuses ----

  /** Up to the lookup of the proxy, for a user whose tenant is row t. */
  ghost function TenantReason(verify: Verify, db: Db, req: NewProxyRequest, t: int): Option<Reason>
    requires t in db.tenants
  {
    if req.token == "" then Some(MissingToken)
    else if db.tenants[t].status != "enabled" then Some(TenantIsDisabled)
    else if !verify(db.tenants[t].tokenHash, req.token) then Some(BadCredentials)
    else if OnlyWhite(req.name) then Some(EmptyProxyName)
    else if !KnownType(req.proxyType) then Some(UnsupportedProxyType)
    else if req.customDomains != [] then Some(CustomDomainsForbidden)
    else if !NameTaken(db, t, req.name) then Some(ProxyUnknown)
    else None
  }

  /** For the endpoint of a proxy of the requested type whose resource has this value. */
  function EndpointReason(req: NewProxyRequest, value: string): Option<Reason> {
    if req.proxyType == "http" || req.proxyType == "https" then
      if OnlyWhite(req.subdomain) then Some(EmptySubdomain)
      else if req.subdomain != value then Some(SubdomainDiffers)
      else None
    else if req.remotePort <= 0 then Some(BadRemotePort)
    else if !DecimalOf(value, req.remotePort) then Some(RemotePortDiffers)
    else None
  }

  /** From the lookup on, for the registered proxy p with grant g. */
  function ProxyReason(db: Db, req: NewProxyRequest, p: int, g: int): Option<Reason>
    requires p in db.proxies && g in db.grants && db.proxies[p].resourceId in db.resources
  {
    var r := db.resources[db.proxies[p].resourceId];
    if db.proxies[p].status != "enabled" then Some(ProxyIsDisabled)
    else if db.proxies[p].proxyType != req.proxyType then Some(ProxyTypeDiffers)
    else if db.grants[g].status != "enabled" then Some(GrantIsDisabled)
    else if r.status != "available" then Some(ResourceIsDisabled)
    else EndpointReason(req, r.value)
  }

  function Verdict(reason: Option<Reason>): Decision {
    match reason case Some(r) => Reject(r) case None => Allow
  }

  lemma StrangerReason(verify: Verify, db: Db, req: NewProxyRequest)
    requires Inv(db) && forall t :: t in db.tenants ==> db.tenants[t].code != req.user
    ensures HandleNewProxy(verify, db, req) ==
            if OnlyWhite(req.user) then Reject(MissingUser)
            else if req.token == "" then Reject(MissingToken)
            else Reject(BadCredentials)
    ensures HandleLogin(verify, db, req.user, req.token) == HandleNewProxy(verify, db, req)
  {
    BlankIsOnlyWhite(req.user);
  }

  /** The answer to Login for tenant row t. */
  lemma LoginReasons(verify: Verify, db: Db, token: string, t: int)
    requires Inv(db) && t in db.tenants
    ensures HandleLogin(verify, db, db.tenants[t].code, token) ==
            if token == "" then Reject(MissingToken)
            else if db.tenants[t].status != "enabled" then Reject(TenantIsDisabled)
            else if !verify(db.tenants[t].tokenHash, token) then Reject(BadCredentials)
            else Allow
  {
    TenantLookup(db, t);
  }

  /** And to Ping, which then writes the time into that row alone. */
  lemma PingReasons(verify: Verify, db: Db, token: string, now: int, t: int)
    requires Inv(db) && t in db.tenants
    ensures var row := db.tenants[t];
            var d := HandleLogin(verify, db, row.code, token);
            var seen := Tenant(t, row.code, row.name, row.tokenHash, row.status, row.description, Some(now));
            Serve(verify, db, Ping(row.code, token, now)) ==
            if d == Allow then Finished(db.(tenants := db.tenants[t := seen]), Answered(Allow))
            else Finished(db, Answered(d))
  {
    TenantLookup(db, t);
    PingAlone(verify, db, db.tenants[t].code, token, now);
  }

  lemma TenantReasons(verify: Verify, db: Db, req: NewProxyRequest, t: int)
    requires Inv(db) && t in db.tenants && db.tenants[t].code == req.user && TenantReason(verify, db, req, t).Some?
    ensures HandleNewProxy(verify, db, req) == Verdict(TenantReason(verify, db, req, t))
  {
    BlankIsOnlyWhite(req.name);
    TenantLookup(db, t);
  }

  lemma ProxyReasons(verify: Verify, db: Db, req: NewProxyRequest, t: int, p: int, g: int)
    requires Inv(db) && t in db.tenants && db.tenants[t].code == req.user && TenantReason(verify, db, req, t).None?
    requires p in db.proxies && db.proxies[p].tenantId == t && db.proxies[p].name == req.name
    requires g in db.grants && db.grants[g].resourceId == db.proxies[p].resourceId
    ensures db.proxies[p].resourceId in db.resources
    ensures HandleNewProxy(verify, db, req) == Verdict(ProxyReason(db, req, p, g))
  {
    BlankIsOnlyWhite(req.name);
    TenantLookup(db, t);
    assert ProxyOk(db.proxies[p], db.resources, db.grants);
    ContextLookup(db, p, g);
    VerdictReason(db, req, db.tenants[t], p, g);
  }

  lemma MatchReason(req: NewProxyRequest, r: Resource)
    requires KnownType(req.proxyType) && ProxyTypeMatchesResource(req.proxyType, r.typ)
    ensures CheckProxyResourceMatch(req, r) == Verdict(EndpointReason(req, r.value))
  {
    ConstantsDistinct();
    BlankIsOnlyWhite(req.subdomain);
    if req.remotePort > 0 {
      DecimalIsItoa(r.value, req.remotePort);
    }
  }

  lemma VerdictReason(db: Db, req: NewProxyRequest, tenant: Tenant, p: int, g: int)
    requires Inv(db) && p in db.proxies && g in db.grants && db.proxies[p].resourceId in db.resources
    requires db.grants[g].resourceId == db.proxies[p].resourceId && db.proxies[p].tenantId == tenant.id
    requires KnownType(req.proxyType)
    ensures var r := db.resources[db.proxies[p].resourceId];
            Plugin.Verdict(req, tenant, AuthContext(db.proxies[p], r, Some(db.grants[g]))) ==
            Verdict(ProxyReason(db, req, p, g))
  {
    var row := db.proxies[p];
    assert ProxyOk(row, db.resources, db.grants);
    var h :| h in db.grants && db.grants[h].resourceId == row.resourceId && db.grants[h].tenantId == row.tenantId;
    assert h == g;
    if row.proxyType == req.proxyType {
      MatchReason(req, db.resources[row.resourceId]);
    }
  }

  // ---- updates ----

  /** The row with this id has changed as given; every other row is as before. */
  ghost predicate OneRow<T>(before: map<int, T>, after: map<int, T>, id: int, row: T) {
    && after.Keys == before.Keys && id in before && after[id] == row
    && forall k :: k in before && k != id ==> after[k] == before[k]
  }

  lemma TenantStatusOutcome(verify: Verify, db: Db, id: int, status: string)
    ensures var f := Serve(verify, db, UpdateTenantStatus(id, status));
            if id !in db.tenants then f == Finished(db, Failed(TenantNotFound))
            else
              var t := db.tenants[id];
              && f.outcome == Updated && f.db == db.(tenants := f.db.tenants)
              && OneRow(db.tenants, f.db.tenants, id,
                        Tenant(t.id, t.code, t.name, t.tokenHash, status, t.description, t.lastSeen))
  {
    var e := Advance(verify, db, Start(UpdateTenantStatus(id, status)));
  }

  lemma TokenHashOutcome(verify: Verify, db: Db, id: int, hash: string)
    ensures var f := Serve(verify, db, UpdateTokenHash(id, hash));
            if hash == "" then f == Finished(db, Failed(EmptyField))
            else if id !in db.tenants then f == Finished(db, Failed(TenantNotFound))
            else
              var t := db.tenants[id];
              && f.outcome == Updated && f.db == db.(tenants := f.db.tenants)
              && OneRow(db.tenants, f.db.tenants, id,
                        Tenant(t.id, t.code, t.name, hash, t.status, t.description, t.lastSeen))
  {
    var e := Advance(verify, db, Start(UpdateTokenHash(id, hash)));
  }

  lemma ZoneStatusOutcome(verify: Verify, db: Db, id: int, status: string)
    ensures var f := Serve(verify, db, UpdateZoneStatus(id, status));
            if id !in db.zones then f == Finished(db, Failed(DomainZoneNotFound))
            else
              var z := db.zones[id];
              && f.outcome == Updated && f.db == db.(zones := f.db.zones)
              && OneRow(db.zones, f.db.zones, id, Zone(z.id, z.name, z.zone, status))
  {
    var e := Advance(verify, db, Start(UpdateZoneStatus(id, status)));
  }

  lemma ResourceStatusOutcome(verify: Verify, db: Db, id: int, status: string)
    ensures var f := Serve(verify, db, UpdateResourceStatus(id, status));
            if id !in db.resources then f == Finished(db, Failed(Error.ResourceNotFound))
            else
              var r := db.resources[id];
              && f.outcome == Updated && f.db == db.(resources := f.db.resources)
              && OneRow(db.resources, f.db.resources, id, Resource(r.id, r.typ, r.value, r.zoneId, status))
  {
    var e := Advance(verify, db, Start(UpdateResourceStatus(id, status)));
  }

  lemma GrantStatusOutcome(verify: Verify, db: Db, id: int, status: string)
    ensures var f := Serve(verify, db, UpdateGrantStatus(id, status));
            if id !in db.grants then f == Finished(db, Failed(GrantNotFound))
            else
              var g := db.grants[id];
              && f.outcome == Updated && f.db == db.(grants := f.db.grants)
              && OneRow(db.grants, f.db.grants, id, Grant(g.id, g.tenantId, g.resourceId, status))
  {
    var e := Advance(verify, db, Start(UpdateGrantStatus(id, status)));
  }

  lemma ProxyStatusOutcome(verify: Verify, db: Db, id: int, status: string)
    ensures var f := Serve(verify, db, UpdateProxyStatus(id, status));
            if id !in db.proxies then f == Finished(db, Failed(ProxyNotFound))
            else
              var p := db.proxies[id];
              && f.outcome == Updated && f.db == db.(proxies := f.db.proxies)
              && OneRow(db.proxies, f.db.proxies, id,
                        Proxy(p.id, p.tenantId, p.resourceId, p.name, p.proxyType, p.localIP, p.localPort, status))
  {
    var e := Advance(verify, db, Start(UpdateProxyStatus(id, status)));
  }

  /** Once its zone is disabled, a subdomain in it is refused; once the zone is enabled again, it is not
      refused for its zone any more. */
  lemma ZoneStatusDecides(verify: Verify, db: Db, value: string, zoneId: int, status: string)
    requires zoneId in db.zones && !OnlyWhite(value)
    ensures var after := Serve(verify, db, UpdateZoneStatus(zoneId, status)).db;
            var o := Serve(verify, after, CreateSubdomain(value, zoneId)).outcome;
            if status != "enabled" then o == Failed(DomainZoneDisabled) || o == Failed(NoEnabledDomainZone)
            else o.ResourceRow? || (o == Failed(DuplicateResource) && Occupied(db, "subdomain", value))
  {
    ZoneStatusOutcome(verify, db, zoneId, status);
    SubdomainOutcome(verify, Serve(verify, db, UpdateZoneStatus(zoneId, status)).db, value, zoneId);
  }

  // ---- failures and templates ----

  /** A failing statement never lets anyone in and never reports a success: at most it loses a file. */
  lemma AbortFailsClosed(h: Handler)
    requires AfterAbort(h).Done?
    ensures match AfterAbort(h).outcome
            case Answered(d) => d == Reject(InternalError)
            case Decided(_, d) => d == Reject(InternalError)
            case ConfigFile(_, text) => text.None?
            case o => o == Failed(Internal)
  {
  }

  /** A template whose query fails is an error; a reset or a registration whose query fails still answers with
      its token. */
  lemma FailedTemplateQuery(verify: Verify, db: Db, id: int, server: TenantConfig.Server)
    requires id in db.tenants
    ensures AfterAbort(ExecOne(verify, db, Start(GetConfig(id, server))).next) == Done(Failed(Internal))
  {
  }

  lemma FailedFileQuery(verify: Verify, db: Db, h: Handler)
    requires h.ResetReadTenant? || (h.RegisterReadTenant? && h.id in db.tenants)
    ensures AfterAbort(ExecOne(verify, db, h).next) == Done(ConfigFile(h.token, None))
  {
  }

  /** The template a tenant is shown does not depend on its stored hash. */
  lemma TemplateHidesHash(verify: Verify, db: Db, id: int, hash: string, server: TenantConfig.Server)
    requires Inv(db) && id in db.tenants
    ensures Serve(verify, db, GetConfig(id, server)).outcome ==
            Serve(verify, WithHash(db, id, hash), GetConfig(id, server)).outcome
  {
    var other := WithHash(db, id, hash);
    UpdateTenantSafe(db, id, other.tenants[id]);
    QueryIgnoresTenants(db, id, hash, Join.JoinRows(db, id));
    Join.QueryResultUnique(other, id, Join.JoinRows(db, id));
    GetConfigAlone(verify, db, id, server);
    GetConfigAlone(verify, other, id, server);
  }
}
