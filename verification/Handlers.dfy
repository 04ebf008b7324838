/** The plugin's and the administrator's request handlers over one store. */
module Handlers {
  import opened Text
  import opened Model
  import opened Plugin
  import opened Join
  import opened TenantConfig
  import Agreement
  import opened Machine
  import opened Sequential
  import Ports
  import opened Stores

  class PluginHandler {
    const store: Store

    constructor (store: Store)
      ensures this.store == store
    {
      this.store := store;
    }

    /** `fails` says whether the read of the tenant fails. */
    method AuthTenant(code: string, token: string, fails: bool) returns (r: Result<Tenant, Reason>)
      requires store.Valid()
      ensures r == if fails && CredentialsMissing(code, token).None? then Err(InternalError)
                   else Plugin.AuthTenant(store.verify, store.db, code, token)
    {
      if Blank(code) {
        return Err(MissingUser);
      }
      if token == "" {
        return Err(MissingToken);
      }
      if fails {
        return Err(InternalError);
      }
      var found := store.GetTenantByCode(code);
      if found.Err? {
        return Err(BadCredentials);
      }
      var t := found.value;
      if t.status != ENABLED {
        return Err(TenantIsDisabled);
      }
      if !store.verify(t.tokenHash, token) {
        return Err(BadCredentials);
      }
      return Ok(t);
    }

    /** Allows exactly the users whose enabled tenant has a hash that this token matches; a failing read
        never lets anyone in. */
    method HandleLogin(user: string, token: string, fails: bool) returns (d: Decision)
      requires store.Valid()
      ensures !fails ==> d == Plugin.HandleLogin(store.verify, store.db, user, token)
      ensures d == Allow <==>
              !fails && exists t :: t in store.db.tenants && store.db.tenants[t].code == user
                                    && store.db.tenants[t].status == ENABLED && token != ""
                                    && store.verify(store.db.tenants[t].tokenHash, token)
    {
      LoginIff(store.verify, store.db, user, token);
      var auth := AuthTenant(user, token, fails);
      if auth.Err? {
        return Reject(auth.error);
      }
      return Allow;
    }

    /** Allows exactly the entitled requests none of whose four reads fails, and otherwise rejects as the
        decision function does or with an internal error. */
    method HandleNewProxy(c: NewProxyRequest, fails: nat -> bool) returns (d: Decision)
      requires store.Valid()
      ensures d == Allow <==> Entitled(store.verify, store.db, c) && forall i: nat :: i < 4 ==> !fails(i)
      ensures d == Plugin.HandleNewProxy(store.verify, store.db, c) || d == Reject(InternalError)
      ensures (forall i: nat :: i < 4 ==> !fails(i)) ==> d == Plugin.HandleNewProxy(store.verify, store.db, c)
    {
      AllowedIffEntitled(store.verify, store.db, c);
      var tenant := AuthTenant(c.user, c.token, fails(0));
      if tenant.Err? {
        return Reject(tenant.error);
      }
      if Blank(c.name) {
        return Reject(EmptyProxyName);
      }
      if !ValidProxyType(c.proxyType) {
        return Reject(UnsupportedProxyType);
      }
      if |c.customDomains| > 0 {
        return Reject(CustomDomainsForbidden);
      }
      var found := store.GetProxyAuthContext(tenant.value.id, c.name, (n: nat) => fails(n + 1));
      if found == Err(ProxyNotFound) {
        return Reject(ProxyUnknown);
      }
      match found {
        case Err(e) => return Reject(InternalError);
        case Ok(actx) => d := Judge(c, tenant.value, actx);
      }
    }

    method Judge(c: NewProxyRequest, tenant: Tenant, actx: AuthContext) returns (d: Decision)
      ensures d == Verdict(c, tenant, actx)
    {
      if actx.proxy.status != ENABLED {
        return Reject(ProxyIsDisabled);
      }
      if actx.proxy.proxyType != c.proxyType {
        return Reject(ProxyTypeDiffers);
      }
      if actx.grant.None? || actx.grant.value.tenantId != tenant.id {
        return Reject(NotGrantedToTenant);
      }
      if actx.grant.value.status != ENABLED {
        return Reject(GrantIsDisabled);
      }
      if actx.resource.status != AVAILABLE {
        return Reject(ResourceIsDisabled);
      }
      return CheckProxyResourceMatch(c, actx.resource);
    }

    /** `readFails` and `writeFails` say whether its two statements fail. */
    method HandlePing(user: string, token: string, now: int, readFails: bool, writeFails: bool) returns (d: Decision)
      requires store.Valid()
      modifies store
      ensures store.Valid()
      ensures !readFails && !writeFails ==>
                Finished(store.db, Answered(d)) == Serve(store.verify, old(store.db), Ping(user, token, now))
      ensures readFails || writeFails ==> store.db == old(store.db) && d != Allow
    {
      ServeKeepsInv(store.verify, store.db, Ping(user, token, now));
      PingAlone(store.verify, store.db, user, token, now);
      var tenant := AuthTenant(user, token, readFails);
      if tenant.Err? {
        return Reject(tenant.error);
      }
      if writeFails {
        return Reject(InternalError);
      }
      var err := store.UpdateTenantLastSeen(tenant.value.id, now);
      if err.Some? {
        return Reject(InternalError);
      }
      return Allow;
    }
  }

  function FileAnswer(token: string, r: Result<Option<string>, Error>): Outcome {
    match r case Ok(text) => ConfigFile(token, text) case Err(e) => Failed(e)
  }

  class AdminHandler {
    const store: Store
    const server: Server

    constructor (store: Store, server: Server)
      ensures this.store == store && this.server == server
    {
      this.store := store;
      this.server := server;
    }

    method CreatePortResource(udp: bool, text: string) returns (r: Result<Resource, Error>)
      requires store.Valid()
      modifies store
      ensures store.Valid()
      ensures Finished(store.db, ResourceOutcome(r)) == Ports.ServePortText(store.verify, old(store.db), udp, text)
    {
      var port := Atoi(TrimSpace(text));
      if port.None? {
        return Err(NotANumber);
      }
      r := store.CreatePortResource(udp, port.value);
    }

    /** handleGetFrpcConfig: the template, with a placeholder instead of the token. `rows` is the answer to
        the query, None when it fails. */
    method GetFrpcConfig(id: int, rows: Option<seq<JoinRow>>) returns (r: Result<string, Error>)
      requires store.Valid() && (rows.Some? ==> QueryResult(store.db, id, ContextsOf(rows.value)))
      ensures r.Ok? <==> id in store.db.tenants && rows.Some?
      ensures r.Ok? ==> Serve(store.verify, store.db, GetConfig(id, server)) ==
                        Finished(store.db, ConfigFile(PLACEHOLDER, Some(r.value)))
    {
      GetConfigAlone(store.verify, store.db, id, server);
      var t := store.GetTenantByID(id);
      if t.Err? {
        return Err(TenantNotFound);
      }
      var cs := store.ListEnabledProxyAuthContextsByTenant(id, rows);
      if cs.None? {
        return Err(Internal);
      }
      Agreement.ConfigNeverFails(store.db, id, server, t.value.code, PLACEHOLDER);
      var text := GenerateForTenant(server, t.value.code, "", true, cs.value);
      if text.None? {
        return Err(Internal);
      }
      return Ok(text.value);
    }

    /** None stands for the empty file it returns after any error. */
    method BuildFrpcConfigWithToken(id: int, code: string, plainToken: string, rows: Option<seq<JoinRow>>)
      returns (text: Option<string>)
      requires store.Valid() && (rows.Some? ==> QueryResult(store.db, id, ContextsOf(rows.value)))
      ensures text == if rows.None? then None else ConfigText(server, code, plainToken, JoinRows(store.db, id))
    {
      var cs := store.ListEnabledProxyAuthContextsByTenant(id, rows);
      if cs.None? {
        return None;
      }
      text := GenerateForTenant(server, code, plainToken, false, cs.value);
    }

    /** handleResetTenantToken, from the generated token and its hash: the new hash is stored and the file
        carries the plain token. `rows` is the answer to the query, None when it fails; no table it reads was
        written. When the second read of the tenant fails, the code of the file is empty. */
    method ResetTenantToken(id: int, plainToken: string, tokenHash: string, readFails: bool, rows: Option<seq<JoinRow>>)
      returns (r: Result<Option<string>, Error>)
      requires store.Valid() && (rows.Some? ==> QueryResult(store.db, id, ContextsOf(rows.value)))
      modifies store
      ensures store.Valid()
      ensures var f := Serve(store.verify, old(store.db), UpdateTokenHash(id, tokenHash));
              store.db == f.db && (r.Err? <==> f.outcome.Failed?) && (r.Err? ==> f.outcome == Failed(r.error))
      ensures r.Ok? ==> id in store.db.tenants
      ensures r.Ok? ==>
                var code := if readFails then "" else store.db.tenants[id].code;
                r.value == if rows.None? then None else ConfigText(server, code, plainToken, JoinRows(store.db, id))
      ensures !readFails && rows.Some? ==>
                var f := Serve(store.verify, old(store.db), ResetToken(id, plainToken, tokenHash, server));
                store.db == f.db && f.outcome == FileAnswer(plainToken, r)
    {
      ResetAlone(store.verify, store.db, id, plainToken, tokenHash, server);
      UpdateHashAlone(store.verify, store.db, id, tokenHash);
      if id in store.db.tenants && rows.Some? {
        QueryIgnoresTenants(store.db, id, tokenHash, ContextsOf(rows.value));
      }
      var err := store.UpdateTenantTokenHash(id, tokenHash);
      if err.Some? {
        return Err(err.value);
      }
      var code := "";
      if !readFails {
        var tenant := store.GetTenantByID(id);
        code := tenant.value.code;
      }
      var text := BuildFrpcConfigWithToken(id, code, plainToken, rows);
      return Ok(text);
    }

    /** handleCreateTenant, from the generated token and its hash. A new tenant has no proxies, so the query
        has no rows. */
    method CreateTenant(code: string, name: string, description: string, plainToken: string, tokenHash: string)
      returns (r: Result<Option<string>, Error>)
      requires store.Valid()
      modifies store
      ensures store.Valid()
      ensures var input := TenantInput(TrimSpace(code), TrimSpace(name), tokenHash, description);
              var f := Serve(store.verify, old(store.db), RegisterTenant(input, plainToken, server));
              store.db == f.db && f.outcome == FileAnswer(plainToken, r)
    {
      var input := TenantInput(TrimSpace(code), TrimSpace(name), tokenHash, description);
      RegisterAlone(store.verify, store.db, input, plainToken, server);
      TenantAlone(store.verify, store.db, input);
      NewTenantHasNoRows(store.db, input);
      var t := store.CreateTenant(input);
      if t.Err? {
        return Err(t.error);
      }
      var text := BuildFrpcConfigWithToken(t.value.id, t.value.code, plainToken, Some([]));
      return Ok(text);
    }
  }
}
