/** The exact effect of creating: what a new grant and a new proxy change in the plugin's decisions. */
module Creation {
  import opened Text
  import opened Model
  import opened Tables
  import opened Plugin
  import opened Machine
  import opened Safety
  import opened Isolation

  lemma ContextKept(a: Db, b: Db, t: int, name: string)
    requires Inv(a) && Inv(b) && OnlyAdds(a, b)
    requires forall p :: NamesProxy(b, t, name, p) ==> p in a.proxies
    ensures GetProxyAuthContext(a, t, name) == GetProxyAuthContext(b, t, name)
  {
    if p :| NamesProxy(a, t, name, p) {
      var g := GrantOfProxy(a, p);
      ContextLookup(a, p, g);
      ContextLookup(b, p, g);
    } else {
      forall p ensures !NamesProxy(b, t, name, p) {
        assert NamesProxy(b, t, name, p) ==> NamesProxy(a, t, name, p);
      }
      NoContext(a, t, name);
      NoContext(b, t, name);
    }
  }

  lemma DecisionKept(verify: Verify, a: Db, b: Db, req: NewProxyRequest)
    requires Inv(a) && Inv(b) && OnlyAdds(a, b) && a.tenants == b.tenants
    requires forall t, p :: NamesProxy(b, t, req.name, p) && t in a.tenants && a.tenants[t].code == req.user ==>
                              p in a.proxies
    ensures HandleNewProxy(verify, a, req) == HandleNewProxy(verify, b, req)
  {
    var auth := AuthTenant(verify, a, req.user, req.token);
    if auth.Ok? {
      ContextKept(a, b, auth.value.id, req.name);
    }
  }

  predicate Grants(h: Handler) {
    || (h.Start? && h.request.GrantResource?)
    || h.GrantReadResource? || h.GrantReadGrant? || h.GrantInsert? || h.FetchGrant?
  }

  lemma GrantStepKeepsRest(verify: Verify, db: Db, h: Handler)
    requires FreshIds(db) && Grants(h)
    ensures var b := ExecOne(verify, db, h).db;
            OnlyAdds(db, b) && b.tenants == db.tenants && b.proxies == db.proxies
  {
    if h.GrantInsert? {
      GrantInsertKeepsRest(db, h);
    } else {
      assert ExecOne(verify, db, h).db == db;
    }
  }

  lemma GrantInsertKeepsRest(db: Db, h: Handler)
    requires FreshIds(db) && h.GrantInsert?
    ensures var b := ExecCreate(db, h).db;
            OnlyAdds(db, b) && b.tenants == db.tenants && b.proxies == db.proxies
  {
  }

  /** No statement of a grant changes any answer to any NewProxy request. */
  lemma GrantChangesNoDecision(verify: Verify, db: Db, h: Handler, req: NewProxyRequest)
    requires Inv(db) && HandlerOk(db, h) && Grants(h)
    ensures HandleNewProxy(verify, ExecOne(verify, db, h).db, req) == HandleNewProxy(verify, db, req)
  {
    InvGivesFreshIds(db);
    GrantStepKeepsRest(verify, db, h);
    ExecOk(verify, db, h);
    DecisionKept(verify, db, ExecOne(verify, db, h).db, req);
  }

  // ---- a new proxy ----

  /** This insert of a checked proxy succeeds and leads to b. */
  ghost predicate Adds(db: Db, input: ProxyInput, localIP: string, b: Db) {
    Inv(db) && HandlerOk(db, ProxyInsert(input, localIP)) && InsertProxy(db, input, localIP) == Some(b)
  }

  lemma ProxyRowAdded(db: Db, input: ProxyInput, localIP: string, b: Db)
    requires Adds(db, input, localIP, b)
    ensures Inv(b) && OnlyAdds(db, b) && b.tenants == db.tenants && input.tenantId in db.tenants
    ensures forall p | p in b.proxies && p !in db.proxies ::
              b.proxies[p].tenantId == input.tenantId && b.proxies[p].name == input.name
    ensures b.lastProxy in b.proxies
    ensures b.proxies[b.lastProxy] == Proxy(b.lastProxy, input.tenantId, input.resourceId, input.name,
                                            input.proxyType, localIP, input.localPort, ENABLED)
  {
    InsertProxySafe(db, input, localIP);
    InvGivesFreshIds(db);
  }

  lemma NamesNoProxy(db: Db, input: ProxyInput, localIP: string)
    requires InsertProxy(db, input, localIP).Some?
    ensures GetProxyAuthContext(db, input.tenantId, input.name) == Err(ProxyNotFound)
  {
    forall p ensures !NamesProxy(db, input.tenantId, input.name, p) {
    }
    NoContext(db, input.tenantId, input.name);
  }

  lemma OtherDecisionsKept(verify: Verify, db: Db, input: ProxyInput, localIP: string, b: Db, req: NewProxyRequest)
    requires Adds(db, input, localIP, b) && input.tenantId in db.tenants
    requires req.user != db.tenants[input.tenantId].code || req.name != input.name
    ensures HandleNewProxy(verify, b, req) == HandleNewProxy(verify, db, req)
  {
    ProxyRowAdded(db, input, localIP, b);
    DecisionKept(verify, db, b, req);
  }

  lemma UnknownBefore(verify: Verify, db: Db, input: ProxyInput, localIP: string, b: Db, req: NewProxyRequest)
    requires Adds(db, input, localIP, b) && input.tenantId in db.tenants
    requires req.user == db.tenants[input.tenantId].code && req.name == input.name
    ensures HandleNewProxy(verify, db, req) == HandleNewProxy(verify, b, req)
            || HandleNewProxy(verify, db, req) == Reject(ProxyUnknown)
  {
    ProxyRowAdded(db, input, localIP, b);
    TenantLookup(db, input.tenantId);
    NamesNoProxy(db, input, localIP);
  }

  /** Inserting a proxy changes an answer only for its own tenant and name, where the proxy was unknown before. */
  lemma ProxyChangesOwnDecisions(verify: Verify, db: Db, input: ProxyInput, localIP: string, b: Db,
                                 req: NewProxyRequest)
    requires Adds(db, input, localIP, b)
    requires HandleNewProxy(verify, b, req) != HandleNewProxy(verify, db, req)
    ensures input.tenantId in db.tenants && req.user == db.tenants[input.tenantId].code && req.name == input.name
    ensures HandleNewProxy(verify, db, req) == Reject(ProxyUnknown)
  {
    ProxyRowAdded(db, input, localIP, b);
    if req.user != db.tenants[input.tenantId].code || req.name != input.name {
      OtherDecisionsKept(verify, db, input, localIP, b, req);
    } else {
      UnknownBefore(verify, db, input, localIP, b, req);
    }
  }

  /** Which requests a new proxy lets through: the registered name and type on the granted resource. */
  lemma NewlyAllowed(verify: Verify, db: Db, input: ProxyInput, localIP: string, b: Db, x: NewProxyRequest)
    requires Adds(db, input, localIP, b)
    requires HandleNewProxy(verify, db, x) != Allow && HandleNewProxy(verify, b, x) == Allow
    ensures input.tenantId in db.tenants && x.user == db.tenants[input.tenantId].code
    ensures x.name == input.name && x.proxyType == input.proxyType
    ensures Serves(db.resources[input.resourceId], EndpointOf(x))
  {
    ProxyChangesOwnDecisions(verify, db, input, localIP, b, x);
    ProxyRowAdded(db, input, localIP, b);
    ConstantsDistinct();
    var t, p, r, g := AllowedIsEntitled(verify, b, x);
  }

  /** What it adds is one triple: every newly allowed request has the same name, type and endpoint. */
  lemma ProxyAddsOneTriple(verify: Verify, db: Db, input: ProxyInput, localIP: string, b: Db,
                           x: NewProxyRequest, y: NewProxyRequest)
    requires Adds(db, input, localIP, b)
    requires HandleNewProxy(verify, db, x) != Allow && HandleNewProxy(verify, b, x) == Allow
    requires HandleNewProxy(verify, db, y) != Allow && HandleNewProxy(verify, b, y) == Allow
    ensures x.user == y.user && x.name == y.name && x.proxyType == y.proxyType && EndpointOf(x) == EndpointOf(y)
  {
    NewlyAllowed(verify, db, input, localIP, b, x);
    NewlyAllowed(verify, db, input, localIP, b, y);
    if x.proxyType == TCP || x.proxyType == UDP {
      ItoaInjective(x.remotePort, y.remotePort);
    }
  }
}
