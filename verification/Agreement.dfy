/** Configuration and decision reach the same rows by different routes; in every state that satisfies
    the invariant they agree exactly, and building the configuration cannot fail. */
module Agreement {
  import opened Text
  import opened Model
  import opened Tables
  import opened Plugin
  import opened Join
  import opened FrpcConfig
  import opened TenantConfig

  lemma ParsePortOfItoa(n: int)
    requires ValidPort(n)
    ensures ParsePort(Itoa(n)) == Some(n)
  {
    TrimSpaceIdentity(Itoa(n));
    AtoiOfItoa(n);
  }

  /** A stored port is read exactly when it is a number in range, white space around it aside. */
  lemma ParsePortIff(s: string, n: int)
    ensures ParsePort(s) == Some(n) <==> PaddedDenotes(s, n) && 1 <= n <= 65535
  {
    TrimmedAtoiIff(s, n);
  }

  /** Every row of the join becomes a writable entry carrying exactly the proxy's local side and the
      resource's value. */
  lemma EntryBuilds(db: Db, tenantId: int, c: AuthContext)
    requires Inv(db) && c in JoinSet(db, tenantId)
    ensures EntryOf(c).Some?
    ensures var e := EntryOf(c).value;
            && Fault(e).None? && e.name == c.proxy.name && e.typ == c.proxy.proxyType
            && e.localIP == c.proxy.localIP && e.localPort == c.proxy.localPort
            && (if UsesSubdomain(e.typ) then e.subdomain == c.resource.value
                else Itoa(e.remotePort) == c.resource.value)
  {
    ConstantsDistinct();
    JoinMatchesLookups(db, tenantId, c);
    assert ProxyOk(c.proxy, db.resources, db.grants);
    var r := c.resource;
    assert ResourceShape(db.zones, r.typ, r.value, r.zoneId);
    if r.typ != SUBDOMAIN {
      var n: int :| ValidPort(n) && r.value == Itoa(n);
      ParsePortOfItoa(n);
    }
  }

  lemma {:induction false} EntriesOfEach(cs: seq<AuthContext>)
    requires forall i :: 0 <= i < |cs| ==> EntryOf(cs[i]).Some?
    ensures EntriesOf(cs).Some? && |EntriesOf(cs).value| == |cs|
    ensures forall i :: 0 <= i < |cs| ==> EntriesOf(cs).value[i] == EntryOf(cs[i]).value
  {
    if cs != [] {
      EntriesOfEach(cs[..|cs| - 1]);
    }
  }

  function EntryName(e: ProxyEntry): string {
    e.name
  }

  /** Building and writing the configuration succeeds, one entry per row, in name order. */
  lemma EntriesBuild(db: Db, tenantId: int)
    requires Inv(db)
    ensures var rows := JoinRows(db, tenantId); var es := EntriesOf(rows);
            && es.Some? && |es.value| == |rows|
            && (forall i :: 0 <= i < |rows| ==> EntryOf(rows[i]) == Some(es.value[i]) && Fault(es.value[i]).None?)
            && Ascending(EntryName, es.value)
  {
    var rows := JoinRows(db, tenantId);
    forall i | 0 <= i < |rows| ensures EntryOf(rows[i]).Some? && Fault(EntryOf(rows[i]).value).None? {
      EntryBuilds(db, tenantId, rows[i]);
    }
    EntriesOfEach(rows);
    QueryResultAscending(db, tenantId, rows);
    var es := EntriesOf(rows).value;
    forall i, j | 0 <= i < j < |es| ensures Less(es[i].name, es[j].name) {
      EntryBuilds(db, tenantId, rows[i]);
      EntryBuilds(db, tenantId, rows[j]);
      assert Less(ContextName(rows[i]), ContextName(rows[j]));
    }
  }

  ghost function Entries(db: Db, tenantId: int): seq<ProxyEntry>
    requires Inv(db)
  {
    EntriesBuild(db, tenantId);
    EntriesOf(JoinRows(db, tenantId)).value
  }

  lemma ConfigNeverFails(db: Db, tenantId: int, server: Server, code: string, token: string)
    requires Inv(db)
    ensures ConfigText(server, code, token, JoinRows(db, tenantId)) ==
            Some(FileOf(ConfigLines(ConfigFor(server, code, token, Entries(db, tenantId)))))
    ensures Writable(ConfigFor(server, code, token, Entries(db, tenantId)))
  {
    EntriesBuild(db, tenantId);
  }

  // ---- agreement with the plugin ----

  predicate Lists(e: ProxyEntry, req: NewProxyRequest) {
    && e.name == req.name && e.typ == req.proxyType
    && (if UsesSubdomain(e.typ) then e.subdomain == req.subdomain else e.remotePort == req.remotePort)
  }

  ghost predicate Listed(db: Db, tenantId: int, req: NewProxyRequest)
    requires Inv(db)
  {
    exists e :: e in Entries(db, tenantId) && Lists(e, req)
  }

  lemma AllowedIsListed(verify: Verify, db: Db, req: NewProxyRequest, t: int, p: int, r: int, g: int)
    requires Inv(db) && EntitledBy(verify, db, req, t, p, r, g)
    ensures Listed(db, t, req)
  {
    var c := AuthContext(db.proxies[p], db.resources[r], Some(db.grants[g]));
    assert Joined(db, t, p, r, g);
    assert c in JoinSet(db, t);
    EntryBuilds(db, t, c);
    EntriesBuild(db, t);
    var rows := JoinRows(db, t);
    var i :| 0 <= i < |rows| && rows[i] == c;
    var e := Entries(db, t)[i];
    assert e == EntryOf(c).value;
    if !UsesSubdomain(e.typ) {
      ItoaInjective(e.remotePort, req.remotePort);
    }
    assert Lists(e, req);
  }

  lemma ListedIsAllowed(verify: Verify, db: Db, req: NewProxyRequest, t: int)
    requires Inv(db) && t in db.tenants && db.tenants[t].status == ENABLED && db.tenants[t].code == req.user
    requires req.token != "" && verify(db.tenants[t].tokenHash, req.token) && req.customDomains == []
    requires Listed(db, t, req)
    ensures HandleNewProxy(verify, db, req) == Allow
  {
    var e :| e in Entries(db, t) && Lists(e, req);
    EntriesBuild(db, t);
    var rows := JoinRows(db, t);
    var i :| 0 <= i < |rows| && Entries(db, t)[i] == e;
    var c := rows[i];
    EntryBuilds(db, t, c);
    JoinMatchesLookups(db, t, c);
    EntitledIsAllowed(verify, db, req, t, c.proxy.id, c.resource.id, c.grant.value.id);
  }

  /** For an enabled tenant presenting its token and no custom domains, NewProxy allows exactly the
      (name, type, endpoint) triples its configuration lists. */
  lemma ConfigAgreesWithDecision(verify: Verify, db: Db, req: NewProxyRequest, t: int)
    requires Inv(db) && t in db.tenants && db.tenants[t].status == ENABLED && db.tenants[t].code == req.user
    requires req.token != "" && verify(db.tenants[t].tokenHash, req.token) && req.customDomains == []
    ensures HandleNewProxy(verify, db, req) == Allow <==> Listed(db, t, req)
  {
    if HandleNewProxy(verify, db, req) == Allow {
      var t', p, r, g := AllowedIsEntitled(verify, db, req);
      AllowedIsListed(verify, db, req, t', p, r, g);
    }
    if Listed(db, t, req) {
      ListedIsAllowed(verify, db, req, t);
    }
  }

  // ---- the configuration depends on row contents only ----

  ghost function EntrySet(db: Db, tenantId: int): set<Option<ProxyEntry>> {
    set c | c in JoinSet(db, tenantId) :: EntryOf(c)
  }

  lemma EntryComesFromRow(db: Db, tenantId: int, e: ProxyEntry) returns (c: AuthContext)
    requires Inv(db) && e in Entries(db, tenantId)
    ensures c in JoinSet(db, tenantId) && EntryOf(c) == Some(e)
  {
    EntriesBuild(db, tenantId);
    var rows := JoinRows(db, tenantId);
    var i :| 0 <= i < |rows| && Entries(db, tenantId)[i] == e;
    assert rows[i] in rows;
    c := rows[i];
  }

  lemma RowGivesEntry(db: Db, tenantId: int, c: AuthContext, e: ProxyEntry)
    requires Inv(db) && c in JoinSet(db, tenantId) && EntryOf(c) == Some(e)
    ensures e in Entries(db, tenantId)
  {
    EntriesBuild(db, tenantId);
    var rows := JoinRows(db, tenantId);
    var i :| 0 <= i < |rows| && rows[i] == c;
    assert Entries(db, tenantId)[i] == e;
  }

  lemma EntriesAreEntrySet(db: Db, tenantId: int, e: ProxyEntry)
    requires Inv(db)
    ensures e in Entries(db, tenantId) <==> Some(e) in EntrySet(db, tenantId)
  {
    if e in Entries(db, tenantId) {
      var c := EntryComesFromRow(db, tenantId, e);
    }
    if Some(e) in EntrySet(db, tenantId) {
      var c :| c in JoinSet(db, tenantId) && EntryOf(c) == Some(e);
      RowGivesEntry(db, tenantId, c, e);
    }
  }

  lemma SameEntrySetSameEntries(a: Db, b: Db, s: int, t: int)
    requires Inv(a) && Inv(b) && EntrySet(a, s) == EntrySet(b, t)
    ensures Entries(a, s) == Entries(b, t)
  {
    EntriesBuild(a, s);
    EntriesBuild(b, t);
    forall e ensures e in Entries(a, s) <==> e in Entries(b, t) {
      EntriesAreEntrySet(a, s, e);
      EntriesAreEntrySet(b, t, e);
    }
    AscendingUnique(EntryName, Entries(a, s), Entries(b, t));
  }

  /** New ids for the rows of four tables. */
  datatype Renumbering = Renumbering(tenants: map<int, int>, resources: map<int, int>, grants: map<int, int>,
                                     proxies: map<int, int>)

  ghost predicate CarriesResources(f: Renumbering, a: map<int, Resource>, b: map<int, Resource>) {
    forall k | k in a ::
      && k in f.resources && f.resources[k] in b
      && b[f.resources[k]] == a[k].(id := f.resources[k], zoneId := b[f.resources[k]].zoneId)
  }

  ghost predicate CarriesGrants(f: Renumbering, a: map<int, Grant>, b: map<int, Grant>) {
    forall k | k in a ::
      && k in f.grants && f.grants[k] in b && a[k].tenantId in f.tenants && a[k].resourceId in f.resources
      && b[f.grants[k]] ==
         Grant(f.grants[k], f.tenants[a[k].tenantId], f.resources[a[k].resourceId], a[k].status)
  }

  ghost predicate CarriesProxies(f: Renumbering, a: map<int, Proxy>, b: map<int, Proxy>) {
    forall k | k in a ::
      && k in f.proxies && f.proxies[k] in b && a[k].tenantId in f.tenants && a[k].resourceId in f.resources
      && b[f.proxies[k]] == a[k].(id := f.proxies[k], tenantId := f.tenants[a[k].tenantId],
                                  resourceId := f.resources[a[k].resourceId])
  }

  /** Every resource, grant and proxy of a is one of b under its new ids. */
  ghost predicate Carries(f: Renumbering, a: Db, b: Db) {
    && CarriesResources(f, a.resources, b.resources)
    && CarriesGrants(f, a.grants, b.grants)
    && CarriesProxies(f, a.proxies, b.proxies)
  }

  lemma JoinCarried(f: Renumbering, a: Db, b: Db, t: int, p: int, r: int, g: int)
    requires Inv(a) && Carries(f, a, b) && t in f.tenants
    requires p in a.proxies && r in a.resources && g in a.grants && Joined(a, t, p, r, g)
    ensures p in f.proxies && f.proxies[p] in b.proxies && r in f.resources && f.resources[r] in b.resources
    ensures g in f.grants && f.grants[g] in b.grants
    ensures Joined(b, f.tenants[t], f.proxies[p], f.resources[r], f.grants[g])
  {
    assert a.resources[r].id == r;
  }

  lemma SameEntry(c: AuthContext, d: AuthContext)
    requires c.proxy == d.proxy.(id := c.proxy.id, tenantId := c.proxy.tenantId, resourceId := c.proxy.resourceId)
    requires c.resource.value == d.resource.value
    ensures EntryOf(c) == EntryOf(d)
  {
  }

  lemma EntryCarried(f: Renumbering, a: Db, b: Db, t: int, p: int, r: int, g: int)
    requires Inv(a) && Carries(f, a, b) && t in f.tenants
    requires p in a.proxies && r in a.resources && g in a.grants && Joined(a, t, p, r, g)
    ensures EntryOf(AuthContext(a.proxies[p], a.resources[r], Some(a.grants[g]))) in EntrySet(b, f.tenants[t])
  {
    JoinCarried(f, a, b, t, p, r, g);
    var c := AuthContext(a.proxies[p], a.resources[r], Some(a.grants[g]));
    var d := AuthContext(b.proxies[f.proxies[p]], b.resources[f.resources[r]], Some(b.grants[f.grants[g]]));
    SameEntry(c, d);
    assert d in JoinSet(b, f.tenants[t]);
  }

  lemma EntriesCarried(f: Renumbering, a: Db, b: Db, t: int)
    requires Inv(a) && Carries(f, a, b) && t in f.tenants
    ensures EntrySet(a, t) <= EntrySet(b, f.tenants[t])
  {
    forall e | e in EntrySet(a, t) ensures e in EntrySet(b, f.tenants[t]) {
      var c :| c in JoinSet(a, t) && EntryOf(c) == e;
      var p, r, g :| p in a.proxies && r in a.resources && g in a.grants && Joined(a, t, p, r, g)
        && c == AuthContext(a.proxies[p], a.resources[r], Some(a.grants[g]));
      EntryCarried(f, a, b, t, p, r, g);
    }
  }

  /** Ids and the order in which rows were inserted do not matter: two databases that hold the same rows up
      to a renumbering of ids give the same configuration text. */
  lemma TextDependsOnContents(a: Db, b: Db, f: Renumbering, g: Renumbering, t: int, s: int,
                              server: Server, code: string, token: string)
    requires Inv(a) && Inv(b) && Carries(f, a, b) && Carries(g, b, a)
    requires t in f.tenants && f.tenants[t] == s && s in g.tenants && g.tenants[s] == t
    ensures ConfigText(server, code, token, JoinRows(a, t)) == ConfigText(server, code, token, JoinRows(b, s))
  {
    EntriesCarried(f, a, b, t);
    EntriesCarried(g, b, a, s);
    SameEntrySetSameEntries(a, b, t, s);
    ConfigNeverFails(a, t, server, code, token);
    ConfigNeverFails(b, s, server, code, token);
  }
}
