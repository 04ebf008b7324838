/** The five tables, the SQL statements the store sends to them, and what every statement keeps.
    Each statement is one atomic step; a UNIQUE key is the only constraint an insert can hit.
    No statement deletes a row, and none changes a key, owner, type or value column. */
module Tables {
  import opened Text
  import opened Model

  datatype Db = Db(
    tenants: map<int, Tenant>, zones: map<int, Zone>, resources: map<int, Resource>,
    grants: map<int, Grant>, proxies: map<int, Proxy>,
    // The largest id each AUTOINCREMENT column has handed out.
    lastTenant: int, lastZone: int, lastResource: int, lastGrant: int, lastProxy: int)

  const EMPTY := Db(map[], map[], map[], map[], map[], 0, 0, 0, 0, 0)

  // ---- SELECT by a unique key other than the id ----

  ghost function TenantByCode(db: Db, code: string): Option<Tenant> {
    if k :| k in db.tenants && db.tenants[k].code == code then Some(db.tenants[k]) else None
  }

  ghost function GrantByResource(db: Db, resourceId: int): Option<Grant> {
    if k :| k in db.grants && db.grants[k].resourceId == resourceId then Some(db.grants[k]) else None
  }

  ghost function ProxyByName(db: Db, tenantId: int, name: string): Option<Proxy> {
    if k :| k in db.proxies && db.proxies[k].tenantId == tenantId && db.proxies[k].name == name
    then Some(db.proxies[k]) else None
  }

  predicate HasEnabledZone(db: Db) {
    exists k :: k in db.zones && db.zones[k].status == ENABLED
  }

  // ---- INSERT: None is a UNIQUE violation; otherwise the new row has the id last* + 1 ----

  function InsertTenant(db: Db, input: TenantInput): Option<Db> {
    if exists k :: k in db.tenants && db.tenants[k].code == input.code then None
    else
      var id := db.lastTenant + 1;
      var row := Tenant(id, input.code, input.name, input.tokenHash, ENABLED, input.description, None);
      Some(db.(tenants := db.tenants[id := row], lastTenant := id))
  }

  function InsertZone(db: Db, name: string, zone: string): Option<Db> {
    if exists k :: k in db.zones && db.zones[k].zone == zone then None
    else
      var id := db.lastZone + 1;
      Some(db.(zones := db.zones[id := Zone(id, name, zone, ENABLED)], lastZone := id))
  }

  function InsertResource(db: Db, typ: string, value: string, zoneId: Option<int>): Option<Db> {
    if exists k :: k in db.resources && db.resources[k].typ == typ && db.resources[k].value == value then None
    else
      var id := db.lastResource + 1;
      var row := Resource(id, typ, value, zoneId, AVAILABLE);
      Some(db.(resources := db.resources[id := row], lastResource := id))
  }

  function InsertGrant(db: Db, tenantId: int, resourceId: int): Option<Db> {
    if exists k :: k in db.grants && db.grants[k].resourceId == resourceId then None
    else
      var id := db.lastGrant + 1;
      Some(db.(grants := db.grants[id := Grant(id, tenantId, resourceId, ENABLED)], lastGrant := id))
  }

  function InsertProxy(db: Db, input: ProxyInput, localIP: string): Option<Db> {
    if exists k :: k in db.proxies && db.proxies[k].tenantId == input.tenantId && db.proxies[k].name == input.name
    then None
    else
      var id := db.lastProxy + 1;
      var row := Proxy(id, input.tenantId, input.resourceId, input.name, input.proxyType, localIP,
                       input.localPort, ENABLED);
      Some(db.(proxies := db.proxies[id := row], lastProxy := id))
  }

  // ---- UPDATE ... WHERE id = ?: None when no row was affected ----

  function SetTenantStatus(db: Db, id: int, status: string): Option<Db> {
    if id !in db.tenants then None
    else Some(db.(tenants := db.tenants[id := db.tenants[id].(status := status)]))
  }

  function SetTokenHash(db: Db, id: int, hash: string): Option<Db> {
    if id !in db.tenants then None
    else Some(db.(tenants := db.tenants[id := db.tenants[id].(tokenHash := hash)]))
  }

  function SetLastSeen(db: Db, id: int, now: int): Option<Db> {
    if id !in db.tenants then None
    else Some(db.(tenants := db.tenants[id := db.tenants[id].(lastSeen := Some(now))]))
  }

  function SetZoneStatus(db: Db, id: int, status: string): Option<Db> {
    if id !in db.zones then None
    else Some(db.(zones := db.zones[id := db.zones[id].(status := status)]))
  }

  function SetResourceStatus(db: Db, id: int, status: string): Option<Db> {
    if id !in db.resources then None
    else Some(db.(resources := db.resources[id := db.resources[id].(status := status)]))
  }

  function SetGrantStatus(db: Db, id: int, status: string): Option<Db> {
    if id !in db.grants then None
    else Some(db.(grants := db.grants[id := db.grants[id].(status := status)]))
  }

  function SetProxyStatus(db: Db, id: int, status: string): Option<Db> {
    if id !in db.proxies then None
    else Some(db.(proxies := db.proxies[id := db.proxies[id].(status := status)]))
  }

  // ---- the state invariant ----

  ghost predicate TenantsOk(tenants: map<int, Tenant>, last: int) {
    && (forall k :: k in tenants ==>
          tenants[k].id == k && 1 <= k <= last && !Blank(tenants[k].code) && !Blank(tenants[k].name))
    && (forall j, k :: j in tenants && k in tenants && tenants[j].code == tenants[k].code ==> j == k)
  }

  ghost predicate ZonesOk(zones: map<int, Zone>, last: int) {
    && (forall k :: k in zones ==> zones[k].id == k && 1 <= k <= last)
    && (forall j, k :: j in zones && k in zones && zones[j].zone == zones[k].zone ==> j == k)
  }

  /** A port is stored as the canonical decimal of 1..65535; a subdomain is not blank and has a zone row. */
  ghost predicate ResourceShape(zones: map<int, Zone>, typ: string, value: string, zoneId: Option<int>) {
    if typ == SUBDOMAIN then !Blank(value) && zoneId.Some? && zoneId.value in zones
    else
      && (typ == TCP_PORT || typ == UDP_PORT)
      && zoneId == None
      && exists n: int :: ValidPort(n) && value == Itoa(n)
  }

  ghost predicate ResourcesOk(resources: map<int, Resource>, zones: map<int, Zone>, last: int) {
    && (forall k :: k in resources ==> resources[k].id == k && 1 <= k <= last)
    && (forall k :: k in resources ==>
          ResourceShape(zones, resources[k].typ, resources[k].value, resources[k].zoneId))
    && (forall j, k | j in resources && k in resources ::
          resources[j].typ == resources[k].typ && resources[j].value == resources[k].value ==> j == k)
  }

  ghost predicate GrantsOk(grants: map<int, Grant>, tenants: set<int>, resources: set<int>, last: int) {
    && (forall k :: k in grants ==>
          grants[k].id == k && 1 <= k <= last && grants[k].tenantId in tenants && grants[k].resourceId in resources)
    && (forall j, k :: j in grants && k in grants && grants[j].resourceId == grants[k].resourceId ==> j == k)
  }

  ghost predicate OwnedBy(grants: map<int, Grant>, resourceId: int, tenantId: int) {
    exists g :: g in grants && grants[g].resourceId == resourceId && grants[g].tenantId == tenantId
  }

  ghost predicate ProxyInputOk(input: ProxyInput, localIP: string) {
    !Blank(input.name) && ValidProxyType(input.proxyType) && ValidPort(input.localPort) && localIP != ""
  }

  ghost predicate ProxyOk(p: Proxy, resources: map<int, Resource>, grants: map<int, Grant>) {
    && !Blank(p.name) && ValidProxyType(p.proxyType) && ValidPort(p.localPort) && p.localIP != ""
    && p.resourceId in resources
    && ProxyTypeMatchesResource(p.proxyType, resources[p.resourceId].typ)
    && OwnedBy(grants, p.resourceId, p.tenantId)
  }

  ghost predicate ProxiesOk(proxies: map<int, Proxy>, resources: map<int, Resource>, grants: map<int, Grant>,
                            last: int) {
    && (forall k :: k in proxies ==> proxies[k].id == k && 1 <= k <= last)
    && (forall k :: k in proxies ==> ProxyOk(proxies[k], resources, grants))
    && (forall j, k | j in proxies && k in proxies ::
          proxies[j].tenantId == proxies[k].tenantId && proxies[j].name == proxies[k].name ==> j == k)
  }

  ghost predicate Inv(db: Db) {
    && TenantsOk(db.tenants, db.lastTenant)
    && ZonesOk(db.zones, db.lastZone)
    && ResourcesOk(db.resources, db.zones, db.lastResource)
    && GrantsOk(db.grants, db.tenants.Keys, db.resources.Keys, db.lastGrant)
    && ProxiesOk(db.proxies, db.resources, db.grants, db.lastProxy)
    && 0 <= db.lastTenant && 0 <= db.lastZone && 0 <= db.lastResource && 0 <= db.lastGrant && 0 <= db.lastProxy
  }

  // ---- how the state may evolve: rows stay, and only statuses, token hashes and lastSeen change ----

  ghost predicate TenantsGrow(a: map<int, Tenant>, b: map<int, Tenant>) {
    forall k | k in a ::
      k in b && a[k] == b[k].(tokenHash := a[k].tokenHash, status := a[k].status, lastSeen := a[k].lastSeen)
  }

  ghost predicate ZonesGrow(a: map<int, Zone>, b: map<int, Zone>) {
    forall k :: k in a ==> k in b && a[k] == b[k].(status := a[k].status)
  }

  ghost predicate ResourcesGrow(a: map<int, Resource>, b: map<int, Resource>) {
    forall k :: k in a ==> k in b && a[k] == b[k].(status := a[k].status)
  }

  ghost predicate GrantsGrow(a: map<int, Grant>, b: map<int, Grant>) {
    forall k :: k in a ==> k in b && a[k] == b[k].(status := a[k].status)
  }

  ghost predicate ProxiesGrow(a: map<int, Proxy>, b: map<int, Proxy>) {
    forall k :: k in a ==> k in b && a[k] == b[k].(status := a[k].status)
  }

  ghost predicate Evolves(a: Db, b: Db) {
    && TenantsGrow(a.tenants, b.tenants)
    && ZonesGrow(a.zones, b.zones)
    && ResourcesGrow(a.resources, b.resources)
    && GrantsGrow(a.grants, b.grants)
    && ProxiesGrow(a.proxies, b.proxies)
  }

  lemma EvolvesTransitive(a: Db, b: Db, c: Db)
    requires Evolves(a, b) && Evolves(b, c)
    ensures Evolves(a, c)
  {
  }

  lemma OwnershipIsStable(a: Db, b: Db, resourceId: int, tenantId: int)
    requires Evolves(a, b) && OwnedBy(a.grants, resourceId, tenantId)
    ensures OwnedBy(b.grants, resourceId, tenantId)
  {
    var g :| g in a.grants && a.grants[g].resourceId == resourceId && a.grants[g].tenantId == tenantId;
    assert g in b.grants;
  }

  lemma ShapeIsStable(a: Db, b: Db, typ: string, value: string, zoneId: Option<int>)
    requires Evolves(a, b) && ResourceShape(a.zones, typ, value, zoneId)
    ensures ResourceShape(b.zones, typ, value, zoneId)
  {
    if typ == SUBDOMAIN {
      var z: int := zoneId.value;
      assert a.zones[z] == b.zones[z].(status := a.zones[z].status);
    }
  }

  /** Rows of the other tables keep satisfying their part of the invariant while tables grow. */
  lemma ProxiesStayOk(proxies: map<int, Proxy>, last: int, a: Db, b: Db)
    requires Evolves(a, b) && ProxiesOk(proxies, a.resources, a.grants, last)
    ensures ProxiesOk(proxies, b.resources, b.grants, last)
  {
    forall k | k in proxies ensures ProxyOk(proxies[k], b.resources, b.grants) {
      assert ProxyOk(proxies[k], a.resources, a.grants);
      OwnershipIsStable(a, b, proxies[k].resourceId, proxies[k].tenantId);
    }
  }

  lemma ResourcesStayOk(resources: map<int, Resource>, last: int, a: Db, b: Db)
    requires Evolves(a, b) && ResourcesOk(resources, a.zones, last)
    ensures ResourcesOk(resources, b.zones, last)
  {
    forall k | k in resources
      ensures ResourceShape(b.zones, resources[k].typ, resources[k].value, resources[k].zoneId)
    {
      ShapeIsStable(a, b, resources[k].typ, resources[k].value, resources[k].zoneId);
    }
  }

  ghost predicate Safe(a: Db, b: Db) {
    Inv(b) && Evolves(a, b)
  }

  lemma InsertTenantSafe(db: Db, input: TenantInput)
    requires Inv(db) && !Blank(input.code) && !Blank(input.name)
    ensures var r := InsertTenant(db, input); r.Some? ==> Safe(db, r.value)
  {
    var r := InsertTenant(db, input);
    if r.Some? {
      assert Evolves(db, r.value);
    }
  }

  lemma InsertZoneSafe(db: Db, name: string, zone: string)
    requires Inv(db)
    ensures var r := InsertZone(db, name, zone); r.Some? ==> Safe(db, r.value)
  {
    var r := InsertZone(db, name, zone);
    if r.Some? {
      assert Evolves(db, r.value);
      ResourcesStayOk(db.resources, db.lastResource, db, r.value);
    }
  }

  lemma InsertResourceSafe(db: Db, typ: string, value: string, zoneId: Option<int>)
    requires Inv(db) && ResourceShape(db.zones, typ, value, zoneId)
    ensures var r := InsertResource(db, typ, value, zoneId); r.Some? ==> Safe(db, r.value)
  {
    var r := InsertResource(db, typ, value, zoneId);
    if r.Some? {
      assert Evolves(db, r.value);
      ProxiesStayOk(db.proxies, db.lastProxy, db, r.value);
    }
  }

  lemma InsertGrantSafe(db: Db, tenantId: int, resourceId: int)
    requires Inv(db) && tenantId in db.tenants && resourceId in db.resources
    ensures var r := InsertGrant(db, tenantId, resourceId); r.Some? ==> Safe(db, r.value)
  {
    var r := InsertGrant(db, tenantId, resourceId);
    if r.Some? {
      assert Evolves(db, r.value);
      ProxiesStayOk(db.proxies, db.lastProxy, db, r.value);
    }
  }

  lemma InsertProxySafe(db: Db, input: ProxyInput, localIP: string)
    requires Inv(db) && ProxyInputOk(input, localIP) && input.resourceId in db.resources
    requires ProxyTypeMatchesResource(input.proxyType, db.resources[input.resourceId].typ)
    requires OwnedBy(db.grants, input.resourceId, input.tenantId)
    ensures var r := InsertProxy(db, input, localIP); r.Some? ==> Safe(db, r.value)
  {
    var r := InsertProxy(db, input, localIP);
    if r.Some? {
      assert Evolves(db, r.value);
      var ps := r.value.proxies;
      forall k | k in ps ensures ProxyOk(ps[k], db.resources, db.grants) {
      }
    }
  }

  lemma UpdateTenantSafe(db: Db, id: int, row: Tenant)
    requires Inv(db) && id in db.tenants
    requires row == db.tenants[id].(status := row.status, tokenHash := row.tokenHash, lastSeen := row.lastSeen)
    ensures Safe(db, db.(tenants := db.tenants[id := row]))
  {
    var db' := db.(tenants := db.tenants[id := row]);
    assert Evolves(db, db');
    assert db'.tenants.Keys == db.tenants.Keys;
  }

  lemma SetZoneStatusSafe(db: Db, id: int, status: string)
    requires Inv(db)
    ensures var r := SetZoneStatus(db, id, status); r.Some? ==> Safe(db, r.value)
  {
    var r := SetZoneStatus(db, id, status);
    if r.Some? {
      assert Evolves(db, r.value);
      ResourcesStayOk(db.resources, db.lastResource, db, r.value);
    }
  }

  lemma SetResourceStatusSafe(db: Db, id: int, status: string)
    requires Inv(db)
    ensures var r := SetResourceStatus(db, id, status); r.Some? ==> Safe(db, r.value)
  {
    var r := SetResourceStatus(db, id, status);
    if r.Some? {
      assert Evolves(db, r.value);
      assert r.value.resources.Keys == db.resources.Keys;
      ProxiesStayOk(db.proxies, db.lastProxy, db, r.value);
    }
  }

  lemma SetGrantStatusSafe(db: Db, id: int, status: string)
    requires Inv(db)
    ensures var r := SetGrantStatus(db, id, status); r.Some? ==> Safe(db, r.value)
  {
    var r := SetGrantStatus(db, id, status);
    if r.Some? {
      assert Evolves(db, r.value);
      ProxiesStayOk(db.proxies, db.lastProxy, db, r.value);
    }
  }

  lemma SetProxyStatusSafe(db: Db, id: int, status: string)
    requires Inv(db)
    ensures var r := SetProxyStatus(db, id, status); r.Some? ==> Safe(db, r.value)
  {
    var r := SetProxyStatus(db, id, status);
    if r.Some? {
      assert Evolves(db, r.value);
      var ps := r.value.proxies;
      forall k | k in ps ensures ProxyOk(ps[k], db.resources, db.grants) {
        assert ProxyOk(db.proxies[k], db.resources, db.grants);
      }
    }
  }

  // ---- what inserts leave alone ----

  /** The next id of every table is unused. */
  ghost predicate FreshIds(db: Db) {
    && db.lastTenant + 1 !in db.tenants && db.lastZone + 1 !in db.zones
    && db.lastResource + 1 !in db.resources
    && db.lastGrant + 1 !in db.grants && db.lastProxy + 1 !in db.proxies
  }

  lemma InvGivesFreshIds(db: Db)
    requires Inv(db)
    ensures FreshIds(db)
  {
  }

  /** Every row of a is a row of b. */
  ghost predicate OnlyAdds(a: Db, b: Db) {
    && (forall k :: k in a.tenants ==> k in b.tenants && b.tenants[k] == a.tenants[k])
    && (forall k :: k in a.zones ==> k in b.zones && b.zones[k] == a.zones[k])
    && (forall k :: k in a.resources ==> k in b.resources && b.resources[k] == a.resources[k])
    && (forall k :: k in a.grants ==> k in b.grants && b.grants[k] == a.grants[k])
    && (forall k :: k in a.proxies ==> k in b.proxies && b.proxies[k] == a.proxies[k])
  }
}
