/** The entries of a tenant's file, spelled out over the rows of the tables. */
module FileRows {
  import opened Text
  import opened Model
  import opened Tables
  import opened Plugin
  import opened Join
  import opened FrpcConfig
  import TenantConfig
  import opened Agreement
  import Outcomes

  /** Proxy p belongs into the file of tenant t: it, its resource and the tenant's grant are all in use. */
  ghost predicate Qualifies(db: Db, t: int, p: int) {
    && p in db.proxies && db.proxies[p].tenantId == t && db.proxies[p].status == "enabled"
    && var r := db.proxies[p].resourceId;
       r in db.resources && db.resources[r].status == "available" && Outcomes.GrantedTo(db, r, t)
  }

  /** The entry shows this proxy with this endpoint, and nothing else. */
  predicate Shows(e: ProxyEntry, row: Proxy, value: string) {
    && e.name == row.name && e.typ == row.proxyType && e.localIP == row.localIP && e.localPort == row.localPort
    && (if row.proxyType == "http" || row.proxyType == "https" then e.subdomain == value && e.remotePort == 0
        else e.subdomain == "" && DecimalOf(value, e.remotePort))
  }

  ghost predicate ShowsProxy(db: Db, t: int, e: ProxyEntry, p: int) {
    Qualifies(db, t, p) && Shows(e, db.proxies[p], db.resources[db.proxies[p].resourceId].value)
  }

  /** Entry i shows proxy ids[i]; every qualifying proxy is there, in the order of the names. */
  ghost predicate ShowsRows(db: Db, t: int, es: seq<ProxyEntry>, ids: seq<int>) {
    && |ids| == |es| && (forall i :: 0 <= i < |es| ==> ShowsProxy(db, t, es[i], ids[i]))
    && (forall p :: Qualifies(db, t, p) ==> p in ids)
    && (forall i, j :: 0 <= i < j < |es| ==> Precedes(es[i].name, es[j].name))
  }

  lemma JoinedQualifies(db: Db, t: int, c: AuthContext)
    requires Inv(db) && c in JoinSet(db, t)
    ensures Qualifies(db, t, c.proxy.id) && db.proxies[c.proxy.id] == c.proxy
    ensures db.resources[c.proxy.resourceId] == c.resource
  {
    var p, r, g :| p in db.proxies && r in db.resources && g in db.grants && Joined(db, t, p, r, g)
      && c == AuthContext(db.proxies[p], db.resources[r], Some(db.grants[g]));
  }

  lemma QualifyingIsJoined(db: Db, t: int, p: int) returns (c: AuthContext)
    requires Inv(db) && Qualifies(db, t, p)
    ensures c in JoinSet(db, t) && c.proxy.id == p
  {
    var r := db.proxies[p].resourceId;
    var g :| g in db.grants && db.grants[g].resourceId == r && db.grants[g].tenantId == t
             && db.grants[g].status == "enabled";
    assert Joined(db, t, p, r, g);
    c := AuthContext(db.proxies[p], db.resources[r], Some(db.grants[g]));
  }

  lemma EntryShows(db: Db, t: int, c: AuthContext)
    requires Inv(db) && c in JoinSet(db, t)
    ensures TenantConfig.EntryOf(c).Some?
    ensures ShowsProxy(db, t, Essential(TenantConfig.EntryOf(c).value), c.proxy.id)
  {
    EntryBuilds(db, t, c);
    JoinedQualifies(db, t, c);
    var e := TenantConfig.EntryOf(c).value;
    if !UsesSubdomain(e.typ) {
      DecimalIsItoa(c.resource.value, e.remotePort);
    }
  }

  lemma EntryNamesAscend(db: Db, t: int, i: nat, j: nat)
    requires Inv(db) && i < j < |Entries(db, t)|
    ensures Precedes(Entries(db, t)[i].name, Entries(db, t)[j].name)
  {
    var es := Entries(db, t);
    EntriesBuild(db, t);
    assert Less(EntryName(es[i]), EntryName(es[j]));
    LessIff(es[i].name, es[j].name);
  }

  lemma EntryAt(db: Db, t: int, i: nat)
    requires Inv(db) && i < |Entries(db, t)|
    ensures i < |JoinRows(db, t)|
    ensures ShowsProxy(db, t, Essential(Entries(db, t)[i]), JoinRows(db, t)[i].proxy.id)
  {
    EntriesBuild(db, t);
    assert JoinRows(db, t)[i] in JoinRows(db, t);
    EntryShows(db, t, JoinRows(db, t)[i]);
  }

  lemma QualifyingHasRow(db: Db, t: int, p: int) returns (i: nat)
    requires Inv(db) && Qualifies(db, t, p)
    ensures i < |JoinRows(db, t)| && JoinRows(db, t)[i].proxy.id == p
  {
    var c := QualifyingIsJoined(db, t, p);
    i :| 0 <= i < |JoinRows(db, t)| && JoinRows(db, t)[i] == c;
  }

  function Ids(rows: seq<AuthContext>): seq<int> {
    seq(|rows|, i requires 0 <= i < |rows| => rows[i].proxy.id)
  }

  /** The entries are those of the qualifying proxies. */
  lemma EntriesShowRows(db: Db, t: int) returns (ids: seq<int>)
    requires Inv(db)
    ensures ShowsRows(db, t, EssentialAll(Entries(db, t)), ids)
  {
    EntriesBuild(db, t);
    ids := Ids(JoinRows(db, t));
    var es := EssentialAll(Entries(db, t));
    forall i | 0 <= i < |es| ensures ShowsProxy(db, t, es[i], ids[i]) {
      EntryAt(db, t, i);
    }
    forall p | Qualifies(db, t, p) ensures p in ids {
      var i := QualifyingHasRow(db, t, p);
      assert ids[i] == p;
    }
    forall i, j | 0 <= i < j < |es| ensures Precedes(es[i].name, es[j].name) {
      EntryNamesAscend(db, t, i, j);
    }
  }
}
