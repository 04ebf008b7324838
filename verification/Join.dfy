/** The three-table query behind a tenant's configuration: its rows, their order, and their agreement
    with the separate lookups the plugin makes. */
module Join {
  import opened Text
  import opened Model
  import opened Tables
  import opened Plugin

  // ---- what the query returns ----

  predicate Joined(db: Db, tenantId: int, p: int, r: int, g: int)
    requires p in db.proxies && r in db.resources && g in db.grants
  {
    && db.resources[r].id == db.proxies[p].resourceId
    && db.grants[g].resourceId == db.resources[r].id && db.grants[g].tenantId == db.proxies[p].tenantId
    && db.proxies[p].tenantId == tenantId
    && db.proxies[p].status == ENABLED && db.resources[r].status == AVAILABLE && db.grants[g].status == ENABLED
  }

  ghost function JoinSet(db: Db, tenantId: int): set<AuthContext> {
    set p, r, g | p in db.proxies && r in db.resources && g in db.grants && Joined(db, tenantId, p, r, g)
      :: AuthContext(db.proxies[p], db.resources[r], Some(db.grants[g]))
  }

  function ContextName(c: AuthContext): string {
    c.proxy.name
  }

  ghost predicate Ascending<T>(name: T -> string, xs: seq<T>) {
    forall i, j :: 0 <= i < j < |xs| ==> Less(name(xs[i]), name(xs[j]))
  }

  /** What SQL promises: each row of the join once, ordered by name; ties would come in any order. */
  ghost predicate QueryResult(db: Db, tenantId: int, rows: seq<AuthContext>) {
    && (forall c :: c in rows <==> c in JoinSet(db, tenantId))
    && (forall i, j :: 0 <= i < j < |rows| ==> rows[i] != rows[j])
    && (forall i, j :: 0 <= i < j < |rows| ==> !Less(ContextName(rows[j]), ContextName(rows[i])))
  }

  // ---- a result exists ----

  lemma NotLessTransitive(a: string, b: string, c: string)
    requires !Less(a, b) && !Less(b, c)
    ensures !Less(a, c)
  {
    LessTrichotomy(a, b);
    LessTrichotomy(b, c);
    if Less(a, c) && b != c {
      LessTransitive(a, c, b) by {
        assert Less(c, b);
      }
    }
  }

  lemma {:induction false} FirstByName(s: set<AuthContext>) returns (m: AuthContext)
    requires s != {}
    ensures m in s && forall c :: c in s ==> !Less(ContextName(c), ContextName(m))
  {
    m :| m in s;
    LessTrichotomy(ContextName(m), ContextName(m));
    var x, rest := m, s - {m};
    assert forall c :: c in s ==> c == x || c in rest;
    if rest != {} {
      var first := FirstByName(rest);
      LessTrichotomy(ContextName(first), ContextName(x));
      if Less(ContextName(first), ContextName(x)) {
        m := first;
      } else {
        forall c | c in rest ensures !Less(ContextName(c), ContextName(x)) {
          NotLessTransitive(ContextName(c), ContextName(first), ContextName(x));
        }
      }
    }
  }

  lemma {:induction false} SortedExists(s: set<AuthContext>) returns (rows: seq<AuthContext>)
    ensures forall c :: c in rows <==> c in s
    ensures forall i, j :: 0 <= i < j < |rows| ==> rows[i] != rows[j]
    ensures forall i, j :: 0 <= i < j < |rows| ==> !Less(ContextName(rows[j]), ContextName(rows[i]))
  {
    if s == {} {
      rows := [];
    } else {
      var m := FirstByName(s);
      var rest := SortedExists(s - {m});
      rows := [m] + rest;
      forall i | 1 <= i < |rows| ensures rows[i] in s - {m} {
        assert rows[i] in rest;
      }
    }
  }

  ghost function JoinRows(db: Db, tenantId: int): (rows: seq<AuthContext>)
    ensures QueryResult(db, tenantId, rows)
  {
    assert exists rows :: QueryResult(db, tenantId, rows) by {
      var rows := SortedExists(JoinSet(db, tenantId));
      assert QueryResult(db, tenantId, rows);
    }
    var rows :| QueryResult(db, tenantId, rows);
    rows
  }

  // ---- the join is the lookup chain, filtered ----

  predicate Live(c: AuthContext, tenantId: int) {
    && c.proxy.status == ENABLED && c.resource.status == AVAILABLE
    && c.grant.Some? && c.grant.value.tenantId == tenantId && c.grant.value.status == ENABLED
  }

  /** A row is in the join exactly when looking its proxy up by name yields it with everything live. */
  lemma JoinMatchesLookups(db: Db, tenantId: int, c: AuthContext)
    requires Inv(db)
    ensures c in JoinSet(db, tenantId) <==>
            GetProxyAuthContext(db, tenantId, c.proxy.name) == Ok(c) && Live(c, tenantId)
  {
    if c in JoinSet(db, tenantId) {
      var p, r, g :| p in db.proxies && r in db.resources && g in db.grants && Joined(db, tenantId, p, r, g)
        && c == AuthContext(db.proxies[p], db.resources[r], Some(db.grants[g]));
      ProxyLookup(db, p);
      GrantLookup(db, g);
    }
    if GetProxyAuthContext(db, tenantId, c.proxy.name) == Ok(c) && Live(c, tenantId) {
      assert Joined(db, tenantId, c.proxy.id, c.resource.id, c.grant.value.id);
    }
  }

  /** One row per proxy name, so the order is strict and the result is unique. */
  lemma QueryResultAscending(db: Db, tenantId: int, rows: seq<AuthContext>)
    requires Inv(db) && QueryResult(db, tenantId, rows)
    ensures Ascending(ContextName, rows)
  {
    forall i, j | 0 <= i < j < |rows| ensures Less(ContextName(rows[i]), ContextName(rows[j])) {
      JoinMatchesLookups(db, tenantId, rows[i]);
      JoinMatchesLookups(db, tenantId, rows[j]);
      LessTrichotomy(ContextName(rows[i]), ContextName(rows[j]));
    }
  }

  lemma {:induction false} AscendingUnique<T>(name: T -> string, a: seq<T>, b: seq<T>)
    requires Ascending(name, a) && Ascending(name, b)
    requires forall x :: x in a <==> x in b
    ensures a == b
    decreases |a|
  {
    assert a == [] || a[0] in b;
    assert b == [] || b[0] in a;
    if a != [] && b != [] {
      assert a[0] == b[0] by {
        var i :| 0 <= i < |b| && b[i] == a[0];
        var j :| 0 <= j < |a| && a[j] == b[0];
        LessTrichotomy(name(a[0]), name(b[0]));
      }
      assert Ascending(name, a[1..]) && Ascending(name, b[1..]);
      forall x ensures x in a[1..] <==> x in b[1..] {
        TailMembers(name, a, x);
        TailMembers(name, b, x);
      }
      AscendingUnique(name, a[1..], b[1..]);
      assert a == [a[0]] + a[1..] && b == [b[0]] + b[1..];
    }
  }

  lemma TailMembers<T>(name: T -> string, a: seq<T>, x: T)
    requires a != [] && Ascending(name, a)
    ensures x in a[1..] <==> x in a && x != a[0]
  {
    LessTrichotomy(name(a[0]), name(a[0]));
    if x in a && x != a[0] {
      var i :| 0 <= i < |a| && a[i] == x;
      assert a[1..][i - 1] == x;
    }
  }

  lemma QueryResultUnique(db: Db, tenantId: int, rows: seq<AuthContext>)
    requires Inv(db) && QueryResult(db, tenantId, rows)
    ensures rows == JoinRows(db, tenantId)
  {
    QueryResultAscending(db, tenantId, rows);
    QueryResultAscending(db, tenantId, JoinRows(db, tenantId));
    AscendingUnique(ContextName, rows, JoinRows(db, tenantId));
  }

  // ---- from the rows the database returns to contexts ----

  datatype JoinRow = JoinRow(proxy: Proxy, resource: Resource, grant: Grant)

  function ContextsOf(rows: seq<JoinRow>): seq<AuthContext> {
    seq(|rows|, i requires 0 <= i < |rows| => AuthContext(rows[i].proxy, rows[i].resource, Some(rows[i].grant)))
  }

  /** The scanning loop of ListEnabledProxyAuthContextsByTenant: one context a row, in the rows' order. */
  method ScanContexts(rows: seq<JoinRow>) returns (list: seq<AuthContext>)
    ensures list == ContextsOf(rows)
  {
    list := [];
    for i := 0 to |rows|
      invariant |list| == i
      invariant forall j :: 0 <= j < i ==>
                  list[j] == AuthContext(rows[j].proxy, rows[j].resource, Some(rows[j].grant))
    {
      var ctx := AuthContext(rows[i].proxy, rows[i].resource, None);
      ctx := ctx.(grant := Some(rows[i].grant));
      list := list + [ctx];
    }
  }
}
