/** Runs in which the separate statements of a handler are overtaken: how any run can go on to insert a proxy
    whose grant has been disabled, or to allow a request that no state allows; and that such runs exist. */
module Races {
  import opened Text
  import opened Model
  import opened Tables
  import opened Plugin
  import opened Machine
  import opened Trace
  import opened Sequential
  import Ports
  import Revocation

  // ---- an insert after its grant was disabled ----

  function GrantSet(db: Db, g: int, status: string): Db
    requires g in db.grants
  {
    db.(grants := db.grants[g := db.grants[g].(status := status)])
  }

  function ProxySet(db: Db, p: int, status: string): Db
    requires p in db.proxies
  {
    db.(proxies := db.proxies[p := db.proxies[p].(status := status)])
  }

  lemma ChecksPass(verify: Verify, db: Db, input: ProxyInput)
    requires Inv(db) && Registrable(db, input)
    ensures var read := ProxyReadGrant(input, LocalIPOf(input), db.resources[input.resourceId]);
            && ExecOne(verify, db, Start(CreateProxy(input))) == Effect(db, read)
            && ExecOne(verify, db, read) == Effect(db, ProxyInsert(input, LocalIPOf(input)))
  {
    var g :| g in db.grants && db.grants[g].resourceId == input.resourceId
             && db.grants[g].tenantId == input.tenantId && db.grants[g].status == ENABLED;
    GrantLookup(db, g);
  }

  lemma SetGrantAlone(verify: Verify, db: Db, g: int, status: string)
    requires g in db.grants
    ensures Serve(verify, db, UpdateGrantStatus(g, status)) == Finished(GrantSet(db, g, status), Updated)
  {
    var e := Advance(verify, db, Start(UpdateGrantStatus(g, status)));
  }

  lemma TwoStepsInRun(verify: Verify, run: Run, k: nat, e1: Effect, e2: Effect) returns (longer: Run)
    requires Ready(verify, run, k) && !e1.next.Done?
    requires ExecOne(verify, Last(run).db, Last(run).handlers[k]) == e1 && ExecOne(verify, e1.db, e1.next) == e2
    ensures IsRun(verify, longer) && Extends(run, longer)
    ensures Last(longer) == World(e2.db, Last(run).handlers[k := e2.next])
  {
    var mid := StepInRun(verify, run, k, e1);
    longer := StepInRun(verify, mid, k, e2);
    Overwrite(Last(run).handlers, k, e1.next, e2.next);
  }

  /** Two statements of a new handler that only read. */
  lemma TwoChecksInRun(verify: Verify, run: Run, k: nat, q: Request, mid: Handler, next: Handler) returns (longer: Run)
    requires IsRun(verify, run) && k !in Last(run).handlers && !mid.Done?
    requires ExecOne(verify, Last(run).db, Start(q)) == Effect(Last(run).db, mid)
    requires ExecOne(verify, Last(run).db, mid) == Effect(Last(run).db, next)
    ensures IsRun(verify, longer) && Extends(run, longer)
    ensures Last(longer) == World(Last(run).db, Last(run).handlers[k := next])
  {
    var w := Last(run);
    var arrived := SpawnInRun(verify, run, k, q);
    longer := TwoStepsInRun(verify, arrived, k, Effect(w.db, mid), Effect(w.db, next));
    Overwrite(w.handlers, k, Start(q), next);
  }

  lemma ChecksInRun(verify: Verify, run: Run, k: nat, input: ProxyInput) returns (longer: Run)
    requires IsRun(verify, run) && k !in Last(run).handlers && Registrable(Last(run).db, input)
    ensures IsRun(verify, longer) && Extends(run, longer)
    ensures Last(longer) == World(Last(run).db, Last(run).handlers[k := ProxyInsert(input, LocalIPOf(input))])
  {
    var db := Last(run).db;
    LastInv(verify, run);
    ChecksPass(verify, db, input);
    longer := TwoChecksInRun(verify, run, k, CreateProxy(input),
                             ProxyReadGrant(input, LocalIPOf(input), db.resources[input.resourceId]),
                             ProxyInsert(input, LocalIPOf(input)));
  }

  /** Step j is handler k inserting this proxy although grant g, which alone entitles it, is disabled in the
      very state the insert meets; and the handler ends with the new row. */
  ghost predicate StaleInsert(run: Run, j: nat, k: nat, input: ProxyInput, g: int) {
    && Executes(run, j, k, ProxyInsert(input, LocalIPOf(input)))
    && DisabledGrant(run.worlds[j].db, input, g)
    && At(run, |run.worlds| - 1, k, Done(ProxyRow(NewRow(run.worlds[j].db, input, LocalIPOf(input)))))
  }

  ghost predicate DisabledGrant(db: Db, input: ProxyInput, g: int) {
    && g in db.grants && db.grants[g].resourceId == input.resourceId
    && db.grants[g].tenantId == input.tenantId && db.grants[g].status == DISABLED
  }

  lemma InsertInRun(verify: Verify, run: Run, k: nat, input: ProxyInput, localIP: string) returns (longer: Run)
    requires IsRun(verify, run) && At(run, |run.worlds| - 1, k, ProxyInsert(input, localIP))
    requires var ps := Last(run).db.proxies;
             forall p :: p in ps && ps[p].tenantId == input.tenantId ==> ps[p].name != input.name
    ensures IsRun(verify, longer) && Extends(run, longer)
    ensures Executes(longer, |run.actions|, k, ProxyInsert(input, localIP))
    ensures longer.worlds[|run.actions|] == Last(run)
    ensures At(longer, |longer.worlds| - 1, k, Done(ProxyRow(NewRow(Last(run).db, input, localIP))))
  {
    ProxyInsertAlone(verify, Last(run).db, input, localIP);
    var e := Advance(verify, Last(run).db, ProxyInsert(input, localIP));
    var inserted := StepInRun(verify, run, k, e);
    longer := RunToEnd(verify, inserted, k);
    ExecutesStill(inserted, longer, |run.actions|, k, ProxyInsert(input, localIP));
  }

  lemma DisableInRun(verify: Verify, run: Run, b: nat, g: int) returns (longer: Run)
    requires IsRun(verify, run) && b !in Last(run).handlers && g in Last(run).db.grants
    ensures IsRun(verify, longer) && Extends(run, longer)
    ensures Last(longer) == World(GrantSet(Last(run).db, g, DISABLED), Last(run).handlers[b := Done(Updated)])
  {
    SetGrantAlone(verify, Last(run).db, g, DISABLED);
    longer := ServeInRun(verify, run, b, UpdateGrantStatus(g, DISABLED));
  }

  lemma DisableThenInsert(verify: Verify, run: Run, k: nat, b: nat, g: int, input: ProxyInput)
    returns (longer: Run, j: nat)
    requires IsRun(verify, run) && At(run, |run.worlds| - 1, k, ProxyInsert(input, LocalIPOf(input)))
    requires b !in Last(run).handlers && g in Last(run).db.grants
    requires var grant := Last(run).db.grants[g];
             grant.resourceId == input.resourceId && grant.tenantId == input.tenantId
    requires var ps := Last(run).db.proxies;
             forall p :: p in ps && ps[p].tenantId == input.tenantId ==> ps[p].name != input.name
    ensures IsRun(verify, longer) && Extends(run, longer) && |run.actions| <= j && StaleInsert(longer, j, k, input, g)
  {
    var disabled := DisableInRun(verify, run, b, g);
    j := |disabled.actions|;
    longer := InsertInRun(verify, disabled, k, input, LocalIPOf(input));
  }

  /** Any run whose last state would register a proxy can go on so that the proxy is inserted while its grant
      is disabled: disable it after the checks and before the insert. */
  lemma StaleInsertRun(verify: Verify, run: Run, k: nat, b: nat, input: ProxyInput)
    returns (longer: Run, j: nat, g: int)
    requires IsRun(verify, run) && k !in Last(run).handlers && b !in Last(run).handlers && b != k
    requires Registrable(Last(run).db, input)
    ensures IsRun(verify, longer) && Extends(run, longer) && |run.actions| <= j && StaleInsert(longer, j, k, input, g)
  {
    var db := Last(run).db;
    g :| g in db.grants && db.grants[g].resourceId == input.resourceId
         && db.grants[g].tenantId == input.tenantId && db.grants[g].status == ENABLED;
    var checked := ChecksInRun(verify, run, k, input);
    longer, j := DisableThenInsert(verify, checked, k, b, g, input);
  }

  // ---- a request that no state allows ----

  /** The state before, between and after two updates that a torn read spans. */
  ghost predicate Torn(db: Db, p: int, g: int, s0: Db, s1: Db, s2: Db)
    requires p in db.proxies && g in db.grants
  {
    s0 == GrantSet(db, g, DISABLED) && s1 == ProxySet(s0, p, DISABLED) && s2 == GrantSet(s1, g, ENABLED)
  }

  lemma NeverAllowed(verify: Verify, db: Db, req: NewProxyRequest, t: int, p: int, r: int, g: int, s: Db)
    requires EntitledBy(verify, db, req, t, p, r, g) && Inv(s) && Evolves(db, s)
    requires s.proxies[p].status == DISABLED || s.grants[g].status == DISABLED
    ensures HandleNewProxy(verify, s, req) != Allow
  {
    assert ENABLED != DISABLED by {
      assert ENABLED[0] != DISABLED[0];
    }
    Revocation.RevokedAfter(verify, db, s, req, t, p, r, g);
  }

  lemma TornStates(db: Db, p: int, g: int, s0: Db, s1: Db, s2: Db)
    requires Inv(db) && p in db.proxies && g in db.grants && Torn(db, p, g, s0, s1, s2)
    ensures Safe(db, s0) && Safe(db, s1) && Safe(db, s2)
  {
    SetGrantStatusSafe(db, g, DISABLED);
    SetProxyStatusSafe(s0, p, DISABLED);
    SetGrantStatusSafe(s1, g, ENABLED);
    EvolvesTransitive(db, s0, s1);
    EvolvesTransitive(db, s1, s2);
  }

  /** The first two reads of this request find tenant t and proxy p. */
  ghost predicate Readable(verify: Verify, s: Db, req: NewProxyRequest, t: int, p: int) {
    && t in s.tenants && s.tenants[t].code == req.user && s.tenants[t].status == ENABLED
    && req.token != "" && verify(s.tenants[t].tokenHash, req.token) && CheckRequest(req).None?
    && p in s.proxies && s.proxies[p].tenantId == t && s.proxies[p].name == req.name
  }

  /** The first two statements, sent to one state. */
  lemma FirstReads(verify: Verify, s: Db, req: NewProxyRequest, t: int, p: int)
    requires Inv(s) && Readable(verify, s, req, t, p)
    ensures ExecOne(verify, s, Start(NewProxy(req))) == Effect(s, NewProxyReadProxy(req, s.tenants[t]))
    ensures ExecOne(verify, s, NewProxyReadProxy(req, s.tenants[t])) ==
            Effect(s, NewProxyReadResource(req, s.tenants[t], s.proxies[p]))
  {
    TenantLookup(s, t);
    ProxyLookup(s, p);
  }

  /** The last two, sent to another. */
  lemma LastReads(verify: Verify, s: Db, req: NewProxyRequest, t: Tenant, p: Proxy, g: int)
    requires Inv(s) && g in s.grants && p.resourceId in s.resources && s.grants[g].resourceId == p.resourceId
    ensures var r := s.resources[p.resourceId];
            && ExecOne(verify, s, NewProxyReadResource(req, t, p)) == Effect(s, NewProxyReadGrant(req, t, p, r))
            && ExecOne(verify, s, NewProxyReadGrant(req, t, p, r)) ==
               Effect(s, Done(Decided(req, Verdict(req, t, AuthContext(p, r, Some(s.grants[g]))))))
  {
    GrantLookup(s, g);
  }

  lemma EntitledVerdict(verify: Verify, db: Db, req: NewProxyRequest, t: int, p: int, r: int, g: int)
    requires Inv(db) && EntitledBy(verify, db, req, t, p, r, g)
    ensures Verdict(req, db.tenants[t], AuthContext(db.proxies[p], db.resources[r], Some(db.grants[g]))) == Allow
    ensures CheckRequest(req).None?
  {
    EntitledIsAllowed(verify, db, req, t, p, r, g);
    TenantLookup(db, t);
    ContextLookup(db, p, g);
  }

  lemma TornNever(verify: Verify, db: Db, req: NewProxyRequest, t: int, p: int, r: int, g: int, s0: Db, s1: Db, s2: Db)
    requires Inv(db) && EntitledBy(verify, db, req, t, p, r, g) && Torn(db, p, g, s0, s1, s2)
    ensures HandleNewProxy(verify, s0, req) != Allow
    ensures HandleNewProxy(verify, s1, req) != Allow
    ensures HandleNewProxy(verify, s2, req) != Allow
  {
    TornStates(db, p, g, s0, s1, s2);
    NeverAllowed(verify, db, req, t, p, r, g, s0);
    NeverAllowed(verify, db, req, t, p, r, g, s1);
    NeverAllowed(verify, db, req, t, p, r, g, s2);
  }

  /** From world `first` on, the tables are always one of these. */
  ghost predicate Within(run: Run, first: nat, states: set<Db>) {
    forall m: nat :: first <= m < |run.worlds| ==> run.worlds[m].db in states
  }

  lemma WithinStill(run: Run, longer: Run, first: nat, states: set<Db>)
    requires Within(run, first, states) && Extends(run, longer) && |longer.worlds| == |run.worlds| + 1
    requires Last(longer).db in states
    ensures Within(longer, first, states)
  {
    forall m: nat | first <= m < |longer.worlds| ensures longer.worlds[m].db in states {
      assert m < |run.worlds| ==> longer.worlds[m] == run.worlds[m];
    }
  }

  /** A request arrives. */
  lemma ArriveInRun(verify: Verify, run: Run, k: nat, q: Request, first: nat, states: set<Db>) returns (longer: Run)
    requires IsRun(verify, run) && k !in Last(run).handlers && first < |run.worlds| && Within(run, first, states)
    ensures IsRun(verify, longer) && Extends(run, longer) && Within(longer, first, states)
    ensures |run.actions| < |longer.actions| && longer.actions[|run.actions|] == Spawn(k, q)
    ensures Last(longer) == World(Last(run).db, Last(run).handlers[k := Start(q)])
  {
    longer := SpawnInRun(verify, run, k, q);
    WithinStill(run, longer, first, states);
  }

  /** One statement of one handler. */
  lemma StatementInRun(verify: Verify, run: Run, k: nat, e: Effect, first: nat, states: set<Db>) returns (longer: Run)
    requires Ready(verify, run, k) && first < |run.worlds| && Within(run, first, states) && e.db in states
    requires ExecOne(verify, Last(run).db, Last(run).handlers[k]) == e
    ensures IsRun(verify, longer) && Extends(run, longer) && Within(longer, first, states)
    ensures Last(longer) == World(e.db, Last(run).handlers[k := e.next])
  {
    longer := StepInRun(verify, run, k, e);
    WithinStill(run, longer, first, states);
  }

  /** Two statements that only read. */
  lemma TwoReadsInRun(verify: Verify, run: Run, k: nat, mid: Handler, next: Handler, first: nat, states: set<Db>)
    returns (longer: Run)
    requires Ready(verify, run, k) && first < |run.worlds| && Within(run, first, states) && !mid.Done?
    requires ExecOne(verify, Last(run).db, Last(run).handlers[k]) == Effect(Last(run).db, mid)
    requires ExecOne(verify, Last(run).db, mid) == Effect(Last(run).db, next)
    ensures IsRun(verify, longer) && Extends(run, longer) && Within(longer, first, states)
    ensures Last(longer) == World(Last(run).db, Last(run).handlers[k := next])
  {
    assert run.worlds[|run.worlds| - 1].db in states;
    var r1 := StatementInRun(verify, run, k, Effect(Last(run).db, mid), first, states);
    longer := StatementInRun(verify, r1, k, Effect(Last(run).db, next), first, states);
    Overwrite(Last(run).handlers, k, mid, next);
  }

  /** One update by a new handler. */
  lemma UpdateInRun(verify: Verify, run: Run, b: nat, q: Request, db: Db, first: nat, states: set<Db>)
    returns (longer: Run)
    requires IsRun(verify, run) && b !in Last(run).handlers && first < |run.worlds| && Within(run, first, states)
    requires ExecOne(verify, Last(run).db, Start(q)) == Effect(db, Done(Updated)) && db in states
    ensures IsRun(verify, longer) && Extends(run, longer) && Within(longer, first, states)
    ensures Last(longer) == World(db, Last(run).handlers[b := Done(Updated)])
  {
    var r1 := ArriveInRun(verify, run, b, q, first, states);
    longer := StatementInRun(verify, r1, b, Effect(db, Done(Updated)), first, states);
    Overwrite(Last(run).handlers, b, Start(q), Done(Updated));
  }

  /** A request that has arrived reads its tenant and its proxy. */
  lemma ReadIdentity(verify: Verify, run: Run, k: nat, req: NewProxyRequest, t: int, p: int,
                     first: nat, states: set<Db>)
    returns (longer: Run)
    requires IsRun(verify, run) && At(run, |run.worlds| - 1, k, Start(NewProxy(req)))
    requires first < |run.worlds| && Within(run, first, states) && Readable(verify, Last(run).db, req, t, p)
    ensures IsRun(verify, longer) && Extends(run, longer) && Within(longer, first, states)
    ensures var s, next := Last(run).db, NewProxyReadResource(req, Last(run).db.tenants[t], Last(run).db.proxies[p]);
            Last(longer) == World(s, Last(run).handlers[k := next])
  {
    var s := Last(run).db;
    LastInv(verify, run);
    FirstReads(verify, s, req, t, p);
    longer := TwoReadsInRun(verify, run, k, NewProxyReadProxy(req, s.tenants[t]),
                            NewProxyReadResource(req, s.tenants[t], s.proxies[p]), first, states);
  }

  /** A request arrives where its tenant and proxy are as registered, and reads both. */
  lemma ArriveAndRead(verify: Verify, run: Run, k: nat, req: NewProxyRequest, t: int, p: int, states: set<Db>)
    returns (longer: Run)
    requires IsRun(verify, run) && k !in Last(run).handlers && Last(run).db in states
    requires Readable(verify, Last(run).db, req, t, p)
    ensures IsRun(verify, longer) && Extends(run, longer) && Within(longer, |run.worlds| - 1, states)
    ensures |run.actions| < |longer.actions| && longer.actions[|run.actions|] == Spawn(k, NewProxy(req))
    ensures var s, next := Last(run).db, NewProxyReadResource(req, Last(run).db.tenants[t], Last(run).db.proxies[p]);
            Last(longer) == World(s, Last(run).handlers[k := next])
  {
    var first := |run.worlds| - 1;
    var arrived := ArriveInRun(verify, run, k, NewProxy(req), first, states);
    longer := ReadIdentity(verify, arrived, k, req, t, p, first, states);
  }

  lemma DisableProxyInRun(verify: Verify, run: Run, b: nat, p: int, first: nat, states: set<Db>) returns (longer: Run)
    requires IsRun(verify, run) && b !in Last(run).handlers && first < |run.worlds| && Within(run, first, states)
    requires p in Last(run).db.proxies && ProxySet(Last(run).db, p, DISABLED) in states
    ensures IsRun(verify, longer) && Extends(run, longer) && Within(longer, first, states)
    ensures Last(longer) == World(ProxySet(Last(run).db, p, DISABLED), Last(run).handlers[b := Done(Updated)])
  {
    var disabled := ProxySet(Last(run).db, p, DISABLED);
    longer := UpdateInRun(verify, run, b, UpdateProxyStatus(p, DISABLED), disabled, first, states);
  }

  lemma EnableGrantInRun(verify: Verify, run: Run, b: nat, g: int, first: nat, states: set<Db>) returns (longer: Run)
    requires IsRun(verify, run) && b !in Last(run).handlers && first < |run.worlds| && Within(run, first, states)
    requires g in Last(run).db.grants && GrantSet(Last(run).db, g, ENABLED) in states
    ensures IsRun(verify, longer) && Extends(run, longer) && Within(longer, first, states)
    ensures Last(longer) == World(GrantSet(Last(run).db, g, ENABLED), Last(run).handlers[b := Done(Updated)])
  {
    var enabled := GrantSet(Last(run).db, g, ENABLED);
    longer := UpdateInRun(verify, run, b, UpdateGrantStatus(g, ENABLED), enabled, first, states);
  }

  lemma UpdatesInRun(verify: Verify, run: Run, b: nat, c: nat, p: int, g: int, first: nat, states: set<Db>)
    returns (longer: Run)
    requires IsRun(verify, run) && b !in Last(run).handlers && c !in Last(run).handlers && b != c
    requires first < |run.worlds| && Within(run, first, states)
    requires p in Last(run).db.proxies && g in Last(run).db.grants
    requires var s1 := ProxySet(Last(run).db, p, DISABLED); s1 in states && GrantSet(s1, g, ENABLED) in states
    ensures IsRun(verify, longer) && Extends(run, longer) && Within(longer, first, states)
    ensures Last(longer) == World(GrantSet(ProxySet(Last(run).db, p, DISABLED), g, ENABLED),
                                  Last(run).handlers[b := Done(Updated)][c := Done(Updated)])
  {
    var disabled := DisableProxyInRun(verify, run, b, p, first, states);
    longer := EnableGrantInRun(verify, disabled, c, g, first, states);
  }

  /** A waiting request reads its resource and its grant. */
  lemma ReadAndAnswer(verify: Verify, run: Run, k: nat, req: NewProxyRequest, t: Tenant, p: Proxy, g: int,
                      first: nat, states: set<Db>) returns (longer: Run)
    requires IsRun(verify, run) && first < |run.worlds| && Within(run, first, states)
    requires At(run, |run.worlds| - 1, k, NewProxyReadResource(req, t, p))
    requires var s := Last(run).db;
             g in s.grants && p.resourceId in s.resources && s.grants[g].resourceId == p.resourceId
    ensures IsRun(verify, longer) && Extends(run, longer) && Within(longer, first, states)
    ensures var s := Last(run).db; var ctx := AuthContext(p, s.resources[p.resourceId], Some(s.grants[g]));
            At(longer, |longer.worlds| - 1, k, Done(Decided(req, Verdict(req, t, ctx))))
  {
    var s := Last(run).db;
    LastInv(verify, run);
    LastReads(verify, s, req, t, p, g);
    var ctx := AuthContext(p, s.resources[p.resourceId], Some(s.grants[g]));
    longer := TwoReadsInRun(verify, run, k, NewProxyReadGrant(req, t, p, s.resources[p.resourceId]),
                            Done(Decided(req, Verdict(req, t, ctx))), first, states);
  }

  /** While a request waits, its proxy is disabled and the grant enabled; then it reads on. */
  lemma UpdateAndAnswer(verify: Verify, run: Run, k: nat, b: nat, c: nat, req: NewProxyRequest, t: Tenant, p: Proxy,
                        g: int, first: nat, states: set<Db>) returns (longer: Run)
    requires IsRun(verify, run) && first < |run.worlds| && Within(run, first, states)
    requires At(run, |run.worlds| - 1, k, NewProxyReadResource(req, t, p))
    requires b !in Last(run).handlers && c !in Last(run).handlers && b != c
    requires var s := Last(run).db;
             && p.id in s.proxies && p.resourceId in s.resources && g in s.grants
             && s.grants[g].resourceId == p.resourceId
             && ProxySet(s, p.id, DISABLED) in states && GrantSet(ProxySet(s, p.id, DISABLED), g, ENABLED) in states
    ensures IsRun(verify, longer) && Extends(run, longer) && Within(longer, first, states)
    ensures var s := GrantSet(ProxySet(Last(run).db, p.id, DISABLED), g, ENABLED);
            var ctx := AuthContext(p, s.resources[p.resourceId], Some(s.grants[g]));
            At(longer, |longer.worlds| - 1, k, Done(Decided(req, Verdict(req, t, ctx))))
  {
    var updated := UpdatesInRun(verify, run, b, c, p.id, g, first, states);
    longer := ReadAndAnswer(verify, updated, k, req, t, p, g, first, states);
  }

  /** The whole torn read: a grant is disabled; the request arrives and sends two statements; its proxy is
      disabled and the grant enabled; and it sends its other two. */
  lemma TornSteps(verify: Verify, run: Run, k: nat, a: nat, b: nat, c: nat, req: NewProxyRequest,
                  t: int, p: int, g: int, s0: Db, s1: Db, s2: Db) returns (longer: Run, first: nat)
    requires IsRun(verify, run) && k !in Last(run).handlers && a !in Last(run).handlers
    requires b !in Last(run).handlers && c !in Last(run).handlers
    requires k != a && k != b && k != c && a != b && a != c && b != c
    requires p in Last(run).db.proxies && g in Last(run).db.grants && Torn(Last(run).db, p, g, s0, s1, s2)
    requires Readable(verify, s0, req, t, p) && s0.proxies[p].id == p && s0.proxies[p].resourceId in s2.resources
    requires s2.grants[g].resourceId == s0.proxies[p].resourceId
    ensures IsRun(verify, longer) && Extends(run, longer) && |run.worlds| <= first < |longer.actions|
    ensures longer.actions[first] == Spawn(k, NewProxy(req)) && Within(longer, first, {s0, s1, s2})
    ensures var ctx := AuthContext(s0.proxies[p], s2.resources[s0.proxies[p].resourceId], Some(s2.grants[g]));
            At(longer, |longer.worlds| - 1, k, Done(Decided(req, Verdict(req, s0.tenants[t], ctx))))
  {
    var states := {s0, s1, s2};
    var r0 := DisableInRun(verify, run, a, g);
    assert Last(r0).db == s0;
    first := |r0.worlds| - 1;
    var r1 := ArriveAndRead(verify, r0, k, req, t, p, states);
    longer := UpdateAndAnswer(verify, r1, k, b, c, req, s0.tenants[t], s0.proxies[p], g, first, states);
  }

  /** From world `first` on, no state of the run allows the request. */
  ghost predicate NeverFrom(verify: Verify, run: Run, first: nat, req: NewProxyRequest) {
    forall m: nat :: first <= m < |run.worlds| ==> HandleNewProxy(verify, run.worlds[m].db, req) != Allow
  }

  lemma NeverWithin(verify: Verify, run: Run, first: nat, db: Db, req: NewProxyRequest, t: int, p: int, r: int, g: int,
                    s0: Db, s1: Db, s2: Db)
    requires Inv(db) && EntitledBy(verify, db, req, t, p, r, g) && Torn(db, p, g, s0, s1, s2)
    requires Within(run, first, {s0, s1, s2})
    ensures NeverFrom(verify, run, first, req)
  {
    TornNever(verify, db, req, t, p, r, g, s0, s1, s2);
  }

  lemma TornVerdict(verify: Verify, db: Db, req: NewProxyRequest, t: int, p: int, r: int, g: int,
                    s0: Db, s1: Db, s2: Db)
    requires Inv(db) && EntitledBy(verify, db, req, t, p, r, g) && Torn(db, p, g, s0, s1, s2)
    ensures Readable(verify, s0, req, t, p)
    ensures s0.proxies[p].resourceId in s2.resources && s2.grants[g].resourceId == s0.proxies[p].resourceId
    ensures Verdict(req, s0.tenants[t], AuthContext(s0.proxies[p], s2.resources[s0.proxies[p].resourceId],
                                                    Some(s2.grants[g]))) == Allow
  {
    EntitledVerdict(verify, db, req, t, p, r, g);
    assert s2.grants[g] == db.grants[g];
  }

  /** NewProxy is not a snapshot. Any run whose last state entitles a request can go on so that the request
      arrives, is answered, and is allowed, although no state from its arrival to its answer allows it. */
  lemma TornReadRun(verify: Verify, run: Run, k: nat, a: nat, b: nat, c: nat, req: NewProxyRequest,
                    t: int, p: int, r: int, g: int) returns (longer: Run, first: nat)
    requires IsRun(verify, run) && EntitledBy(verify, Last(run).db, req, t, p, r, g)
    requires k !in Last(run).handlers && a !in Last(run).handlers
    requires b !in Last(run).handlers && c !in Last(run).handlers
    requires k != a && k != b && k != c && a != b && a != c && b != c
    ensures IsRun(verify, longer) && Extends(run, longer) && |run.worlds| <= first < |longer.actions|
    ensures longer.actions[first] == Spawn(k, NewProxy(req))
    ensures NeverFrom(verify, longer, first, req) && At(longer, |longer.worlds| - 1, k, Done(Decided(req, Allow)))
  {
    var db := Last(run).db;
    var s0 := GrantSet(db, g, DISABLED);
    var s1 := ProxySet(s0, p, DISABLED);
    var s2 := GrantSet(s1, g, ENABLED);
    LastInv(verify, run);
    TornVerdict(verify, db, req, t, p, r, g, s0, s1, s2);
    longer, first := TornSteps(verify, run, k, a, b, c, req, t, p, g, s0, s1, s2);
    NeverWithin(verify, longer, first, db, req, t, p, r, g, s0, s1, s2);
  }

  // ---- such runs exist ----

  function Registration(name: string): ProxyInput {
    ProxyInput(1, 1, name, TCP, "", 22)
  }

  function Connection(code: string, token: string, name: string, port: int): NewProxyRequest {
    NewProxyRequest(code, token, name, TCP, "", [], port)
  }

  /** The tables after one tenant, one TCP port and one grant. */
  function Granted(code: string, hash: string, port: int): Db {
    EMPTY.(tenants := map[1 := Tenant(1, code, code, hash, ENABLED, "", None)],
           resources := map[1 := Resource(1, TCP_PORT, Itoa(port), None, AVAILABLE)],
           grants := map[1 := Grant(1, 1, 1, ENABLED)], lastTenant := 1, lastResource := 1, lastGrant := 1)
  }

  lemma ReachTenant(verify: Verify, code: string, hash: string) returns (run: Run)
    requires !Blank(code) && hash != ""
    ensures IsRun(verify, run) && Last(run).handlers.Keys == {0}
    ensures Last(run).db == EMPTY.(tenants := map[1 := Tenant(1, code, code, hash, ENABLED, "", None)], lastTenant := 1)
  {
    var input := TenantInput(code, code, hash, "");
    TenantAlone(verify, EMPTY, input);
    run := ServeInRun(verify, FIRST, 0, CreateTenant(input));
  }

  lemma ReachPort(verify: Verify, code: string, hash: string, port: int) returns (run: Run)
    requires !Blank(code) && hash != "" && ValidPort(port)
    ensures IsRun(verify, run) && Last(run).handlers.Keys == {0, 1}
    ensures Last(run).db == Granted(code, hash, port).(grants := map[], lastGrant := 0)
  {
    var r := ReachTenant(verify, code, hash);
    LastInv(verify, r);
    Ports.PortAlone(verify, Last(r).db, false, port);
    run := ServeInRun(verify, r, 1, CreatePort(false, port));
  }

  /** From the empty database: create a tenant and a port, and grant it. */
  lemma ReachGranted(verify: Verify, code: string, hash: string, port: int) returns (run: Run)
    requires !Blank(code) && hash != "" && ValidPort(port)
    ensures IsRun(verify, run) && Last(run).handlers.Keys == {0, 1, 2}
    ensures Last(run).db == Granted(code, hash, port)
  {
    var r := ReachPort(verify, code, hash, port);
    GrantAlone(verify, Last(r).db, 1, 1);
    run := ServeInRun(verify, r, 2, GrantResource(1, 1));
  }

  lemma GrantedRegisters(code: string, hash: string, port: int, name: string)
    requires !Blank(name)
    ensures Registrable(Granted(code, hash, port), Registration(name))
  {
    ConstantsDistinct();
    var db := Granted(code, hash, port);
    assert 1 in db.grants && db.grants[1].resourceId == 1 && db.grants[1].tenantId == 1;
  }

  /** Then register a proxy: the tenant's own request is entitled. */
  lemma ReachEntitled(verify: Verify, code: string, hash: string, token: string, port: int, name: string)
    returns (run: Run)
    requires !Blank(code) && hash != "" && token != "" && verify(hash, token) && ValidPort(port) && !Blank(name)
    ensures IsRun(verify, run) && Last(run).handlers.Keys == {0, 1, 2, 3}
    ensures EntitledBy(verify, Last(run).db, Connection(code, token, name, port), 1, 1, 1, 1)
  {
    var r := ReachGranted(verify, code, hash, port);
    LastInv(verify, r);
    GrantedRegisters(code, hash, port, name);
    ProxyAlone(verify, Last(r).db, Registration(name));
    run := ServeInRun(verify, r, 3, CreateProxy(Registration(name)));
    ConstantsDistinct();
  }

  /** A hash function for the example below. */
  predicate Equal(hash: string, token: string) {
    hash == token
  }

  /** There is a run in which a proxy is inserted while its grant is disabled. */
  lemma StaleInsertHappens(verify: Verify, code: string, hash: string, port: int, name: string)
    returns (run: Run, j: nat, k: nat, g: int)
    requires !Blank(code) && hash != "" && ValidPort(port) && !Blank(name)
    ensures IsRun(verify, run) && StaleInsert(run, j, k, Registration(name), g)
  {
    var r := ReachGranted(verify, code, hash, port);
    GrantedRegisters(code, hash, port, name);
    k := 3;
    run, j, g := StaleInsertRun(verify, r, k, 4, Registration(name));
  }

  /** There is a run in which a request is allowed although no state from its arrival to its answer allows it. */
  lemma TornReadHappens(verify: Verify, code: string, hash: string, token: string, port: int, name: string)
    returns (run: Run, first: nat, k: nat)
    requires !Blank(code) && hash != "" && token != "" && verify(hash, token) && ValidPort(port) && !Blank(name)
    ensures IsRun(verify, run) && first < |run.actions|
    ensures var req := Connection(code, token, name, port);
            && run.actions[first] == Spawn(k, NewProxy(req)) && NeverFrom(verify, run, first, req)
            && At(run, |run.worlds| - 1, k, Done(Decided(req, Allow)))
  {
    var r := ReachEntitled(verify, code, hash, token, port, name);
    k := 4;
    run, first := TornReadRun(verify, r, k, 5, 6, 7, Connection(code, token, name, port), 1, 1, 1, 1);
  }

  /** Both, spelled out for one tenant with one port. */
  lemma RacesExist() returns (stale: Run, j: nat, h: nat, g: int, torn: Run, first: nat, k: nat)
    ensures IsRun(Equal, stale) && StaleInsert(stale, j, h, Registration("web"), g)
    ensures IsRun(Equal, torn) && first < |torn.actions|
    ensures var req := Connection("edge", "secret", "web", 6000);
            && torn.actions[first] == Spawn(k, NewProxy(req)) && NeverFrom(Equal, torn, first, req)
            && At(torn, |torn.worlds| - 1, k, Done(Decided(req, Allow)))
  {
    TrimSpaceIdentity("edge");
    TrimSpaceIdentity("web");
    stale, j, h, g := StaleInsertHappens(Equal, "edge", "secret", 6000, "web");
    torn, first, k := TornReadHappens(Equal, "edge", "secret", "secret", 6000, "web");
  }
}
