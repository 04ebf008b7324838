/** One handler's way through a run: the step that brought it where it stands; and runs built step by step. */
module Trace {
  import Tables
  import opened Plugin
  import opened Machine
  import Safety

  /** In world n handler k stands at position h. */
  ghost predicate At(run: Run, n: nat, k: nat, h: Handler) {
    n < |run.worlds| && k in run.worlds[n].handlers && run.worlds[n].handlers[k] == h
  }

  /** Step i is handler k executing the statement of position h. */
  ghost predicate Executes(run: Run, i: nat, k: nat, h: Handler) {
    i < |run.actions| && run.actions[i] == Exec(k) && At(run, i, k, h)
  }

  /** Step i is an error on the statement of position h of handler k. */
  ghost predicate Aborts(run: Run, i: nat, k: nat, h: Handler) {
    i < |run.actions| && run.actions[i] == Abort(k) && At(run, i, k, h)
  }

  ghost predicate Stays(run: Run, i: nat, n: nat, k: nat, h: Handler) {
    forall m: nat :: i <= m <= n ==> At(run, m, k, h)
  }

  /** Step i took handler k from position `before` to h. */
  ghost predicate Leads(verify: Verify, run: Run, i: nat, k: nat, before: Handler, h: Handler) {
    || (Executes(run, i, k, before) && !before.Done? && ExecOne(verify, run.worlds[i].db, before).next == h)
    || (Aborts(run, i, k, before) && !before.Done? && AfterAbort(before) == h)
  }

  /** One step either leaves a handler where it was or leads it to its new position. */
  lemma StepBack(verify: Verify, run: Run, n: nat, k: nat, h: Handler) returns (moved: bool, before: Handler)
    requires IsRun(verify, run) && n < |run.actions| && At(run, n + 1, k, h) && !h.Start?
    ensures if moved then Leads(verify, run, n, k, before, h) else At(run, n, k, h)
  {
    var w, a := run.worlds[n], run.actions[n];
    assert Next(verify, w, a, run.worlds[n + 1]);
    moved, before := a.k == k, if k in w.handlers then w.handlers[k] else h;
  }

  /** The step that brought a handler to where it stands in world n. */
  lemma {:induction false} LastStep(verify: Verify, run: Run, n: nat, k: nat, h: Handler)
    returns (i: nat, before: Handler)
    requires IsRun(verify, run) && At(run, n, k, h) && !h.Start?
    ensures i < n && Leads(verify, run, i, k, before, h) && Stays(run, i + 1, n, k, h)
    decreases n
  {
    var moved;
    moved, before := StepBack(verify, run, n - 1, k, h);
    i := n - 1;
    if !moved {
      i, before := LastStep(verify, run, n - 1, k, h);
    }
  }

  /** A finished handler stays finished. */
  lemma {:induction false} DoneStays(verify: Verify, run: Run, i: nat, n: nat, k: nat, o: Outcome)
    requires IsRun(verify, run) && i <= n < |run.worlds| && At(run, i, k, Done(o))
    ensures At(run, n, k, Done(o))
    decreases n
  {
    if i < n {
      DoneStays(verify, run, i, n - 1, k, o);
      assert Next(verify, run.worlds[n - 1], run.actions[n - 1], run.worlds[n]);
    }
  }

  lemma After(verify: Verify, run: Run, i: nat, k: nat, h: Handler)
    requires IsRun(verify, run) && Executes(run, i, k, h) && !h.Done?
    ensures At(run, i + 1, k, ExecOne(verify, run.worlds[i].db, h).next)
    ensures run.worlds[i + 1].db == ExecOne(verify, run.worlds[i].db, h).db
  {
    assert Next(verify, run.worlds[i], run.actions[i], run.worlds[i + 1]);
  }

  lemma Overwrite(handlers: map<nat, Handler>, k: nat, a: Handler, b: Handler)
    ensures handlers[k := a][k := b] == handlers[k := b]
  {
  }

  // ---- building runs ----

  const FIRST := Run([World(Tables.EMPTY, map[])], [])

  function Last(run: Run): World
    requires run.worlds != []
  {
    run.worlds[|run.worlds| - 1]
  }

  lemma LastInv(verify: Verify, run: Run)
    requires IsRun(verify, run)
    ensures Tables.Inv(Last(run).db)
  {
    Safety.RunOk(verify, run, |run.worlds| - 1);
  }

  ghost predicate Extends(run: Run, longer: Run) {
    run.worlds <= longer.worlds && run.actions <= longer.actions
  }

  lemma ExecutesStill(run: Run, longer: Run, i: nat, k: nat, h: Handler)
    requires Extends(run, longer) && Executes(run, i, k, h)
    ensures Executes(longer, i, k, h) && longer.worlds[i] == run.worlds[i]
  {
  }

  function Spawned(run: Run, k: nat, q: Request): Run
    requires run.worlds != []
  {
    var w := Last(run);
    Run(run.worlds + [World(w.db, w.handlers[k := Start(q)])], run.actions + [Spawn(k, q)])
  }

  ghost predicate Ready(verify: Verify, run: Run, k: nat) {
    IsRun(verify, run) && k in Last(run).handlers && !Last(run).handlers[k].Done?
  }

  ghost function Stepped(verify: Verify, run: Run, k: nat): Run
    requires Ready(verify, run, k)
  {
    var w := Last(run);
    var e := ExecOne(verify, w.db, w.handlers[k]);
    Run(run.worlds + [World(e.db, w.handlers[k := e.next])], run.actions + [Exec(k)])
  }

  lemma OneMore(verify: Verify, run: Run, a: Action, w: World)
    requires IsRun(verify, run) && Next(verify, Last(run), a, w)
    ensures IsRun(verify, Run(run.worlds + [w], run.actions + [a]))
  {
    var longer := Run(run.worlds + [w], run.actions + [a]);
    forall i | 0 <= i < |longer.actions|
      ensures Next(verify, longer.worlds[i], longer.actions[i], longer.worlds[i + 1])
    {
      if i < |run.actions| {
        assert Next(verify, run.worlds[i], run.actions[i], run.worlds[i + 1]);
      }
    }
  }

  lemma SpawnedIsRun(verify: Verify, run: Run, k: nat, q: Request)
    requires IsRun(verify, run) && k !in Last(run).handlers
    ensures IsRun(verify, Spawned(run, k, q)) && Ready(verify, Spawned(run, k, q), k)
  {
    OneMore(verify, run, Spawn(k, q), World(Last(run).db, Last(run).handlers[k := Start(q)]));
  }

  lemma SteppedIsRun(verify: Verify, run: Run, k: nat)
    requires Ready(verify, run, k)
    ensures IsRun(verify, Stepped(verify, run, k))
    ensures Executes(Stepped(verify, run, k), |run.actions|, k, Last(run).handlers[k])
  {
    var e := ExecOne(verify, Last(run).db, Last(run).handlers[k]);
    OneMore(verify, run, Exec(k), World(e.db, Last(run).handlers[k := e.next]));
  }

  /** Any run can go on with one statement of handler k, whose effect is e. */
  lemma StepInRun(verify: Verify, run: Run, k: nat, e: Effect) returns (longer: Run)
    requires Ready(verify, run, k) && ExecOne(verify, Last(run).db, Last(run).handlers[k]) == e
    ensures IsRun(verify, longer) && Extends(run, longer) && |longer.worlds| == |run.worlds| + 1
    ensures Last(longer) == World(e.db, Last(run).handlers[k := e.next])
    ensures Executes(longer, |run.actions|, k, Last(run).handlers[k])
  {
    SteppedIsRun(verify, run, k);
    longer := Stepped(verify, run, k);
  }

  lemma SpawnInRun(verify: Verify, run: Run, k: nat, q: Request) returns (longer: Run)
    requires IsRun(verify, run) && k !in Last(run).handlers
    ensures IsRun(verify, longer) && Extends(run, longer) && |longer.worlds| == |run.worlds| + 1
    ensures Last(longer) == World(Last(run).db, Last(run).handlers[k := Start(q)])
    ensures |longer.actions| == |run.actions| + 1 && longer.actions[|run.actions|] == Spawn(k, q)
  {
    SpawnedIsRun(verify, run, k, q);
    longer := Spawned(run, k, q);
  }

  /** Any run can go on with one handler, left alone until it is done. */
  lemma {:induction false} RunToEnd(verify: Verify, run: Run, k: nat) returns (longer: Run)
    requires IsRun(verify, run) && k in Last(run).handlers
    ensures IsRun(verify, longer) && Extends(run, longer)
    ensures var f := RunAlone(verify, Last(run).db, Last(run).handlers[k]);
            Last(longer) == World(f.db, Last(run).handlers[k := Done(f.outcome)])
    decreases Rank(Last(run).handlers[k])
  {
    var h := Last(run).handlers[k];
    if h.Done? {
      longer := run;
      assert Last(run).handlers[k := h] == Last(run).handlers;
    } else {
      ExecLowersRank(verify, Last(run).db, h);
      SteppedIsRun(verify, run, k);
      longer := RunToEnd(verify, Stepped(verify, run, k), k);
      var mid := Last(Stepped(verify, run, k));
      Overwrite(Last(run).handlers, k, mid.handlers[k], Done(RunAlone(verify, mid.db, mid.handlers[k]).outcome));
    }
  }

  /** Any run can go on with any request served without interference. */
  lemma ServeInRun(verify: Verify, run: Run, k: nat, q: Request) returns (longer: Run)
    requires IsRun(verify, run) && k !in Last(run).handlers
    ensures IsRun(verify, longer) && Extends(run, longer)
    ensures var f := Serve(verify, Last(run).db, q);
            Last(longer) == World(f.db, Last(run).handlers[k := Done(f.outcome)])
  {
    SpawnedIsRun(verify, run, k, q);
    longer := RunToEnd(verify, Spawned(run, k, q), k);
    Overwrite(Last(run).handlers, k, Start(q), Done(Serve(verify, Last(run).db, q).outcome));
  }
}
