/** The migration runner over a database whose calls may fail at any point, and what any sequence of its
    runs leaves behind. A migration's effect on the schema is the list of its statements in execution order. */
module Migrate {
  import opened Text

  datatype Migration = Migration(version: int, name: string, statements: seq<string>)

  /** A row of schema_migrations, whose version is the primary key. */
  datatype Record = Record(version: int, name: string)

  const SQLITE := "sqlite"

  predicate Has(records: seq<Record>, version: int) {
    exists i :: 0 <= i < |records| && records[i].version == version
  }

  function Effects(ms: seq<Migration>): seq<string> {
    if ms == [] then [] else Effects(ms[..|ms| - 1]) + ms[|ms| - 1].statements
  }

  function Records(ms: seq<Migration>): seq<Record> {
    seq(|ms|, i requires 0 <= i < |ms| => Record(ms[i].version, ms[i].name))
  }

  /** The migrations not recorded yet, in list order. */
  function Todo(ms: seq<Migration>, records: seq<Record>): seq<Migration> {
    if ms == [] then []
    else
      var earlier, last := Todo(ms[..|ms| - 1], records), ms[|ms| - 1];
      if Has(records, last.version) then earlier else earlier + [last]
  }

  predicate Distinct(ms: seq<Migration>) {
    forall i, j :: 0 <= i < j < |ms| ==> ms[i].version != ms[j].version
  }

  lemma EffectsSnoc(ms: seq<Migration>, m: Migration)
    ensures Effects(ms + [m]) == Effects(ms) + m.statements
    ensures Records(ms + [m]) == Records(ms) + [Record(m.version, m.name)]
  {
    assert (ms + [m])[..|ms|] == ms;
  }

  lemma TodoSnoc(ms: seq<Migration>, m: Migration, records: seq<Record>)
    ensures Todo(ms + [m], records) ==
            if Has(records, m.version) then Todo(ms, records) else Todo(ms, records) + [m]
  {
    assert (ms + [m])[..|ms|] == ms;
  }

  lemma {:induction false} TodoPrefix(ms: seq<Migration>, n: nat, records: seq<Record>)
    requires n <= |ms|
    ensures Todo(ms[..n], records) <= Todo(ms, records)
  {
    if n == |ms| {
      assert ms[..n] == ms;
    } else {
      assert ms[..|ms| - 1][..n] == ms[..n];
      TodoPrefix(ms[..|ms| - 1], n, records);
    }
  }

  /** One step along the list: the next missing migration, if the next one is missing. */
  lemma TodoNext(ms: seq<Migration>, i: nat, records: seq<Record>, count: nat)
    requires i < |ms| && count <= |Todo(ms, records)| && Todo(ms[..i], records) == Todo(ms, records)[..count]
    ensures var todo := Todo(ms, records);
            if Has(records, ms[i].version) then Todo(ms[..i + 1], records) == todo[..count]
            else count < |todo| && Todo(ms[..i + 1], records) == todo[..count + 1] == todo[..count] + [ms[i]]
  {
    TodoPrefix(ms, i + 1, records);
    assert ms[..i + 1][..i] == ms[..i];
  }

  lemma {:induction false} TodoFromList(ms: seq<Migration>, records: seq<Record>, k: nat) returns (j: nat)
    requires k < |Todo(ms, records)|
    ensures j < |ms| && Todo(ms, records)[k] == ms[j]
  {
    var front := ms[..|ms| - 1];
    if k < |Todo(front, records)| {
      j := TodoFromList(front, records, k);
    } else {
      j := |ms| - 1;
    }
  }

  lemma HasOfConcat(a: seq<Record>, b: seq<Record>, v: int)
    ensures Has(a + b, v) <==> Has(a, v) || Has(b, v)
  {
    if i :| 0 <= i < |a| && a[i].version == v {
      assert (a + b)[i].version == v;
    }
    if i :| 0 <= i < |b| && b[i].version == v {
      assert (a + b)[|a| + i].version == v;
    }
  }

  /** A version found recorded only after earlier migrations of the list were applied occurs twice in it. */
  lemma RecordedTwice(ms: seq<Migration>, i: nat, records: seq<Record>)
    requires i < |ms| && !Has(records, ms[i].version)
    requires Has(records + Records(Todo(ms[..i], records)), ms[i].version)
    ensures !Distinct(ms)
  {
    var done := Todo(ms[..i], records);
    HasOfConcat(records, Records(done), ms[i].version);
    var k :| 0 <= k < |done| && Records(done)[k].version == ms[i].version;
    var j := TodoFromList(ms[..i], records, k);
    assert ms[j].version == ms[i].version;
  }

  // ---- one run ----

  datatype Disk = Disk(schema: seq<string>, records: seq<Record>)

  /** The disk after the migrations `done` have been applied to `before`. */
  function After(before: Disk, done: seq<Migration>): Disk {
    Disk(before.schema + Effects(done), before.records + Records(done))
  }

  lemma AfterSnoc(before: Disk, done: seq<Migration>, m: Migration)
    ensures After(before, done + [m]) ==
            Disk(After(before, done).schema + m.statements, After(before, done).records + [Record(m.version, m.name)])
  {
    EffectsSnoc(done, m);
    ConcatAssociative(before.schema, Effects(done), m.statements);
    ConcatAssociative(before.records, Records(done), [Record(m.version, m.name)]);
  }

  datatype Attempt = Attempt(list: seq<Migration>, count: nat, ok: bool)

  /** A run applies the first `count` missing migrations, and all of them if it reports success. */
  ghost predicate Ran(before: Disk, a: Attempt, after: Disk) {
    var todo := Todo(a.list, before.records);
    a.count <= |todo| && after == After(before, todo[..a.count]) && (a.ok ==> a.count == |todo|)
  }

  class Database {
    var schema: seq<string>
    var records: seq<Record>
    var calls: nat
    // Whether the n-th call to the database fails, for whatever reason.
    const fails: nat -> bool

    constructor (fails: nat -> bool)
      ensures Contents() == Disk([], []) && this.fails == fails
    {
      schema, records, calls := [], [], 0;
      this.fails := fails;
    }

    ghost function Contents(): Disk
      reads this
    {
      Disk(schema, records)
    }

    ghost predicate Quiet(first: nat, last: nat) {
      forall n :: first <= n < last ==> !fails(n)
    }

    method Call() returns (ok: bool)
      modifies `calls
      ensures calls == old(calls) + 1 && ok == Quiet(old(calls), calls)
    {
      ok := !fails(calls);
      calls := calls + 1;
    }

    /** appliedVersions: the query, one scan a row, and the final check of the cursor. */
    method AppliedVersions() returns (ok: bool, applied: map<int, bool>)
      modifies `calls
      ensures calls > old(calls) && ok == Quiet(old(calls), calls)
      ensures ok ==> forall v :: v in applied <==> Has(records, v)
    {
      applied := map[];
      ok := Call();
      if !ok {
        return;
      }
      for i := 0 to |records|
        invariant calls > old(calls) && Quiet(old(calls), calls)
        invariant forall v :: v in applied <==> Has(records[..i], v)
      {
        ok := Call();
        if !ok {
          return;
        }
        assert records[..i + 1] == records[..i] + [records[i]];
        applied := applied[records[i].version := true];
        forall v ensures Has(records[..i + 1], v) <==> Has(records[..i], v) || v == records[i].version {
          HasOfConcat(records[..i], [records[i]], v);
          assert [records[i]][0] == records[i];
        }
      }
      assert records[..|records|] == records;
      ok := Call();
    }

    /** applyMigration: all statements and the record of the version in one transaction, or nothing. */
    method ApplyMigration(m: Migration) returns (ok: bool)
      modifies this
      ensures calls > old(calls)
      ensures ok <==> Quiet(old(calls), calls) && !Has(old(records), m.version)
      ensures Contents() == if ok then Disk(old(schema) + m.statements, old(records) + [Record(m.version, m.name)])
                            else old(Contents())
    {
      ok := Call();
      if !ok {
        return;
      }
      var pending: seq<string> := [];
      for i := 0 to |m.statements|
        invariant calls > old(calls) && Quiet(old(calls), calls)
        invariant pending == m.statements[..i]
        invariant Contents() == old(Contents())
      {
        ok := Call();
        if !ok {
          return;
        }
        pending := pending + [m.statements[i]];
      }
      assert pending == m.statements;
      ok := Call();
      if !ok || Has(records, m.version) {
        return false;
      }
      ok := Call();
      if !ok {
        return;
      }
      schema, records := schema + pending, records + [Record(m.version, m.name)];
    }

    /** Migrate: applies the missing migrations in order and stops at the first failure. For a list of
        distinct versions it succeeds exactly when the dialect is SQLite and no call to the database failed. */
    method Migrate(dialect: string, list: seq<Migration>) returns (count: nat, ok: bool)
      modifies this
      ensures Ran(old(Contents()), Attempt(list, count, ok), Contents())
      ensures calls >= old(calls)
      ensures ok ==> dialect == SQLITE && Quiet(old(calls), calls)
      ensures dialect == SQLITE && Quiet(old(calls), calls) && Distinct(list) ==> ok
    {
      ghost var before := Contents();
      count := 0;
      ghost var todo := Todo(list, records);
      assert todo[..0] == [];
      assert After(before, []) == before;
      if dialect != SQLITE {
        return 0, false;
      }
      ok := Call();
      if !ok {
        return 0, false;
      }
      var applied;
      ok, applied := AppliedVersions();
      if !ok {
        return 0, false;
      }
      for i := 0 to |list|
        invariant calls > old(calls) && Quiet(old(calls), calls)
        invariant count <= |todo|
        invariant Todo(list[..i], before.records) == todo[..count]
        invariant Contents() == After(before, todo[..count])
      {
        TodoNext(list, i, before.records, count);
        if list[i].version !in applied {
          AfterSnoc(before, todo[..count], list[i]);
          ok := ApplyMigration(list[i]);
          if !ok {
            if Has(records, list[i].version) {
              RecordedTwice(list, i, before.records);
            }
            return count, false;
          }
          count := count + 1;
        }
      }
      assert list[..|list|] == list;
      return count, true;
    }
  }

  // ---- any sequence of runs ----

  /** Runs over one database that starts empty. */
  ghost predicate History(disks: seq<Disk>, attempts: seq<Attempt>) {
    && |disks| == |attempts| + 1 && disks[0] == Disk([], [])
    && forall i :: 0 <= i < |attempts| ==> Ran(disks[i], attempts[i], disks[i + 1])
  }

  function Total(attempts: seq<Attempt>): nat {
    if attempts == [] then 0 else Total(attempts[..|attempts| - 1]) + attempts[|attempts| - 1].count
  }

  lemma HasOfPrefix(all: seq<Migration>, n: nat, k: nat)
    requires Distinct(all) && n <= |all| && k < |all|
    ensures Has(Records(all[..n]), all[k].version) <==> k < n
  {
    var rs := Records(all[..n]);
    if k < n {
      assert rs[k].version == all[k].version;
    }
    if i :| 0 <= i < |rs| && rs[i].version == all[k].version {
      assert all[i].version == all[k].version;
    }
  }

  /** With the first n applied, what a shorter or longer prefix of the list still misses is the stretch after n. */
  lemma {:induction false} TodoOfPrefix(all: seq<Migration>, n: nat, m: nat)
    requires Distinct(all) && n <= |all| && m <= |all|
    ensures Todo(all[..m], Records(all[..n])) == if n <= m then all[n..m] else []
  {
    if m > 0 {
      TodoOfPrefix(all, n, m - 1);
      HasOfPrefix(all, n, m - 1);
      assert all[..m] == all[..m - 1] + [all[m - 1]];
      TodoSnoc(all[..m - 1], all[m - 1], Records(all[..n]));
      if n < m {
        assert all[n..m] == all[n..m - 1] + [all[m - 1]];
      } else if n == m {
        assert all[n..m] == [];
      }
    }
  }

  lemma {:induction false} EffectsConcat(a: seq<Migration>, b: seq<Migration>)
    ensures Effects(a + b) == Effects(a) + Effects(b) && Records(a + b) == Records(a) + Records(b)
  {
    assert Records(a + b) == Records(a) + Records(b);
    if b == [] {
      ConcatEmpty(a);
      ConcatEmpty(Effects(a));
    } else {
      var front, last := b[..|b| - 1], b[|b| - 1];
      EffectsConcat(a, front);
      EffectsSnoc(a + front, last);
      ConcatAssociative(a, front, [last]);
      ConcatAssociative(Effects(a), Effects(front), last.statements);
      assert b == front + [last];
    }
  }

  /** The disk with exactly the first n migrations applied, each once and in order. */
  ghost predicate Prefix(all: seq<Migration>, n: nat, disk: Disk) {
    n <= |all| && disk == Disk(Effects(all[..n]), Records(all[..n]))
  }

  lemma AfterPrefix(all: seq<Migration>, n: nat, c: nat)
    requires n + c <= |all|
    ensures After(Disk(Effects(all[..n]), Records(all[..n])), all[n..n + c]) ==
            Disk(Effects(all[..n + c]), Records(all[..n + c]))
  {
    EffectsConcat(all[..n], all[n..n + c]);
    assert all[..n] + all[n..n + c] == all[..n + c];
  }

  lemma RunExtendsPrefix(all: seq<Migration>, n: nat, before: Disk, a: Attempt, after: Disk)
    requires Distinct(all) && Prefix(all, n, before) && Ran(before, a, after) && a.list <= all
    ensures Prefix(all, n + a.count, after)
    ensures a.ok && n <= |a.list| ==> n + a.count == |a.list|
  {
    var m := |a.list|;
    assert a.list == all[..m];
    TodoOfPrefix(all, n, m);
    var done := Todo(a.list, before.records)[..a.count];
    assert done == all[n..n + a.count];
    AfterPrefix(all, n, a.count);
  }

  lemma CompleteRun(all: seq<Migration>, n: nat, before: Disk, a: Attempt, after: Disk)
    requires Distinct(all) && Prefix(all, n, before) && Ran(before, a, after) && a.ok && a.list == all
    ensures n + a.count == |all| && after == Disk(Effects(all), Records(all))
  {
    RunExtendsPrefix(all, n, before, a, after);
    assert all[..|all|] == all;
  }

  /** Whatever failed in between, the applied migrations are a prefix of the list, each applied exactly once
      and in order, and the reported counts add up to its length. */
  lemma {:induction false} AppliedIsPrefix(all: seq<Migration>, disks: seq<Disk>, attempts: seq<Attempt>)
    requires Distinct(all) && History(disks, attempts)
    requires forall i :: 0 <= i < |attempts| ==> attempts[i].list <= all
    ensures Prefix(all, Total(attempts), disks[|attempts|])
    decreases |attempts|
  {
    if attempts == [] {
      assert all[..0] == [];
    } else {
      var k := |attempts| - 1;
      AppliedIsPrefix(all, disks[..k + 1], attempts[..k]);
      assert Ran(disks[k], attempts[k], disks[k + 1]);
      RunExtendsPrefix(all, Total(attempts[..k]), disks[k], attempts[k], disks[k + 1]);
    }
  }

  /** Upgrading step by step, with any failures on the way, ends where one fresh run of the whole list ends. */
  lemma UpgradeEqualsFresh(all: seq<Migration>, disks: seq<Disk>, attempts: seq<Attempt>, single: Attempt, end: Disk)
    requires Distinct(all) && History(disks, attempts) && attempts != []
    requires forall i :: 0 <= i < |attempts| ==> attempts[i].list <= all
    requires var last := attempts[|attempts| - 1]; last.ok && last.list == all
    requires single.ok && single.list == all && Ran(Disk([], []), single, end)
    ensures disks[|attempts|] == end == Disk(Effects(all), Records(all))
    ensures Total(attempts) == single.count == |all|
  {
    var k := |attempts| - 1;
    AppliedIsPrefix(all, disks[..k + 1], attempts[..k]);
    assert Ran(disks[k], attempts[k], disks[k + 1]);
    CompleteRun(all, Total(attempts[..k]), disks[k], attempts[k], disks[k + 1]);
    assert all[..0] == [];
    CompleteRun(all, 0, Disk([], []), single, end);
  }
}
