/** Public resources: how a port typed by an administrator becomes a row, why equal numbers are equal
    texts, and how many port resources there can be. */
module Ports {
  import opened Text
  import opened Model
  import opened Tables
  import opened Plugin
  import opened Machine
  import Safety
  import Sequential

  function PortType(udp: bool): string {
    if udp then UDP_PORT else TCP_PORT
  }

  /** createPortResource: the text must be a number; the store then checks its range. */
  ghost function ServePortText(verify: Verify, db: Db, udp: bool, text: string): Finished {
    match Atoi(TrimSpace(text))
    case None => Finished(db, Failed(NotANumber))
    case Some(port) => Serve(verify, db, CreatePort(udp, port))
  }

  ghost predicate IsPort(db: Db, k: int, udp: bool) {
    k in db.resources && db.resources[k].typ == PortType(udp)
  }

  /** Some port resource of this type has this number. */
  ghost predicate NumberTaken(db: Db, udp: bool, n: int) {
    exists k :: IsPort(db, k, udp) && Atoi(db.resources[k].value) == Some(n)
  }

  /** A stored port is the canonical decimal of a number in 1..65535. */
  lemma PortIsCanonical(db: Db, k: int, udp: bool) returns (n: int)
    requires Inv(db) && IsPort(db, k, udp)
    ensures ValidPort(n) && db.resources[k].value == Itoa(n) && Atoi(db.resources[k].value) == Some(n)
  {
    ConstantsDistinct();
    var r := db.resources[k];
    assert ResourceShape(db.zones, r.typ, r.value, r.zoneId);
    n :| ValidPort(n) && r.value == Itoa(n);
    AtoiOfItoa(n);
  }

  /** Uniqueness of the text is uniqueness of the number. */
  lemma SameNumberSamePort(db: Db, j: int, k: int, udp: bool)
    requires Inv(db) && IsPort(db, j, udp) && IsPort(db, k, udp)
    requires Atoi(db.resources[j].value) == Atoi(db.resources[k].value)
    ensures j == k
  {
    var m := PortIsCanonical(db, j, udp);
    var n := PortIsCanonical(db, k, udp);
  }

  lemma TakenByText(db: Db, udp: bool, n: int)
    requires Inv(db) && ValidPort(n)
    ensures NumberTaken(db, udp, n) <==>
            exists k :: k in db.resources && db.resources[k].typ == PortType(udp) && db.resources[k].value == Itoa(n)
  {
    if k :| IsPort(db, k, udp) && Atoi(db.resources[k].value) == Some(n) {
      var m := PortIsCanonical(db, k, udp);
    }
    if k :| k in db.resources && db.resources[k].typ == PortType(udp) && db.resources[k].value == Itoa(n) {
      AtoiOfItoa(n);
      assert IsPort(db, k, udp);
    }
  }

  function WithResource(db: Db, row: Resource): Db {
    db.(resources := db.resources[row.id := row], lastResource := row.id)
  }

  lemma ResourceInsertAlone(verify: Verify, db: Db, typ: string, value: string, zone: Option<int>)
    ensures var row := Resource(db.lastResource + 1, typ, value, zone, AVAILABLE);
            RunAlone(verify, db, ResourceInsert(typ, value, zone)) ==
            if exists k :: k in db.resources && db.resources[k].typ == typ && db.resources[k].value == value
            then Finished(db, Failed(DuplicateResource)) else Finished(WithResource(db, row), ResourceRow(row))
  {
    var e := Sequential.Advance(verify, db, ResourceInsert(typ, value, zone));
    if e.next.FetchResource? {
      e := Sequential.Advance(verify, e.db, e.next);
    }
  }

  /** A port is created exactly when it is in range and its number is not taken. */
  lemma PortAlone(verify: Verify, db: Db, udp: bool, n: int)
    requires Inv(db)
    ensures var row := Resource(db.lastResource + 1, PortType(udp), Itoa(n), None, AVAILABLE);
            Serve(verify, db, CreatePort(udp, n)) ==
            if !ValidPort(n) then Finished(db, Failed(InvalidPort))
            else if NumberTaken(db, udp, n) then Finished(db, Failed(DuplicateResource))
            else Finished(WithResource(db, row), ResourceRow(row))
  {
    var e := Sequential.Advance(verify, db, Start(CreatePort(udp, n)));
    if ValidPort(n) {
      ResourceInsertAlone(verify, db, PortType(udp), Itoa(n), None);
      TakenByText(db, udp, n);
    }
  }

  /** What comes of any text typed as a port: an error when it is not a number, and otherwise what its number
      deserves, so that two texts collide exactly when they denote the same number. */
  lemma PortTextAlone(verify: Verify, db: Db, udp: bool, text: string)
    requires Inv(db)
    ensures var parsed := Atoi(TrimSpace(text));
            ServePortText(verify, db, udp, text) ==
            if parsed.None? then Finished(db, Failed(NotANumber))
            else if !ValidPort(parsed.value) then Finished(db, Failed(InvalidPort))
            else if NumberTaken(db, udp, parsed.value) then Finished(db, Failed(DuplicateResource))
            else
              var row := Resource(db.lastResource + 1, PortType(udp), Itoa(parsed.value), None, AVAILABLE);
              Finished(WithResource(db, row), ResourceRow(row))
  {
    var parsed := Atoi(TrimSpace(text));
    if parsed.Some? {
      PortAlone(verify, db, udp, parsed.value);
    }
  }

  /** However many zeros lead a number and whatever white space surrounds it, it is the same request. */
  lemma PaddingIsIgnored(verify: Verify, db: Db, udp: bool, before: string, z: nat, n: nat, after: string)
    requires AllSpace(before) && AllSpace(after) && n <= MAX_INT64
    ensures ServePortText(verify, db, udp, before + (Zeros(z) + FormatNat(n)) + after) ==
            Serve(verify, db, CreatePort(udp, n))
  {
    var digits := Zeros(z) + FormatNat(n);
    TrimSpacePadding(before, digits, after);
    AtoiOfPadded(z, n);
  }

  // ---- at most 65535 ports of each type ----

  ghost function PortIds(db: Db, udp: bool): set<int> {
    set k | k in db.resources && db.resources[k].typ == PortType(udp)
  }

  lemma {:induction false} NumbersBelow(ids: set<int>, number: map<int, int>, n: nat)
    requires ids <= number.Keys && forall k :: k in ids ==> 1 <= number[k] <= n
    requires forall j, k :: j in ids && k in ids && number[j] == number[k] ==> j == k
    ensures |ids| <= n
  {
    if n == 0 {
      assert forall k :: k !in ids;
      assert |ids| == 0;
    } else if k :| k in ids && number[k] == n {
      NumbersBelow(ids - {k}, number, n - 1);
    } else {
      NumbersBelow(ids, number, n - 1);
    }
  }

  lemma PortNumbers(db: Db, udp: bool) returns (number: map<int, int>)
    requires Inv(db)
    ensures number.Keys == PortIds(db, udp) && forall k :: k in number ==> ValidPort(number[k])
    ensures forall j, k :: j in number && k in number && number[j] == number[k] ==> j == k
  {
    forall k | k in PortIds(db, udp) ensures IsPort(db, k, udp) && Atoi(db.resources[k].value).Some? {
      var n := PortIsCanonical(db, k, udp);
    }
    number := map k | k in PortIds(db, udp) :: Atoi(db.resources[k].value).value;
    forall k | k in number ensures ValidPort(number[k]) {
      var n := PortIsCanonical(db, k, udp);
    }
    forall j, k | j in number && k in number && number[j] == number[k] ensures j == k {
      SameNumberSamePort(db, j, k, udp);
    }
  }

  /** No state of any run holds more than 65535 TCP or 65535 UDP port resources. */
  lemma PortsBounded(verify: Verify, run: Run, i: nat, udp: bool)
    requires IsRun(verify, run) && i < |run.worlds|
    ensures |PortIds(run.worlds[i].db, udp)| <= 65535
  {
    Safety.RunOk(verify, run, i);
    var db := run.worlds[i].db;
    var number := PortNumbers(db, udp);
    NumbersBelow(number.Keys, number, 65535);
  }
}
