/** The printer and the reader undo each other: the generated file reads back as the configuration,
    with only the endpoint field each entry uses, exactly when its strings are plain. */
module RoundTrip {
  import opened Text
  import Model
  import opened Toml
  import opened FrpcConfig

  lemma KeysAreBare()
    ensures BareKey("serverAddr") && BareKey("serverPort") && BareKey("user") && BareKey("metadatas.token")
    ensures BareKey("name") && BareKey("type") && BareKey("localIP") && BareKey("localPort")
    ensures BareKey("subdomain") && BareKey("remotePort")
  {
  }

  lemma KeysDistinct()
    ensures "serverAddr" != "serverPort" && "name" != "type" && "localPort" != "subdomain"
  {
    assert "serverAddr"[6] != "serverPort"[6];
    assert "name"[0] != "type"[0];
    assert "localPort"[0] != "subdomain"[0];
  }

  lemma TitleIsComment()
    ensures IsComment(TITLE)
  {
  }

  lemma DocsIsComment()
    ensures IsComment(DOCS)
  {
  }

  lemma NoProxiesIsComment()
    ensures IsComment(NO_PROXIES)
  {
  }

  lemma TypesArePlain(typ: string)
    requires UsesSubdomain(typ) || UsesPort(typ)
    ensures Plain(typ)
  {
  }

  // ---- one entry ----

  function EntryTable(p: ProxyEntry): Table {
    var t: Table := map[]["name" := Str(p.name)]["type" := Str(p.typ)]["localIP" := Str(p.localIP)]
                         ["localPort" := Int(p.localPort)];
    t[EndpointField(p).key := EndpointField(p).value]
  }

  lemma EntryTableReadsBack(p: ProxyEntry)
    requires Fault(p).None?
    ensures ReadEntry(EntryTable(p)) == Some(Essential(p))
  {
    KeysDistinct();
    Model.ConstantsDistinct();
  }

  /** Defining a fresh key in the last table of the array. */
  lemma DefineInLast(root: Table, ts: seq<Table>, t: Table, f: Field)
    requires f.key !in t
    ensures DefineField(Document(root, ts + [t]), f) ==
            if PlainValue(f.value) then Some(Document(root, ts + [t[f.key := f.value]])) else None
  {
    assert (ts + [t])[|ts| := t[f.key := f.value]] == ts + [t[f.key := f.value]];
  }

  lemma DefineEntry(root: Table, ts: seq<Table>, p: ProxyEntry)
    requires Fault(p).None?
    ensures DefineFields(Document(root, ts + [map[]]), EntryFields(p), 5) ==
            if PlainEntry(p) then Some(Document(root, ts + [EntryTable(p)])) else None
  {
    var fs := EntryFields(p);
    var d := Document(root, ts + [map[]]);
    KeysDistinct();
    TypesArePlain(p.typ);
    var t0: Table := map[];
    var t1 := t0["name" := Str(p.name)];
    var t2 := t1["type" := Str(p.typ)];
    var t3 := t2["localIP" := Str(p.localIP)];
    var t4 := t3["localPort" := Int(p.localPort)];
    DefineInLast(root, ts, t0, fs[0]);
    DefineInLast(root, ts, t1, fs[1]);
    DefineInLast(root, ts, t2, fs[2]);
    DefineInLast(root, ts, t3, fs[3]);
    DefineInLast(root, ts, t4, fs[4]);
    assert DefineFields(d, fs, 0) == Some(d);
    assert DefineFields(d, fs, 1) == if Plain(p.name) then Some(Document(root, ts + [t1])) else None;
    assert DefineFields(d, fs, 2) == if Plain(p.name) then Some(Document(root, ts + [t2])) else None;
    assert DefineFields(d, fs, 3) ==
           if Plain(p.name) && Plain(p.localIP) then Some(Document(root, ts + [t3])) else None;
    assert DefineFields(d, fs, 4) ==
           if Plain(p.name) && Plain(p.localIP) then Some(Document(root, ts + [t4])) else None;
  }

  lemma ReadBlock(root: Table, ts: seq<Table>, p: ProxyEntry)
    requires Fault(p).None?
    ensures ReadLines(Document(root, ts), EntryLines(p)) ==
            if PlainEntry(p) then Some(Document(root, ts + [EntryTable(p)])) else None
  {
    var doc, fs := Document(root, ts), EntryFields(p);
    var head := ["", "[[proxies]]"];
    KeysAreBare();
    ReadOneLine(doc, "");
    assert head == [""] + ["[[proxies]]"];
    ReadSnoc(doc, [""], "[[proxies]]");
    ReadLinesAppend(doc, head, FieldLines(fs, 5));
    ReadFieldLines(Document(root, ts + [map[]]), fs, 5);
    DefineEntry(root, ts, p);
  }

  lemma EntryOnOneLineEach(p: ProxyEntry)
    ensures OneLineEach(EntryLines(p))
  {
    KeysAreBare();
    FieldLinesStayOnOneLine(EntryFields(p), 5);
    OneLineEachConcat(["", "[[proxies]]"], FieldLines(EntryFields(p), 5));
  }

  lemma {:induction false} WithEntriesOnOneLineEach(before: seq<string>, ps: seq<ProxyEntry>, n: nat)
    requires n <= |ps| && OneLineEach(before)
    ensures OneLineEach(WithEntries(before, ps, n))
  {
    if n > 0 {
      WithEntriesOnOneLineEach(before, ps, n - 1);
      EntryOnOneLineEach(ps[n - 1]);
      OneLineEachConcat(WithEntries(before, ps, n - 1), EntryLines(ps[n - 1]));
    }
  }

  function Tables(ps: seq<ProxyEntry>, n: nat): seq<Table>
    requires n <= |ps|
  {
    if n == 0 then [] else Tables(ps, n - 1) + [EntryTable(ps[n - 1])]
  }

  predicate PlainUpTo(ps: seq<ProxyEntry>, n: nat)
    requires n <= |ps|
  {
    n == 0 || (PlainUpTo(ps, n - 1) && PlainEntry(ps[n - 1]))
  }

  lemma {:induction false} PlainUpToEach(ps: seq<ProxyEntry>, n: nat)
    requires n <= |ps|
    ensures PlainUpTo(ps, n) <==> forall i :: 0 <= i < n ==> PlainEntry(ps[i])
  {
    if n > 0 {
      PlainUpToEach(ps, n - 1);
    }
  }

  /** The lines can be read exactly when `ok`, and then give this root and these tables. */
  ghost predicate Reads(lines: seq<string>, ok: bool, root: Table, ts: seq<Table>) {
    var read := ReadLines(START, lines);
    read.Some? == ok && (ok ==> read.value == Document(root, ts))
  }

  lemma ReadNextEntry(lines: seq<string>, ok: bool, root: Table, ts: seq<Table>, p: ProxyEntry)
    requires Fault(p).None?
    requires Reads(lines, ok, root, ts)
    ensures Reads(lines + EntryLines(p), ok && PlainEntry(p), root, ts + [EntryTable(p)])
  {
    ReadLinesAppend(START, lines, EntryLines(p));
    ReadBlock(root, ts, p);
  }

  lemma {:induction false} ReadWithEntries(before: seq<string>, ok: bool, root: Table, ps: seq<ProxyEntry>, n: nat)
    requires n <= |ps| && forall i :: 0 <= i < n ==> Fault(ps[i]).None?
    requires Reads(before, ok, root, [])
    ensures Reads(WithEntries(before, ps, n), ok && PlainUpTo(ps, n), root, Tables(ps, n))
  {
    if n > 0 {
      ReadWithEntries(before, ok, root, ps, n - 1);
      var lines, ts, p := WithEntries(before, ps, n - 1), Tables(ps, n - 1), ps[n - 1];
      ReadNextEntry(lines, ok && PlainUpTo(ps, n - 1), root, ts, p);
      assert WithEntries(before, ps, n) == lines + EntryLines(p);
    }
  }

  // ---- the header ----

  function RootTable(cfg: Config): Table {
    map[]["serverAddr" := Str(cfg.serverAddr)]["serverPort" := Int(cfg.serverPort)]
         ["user" := Str(cfg.user)]["metadatas.token" := Str(cfg.token)]
  }

  const START := Document(map[], [])

  lemma ReadServer(cfg: Config)
    ensures ReadLines(START, ServerLines(cfg)) ==
            if Plain(cfg.serverAddr)
            then Some(Document(map[]["serverAddr" := Str(cfg.serverAddr)]["serverPort" := Int(cfg.serverPort)], []))
            else None
    ensures OneLineEach(ServerLines(cfg))
  {
    var f1, f2 := Field("serverAddr", Str(cfg.serverAddr)), Field("serverPort", Int(cfg.serverPort));
    TitleIsComment();
    DocsIsComment();
    CommentStaysOnOneLine(TITLE);
    CommentStaysOnOneLine(DOCS);
    KeysAreBare();
    KeysDistinct();
    FieldStaysOnOneLine(f1);
    FieldStaysOnOneLine(f2);
    var l1, l2, l3 := [TITLE], [TITLE, DOCS], [TITLE, DOCS, ""];
    var l4 := l3 + [FieldLine(f1)];
    ReadOneLine(START, TITLE);
    assert l2 == l1 + [DOCS] && l3 == l2 + [""] && ServerLines(cfg) == l4 + [FieldLine(f2)];
    ReadSnoc(START, l1, DOCS);
    ReadSnoc(START, l2, "");
    ReadSnoc(START, l3, FieldLine(f1));
    ReadSnoc(START, l4, FieldLine(f2));
    ReadFieldLine(START, f1);
    ReadFieldLine(Document(map[]["serverAddr" := Str(cfg.serverAddr)], []), f2);
  }

  lemma ReadHeader(cfg: Config)
    ensures ReadLines(START, HeaderLines(cfg)) ==
            if Plain(cfg.serverAddr) && Plain(cfg.user) && Plain(cfg.token)
            then Some(Document(RootTable(cfg), [])) else None
    ensures OneLineEach(HeaderLines(cfg))
  {
    var f3, f4 := Field("user", Str(cfg.user)), Field("metadatas.token", Str(cfg.token));
    KeysAreBare();
    FieldStaysOnOneLine(f3);
    FieldStaysOnOneLine(f4);
    ReadServer(cfg);
    var l5 := ServerLines(cfg);
    var l6, l7 := l5 + [""], (l5 + [""]) + [FieldLine(f3)];
    var l8 := l7 + [""];
    assert HeaderLines(cfg) == l8 + [FieldLine(f4)];
    ReadSnoc(START, l5, "");
    ReadSnoc(START, l6, FieldLine(f3));
    ReadSnoc(START, l7, "");
    ReadSnoc(START, l8, FieldLine(f4));
    var t2: Table := map[]["serverAddr" := Str(cfg.serverAddr)]["serverPort" := Int(cfg.serverPort)];
    ReadFieldLine(Document(t2, []), f3);
    ReadFieldLine(Document(t2["user" := Str(cfg.user)], []), f4);
  }

  // ---- the whole file ----

  lemma ReadLinesOfConfig(cfg: Config)
    requires Writable(cfg)
    ensures ReadLines(START, ConfigLines(cfg)) ==
            if PlainConfig(cfg) then Some(Document(RootTable(cfg), Tables(cfg.proxies, |cfg.proxies|))) else None
  {
    var head, n := HeaderLines(cfg), |cfg.proxies|;
    ReadHeader(cfg);
    if n == 0 {
      assert ConfigLines(cfg) == (head + [""]) + [NO_PROXIES];
      ReadSnoc(START, head, "");
      ReadSnoc(START, head + [""], NO_PROXIES);
      NoProxiesIsComment();
    } else {
      PlainUpToEach(cfg.proxies, n);
      ReadWithEntries(head, ReadLines(START, head).Some?, RootTable(cfg), cfg.proxies, n);
    }
  }

  lemma ConfigOnOneLineEach(cfg: Config)
    ensures OneLineEach(ConfigLines(cfg))
  {
    ReadHeader(cfg);
    if cfg.proxies == [] {
      NoProxiesIsComment();
      CommentStaysOnOneLine(NO_PROXIES);
    } else {
      WithEntriesOnOneLineEach(HeaderLines(cfg), cfg.proxies, |cfg.proxies|);
    }
  }

  lemma ReadDocumentOfConfig(cfg: Config)
    ensures ReadDocument(FileOf(ConfigLines(cfg))) == ReadLines(START, ConfigLines(cfg))
  {
    var lines := ConfigLines(cfg);
    ConfigOnOneLineEach(cfg);
    SplitOfTerminated(lines, '\n');
    ReadSnoc(START, lines, "");
  }

  lemma {:induction false} ReadTables(ts: seq<Table>, es: seq<ProxyEntry>)
    requires |ts| == |es| && forall i :: 0 <= i < |ts| ==> ReadEntry(ts[i]) == Some(es[i])
    ensures ReadEntries(ts).Some? && ReadEntries(ts).value == es
  {
    if ts != [] {
      var n := |ts| - 1;
      ReadTables(ts[..n], es[..n]);
      assert es == es[..n] + [es[n]];
    }
  }

  lemma {:induction false} TablesAt(ps: seq<ProxyEntry>, n: nat)
    requires n <= |ps|
    ensures |Tables(ps, n)| == n && forall i :: 0 <= i < n ==> Tables(ps, n)[i] == EntryTable(ps[i])
  {
    if n > 0 {
      TablesAt(ps, n - 1);
    }
  }

  lemma EntriesReadBack(ps: seq<ProxyEntry>)
    requires forall i :: 0 <= i < |ps| ==> Fault(ps[i]).None?
    ensures var es := ReadEntries(Tables(ps, |ps|)); es.Some? && es.value == EssentialAll(ps)
  {
    TablesAt(ps, |ps|);
    forall i | 0 <= i < |ps| ensures ReadEntry(Tables(ps, |ps|)[i]) == Some(EssentialAll(ps)[i]) {
      EntryTableReadsBack(ps[i]);
    }
    ReadTables(Tables(ps, |ps|), EssentialAll(ps));
  }

  lemma RootReadsBack(cfg: Config)
    requires Writable(cfg)
    ensures ConfigOf(Document(RootTable(cfg), Tables(cfg.proxies, |cfg.proxies|))) ==
            Some(cfg.(proxies := EssentialAll(cfg.proxies)))
  {
    EntriesReadBack(cfg.proxies);
    KeysDistinct();
  }

  /** Reading a generated file gives the configuration back exactly when its strings are plain, that is,
      have no control characters but newline, return and tab; otherwise the file is not valid TOML. */
  lemma ConfigRoundTrip(cfg: Config)
    requires Writable(cfg)
    ensures ReadConfig(FileOf(ConfigLines(cfg))) ==
            if PlainConfig(cfg) then Some(cfg.(proxies := EssentialAll(cfg.proxies))) else None
  {
    ReadLinesOfConfig(cfg);
    ReadDocumentOfConfig(cfg);
    RootReadsBack(cfg);
  }
}
