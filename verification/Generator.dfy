/** Generate: the text is written piece by piece, as frpcconfig.Generate does with its builder. */
module Generator {
  import opened Text
  import Model
  import opened Toml
  import opened FrpcConfig

  lemma AppendLine(lines: seq<string>, line: string)
    ensures FileOf(lines + [line]) == FileOf(lines) + line + "\n"
  {
    TerminatedSnoc(lines, line, '\n');
  }

  /** b.WriteString of a whole line; `block` is what was written since the lines `before`. */
  method WriteLine(b: string, ghost before: seq<string>, ghost block: seq<string>, line: string)
    returns (b': string, ghost block': seq<string>)
    requires b == FileOf(before + block)
    ensures block' == block + [line] && b' == FileOf(before + block')
  {
    AppendLine(before + block, line);
    ConcatAssociative(before, block, [line]);
    b', block' := b + line + "\n", block + [line];
  }

  method PrintField(f: Field) returns (line: string)
    ensures line == FieldLine(f)
  {
    var text;
    match f.value {
      case Str(s) => text := TomlString(s);
      case Int(i) => text := Itoa(i);
    }
    return f.key + " = " + text;
  }

  method WriteServer(cfg: Config) returns (b: string)
    ensures b == FileOf([] + ServerLines(cfg))
  {
    ghost var block: seq<string>;
    ConcatEmpty<string>([]);
    b, block := WriteLine("", [], [], TITLE);
    b, block := WriteLine(b, [], block, DOCS);
    b, block := WriteLine(b, [], block, "");
    var s := PrintField(Field("serverAddr", Str(cfg.serverAddr)));
    b, block := WriteLine(b, [], block, s);
    s := PrintField(Field("serverPort", Int(cfg.serverPort)));
    b, block := WriteLine(b, [], block, s);
    assert block == ServerLines(cfg);
  }

  method WriteHeader(cfg: Config) returns (b: string)
    ensures b == FileOf(HeaderLines(cfg))
  {
    b := WriteServer(cfg);
    ghost var before, block: seq<string> := ServerLines(cfg), [];
    ConcatEmpty(before);
    b, block := WriteLine(b, before, [], "");
    var s := PrintField(Field("user", Str(cfg.user)));
    b, block := WriteLine(b, before, block, s);
    b, block := WriteLine(b, before, block, "");
    s := PrintField(Field("metadatas.token", Str(cfg.token)));
    b, block := WriteLine(b, before, block, s);
    assert before + block == HeaderLines(cfg);
  }

  /** The next line of a block: field n of the fields that make it up. */
  method WriteField(b: string, ghost before: seq<string>, ghost head: seq<string>, ghost fs: seq<Field>,
                    ghost n: nat, f: Field)
    returns (b': string)
    requires n < |fs| && fs[n] == f
    requires b == FileOf(before + (head + FieldLines(fs, n)))
    ensures b' == FileOf(before + (head + FieldLines(fs, n + 1)))
  {
    var line := PrintField(f);
    ghost var block;
    b', block := WriteLine(b, before, head + FieldLines(fs, n), line);
    ConcatAssociative(head, FieldLines(fs, n), [line]);
  }

  method Endpoint(p: ProxyEntry) returns (r: Result<Field, GenerateError>)
    ensures r.Ok? ==> Fault(p).None? && r.value == EndpointField(p)
    ensures r.Err? ==> Fault(p).Some? && Fault(p).value == r.error
  {
    if p.typ == Model.HTTP || p.typ == Model.HTTPS {
      if p.subdomain == "" {
        return Err(MissingSubdomain(p.name));
      }
      return Ok(Field("subdomain", Str(p.subdomain)));
    } else if p.typ == Model.TCP || p.typ == Model.UDP {
      if p.remotePort <= 0 || p.remotePort > 65535 {
        return Err(RemotePortOutOfRange(p.typ, p.name, p.remotePort));
      }
      return Ok(Field("remotePort", Int(p.remotePort)));
    } else {
      return Err(UnsupportedType(p.typ));
    }
  }

  /** The text after one more entry, or the reason that entry cannot be written. */
  method WriteEntry(b: string, ghost before: seq<string>, p: ProxyEntry) returns (r: Result<string, GenerateError>)
    requires b == FileOf(before)
    ensures r.Err? ==> Fault(p).Some? && Fault(p).value == r.error
    ensures r.Ok? ==> Fault(p).None? && r.value == FileOf(before + EntryLines(p))
  {
    ghost var fs, block := EntryFields(p), [];
    var c: string;
    ConcatEmpty(before);
    c, block := WriteLine(b, before, [], "");
    c, block := WriteLine(c, before, block, "[[proxies]]");
    ConcatEmpty(block);
    c := WriteField(c, before, block, fs, 0, Field("name", Str(p.name)));
    c := WriteField(c, before, block, fs, 1, Field("type", Str(p.typ)));
    c := WriteField(c, before, block, fs, 2, Field("localIP", Str(p.localIP)));
    c := WriteField(c, before, block, fs, 3, Field("localPort", Int(p.localPort)));
    var endpoint := Endpoint(p);
    if endpoint.Err? {
      return Err(endpoint.error);
    }
    c := WriteField(c, before, block, fs, 4, endpoint.value);
    assert block == ["", "[[proxies]]"];
    return Ok(c);
  }

  /** Why the first n entries cannot all be written: the fault of the first one that has any. */
  function FirstFault(ps: seq<ProxyEntry>, n: nat): Option<GenerateError>
    requires n <= |ps|
  {
    if n == 0 then None
    else
      var earlier := FirstFault(ps, n - 1);
      if earlier.Some? then earlier else Fault(ps[n - 1])
  }

  lemma {:induction false} FirstFaultLocated(ps: seq<ProxyEntry>, n: nat)
    requires n <= |ps|
    ensures FirstFault(ps, n).None? <==> forall i :: 0 <= i < n ==> Fault(ps[i]).None?
    ensures FirstFault(ps, n).Some? ==>
              exists i :: 0 <= i < n && Fault(ps[i]) == FirstFault(ps, n)
                          && forall j :: 0 <= j < i ==> Fault(ps[j]).None?
  {
    if n > 0 {
      FirstFaultLocated(ps, n - 1);
    }
  }

  lemma {:induction false} FirstFaultPersists(ps: seq<ProxyEntry>, i: nat, n: nat)
    requires i <= n <= |ps| && FirstFault(ps, i).Some?
    ensures FirstFault(ps, n) == FirstFault(ps, i)
  {
    if i < n {
      FirstFaultPersists(ps, i, n - 1);
    }
  }

  method WriteNext(b: string, ghost before: seq<string>, ps: seq<ProxyEntry>, i: nat)
    returns (r: Result<string, GenerateError>)
    requires i < |ps| && b == FileOf(WithEntries(before, ps, i)) && FirstFault(ps, i).None?
    ensures r.Err? ==> FirstFault(ps, |ps|).Some? && FirstFault(ps, |ps|).value == r.error
    ensures r.Ok? ==> FirstFault(ps, i + 1).None? && r.value == FileOf(WithEntries(before, ps, i + 1))
  {
    r := WriteEntry(b, WithEntries(before, ps, i), ps[i]);
    if r.Err? {
      FirstFaultPersists(ps, i + 1, |ps|);
    }
  }

  /** The entries in order, or the reason the first unwritable one cannot be written. */
  method WriteEntries(text: string, ghost before: seq<string>, ps: seq<ProxyEntry>)
    returns (r: Result<string, GenerateError>)
    requires text == FileOf(before)
    ensures r.Ok? ==> FirstFault(ps, |ps|).None? && r.value == FileOf(WithEntries(before, ps, |ps|))
    ensures r.Err? ==> FirstFault(ps, |ps|).Some? && FirstFault(ps, |ps|).value == r.error
  {
    var b := text;
    for i := 0 to |ps|
      invariant FirstFault(ps, i).None?
      invariant b == FileOf(WithEntries(before, ps, i))
    {
      var w := WriteNext(b, before, ps, i);
      if w.Err? {
        return w;
      }
      b := w.value;
    }
    return Ok(b);
  }

  /** The error is the right one for the first entry that cannot be written. */
  ghost predicate ExplainsFirst(error: GenerateError, ps: seq<ProxyEntry>) {
    exists i :: 0 <= i < |ps| && Explains(error, ps[i]) && forall j :: 0 <= j < i ==> CanBeWritten(ps[j])
  }

  lemma FirstFaultSpelled(ps: seq<ProxyEntry>)
    ensures FirstFault(ps, |ps|).None? <==> forall i :: 0 <= i < |ps| ==> CanBeWritten(ps[i])
    ensures FirstFault(ps, |ps|).Some? ==> ExplainsFirst(FirstFault(ps, |ps|).value, ps)
  {
    FirstFaultLocated(ps, |ps|);
    forall i, error | 0 <= i < |ps|
      ensures Fault(ps[i]).None? <==> CanBeWritten(ps[i])
      ensures Fault(ps[i]) == Some(error) ==> Explains(error, ps[i])
    {
      FaultSpelled(ps[i], error);
    }
  }

  /** Succeeds exactly when every entry has an endpoint that fits its type, with exactly the specified lines;
      otherwise it reports the first entry that has not, and why. */
  method Generate(cfg: Config) returns (r: Result<string, GenerateError>)
    ensures r.Ok? <==> Writable(cfg)
    ensures r.Ok? <==> forall i :: 0 <= i < |cfg.proxies| ==> CanBeWritten(cfg.proxies[i])
    ensures r.Ok? ==> r.value == FileOf(ConfigLines(cfg))
    ensures r.Err? ==> ExplainsFirst(r.error, cfg.proxies)
  {
    FirstFaultLocated(cfg.proxies, |cfg.proxies|);
    FirstFaultSpelled(cfg.proxies);
    var b := WriteHeader(cfg);
    ConcatEmpty(HeaderLines(cfg));
    if |cfg.proxies| == 0 {
      ghost var block: seq<string>;
      b, block := WriteLine(b, HeaderLines(cfg), [], "");
      b, block := WriteLine(b, HeaderLines(cfg), block, NO_PROXIES);
      assert block == ["", NO_PROXIES];
      return Ok(b);
    }
    r := WriteEntries(b, HeaderLines(cfg), cfg.proxies);
  }
}
