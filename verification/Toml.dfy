/** The strings, integers and lines the generator emits, and a reader for that subset of TOML v1.0.0
    (sections 'Comment', 'Keys', 'String', 'Integer' and 'Array of Tables'). */
module Toml {
  import opened Text

  // ---- writing basic strings (tomlString) ----

  /** strings.ReplaceAll with a one-character pattern. */
  function ReplaceAll(s: string, c: char, r: string): string {
    if s == "" then "" else (if s[0] == c then r else [s[0]]) + ReplaceAll(s[1..], c, r)
  }

  function EscapeChar(c: char): string {
    match c
    case '\\' => "\\\\"
    case '\"' => "\\\""
    case '\n' => "\\n"
    case '\r' => "\\r"
    case '\t' => "\\t"
    case _ => [c]
  }

  function Escape(s: string): string {
    if s == "" then "" else EscapeChar(s[0]) + Escape(s[1..])
  }

  function Quote(s: string): string {
    "\"" + Escape(s) + "\""
  }

  function ReplaceTwo(s: string): string {
    ReplaceAll(ReplaceAll(s, '\\', "\\\\"), '\"', "\\\"")
  }

  function ReplaceFive(s: string): string {
    ReplaceAll(ReplaceAll(ReplaceAll(ReplaceTwo(s), '\n', "\\n"), '\r', "\\r"), '\t', "\\t")
  }

  lemma {:induction false} ReplaceAllAppend(a: string, b: string, c: char, r: string)
    ensures ReplaceAll(a + b, c, r) == ReplaceAll(a, c, r) + ReplaceAll(b, c, r)
  {
    if a == "" {
      ConcatEmpty(b);
      ConcatEmpty(ReplaceAll(b, c, r));
    } else {
      ReplaceAllAppend(a[1..], b, c, r);
      assert (a + b)[1..] == a[1..] + b;
      ConcatAssociative(if a[0] == c then r else [a[0]], ReplaceAll(a[1..], c, r), ReplaceAll(b, c, r));
    }
  }

  lemma ReplaceFiveAppend(a: string, b: string)
    ensures ReplaceFive(a + b) == ReplaceFive(a) + ReplaceFive(b)
  {
    ReplaceAllAppend(a, b, '\\', "\\\\");
    var a1, b1 := ReplaceAll(a, '\\', "\\\\"), ReplaceAll(b, '\\', "\\\\");
    ReplaceAllAppend(a1, b1, '\"', "\\\"");
    var a2, b2 := ReplaceTwo(a), ReplaceTwo(b);
    ReplaceAllAppend(a2, b2, '\n', "\\n");
    var a3, b3 := ReplaceAll(a2, '\n', "\\n"), ReplaceAll(b2, '\n', "\\n");
    ReplaceAllAppend(a3, b3, '\r', "\\r");
    var a4, b4 := ReplaceAll(a3, '\r', "\\r"), ReplaceAll(b3, '\r', "\\r");
    ReplaceAllAppend(a4, b4, '\t', "\\t");
  }

  lemma ReplaceOne(c: char, d: char, r: string)
    ensures ReplaceAll([c], d, r) == if c == d then r else [c]
  {
    assert [c][1..] == "";
  }

  lemma ReplacePair(b: char, c: char, d: char, r: string)
    requires b != d && c != d
    ensures ReplaceAll([b, c], d, r) == [b, c]
  {
    ReplaceOne(c, d, r);
    assert [b, c][1..] == [c];
  }

  lemma ReplaceFiveChar(c: char)
    ensures ReplaceFive([c]) == EscapeChar(c)
  {
    ReplaceOne(c, '\\', "\\\\");
    ReplaceOne(c, '\"', "\\\"");
    ReplaceOne(c, '\n', "\\n");
    ReplaceOne(c, '\r', "\\r");
    ReplaceOne(c, '\t', "\\t");
    ReplacePair('\\', '\\', '\"', "\\\"");
    var e := if c == '\\' then '\\' else '\"';
    ReplacePair('\\', e, '\n', "\\n");
    ReplacePair('\\', e, '\r', "\\r");
    ReplacePair('\\', e, '\t', "\\t");
    ReplacePair('\\', 'n', '\r', "\\r");
    ReplacePair('\\', 'n', '\t', "\\t");
    ReplacePair('\\', 'r', '\t', "\\t");
  }

  /** The order of the five replacements is right: together they escape each character once. */
  lemma {:induction false} FiveReplacementsEscape(s: string)
    ensures ReplaceFive(s) == Escape(s)
  {
    if s != "" {
      assert s == [s[0]] + s[1..];
      ReplaceFiveAppend([s[0]], s[1..]);
      ReplaceFiveChar(s[0]);
      FiveReplacementsEscape(s[1..]);
    }
  }

  method TomlString(s: string) returns (quoted: string)
    ensures quoted == Quote(s)
  {
    var t := ReplaceAll(s, '\\', "\\\\");
    t := ReplaceAll(t, '\"', "\\\"");
    t := ReplaceAll(t, '\n', "\\n");
    t := ReplaceAll(t, '\r', "\\r");
    t := ReplaceAll(t, '\t', "\\t");
    FiveReplacementsEscape(s);
    return "\"" + t + "\"";
  }

  // ---- reading basic strings ----

  predicate IsControl(c: char) {
    c < ' ' || c == '\U{007F}'
  }

  predicate PlainChar(c: char) {
    !IsControl(c) || c == '\n' || c == '\r' || c == '\t'
  }

  /** Everything tomlString can carry: no control characters but newline, return and tab. */
  predicate Plain(s: string) {
    forall i :: 0 <= i < |s| ==> PlainChar(s[i])
  }

  function Unescape(c: char): Option<char> {
    match c
    case '\\' => Some('\\')
    case '\"' => Some('\"')
    case 'b' => Some('\U{0008}')
    case 't' => Some('\t')
    case 'n' => Some('\n')
    case 'f' => Some('\U{000C}')
    case 'r' => Some('\r')
    case _ => None
  }

  /** The rest of a basic string up to its closing quote, which must be the last character. */
  function ReadChars(s: string): Option<string> {
    if s == "" then None
    else if s[0] == '\"' then if |s| == 1 then Some("") else None
    else if s[0] == '\\' then
      if |s| == 1 then None
      else
        var c, rest := Unescape(s[1]), ReadChars(s[2..]);
        if c.Some? && rest.Some? then Some([c.value] + rest.value) else None
    else if IsControl(s[0]) && s[0] != '\t' then None
    else
      var rest := ReadChars(s[1..]);
      if rest.Some? then Some([s[0]] + rest.value) else None
  }

  function ReadString(s: string): Option<string> {
    if s != "" && s[0] == '\"' then ReadChars(s[1..]) else None
  }

  /** One escaped character read back, whatever follows it. */
  lemma ReadEscapedChar(c: char, rest: string)
    requires rest != ""
    ensures var r := ReadChars(EscapeChar(c) + rest);
            if PlainChar(c) && ReadChars(rest).Some? then r.Some? && r.value == [c] + ReadChars(rest).value else r.None?
  {
    var whole := EscapeChar(c) + rest;
    if EscapeChar(c) == [c] {
      assert whole[0] == c && whole[1..] == rest;
    } else {
      assert whole[0] == '\\' && whole[1] == EscapeChar(c)[1] && whole[2..] == rest;
    }
  }

  lemma PlainStep(s: string)
    requires s != ""
    ensures Plain(s) <==> PlainChar(s[0]) && Plain(s[1..])
  {
    assert s == [s[0]] + s[1..];
  }

  lemma {:induction false} ReadCharsOfEscape(s: string)
    ensures var r := ReadChars(Escape(s) + "\""); if Plain(s) then r.Some? && r.value == s else r.None?
  {
    if s != "" {
      ReadCharsOfEscape(s[1..]);
      PlainStep(s);
      ConcatAssociative(EscapeChar(s[0]), Escape(s[1..]), "\"");
      ReadEscapedChar(s[0], Escape(s[1..]) + "\"");
      assert s == [s[0]] + s[1..];
    }
  }

  /** The quoted form reads back as the string exactly when the string is plain; otherwise it is no TOML. */
  lemma QuoteRoundTrip(s: string)
    ensures ReadString(Quote(s)) == if Plain(s) then Some(s) else None
  {
    ReadCharsOfEscape(s);
    assert Quote(s)[1..] == Escape(s) + "\"";
  }

  lemma {:induction false} EscapeHasNoBreak(s: string)
    ensures '\n' !in Escape(s) && '\r' !in Escape(s)
  {
    if s != "" {
      EscapeHasNoBreak(s[1..]);
    }
  }

  lemma QuoteStaysOnOneLine(s: string)
    ensures '\n' !in Quote(s) && '\r' !in Quote(s)
  {
    EscapeHasNoBreak(s);
  }

  /** An escaped character is itself, or a backslash and the letter that stands for it. */
  lemma EscapeCharShape(c: char)
    ensures var e := EscapeChar(c);
            || (e == [c] && c != '\\')
            || (|e| == 2 && e[0] == '\\' && Unescape(e[1]) == Some(c))
  {
  }

  lemma SamePrefix(e: string, f: string, x: string, y: string)
    requires e + x == f + y && |e| == |f|
    ensures e == f && x == y
  {
    assert (e + x)[..|e|] == e && (f + y)[..|f|] == f;
    assert (e + x)[|e|..] == x && (f + y)[|f|..] == y;
  }

  lemma EscapeCharIsPrefixCode(c: char, d: char, x: string, y: string)
    requires EscapeChar(c) + x == EscapeChar(d) + y
    ensures c == d && x == y
  {
    EscapeCharShape(c);
    EscapeCharShape(d);
    assert (EscapeChar(c) + x)[0] == EscapeChar(c)[0] && (EscapeChar(d) + y)[0] == EscapeChar(d)[0];
    SamePrefix(EscapeChar(c), EscapeChar(d), x, y);
  }

  lemma {:induction false} EscapeInjective(a: string, b: string)
    requires Escape(a) == Escape(b)
    ensures a == b
  {
    if a != "" && b != "" {
      EscapeCharIsPrefixCode(a[0], b[0], Escape(a[1..]), Escape(b[1..]));
      EscapeInjective(a[1..], b[1..]);
      assert a == [a[0]] + a[1..] && b == [b[0]] + b[1..];
    }
  }

  /** Whatever they contain, different strings are printed differently. */
  lemma QuoteInjective(a: string, b: string)
    requires Quote(a) == Quote(b)
    ensures a == b
  {
    assert Quote(a)[1..|Quote(a)| - 1] == Escape(a);
    assert Quote(b)[1..|Quote(b)| - 1] == Escape(b);
    EscapeInjective(a, b);
  }

  // ---- integers ----

  /** An optional minus sign and digits without a leading zero. */
  function ReadInt(s: string): Option<int> {
    var negative := s != "" && s[0] == '-';
    var digits := if negative then s[1..] else s;
    if digits == "" || !AllDigits(digits) || (digits[0] == '0' && |digits| > 1) then None
    else
      var magnitude: int := DigitsValue(digits);
      Some(if negative then -magnitude else magnitude)
  }

  lemma ReadIntOfItoa(n: int)
    ensures ReadInt(Itoa(n)) == Some(n)
    ensures Itoa(n)[0] != '\"' && '\n' !in Itoa(n)
  {
    DigitsValueOfFormat(if n < 0 then -n else n);
  }

  // ---- lines and documents ----

  datatype Value = Str(text: string) | Int(number: int)

  type Table = map<string, Value>

  function PrintValue(v: Value): string {
    match v
    case Str(text) => Quote(text)
    case Int(number) => Itoa(number)
  }

  datatype Field = Field(key: string, value: Value)

  function FieldLine(f: Field): string {
    f.key + " = " + PrintValue(f.value)
  }

  /** One line for each of the first n fields. */
  function FieldLines(fs: seq<Field>, n: nat): seq<string>
    requires n <= |fs|
  {
    if n == 0 then [] else FieldLines(fs, n - 1) + [FieldLine(fs[n - 1])]
  }

  /** The root table and the elements of the array of tables `proxies`. */
  datatype Document = Document(root: Table, proxies: seq<Table>)

  predicate IsKeyChar(c: char) {
    'a' <= c <= 'z' || 'A' <= c <= 'Z' || IsDigit(c) || c == '_' || c == '-' || c == '.'
  }

  /** The bare (possibly dotted) key a line starts with. */
  function KeyOf(line: string): (key: string)
    ensures key <= line
  {
    if line != "" && IsKeyChar(line[0]) then [line[0]] + KeyOf(line[1..]) else ""
  }

  function ReadValue(s: string): Option<Value> {
    if s != "" && s[0] == '\"' then
      match ReadString(s) { case Some(text) => Some(Str(text)) case None => None }
    else
      match ReadInt(s) { case Some(n) => Some(Int(n)) case None => None }
  }

  predicate IsComment(line: string) {
    line != "" && line[0] == '#' && forall i :: 0 <= i < |line| ==> !IsControl(line[i]) || line[i] == '\t'
  }

  /** A key may be defined only once in its table. */
  function Define(doc: Document, key: string, value: Value): Option<Document> {
    if doc.proxies == [] then
      if key in doc.root then None else Some(doc.(root := doc.root[key := value]))
    else
      var n := |doc.proxies| - 1;
      if key in doc.proxies[n] then None
      else Some(doc.(proxies := doc.proxies[n := doc.proxies[n][key := value]]))
  }

  function ReadLine(doc: Document, line: string): Option<Document> {
    if line == "" || IsComment(line) then Some(doc)
    else if line == "[[proxies]]" then Some(doc.(proxies := doc.proxies + [map[]]))
    else
      var key := KeyOf(line);
      var rest := line[|key|..];
      if key == "" || !(" = " <= rest) then None
      else
        match ReadValue(rest[3..])
        case None => None
        case Some(v) => Define(doc, key, v)
  }

  function ReadLines(doc: Document, lines: seq<string>): Option<Document>
    decreases |lines|
  {
    if lines == [] then Some(doc)
    else
      match ReadLine(doc, lines[0])
      case None => None
      case Some(next) => ReadLines(next, lines[1..])
  }

  function ReadDocument(text: string): Option<Document> {
    ReadLines(Document(map[], []), Split(text, '\n'))
  }

  predicate BareKey(key: string) {
    key != "" && forall i :: 0 <= i < |key| ==> IsKeyChar(key[i])
  }

  lemma {:induction false} KeyOfLine(key: string, rest: string)
    requires forall i :: 0 <= i < |key| ==> IsKeyChar(key[i])
    requires rest != "" && !IsKeyChar(rest[0])
    ensures KeyOf(key + rest) == key
  {
    if key == "" {
      assert key + rest == rest;
    } else {
      KeyOfLine(key[1..], rest);
      assert (key + rest)[1..] == key[1..] + rest;
    }
  }

  lemma ReadAssignment(doc: Document, key: string, value: string)
    requires BareKey(key)
    ensures ReadLine(doc, key + " = " + value) ==
            match ReadValue(value) { case Some(v) => Define(doc, key, v) case None => None }
  {
    var line := key + " = " + value;
    assert line == key + (" = " + value);
    KeyOfLine(key, " = " + value);
    assert IsKeyChar(line[0]);
    assert line[|key|..][3..] == value;
  }

  predicate PlainValue(v: Value) {
    v.Str? ==> Plain(v.text)
  }

  function DefineField(doc: Document, f: Field): Option<Document> {
    if PlainValue(f.value) then Define(doc, f.key, f.value) else None
  }

  lemma ReadPrintedValue(v: Value)
    ensures ReadValue(PrintValue(v)) == if PlainValue(v) then Some(v) else None
  {
    match v
    case Str(s) => QuoteRoundTrip(s);
    case Int(n) => ReadIntOfItoa(n);
  }

  lemma ReadFieldLine(doc: Document, f: Field)
    requires BareKey(f.key)
    ensures ReadLine(doc, FieldLine(f)) == DefineField(doc, f)
  {
    ReadPrintedValue(f.value);
    ReadAssignment(doc, f.key, PrintValue(f.value));
  }

  lemma FieldStaysOnOneLine(f: Field)
    requires BareKey(f.key)
    ensures '\n' !in FieldLine(f)
  {
    match f.value
    case Str(s) => QuoteStaysOnOneLine(s);
    case Int(n) => ReadIntOfItoa(n);
  }

  lemma CommentStaysOnOneLine(line: string)
    requires IsComment(line)
    ensures '\n' !in line
  {
  }

  lemma {:induction false} ReadLinesAppend(doc: Document, a: seq<string>, b: seq<string>)
    ensures ReadLines(doc, a + b) ==
            match ReadLines(doc, a) { case None => None case Some(mid) => ReadLines(mid, b) }
    decreases |a|
  {
    if a == [] {
      assert a + b == b;
    } else {
      assert (a + b)[1..] == a[1..] + b;
      match ReadLine(doc, a[0])
      case None =>
      case Some(next) => ReadLinesAppend(next, a[1..], b);
    }
  }

  lemma ReadOneLine(doc: Document, line: string)
    ensures ReadLines(doc, [line]) == ReadLine(doc, line)
  {
    assert [line][1..] == [];
  }

  lemma ReadSnoc(doc: Document, lines: seq<string>, line: string)
    ensures ReadLines(doc, lines + [line]) ==
            match ReadLines(doc, lines) { case None => None case Some(mid) => ReadLine(mid, line) }
  {
    ReadLinesAppend(doc, lines, [line]);
    if ReadLines(doc, lines).Some? {
      ReadOneLine(ReadLines(doc, lines).value, line);
    }
  }

  function DefineFields(doc: Document, fs: seq<Field>, n: nat): Option<Document>
    requires n <= |fs|
  {
    if n == 0 then Some(doc)
    else match DefineFields(doc, fs, n - 1) { case None => None case Some(d) => DefineField(d, fs[n - 1]) }
  }

  lemma ReadNextField(doc: Document, lines: seq<string>, f: Field)
    requires BareKey(f.key)
    ensures ReadLines(doc, lines + [FieldLine(f)]) ==
            match ReadLines(doc, lines) { case None => None case Some(mid) => DefineField(mid, f) }
  {
    ReadSnoc(doc, lines, FieldLine(f));
    if ReadLines(doc, lines).Some? {
      ReadFieldLine(ReadLines(doc, lines).value, f);
    }
  }

  lemma {:induction false} ReadFieldLines(doc: Document, fs: seq<Field>, n: nat)
    requires n <= |fs| && forall i :: 0 <= i < n ==> BareKey(fs[i].key)
    ensures ReadLines(doc, FieldLines(fs, n)) == DefineFields(doc, fs, n)
  {
    if n > 0 {
      var lines, f := FieldLines(fs, n - 1), fs[n - 1];
      ReadFieldLines(doc, fs, n - 1);
      ReadNextField(doc, lines, f);
      assert FieldLines(fs, n) == lines + [FieldLine(f)];
    }
  }

  ghost predicate OneLineEach(lines: seq<string>) {
    forall i :: 0 <= i < |lines| ==> '\n' !in lines[i]
  }

  lemma OneLineEachConcat(a: seq<string>, b: seq<string>)
    requires OneLineEach(a) && OneLineEach(b)
    ensures OneLineEach(a + b)
  {
  }

  lemma {:induction false} FieldLinesStayOnOneLine(fs: seq<Field>, n: nat)
    requires n <= |fs| && forall i :: 0 <= i < n ==> BareKey(fs[i].key)
    ensures OneLineEach(FieldLines(fs, n))
  {
    if n > 0 {
      FieldLinesStayOnOneLine(fs, n - 1);
      FieldStaysOnOneLine(fs[n - 1]);
    }
  }
}
