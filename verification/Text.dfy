/** Text as the Go code sees it: white space, decimal numbers, ordering and splitting.
    A Go string holding valid UTF-8 is the sequence of its code points; SQLite's BINARY
    collation then orders strings exactly as `Less` does. */
module Text {
  datatype Option<+T> = None | Some(value: T)

  datatype Result<+T, +E> = Ok(value: T) | Err(error: E)

  lemma ConcatAssociative<T>(a: seq<T>, b: seq<T>, c: seq<T>)
    ensures (a + b) + c == a + (b + c)
  {
  }

  lemma ConcatEmpty<T>(a: seq<T>)
    ensures a + [] == a && [] + a == a
  {
  }

  // ---- white space (strings.TrimSpace) ----

  predicate IsSpace(c: char) {
    || '\U{0009}' <= c <= '\U{000D}' || c == ' ' || c == '\U{0085}' || c == '\U{00A0}'
    || c == '\U{1680}' || '\U{2000}' <= c <= '\U{200A}' || c == '\U{2028}' || c == '\U{2029}'
    || c == '\U{202F}' || c == '\U{205F}' || c == '\U{3000}'
  }

  function TrimLeft(s: string): string {
    if s != "" && IsSpace(s[0]) then TrimLeft(s[1..]) else s
  }

  function TrimRight(s: string): string {
    if s != "" && IsSpace(s[|s| - 1]) then TrimRight(s[..|s| - 1]) else s
  }

  function TrimSpace(s: string): string {
    TrimRight(TrimLeft(s))
  }

  predicate Blank(s: string) {
    TrimSpace(s) == ""
  }

  lemma TrimSpaceIdentity(s: string)
    requires s != "" ==> !IsSpace(s[0]) && !IsSpace(s[|s| - 1])
    ensures TrimSpace(s) == s
  {
  }

  predicate AllSpace(s: string) {
    forall i :: 0 <= i < |s| ==> IsSpace(s[i])
  }

  lemma {:induction false} TrimLeftPadding(a: string, s: string)
    requires AllSpace(a)
    ensures TrimLeft(a + s) == TrimLeft(s)
  {
    if a == "" {
      ConcatEmpty(s);
    } else {
      TrimLeftPadding(a[1..], s);
      assert (a + s)[1..] == a[1..] + s;
    }
  }

  lemma {:induction false} TrimRightPadding(s: string, b: string)
    requires AllSpace(b)
    ensures TrimRight(s + b) == TrimRight(s)
  {
    if b == "" {
      ConcatEmpty(s);
    } else {
      TrimRightPadding(s, b[..|b| - 1]);
      assert (s + b)[..|s + b| - 1] == s + b[..|b| - 1];
    }
  }

  /** Surrounding white space is all that is removed. */
  lemma TrimSpacePadding(a: string, s: string, b: string)
    requires AllSpace(a) && AllSpace(b) && s != "" && !IsSpace(s[0]) && !IsSpace(s[|s| - 1])
    ensures TrimSpace(a + s + b) == s
  {
    ConcatAssociative(a, s, b);
    TrimLeftPadding(a, s + b);
    TrimRightPadding(s, b);
  }

  /** The code points Unicode gives the property White_Space. */
  const WHITE_SPACE := {
    '\t', '\n', '\U{000B}', '\U{000C}', '\r', ' ', '\U{0085}', '\U{00A0}', '\U{1680}',
    '\U{2000}', '\U{2001}', '\U{2002}', '\U{2003}', '\U{2004}', '\U{2005}', '\U{2006}', '\U{2007}', '\U{2008}',
    '\U{2009}', '\U{200A}', '\U{2028}', '\U{2029}', '\U{202F}', '\U{205F}', '\U{3000}'}

  predicate OnlyWhite(s: string) {
    forall i :: 0 <= i < |s| ==> s[i] in WHITE_SPACE
  }

  lemma SpaceIsWhite(c: char)
    ensures IsSpace(c) <==> c in WHITE_SPACE
  {
  }

  lemma AllSpaceIsOnlyWhite(s: string)
    ensures AllSpace(s) <==> OnlyWhite(s)
  {
    forall c: char ensures IsSpace(c) <==> c in WHITE_SPACE {
      SpaceIsWhite(c);
    }
  }

  lemma {:induction false} TrimLeftSplits(s: string) returns (a: string)
    ensures AllSpace(a) && s == a + TrimLeft(s)
    ensures TrimLeft(s) != "" ==> !IsSpace(TrimLeft(s)[0])
  {
    a := "";
    if s != "" && IsSpace(s[0]) {
      a := TrimLeftSplits(s[1..]);
      assert s == [s[0]] + s[1..];
      a := [s[0]] + a;
    }
  }

  lemma {:induction false} TrimRightSplits(s: string) returns (b: string)
    ensures AllSpace(b) && s == TrimRight(s) + b
    ensures TrimRight(s) != "" ==> !IsSpace(TrimRight(s)[|TrimRight(s)| - 1])
  {
    b := "";
    if s != "" && IsSpace(s[|s| - 1]) {
      b := TrimRightSplits(s[..|s| - 1]);
      assert s == s[..|s| - 1] + [s[|s| - 1]];
      b := b + [s[|s| - 1]];
    }
  }

  /** Trimming takes white space away at both ends, and all of it. */
  lemma TrimSpaceSplits(s: string) returns (a: string, b: string)
    ensures OnlyWhite(a) && OnlyWhite(b) && s == a + TrimSpace(s) + b
    ensures var t := TrimSpace(s); t != "" ==> t[0] !in WHITE_SPACE && t[|t| - 1] !in WHITE_SPACE
  {
    a := TrimLeftSplits(s);
    b := TrimRightSplits(TrimLeft(s));
    AllSpaceIsOnlyWhite(a);
    AllSpaceIsOnlyWhite(b);
    var t := TrimSpace(s);
    ConcatAssociative(a, t, b);
    if t != "" {
      assert TrimLeft(s)[0] == t[0];
      SpaceIsWhite(t[0]);
      SpaceIsWhite(t[|t| - 1]);
    }
  }

  /** A text is blank exactly when it is white space throughout. */
  lemma BlankIsOnlyWhite(s: string)
    ensures Blank(s) <==> OnlyWhite(s)
  {
    var a, b := TrimSpaceSplits(s);
    if Blank(s) {
      ConcatEmpty(a);
    } else {
      var t := TrimSpace(s);
      assert s[|a|] == t[0];
    }
  }

  // ---- decimal numbers (strconv.Itoa, strconv.Atoi) ----

  const MIN_INT64 := -0x8000_0000_0000_0000
  const MAX_INT64 := 0x7FFF_FFFF_FFFF_FFFF

  predicate IsDigit(c: char) {
    '0' <= c <= '9'
  }

  predicate AllDigits(s: string) {
    forall i :: 0 <= i < |s| ==> IsDigit(s[i])
  }

  function Digit(d: int): (c: char)
    requires 0 <= d < 10
    ensures IsDigit(c) && c as int == '0' as int + d
  {
    ('0' as int + d) as char
  }

  function FormatNat(n: nat): (s: string)
    ensures s != "" && AllDigits(s)
    ensures s[0] == '0' ==> n == 0 && s == "0"
  {
    if n < 10 then [Digit(n)] else FormatNat(n / 10) + [Digit(n % 10)]
  }

  function Itoa(n: int): string {
    if n < 0 then "-" + FormatNat(-n) else FormatNat(n)
  }

  function DigitsValue(s: string): nat
    requires AllDigits(s)
  {
    if s == "" then 0
    else DigitsValue(s[..|s| - 1]) * 10 + (s[|s| - 1] as int - '0' as int)
  }

  /** An optional sign, at least one digit, and a value a 64-bit int can hold. */
  function Atoi(s: string): Option<int> {
    var signed := s != "" && (s[0] == '-' || s[0] == '+');
    var digits := if signed then s[1..] else s;
    if digits == "" || !AllDigits(digits) then None
    else
      var magnitude: int := DigitsValue(digits);
      var n := if signed && s[0] == '-' then -magnitude else magnitude;
      if MIN_INT64 <= n <= MAX_INT64 then Some(n) else None
  }

  lemma {:induction false} DigitsValueOfFormat(n: nat)
    ensures DigitsValue(FormatNat(n)) == n
  {
    if n >= 10 {
      DigitsValueOfFormat(n / 10);
      var s := FormatNat(n);
      assert s[..|s| - 1] == FormatNat(n / 10);
    } else {
      assert FormatNat(n)[..0] == "";
    }
  }

  function Zeros(z: nat): (s: string)
    ensures AllDigits(s) && |s| == z && forall i :: 0 <= i < z ==> s[i] == '0'
  {
    seq(z, _ => '0')
  }

  lemma {:induction false} ZerosValue(z: nat)
    ensures DigitsValue(Zeros(z)) == 0
  {
    if z > 0 {
      ZerosValue(z - 1);
      assert Zeros(z)[..z - 1] == Zeros(z - 1);
    }
  }

  lemma {:induction false} LeadingZerosValue(z: nat, s: string)
    requires AllDigits(s)
    ensures DigitsValue(Zeros(z) + s) == DigitsValue(s)
  {
    var t := Zeros(z) + s;
    if s == "" {
      ZerosValue(z);
      ConcatEmpty(Zeros(z));
    } else {
      LeadingZerosValue(z, s[..|s| - 1]);
      assert t[..|t| - 1] == Zeros(z) + s[..|s| - 1];
    }
  }

  function Power(k: nat): nat {
    if k == 0 then 1 else 10 * Power(k - 1)
  }

  /** The positional value: each digit times the power of ten of its place. */
  function Positional(s: string): int {
    if s == "" then 0 else (s[0] as int - '0' as int) * Power(|s| - 1) + Positional(s[1..])
  }

  lemma {:induction false} PositionalSnoc(s: string, c: char)
    ensures Positional(s + [c]) == 10 * Positional(s) + (c as int - '0' as int)
  {
    var t := s + [c];
    if s == "" {
      assert t == [c] && t[1..] == "";
    } else {
      PositionalSnoc(s[1..], c);
      assert t[1..] == s[1..] + [c];
      var d := s[0] as int - '0' as int;
      assert d * Power(|t| - 1) == 10 * (d * Power(|s| - 1));
    }
  }

  lemma {:induction false} DigitsValueIsPositional(s: string)
    requires AllDigits(s)
    ensures DigitsValue(s) == Positional(s)
  {
    if s != "" {
      var front, c := s[..|s| - 1], s[|s| - 1];
      DigitsValueIsPositional(front);
      PositionalSnoc(front, c);
      assert s == front + [c];
    }
  }

  predicate Spells(s: string, n: int, sign: string, digits: string) {
    && s == sign + digits && (sign == "" || sign == "+" || sign == "-")
    && digits != "" && (forall i :: 0 <= i < |digits| ==> '0' <= digits[i] <= '9')
    && n == if sign == "-" then -Positional(digits) else Positional(digits)
  }

  /** The text is an optional sign and at least one decimal digit, and its value is n. */
  ghost predicate Denotes(s: string, n: int) {
    exists sign: string, digits: string :: Spells(s, n, sign, digits)
  }

  lemma AtoiDenotes(s: string, n: int)
    requires Atoi(s) == Some(n)
    ensures Denotes(s, n) && MIN_INT64 <= n <= MAX_INT64
  {
    var signed := s[0] == '-' || s[0] == '+';
    var sign, digits := if signed then [s[0]] else "", if signed then s[1..] else s;
    DigitsValueIsPositional(digits);
    assert s == sign + digits;
    assert Spells(s, n, sign, digits);
  }

  lemma SignAndDigits(s: string, sign: string, digits: string)
    requires s == sign + digits && (sign == "" || sign == "+" || sign == "-")
    requires digits != "" && AllDigits(digits)
    ensures s != "" && (sign == "" ==> s == digits && s[0] != '-' && s[0] != '+')
    ensures sign != "" ==> s[0] == sign[0] && s[1..] == digits
  {
    assert IsDigit(digits[0]);
  }

  lemma SpelledAtoi(s: string, n: int, sign: string, digits: string)
    requires Spells(s, n, sign, digits) && MIN_INT64 <= n <= MAX_INT64
    ensures Atoi(s) == Some(n)
  {
    assert AllDigits(digits);
    DigitsValueIsPositional(digits);
    SignAndDigits(s, sign, digits);
  }

  /** Exactly the numbers a 64-bit integer can hold are accepted, and with their value. */
  lemma AtoiIff(s: string, n: int)
    ensures Atoi(s) == Some(n) <==> Denotes(s, n) && -0x8000_0000_0000_0000 <= n <= 0x7FFF_FFFF_FFFF_FFFF
  {
    if Atoi(s) == Some(n) {
      AtoiDenotes(s, n);
    }
    if Denotes(s, n) && MIN_INT64 <= n <= MAX_INT64 {
      var sign, digits :| Spells(s, n, sign, digits);
      SpelledAtoi(s, n, sign, digits);
    }
  }

  /** Any other text is refused. */
  lemma AtoiRefuses(s: string)
    ensures Atoi(s).None? <==> !exists n :: Denotes(s, n) && -0x8000_0000_0000_0000 <= n <= 0x7FFF_FFFF_FFFF_FFFF
  {
    if Atoi(s).Some? {
      AtoiIff(s, Atoi(s).value);
    }
    if n :| Denotes(s, n) && MIN_INT64 <= n <= MAX_INT64 {
      AtoiIff(s, n);
    }
  }

  /** The text is the decimal of n: digits only, none of them a leading zero. */
  predicate DecimalOf(s: string, n: int) {
    && s != "" && (forall i :: 0 <= i < |s| ==> '0' <= s[i] <= '9')
    && Positional(s) == n && (s[0] == '0' ==> s == "0")
  }

  lemma {:induction false} FormatOfDigits(s: string)
    requires s != "" && AllDigits(s) && (s[0] == '0' ==> s == "0")
    ensures FormatNat(DigitsValue(s)) == s
    ensures s[0] != '0' ==> DigitsValue(s) > 0
  {
    var front, d := s[..|s| - 1], s[|s| - 1] as int - '0' as int;
    if |s| == 1 {
      assert front == "" && s == [Digit(d)];
    } else {
      FormatOfDigits(front);
      assert s == front + [Digit(d)];
      assert DigitsValue(s) / 10 == DigitsValue(front) && DigitsValue(s) % 10 == d;
    }
  }

  /** Itoa writes exactly the decimal. */
  lemma DecimalIsItoa(s: string, n: int)
    requires n >= 0
    ensures DecimalOf(s, n) <==> s == Itoa(n)
  {
    if DecimalOf(s, n) {
      DigitsValueIsPositional(s);
      FormatOfDigits(s);
    }
    if s == Itoa(n) {
      DigitsValueOfFormat(n);
      DigitsValueIsPositional(s);
    }
  }

  /** The text, but for white space around it, denotes n. */
  ghost predicate PaddedDenotes(text: string, n: int) {
    exists a: string, s: string, b: string :: PaddedAs(text, n, a, s, b)
  }

  ghost predicate PaddedAs(text: string, n: int, a: string, s: string, b: string) {
    OnlyWhite(a) && OnlyWhite(b) && text == a + s + b && Denotes(s, n)
  }

  lemma DenotesIsTrimmed(s: string, n: int)
    requires Denotes(s, n)
    ensures s != "" && !IsSpace(s[0]) && !IsSpace(s[|s| - 1])
  {
    var sign, digits :| Spells(s, n, sign, digits);
    assert s[|s| - 1] == digits[|digits| - 1];
    assert s[0] == if sign == "" then digits[0] else sign[0];
  }

  /** What strconv.Atoi(strings.TrimSpace(text)) accepts. */
  lemma TrimmedAtoiIff(text: string, n: int)
    ensures Atoi(TrimSpace(text)) == Some(n) <==>
            PaddedDenotes(text, n) && -0x8000_0000_0000_0000 <= n <= 0x7FFF_FFFF_FFFF_FFFF
  {
    if Atoi(TrimSpace(text)) == Some(n) {
      var a, b := TrimSpaceSplits(text);
      AtoiIff(TrimSpace(text), n);
      assert PaddedAs(text, n, a, TrimSpace(text), b);
    }
    if PaddedDenotes(text, n) && MIN_INT64 <= n <= MAX_INT64 {
      var a: string, s: string, b: string :| PaddedAs(text, n, a, s, b);
      DenotesIsTrimmed(s, n);
      AllSpaceIsOnlyWhite(a);
      AllSpaceIsOnlyWhite(b);
      TrimSpacePadding(a, s, b);
      AtoiIff(s, n);
    }
  }

  lemma UnsignedAtoi(s: string)
    requires s != "" && AllDigits(s) && DigitsValue(s) <= MAX_INT64
    ensures Atoi(s) == Some(DigitsValue(s))
  {
    assert IsDigit(s[0]);
  }

  /** Leading zeros do not matter. */
  lemma AtoiOfPadded(z: nat, n: nat)
    requires n <= MAX_INT64
    ensures Atoi(Zeros(z) + FormatNat(n)) == Some(n)
  {
    DigitsValueOfFormat(n);
    LeadingZerosValue(z, FormatNat(n));
    UnsignedAtoi(Zeros(z) + FormatNat(n));
  }

  lemma AtoiOfItoa(n: int)
    requires MIN_INT64 <= n <= MAX_INT64
    ensures Atoi(Itoa(n)) == Some(n)
  {
    DigitsValueOfFormat(if n < 0 then -n else n);
  }

  lemma ItoaInjective(m: int, n: int)
    requires Itoa(m) == Itoa(n)
    ensures m == n
  {
    DigitsValueOfFormat(if m < 0 then -m else m);
    DigitsValueOfFormat(if n < 0 then -n else n);
    assert (m < 0) == (Itoa(m)[0] == '-');
    assert (n < 0) == (Itoa(n)[0] == '-');
    if m < 0 {
      assert Itoa(m)[1..] == FormatNat(-m);
      assert Itoa(n)[1..] == FormatNat(-n);
    }
  }

  // ---- ordering (ORDER BY on a TEXT column) ----

  predicate Less(a: string, b: string) {
    b != "" && (a == "" || a[0] < b[0] || (a[0] == b[0] && Less(a[1..], b[1..])))
  }

  lemma {:induction false} LessTrichotomy(a: string, b: string)
    ensures a == b ==> !Less(a, b)
    ensures a != b ==> Less(a, b) != Less(b, a)
  {
    if a != "" && b != "" && a[0] == b[0] {
      LessTrichotomy(a[1..], b[1..]);
      assert a == [a[0]] + a[1..] && b == [b[0]] + b[1..];
    }
  }

  lemma {:induction false} LessTransitive(a: string, b: string, c: string)
    requires Less(a, b) && Less(b, c)
    ensures Less(a, c)
  {
    if a != "" && a[0] == b[0] == c[0] {
      LessTransitive(a[1..], b[1..], c[1..]);
    }
  }

  /** The order of texts: a proper prefix first, otherwise the smaller character at the first difference. */
  ghost predicate Precedes(a: string, b: string) {
    || (|a| < |b| && b[..|a|] == a)
    || exists i :: 0 <= i < |a| && i < |b| && a[..i] == b[..i] && a[i] < b[i]
  }

  /** Texts that agree on their first character compare as their rests do. */
  lemma PrefixNext(a: string, b: string, n: nat)
    requires a != "" && b != "" && a[0] == b[0] && n < |a| && n < |b|
    ensures a[..n + 1] == b[..n + 1] <==> a[1..][..n] == b[1..][..n]
  {
    assert a[..n + 1] == [a[0]] + a[1..][..n] && b[..n + 1] == [b[0]] + b[1..][..n];
    assert a[1..][..n] == a[..n + 1][1..] && b[1..][..n] == b[..n + 1][1..];
  }

  lemma PrecedesNext(a: string, b: string)
    requires a != "" && b != "" && a[0] == b[0]
    ensures Precedes(a, b) <==> Precedes(a[1..], b[1..])
  {
    var c, d := a[1..], b[1..];
    if i :| 0 <= i < |a| && i < |b| && a[..i] == b[..i] && a[i] < b[i] {
      PrefixNext(a, b, i - 1);
      assert c[i - 1] < d[i - 1];
    }
    if i :| 0 <= i < |c| && i < |d| && c[..i] == d[..i] && c[i] < d[i] {
      PrefixNext(a, b, i);
      assert a[i + 1] < b[i + 1];
    }
    assert a[..|a|] == a && c[..|c|] == c;
    if |a| < |b| {
      PrefixNext(a, b, |c|);
    }
  }

  lemma SameHead(a: string, b: string, n: nat)
    requires 0 < n <= |a| && n <= |b| && a[..n] == b[..n]
    ensures a[0] == b[0]
  {
    assert a[0] == a[..n][0] && b[0] == b[..n][0];
  }

  lemma FirstDiffers(a: string, b: string)
    requires a != "" && b != "" && a[0] != b[0]
    ensures Precedes(a, b) <==> a[0] < b[0]
  {
    assert a[..0] == b[..0];
    assert a[..|a|] == a;
    if |a| < |b| && b[..|a|] == a {
      SameHead(a, b, |a|);
    }
    if i :| 0 <= i < |a| && i < |b| && a[..i] == b[..i] && a[i] < b[i] {
      if i > 0 {
        SameHead(a, b, i);
      }
    }
  }

  lemma {:induction false} LessIff(a: string, b: string)
    ensures Less(a, b) <==> Precedes(a, b)
  {
    if a != "" && b != "" {
      if a[0] == b[0] {
        LessIff(a[1..], b[1..]);
        PrecedesNext(a, b);
      } else {
        FirstDiffers(a, b);
      }
    }
  }

  // ---- splitting (strings.Split with a one-character separator) ----

  function Split(s: string, sep: char): (parts: seq<string>)
    ensures |parts| >= 1
  {
    if s == "" then [""]
    else
      var rest := Split(s[1..], sep);
      if s[0] == sep then [""] + rest else [[s[0]] + rest[0]] + rest[1..]
  }

  /** Every part is followed by the separator. */
  function Terminated(parts: seq<string>, sep: char): string {
    if parts == [] then "" else parts[0] + [sep] + Terminated(parts[1..], sep)
  }

  lemma {:induction false} TerminatedSnoc(parts: seq<string>, last: string, sep: char)
    ensures Terminated(parts + [last], sep) == Terminated(parts, sep) + last + [sep]
  {
    if parts == [] {
      assert parts + [last] == [last];
      assert [last][1..] == [];
    } else {
      TerminatedSnoc(parts[1..], last, sep);
      assert (parts + [last])[1..] == parts[1..] + [last];
    }
  }

  lemma {:induction false} SplitOfPrefix(p: string, s: string, sep: char)
    requires sep !in p
    ensures Split(p + [sep] + s, sep) == [p] + Split(s, sep)
  {
    var t := p + [sep] + s;
    if p == "" {
      assert t[1..] == s;
    } else {
      SplitOfPrefix(p[1..], s, sep);
      assert t[1..] == p[1..] + [sep] + s;
      assert p == [p[0]] + p[1..];
    }
  }

  lemma {:induction false} SplitOfTerminated(parts: seq<string>, sep: char)
    requires forall i :: 0 <= i < |parts| ==> sep !in parts[i]
    ensures Split(Terminated(parts, sep), sep) == parts + [""]
  {
    if parts != [] {
      SplitOfTerminated(parts[1..], sep);
      SplitOfPrefix(parts[0], Terminated(parts[1..], sep), sep);
    }
  }
}
