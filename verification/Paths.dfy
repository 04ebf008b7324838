/** Request paths: the dispatcher's splitter, the handlers' id parser, and when both read the same segments. */
module Paths {
  import opened Text

  /** The non-empty parts, in order. */
  function NonEmpty(parts: seq<string>): seq<string> {
    if parts == [] then []
    else
      var front, last := NonEmpty(parts[..|parts| - 1]), parts[|parts| - 1];
      if last == "" then front else front + [last]
  }

  /** What splitPath must return: the non-empty '/'-separated segments. */
  function Segments(path: string): seq<string> {
    NonEmpty(Split(path, '/'))
  }

  lemma NonEmptySnoc(parts: seq<string>, last: string)
    ensures NonEmpty(parts + [last]) == if last == "" then NonEmpty(parts) else NonEmpty(parts) + [last]
  {
    assert (parts + [last])[..|parts|] == parts;
  }

  lemma {:induction false} NonEmptyCons(first: string, parts: seq<string>)
    ensures NonEmpty([first] + parts) == if first == "" then NonEmpty(parts) else [first] + NonEmpty(parts)
  {
    if parts == [] {
      NonEmptySnoc([], first);
      ConcatEmpty([first]);
    } else {
      var front, last := parts[..|parts| - 1], parts[|parts| - 1];
      assert parts == front + [last];
      NonEmptyCons(first, front);
      NonEmptyBetween(first, front, last);
    }
  }

  lemma NonEmptyBetween(first: string, front: seq<string>, last: string)
    requires NonEmpty([first] + front) == if first == "" then NonEmpty(front) else [first] + NonEmpty(front)
    ensures var parts := front + [last];
            NonEmpty([first] + parts) == if first == "" then NonEmpty(parts) else [first] + NonEmpty(parts)
  {
    NonEmptySnoc([first] + front, last);
    NonEmptySnoc(front, last);
    ConcatAssociative([first], front, [last]);
    ConcatAssociative([first], NonEmpty(front), [last]);
  }

  lemma {:induction false} SplitPlain(s: string, sep: char)
    requires sep !in s
    ensures Split(s, sep) == [s]
  {
    if s != "" {
      SplitPlain(s[1..], sep);
      assert [s[0]] + s[1..] == s;
    }
  }

  lemma {:induction false} SplitSnoc(s: string, last: string, sep: char)
    requires sep !in last
    ensures Split(s + [sep] + last, sep) == Split(s, sep) + [last]
  {
    if s == "" {
      SplitOfPrefix("", last, sep);
      SplitPlain(last, sep);
    } else {
      SplitSnoc(s[1..], last, sep);
      assert (s + [sep] + last)[1..] == s[1..] + [sep] + last;
    }
  }

  // ---- the splitting loop ----

  /** The segments that end before position start, which follows a separator or is the beginning. */
  function Collected(path: string, start: nat): seq<string>
    requires start <= |path| + 1
  {
    if start == 0 then [] else Segments(path[..start - 1])
  }

  lemma CollectNext(path: string, start: nat, i: nat)
    requires start <= i <= |path| && '/' !in path[start..i] && (start > 0 ==> path[start - 1] == '/')
    ensures Collected(path, i + 1) ==
            if start == i then Collected(path, start) else Collected(path, start) + [path[start..i]]
  {
    var piece := path[start..i];
    if start == 0 {
      SplitPlain(piece, '/');
      NonEmptySnoc([], piece);
      assert [] + [piece] == [piece];
    } else {
      assert path[..i] == path[..start - 1] + "/" + piece;
      SplitSnoc(path[..start - 1], piece, '/');
      NonEmptySnoc(Split(path[..start - 1], '/'), piece);
    }
  }

  method SplitPath(path: string) returns (parts: seq<string>)
    ensures parts == Segments(path)
  {
    parts := [];
    var start := 0;
    for i := 0 to |path| + 1
      invariant start <= i && (start <= |path| ==> i <= |path| && '/' !in path[start..i])
      invariant 0 < start <= |path| ==> path[start - 1] == '/'
      invariant parts == Collected(path, start)
    {
      if i == |path| || path[i] == '/' {
        CollectNext(path, start, i);
        if i > start {
          parts := parts + [path[start..i]];
        }
        start := i + 1;
      }
    }
    assert path[..|path|] == path;
  }

  // ---- splitting and joining ----

  predicate Proper(segs: seq<string>) {
    forall i :: 0 <= i < |segs| ==> segs[i] != "" && '/' !in segs[i]
  }

  /** "/a/b/c" */
  function Rooted(segs: seq<string>): string {
    if segs == [] then "" else "/" + segs[0] + Rooted(segs[1..])
  }

  lemma SplitStart(p: string, tail: string, rest: seq<string>)
    requires '/' !in p && Split(tail, '/') == [""] + rest && (tail != "" ==> tail[0] == '/')
    ensures Split(p + tail, '/') == [p] + rest
  {
    if tail == "" {
      SplitPlain(p, '/');
      assert p + tail == p;
    } else {
      assert tail == "" + "/" + tail[1..] && p + tail == p + "/" + tail[1..];
      SplitOfPrefix("", tail[1..], '/');
      SplitOfPrefix(p, tail[1..], '/');
      assert ([""] + rest)[1..] == rest && ([""] + Split(tail[1..], '/'))[1..] == Split(tail[1..], '/');
    }
  }

  lemma {:induction false} SplitRooted(segs: seq<string>)
    requires Proper(segs)
    ensures Split(Rooted(segs), '/') == [""] + segs
  {
    if segs != [] {
      var rest := segs[1..];
      SplitRooted(rest);
      SplitStart(segs[0], Rooted(rest), rest);
      SplitOfPrefix("", segs[0] + Rooted(rest), '/');
      assert Rooted(segs) == "" + "/" + (segs[0] + Rooted(rest));
      assert [segs[0]] + rest == segs;
    }
  }

  /** Splitting undoes joining. */
  lemma SegmentsOfRooted(segs: seq<string>)
    requires Proper(segs)
    ensures Segments(Rooted(segs)) == segs
  {
    SplitRooted(segs);
    NonEmptyCons("", segs);
    NonEmptyProper(segs);
  }

  lemma {:induction false} NonEmptyProper(segs: seq<string>)
    requires Proper(segs)
    ensures NonEmpty(segs) == segs
  {
    if segs != [] {
      NonEmptyProper(segs[..|segs| - 1]);
    }
  }

  lemma {:induction false} NoSeparatorInParts(s: string, sep: char)
    ensures forall i :: 0 <= i < |Split(s, sep)| ==> sep !in Split(s, sep)[i]
  {
    if s != "" {
      NoSeparatorInParts(s[1..], sep);
    }
  }

  lemma {:induction false} NonEmptyMembers(parts: seq<string>)
    ensures forall x :: x in NonEmpty(parts) <==> x in parts && x != ""
  {
    if parts != [] {
      NonEmptyMembers(parts[..|parts| - 1]);
      assert parts == parts[..|parts| - 1] + [parts[|parts| - 1]];
    }
  }

  /** Every segment is non-empty and has no separator, so joining the segments again and splitting loses nothing. */
  lemma SegmentsProper(path: string)
    ensures Proper(Segments(path)) && Segments(Rooted(Segments(path))) == Segments(path)
  {
    NoSeparatorInParts(path, '/');
    NonEmptyMembers(Split(path, '/'));
    forall i | 0 <= i < |Segments(path)| ensures Segments(path)[i] != "" && '/' !in Segments(path)[i] {
      assert Segments(path)[i] in Segments(path);
    }
    SegmentsOfRooted(Segments(path));
  }

  // ---- the id parser ----

  function TrimPrefix(path: string): string {
    if path != "" && path[0] == '/' then path[1..] else path
  }

  /** parseIDFromPath: None is its error. strconv.ParseInt(s, 10, 64) accepts what Atoi accepts. */
  function ParseId(path: string, segment: nat): Option<int> {
    var parts := Split(TrimPrefix(path), '/');
    if segment >= |parts| then None else Atoi(parts[segment])
  }

  /** An id is accepted exactly when that part of the path is a number of 64 bits, and then it is that number. */
  lemma ParseIdIff(path: string, segment: nat, n: int)
    ensures ParseId(path, segment) == Some(n) <==>
            var parts := Split(if path != "" && path[0] == '/' then path[1..] else path, '/');
            && segment < |parts| && Denotes(parts[segment], n)
            && -0x8000_0000_0000_0000 <= n <= 0x7FFF_FFFF_FFFF_FFFF
  {
    var parts := Split(TrimPrefix(path), '/');
    if segment < |parts| {
      AtoiIff(parts[segment], n);
    }
  }

  predicate GapAt(path: string, i: int, j: int) {
    0 <= i && i + 1 < j < |path| && path[i] == '/' && path[i + 1] == '/' && path[j] != '/'
  }

  /** Two adjacent separators with a segment after them. */
  ghost predicate Gap(path: string) {
    exists i, j :: GapAt(path, i, j)
  }

  predicate HoleAt(t: string, i: int, j: int) {
    0 <= i < j < |t| && t[i] == '/' && (i == 0 || t[i - 1] == '/') && t[j] != '/'
  }

  /** The same for a path without its leading separator: an empty segment with a segment after it. */
  ghost predicate Hole(t: string) {
    exists i, j :: HoleAt(t, i, j)
  }

  lemma HoleIsGap(path: string)
    ensures Hole(TrimPrefix(path)) <==> Gap(path)
  {
    var t := TrimPrefix(path);
    var d := |path| - |t|;
    if i, j :| HoleAt(t, i, j) {
      assert GapAt(path, i + d - 1, j + d);
    }
    if i, j :| GapAt(path, i, j) {
      assert HoleAt(t, i + 1 - d, j - d);
    }
  }

  lemma {:induction false} OnlySeparators(s: string)
    ensures Segments(s) == [] <==> forall j :: 0 <= j < |s| ==> s[j] == '/'
  {
    if s != "" {
      OnlySeparators(s[1..]);
      NonEmptyMembers(Split(s, '/'));
      NonEmptyMembers(Split(s[1..], '/'));
      assert s == [s[0]] + s[1..];
      if s[0] == '/' {
        NonEmptyCons("", Split(s[1..], '/'));
      } else {
        assert Split(s, '/')[0] in NonEmpty(Split(s, '/'));
      }
    }
  }

  lemma HoleAfter(p: string, s: string)
    requires '/' !in p
    ensures Hole(p + "/" + s) <==> if p == "" then Segments(s) != [] else Hole(s)
  {
    var t, d := p + "/" + s, |p| + 1;
    OnlySeparators(s);
    if p == "" {
      if j :| 0 <= j < |s| && s[j] != '/' {
        assert HoleAt(t, 0, j + 1);
      }
      if i, j :| HoleAt(t, i, j) {
        assert s[j - 1] != '/';
      }
    } else {
      if i, j :| HoleAt(t, i, j) {
        assert forall k :: 0 <= k < |p| ==> t[k] == p[k];
        assert HoleAt(s, i - d, j - d);
      }
      if i, j :| HoleAt(s, i, j) {
        assert HoleAt(t, i + d, j + d);
      }
    }
  }

  /** The parts before any empty one are the segments, unless an empty part precedes a segment. */
  lemma {:induction false} PartsMatch(t: string)
    ensures Segments(t) <= Split(t, '/') <==> !Hole(t)
    decreases |t|
  {
    if k :| 0 <= k < |t| && t[k] == '/' && '/' !in t[..k] {
      var p, s := t[..k], t[k + 1..];
      assert t == p + "/" + s;
      SplitOfPrefix(p, s, '/');
      NonEmptyCons(p, Split(s, '/'));
      HoleAfter(p, s);
      PartsMatch(s);
      NonEmptyMembers(Split(s, '/'));
      if p == "" {
        assert Segments(s) != [] ==> Segments(s)[0] in Segments(s);
      } else {
        PrefixCons(p, Segments(s), Split(s, '/'));
      }
    } else {
      FirstSeparator(t);
      SplitPlain(t, '/');
      NonEmptySnoc([], t);
      assert [] + [t] == [t];
    }
  }

  lemma PrefixCons<T>(x: T, a: seq<T>, b: seq<T>)
    ensures [x] + a <= [x] + b <==> a <= b
  {
    assert ([x] + a)[1..] == a && ([x] + b)[1..] == b;
    if [x] + a <= [x] + b {
      assert ([x] + b)[..|a| + 1] == [x] + a;
      assert b[..|a|] == ([x] + b)[1..|a| + 1];
    }
  }

  lemma {:induction false} FirstSeparator(t: string)
    requires forall k :: 0 <= k < |t| && t[k] == '/' ==> '/' in t[..k]
    ensures '/' !in t
  {
    if t != "" {
      var front := t[..|t| - 1];
      forall k | 0 <= k < |front| && front[k] == '/' ensures '/' in front[..k] {
        assert front[..k] == t[..k];
      }
      FirstSeparator(front);
      assert t[..|t| - 1] == front;
    }
  }

  /** The id parser reads, at every index the splitter returns, exactly the splitter's segment, if and only
      if the path has no adjacent separators before its last segment. */
  lemma SameSegments(path: string)
    ensures Segments(path) <= Split(TrimPrefix(path), '/') <==> !Gap(path)
  {
    HoleIsGap(path);
    var t := TrimPrefix(path);
    PartsMatch(t);
    if t != path {
      SplitOfPrefix("", t, '/');
      assert path == "" + "/" + t;
      NonEmptyCons("", Split(t, '/'));
    }
  }

  /** On any path without "//", dispatcher and handler read the same id. */
  lemma SameId(path: string, i: nat)
    requires i < |Segments(path)| && !Gap(path)
    ensures ParseId(path, i) == Atoi(Segments(path)[i])
  {
    SameSegments(path);
  }

  // ---- the tenant dispatcher ----

  datatype Route = NotFound | Config | Download | Disable | Enable | ResetToken

  /** handleTenantAndFrpcRoutes, after the path has been split. */
  function TenantRoute(parts: seq<string>): Route {
    if |parts| < 4 then NotFound
    else if parts[3] == "frpc-config" then
      if |parts| >= 5 && parts[4] == "download" then Download else Config
    else if parts[3] == "disable" then Disable
    else if parts[3] == "enable" then Enable
    else if parts[3] == "reset-token" then ResetToken
    else NotFound
  }

  function Action(r: Route): seq<string> {
    match r
    case Config => ["frpc-config"]
    case Download => ["frpc-config", "download"]
    case Disable => ["disable"]
    case Enable => ["enable"]
    case ResetToken => ["reset-token"]
    case NotFound => []
  }

  /** An action is reached exactly when the segments after the first three begin with the words that spell it;
      "frpc-config" alone is left to the longer "frpc-config/download". */
  lemma RouteSpelled(parts: seq<string>, r: Route)
    requires r != NotFound
    ensures TenantRoute(parts) == r <==>
            && |parts| >= 4 && Action(r) <= parts[3..]
            && (r == Config ==> |parts| == 4 || parts[4] != "download")
  {
    assert |parts| >= 4 ==> parts[3..][0] == parts[3];
    assert |parts| >= 5 ==> parts[3..][1] == parts[4];
    assert "frpc-config"[0] != "disable"[0] && "disable"[0] != "enable"[0] && "reset-token"[0] != "enable"[0];
    assert "frpc-config"[0] != "enable"[0] && "reset-token"[0] != "disable"[0];
    assert "frpc-config"[0] != "reset-token"[0];
  }

  /** Anything else is not found. */
  lemma OtherwiseNotFound(parts: seq<string>)
    ensures TenantRoute(parts) == NotFound <==>
            |parts| < 4 || parts[3] !in {"frpc-config", "disable", "enable", "reset-token"}
  {
  }

  lemma ItoaIsProper(id: int)
    ensures Itoa(id) != "" && '/' !in Itoa(id)
  {
    assert AllDigits(FormatNat(if id < 0 then -id else id));
  }

  lemma ParseRooted(segs: seq<string>, i: nat)
    requires Proper(segs) && i < |segs|
    ensures ParseId(Rooted(segs), i) == Atoi(segs[i])
  {
    SplitRooted(segs);
    var path := Rooted(segs);
    SplitOfPrefix("", path[1..], '/');
    assert path == "" + "/" + path[1..];
    assert ([""] + segs)[1..] == segs;
  }

  lemma ActionReached(r: Route)
    requires r != NotFound
    ensures Proper(Action(r)) && forall a, b, c :: TenantRoute([a, b, c] + Action(r)) == r
  {
    assert "disable"[0] != "enable"[0];
  }

  /** Whatever stands in the place of the id, an address reaches its action, and the handler goes on exactly
      when that text is a number of 64 bits: "abc" is refused. */
  lemma AddressIdIff(text: string, r: Route, n: int)
    requires text != "" && '/' !in text && r != NotFound
    ensures var path := Rooted(["api", "tenants", text] + Action(r));
            && TenantRoute(Segments(path)) == r
            && (ParseId(path, 2) == Some(n) <==>
                  Denotes(text, n) && -0x8000_0000_0000_0000 <= n <= 0x7FFF_FFFF_FFFF_FFFF)
  {
    var segs := ["api", "tenants", text] + Action(r);
    ActionReached(r);
    SegmentsOfRooted(segs);
    ParseRooted(segs, 2);
    AtoiIff(text, n);
  }

  /** The address built for an id and an action reaches that action, and its handler reads that id. */
  lemma AddressReachesHandler(id: int, r: Route)
    requires MIN_INT64 <= id <= MAX_INT64 && r != NotFound
    ensures var path := Rooted(["api", "tenants", Itoa(id)] + Action(r));
            TenantRoute(Segments(path)) == r && ParseId(path, 2) == Some(id)
  {
    var segs := ["api", "tenants", Itoa(id)] + Action(r);
    ItoaIsProper(id);
    ActionReached(r);
    AtoiOfItoa(id);
    SegmentsOfRooted(segs);
    ParseRooted(segs, 2);
  }
}
