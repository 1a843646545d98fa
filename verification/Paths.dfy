/**
 Owned paths of tools/work_admission.py: how a path is put in canonical form, when putting it
 there twice changes nothing, and what the overlap test on the texts means for the paths.
 */
module Paths {

  import opened Options

  /** The white space that stripping removes. */
  predicate IsSpace(c: char) {
    var n := c as int;
    || 0x09 <= n <= 0x0d || 0x1c <= n <= 0x20 || n == 0x85 || n == 0xa0 || n == 0x1680
    || 0x2000 <= n <= 0x200a || n == 0x2028 || n == 0x2029 || n == 0x202f || n == 0x205f || n == 0x3000
  }

  function StripLeft(s: string): (r: string)
    ensures |r| <= |s| && (r != "" ==> !IsSpace(r[0])) && (|r| == |s| ==> r == s)
  {
    if s != "" && IsSpace(s[0]) then StripLeft(s[1..]) else s
  }

  function StripRight(s: string): (r: string)
    ensures |r| <= |s| && (r != "" ==> !IsSpace(r[|r| - 1])) && (|r| == |s| ==> r == s)
  {
    if s != "" && IsSpace(s[|s| - 1]) then StripRight(s[..|s| - 1]) else s
  }

  function Strip(s: string): string {
    StripRight(StripLeft(s))
  }

  function Slashed(s: string): (r: string)
    ensures |r| == |s| && forall i :: 0 <= i < |s| ==> r[i] == if s[i] == '\\' then '/' else s[i]
  {
    if s == "" then "" else [if s[0] == '\\' then '/' else s[0]] + Slashed(s[1..])
  }

  function Split(s: string): (parts: seq<string>)
    ensures |parts| >= 1
  {
    if s == "" then [""]
    else if s[0] == '/' then [""] + Split(s[1..])
    else var rest := Split(s[1..]); [[s[0]] + rest[0]] + rest[1..]
  }

  function Join(parts: seq<string>): string
    requires parts != []
  {
    if |parts| == 1 then parts[0] else parts[0] + "/" + Join(parts[1..])
  }

  /** Walking the parts with a stack: "." and "" are skipped, ".." pops, and popping an empty
      stack leaves the root. */
  function Walk(parts: seq<string>, stack: seq<string>): Option<seq<string>>
    decreases |parts|
  {
    if parts == [] then Some(stack)
    else if parts[0] == "" || parts[0] == "." then Walk(parts[1..], stack)
    else if parts[0] == ".." then (if stack == [] then None else Walk(parts[1..], stack[..|stack| - 1]))
    else Walk(parts[1..], stack + [parts[0]])
  }

  predicate Absolute(text: string) {
    (text != "" && text[0] == '/') || (|text| >= 2 && text[1] == ':')
  }

  /** The canonical form of a repository-relative path, or nothing for one that is refused. */
  function Normalize(value: string): Option<string> {
    var text := Slashed(Strip(value));
    if text == "" || text == "." || text == "/" || Absolute(text) then None
    else
      var walked := Walk(Split(text), []);
      if walked == None || walked.value == [] then None else Some(Join(walked.value))
  }

  method NormalizePath(value: string) returns (r: Option<string>)
    ensures r == Normalize(value)
  {
    var text := Slashed(Strip(value));
    if text == "" || text == "." || text == "/" { return None; }
    if text[0] == '/' || (|text| >= 2 && text[1] == ':') { return None; }
    var all := Split(text);
    var parts: seq<string> := [];
    var i := 0;
    while i < |all|
      invariant 0 <= i <= |all|
      invariant Walk(all[i..], parts) == Walk(all, [])
    {
      var part := all[i];
      assert all[i..][0] == part && all[i..][1..] == all[i + 1..];
      i := i + 1;
      if part == "" || part == "." { continue; }
      if part == ".." {
        if parts == [] { return None; }
        parts := parts[..|parts| - 1];
        continue;
      }
      parts := parts + [part];
    }
    assert all[i..] == [];
    if parts == [] { return None; }
    r := Some(Join(parts));
  }

  /** The overlap test: equal, or one a prefix of the other up to a slash, after putting both in
      canonical form once more. */
  function PathsOverlap(left: string, right: string): Option<bool> {
    var a, b := Normalize(left), Normalize(right);
    if a == None || b == None then None
    else Some(a.value == b.value || b.value + "/" <= a.value || a.value + "/" <= b.value)
  }

  // ---------------------------------------------------------- texts and segments

  lemma {:induction false} JoinSplit(s: string)
    ensures Join(Split(s)) == s
  {
    if s != "" {
      JoinSplit(s[1..]);
      var rest := Split(s[1..]);
      if s[0] == '/' {
        assert Split(s)[1..] == rest;
        assert s == "/" + s[1..];
      } else {
        assert Split(s)[1..] == rest[1..];
        assert s == [s[0]] + s[1..];
      }
    }
  }

  lemma {:induction false} SplitAtSlash(b: string, rest: string)
    ensures Split(b + "/" + rest) == Split(b) + Split(rest)
  {
    var whole := b + "/" + rest;
    if b == "" {
      assert whole[1..] == rest;
    } else {
      assert whole[1..] == b[1..] + "/" + rest;
      SplitAtSlash(b[1..], rest);
    }
  }

  lemma {:induction false} JoinAppends(a: seq<string>, b: seq<string>)
    requires a != [] && b != []
    ensures Join(a + b) == Join(a) + "/" + Join(b)
  {
    if |a| > 1 {
      JoinAppends(a[1..], b);
      assert (a + b)[1..] == a[1..] + b;
    } else {
      assert (a + b)[1..] == b;
    }
  }

  /** A text goes on after another and a slash exactly when its segments go on after the other's. */
  lemma {:induction false} PrefixIsSegmentPrefix(a: string, b: string)
    ensures b + "/" <= a <==> Split(b) < Split(a)
  {
    JoinSplit(a);
    JoinSplit(b);
    if b + "/" <= a {
      var rest := a[|b| + 1..];
      assert a == b + "/" + rest;
      SplitAtSlash(b, rest);
    }
    if Split(b) < Split(a) {
      var more := Split(a)[|Split(b)|..];
      assert Split(a) == Split(b) + more;
      JoinAppends(Split(b), more);
    }
  }

  /** One list of segments is the beginning of the other: one path is, or lies under, the other. */
  predicate Nested(a: seq<string>, b: seq<string>) {
    a <= b || b <= a
  }

  /** The overlap test on the texts is nesting of the canonical paths. */
  lemma {:induction false} OverlapIsNesting(left: string, right: string)
    requires Normalize(left).Some? && Normalize(right).Some?
    ensures PathsOverlap(left, right) == Some(Nested(Split(Normalize(left).value), Split(Normalize(right).value)))
  {
    var a, b := Normalize(left).value, Normalize(right).value;
    PrefixIsSegmentPrefix(a, b);
    PrefixIsSegmentPrefix(b, a);
    JoinSplit(a);
    JoinSplit(b);
    assert Split(a) <= Split(b) <==> Split(a) < Split(b) || Split(a) == Split(b);
    assert Split(b) <= Split(a) <==> Split(b) < Split(a) || Split(a) == Split(b);
  }

  // -------------------------------------------------------------- canonical twice

  /** A segment that walking keeps: it names something, and holds no separator. */
  predicate Plain(part: string) {
    part != "" && part != "." && part != ".." && '/' !in part && '\\' !in part
  }

  predicate AllPlain(parts: seq<string>) {
    forall i :: 0 <= i < |parts| ==> Plain(parts[i])
  }

  predicate NoBackslash(parts: seq<string>) {
    forall i :: 0 <= i < |parts| ==> '/' !in parts[i] && '\\' !in parts[i]
  }

  lemma {:induction false} SplitHasNoSeparator(s: string)
    requires '\\' !in s
    ensures NoBackslash(Split(s))
  {
    if s != "" { SplitHasNoSeparator(s[1..]); }
  }

  lemma {:induction false} WalkKeepsPlain(parts: seq<string>, stack: seq<string>)
    requires NoBackslash(parts) && AllPlain(stack)
    ensures Walk(parts, stack).Some? ==> AllPlain(Walk(parts, stack).value)
    decreases |parts|
  {
    if parts != [] {
      if parts[0] == "" || parts[0] == "." {
        WalkKeepsPlain(parts[1..], stack);
      } else if parts[0] == ".." {
        if stack != [] { WalkKeepsPlain(parts[1..], stack[..|stack| - 1]); }
      } else {
        WalkKeepsPlain(parts[1..], stack + [parts[0]]);
      }
    }
  }

  lemma {:induction false} WalkOfPlain(parts: seq<string>, stack: seq<string>)
    requires AllPlain(parts)
    ensures Walk(parts, stack) == Some(stack + parts)
    decreases |parts|
  {
    if parts == [] {
      assert stack + parts == stack;
    } else {
      WalkOfPlain(parts[1..], stack + [parts[0]]);
      assert stack + [parts[0]] + parts[1..] == stack + parts;
    }
  }

  lemma {:induction false} SplitOfPlain(part: string)
    requires '/' !in part
    ensures Split(part) == [part]
  {
    if part != "" {
      SplitOfPlain(part[1..]);
      assert part == [part[0]] + part[1..];
    }
  }

  lemma {:induction false} SplitOfJoin(parts: seq<string>)
    requires AllPlain(parts) && parts != []
    ensures Split(Join(parts)) == parts && '\\' !in Join(parts)
    ensures Join(parts) != "" && Join(parts)[0] != '/'
  {
    SplitOfPlain(parts[0]);
    if |parts| > 1 {
      SplitOfJoin(parts[1..]);
      SplitAtSlash(parts[0], Join(parts[1..]));
    }
  }

  /** The room the segments take, one separator each. */
  function Size(parts: seq<string>): nat {
    if parts == [] then 0 else |parts[0]| + 1 + Size(parts[1..])
  }

  lemma {:induction false} SizeOfJoin(parts: seq<string>)
    requires parts != []
    ensures |Join(parts)| + 1 == Size(parts)
  {
    if |parts| > 1 { SizeOfJoin(parts[1..]); }
  }

  lemma {:induction false} SizeOfSum(a: seq<string>, b: seq<string>)
    ensures Size(a + b) == Size(a) + Size(b)
  {
    if a == [] {
      assert a + b == b;
    } else {
      SizeOfSum(a[1..], b);
      assert (a + b)[1..] == a[1..] + b;
    }
  }

  lemma {:induction false} WalkShrinks(parts: seq<string>, stack: seq<string>)
    ensures Walk(parts, stack).Some? ==> Size(Walk(parts, stack).value) <= Size(stack) + Size(parts)
    decreases |parts|
  {
    if parts != [] {
      if parts[0] == "" || parts[0] == "." {
        WalkShrinks(parts[1..], stack);
      } else if parts[0] == ".." {
        if stack != [] {
          var rest := stack[..|stack| - 1];
          WalkShrinks(parts[1..], rest);
          SizeOfSum(rest, [stack[|stack| - 1]]);
          assert rest + [stack[|stack| - 1]] == stack;
        }
      } else {
        WalkShrinks(parts[1..], stack + [parts[0]]);
        SizeOfSum(stack, [parts[0]]);
      }
    }
  }

  lemma {:induction false} NormalizeShrinks(value: string)
    ensures Normalize(value).Some? ==> |Normalize(value).value| <= |Strip(value)|
  {
    var text := Slashed(Strip(value));
    if Normalize(value).Some? {
      WalkShrinks(Split(text), []);
      JoinSplit(text);
      SizeOfJoin(Split(text));
      SizeOfJoin(Walk(Split(text), []).value);
    }
  }

  /** A canonical path is made of plain segments. */
  lemma {:induction false} NormalizeIsPlain(value: string)
    requires Normalize(value).Some?
    ensures AllPlain(Split(Normalize(value).value)) && '\\' !in Normalize(value).value
    ensures Normalize(value).value != "" && Normalize(value).value[0] != '/'
  {
    var text := Slashed(Strip(value));
    SplitHasNoSeparator(text);
    WalkKeepsPlain(Split(text), []);
    SplitOfJoin(Walk(Split(text), []).value);
  }

  /** No white space at either end, and no drive letter's colon in second place. */
  predicate Tidy(t: string)
    requires t != ""
  {
    !IsSpace(t[0]) && !IsSpace(t[|t| - 1]) && !(|t| >= 2 && t[1] == ':')
  }

  lemma {:induction false} StripFixes(t: string)
    requires t != ""
    ensures Strip(t) == t <==> !IsSpace(t[0]) && !IsSpace(t[|t| - 1])
    ensures |Strip(t)| <= |t| && (Strip(t) != t ==> |Strip(t)| < |t|)
  {
    var l := StripLeft(t);
    if !IsSpace(t[0]) { assert l == t; }
  }

  lemma {:induction false} TidyIsFixed(t: string)
    requires t != "" && Tidy(t) && AllPlain(Split(t)) && '\\' !in t && t[0] != '/'
    ensures Normalize(t) == Some(t)
  {
    StripFixes(t);
    assert Slashed(t) == t;
    SplitOfPlainOnly(t);
    WalkOfPlain(Split(t), []);
    assert [] + Split(t) == Split(t);
    JoinSplit(t);
  }

  lemma {:induction false} DriveIsRefused(t: string)
    requires |t| >= 2 && t[1] == ':' && Strip(t) == t
    ensures Normalize(t) == None
  {
    var text := Slashed(t);
    assert text[1] == ':';
    assert Absolute(text);
  }

  lemma {:induction false} SpacedIsChanged(t: string)
    requires t != "" && Strip(t) != t
    ensures Normalize(t) != Some(t)
  {
    StripFixes(t);
    NormalizeShrinks(t);
  }

  lemma {:induction false} UntidyIsChanged(t: string)
    requires t != "" && !Tidy(t)
    ensures Normalize(t) != Some(t)
  {
    StripFixes(t);
    if Strip(t) != t { SpacedIsChanged(t); } else { DriveIsRefused(t); }
  }

  /** Putting a canonical path in canonical form again changes nothing exactly when it is tidy. */
  lemma {:induction false} CanonicalTwice(value: string)
    requires Normalize(value).Some?
    ensures Normalize(value).value != ""
    ensures Normalize(Normalize(value).value) == Normalize(value) <==> Tidy(Normalize(value).value)
  {
    NormalizeIsPlain(value);
    if Tidy(Normalize(value).value) {
      TidyIsFixed(Normalize(value).value);
    } else {
      UntidyIsChanged(Normalize(value).value);
    }
  }

  lemma {:induction false} SplitOfPlainOnly(t: string)
    requires AllPlain(Split(t)) && t != ""
    ensures t != "." && t != "/"
  {
    assert Plain(Split(t)[0]);
    if t == "." { SplitOfPlain(t); }
    if t == "/" {
      SplitAtSlash("", "");
    }
  }

  // ----------------------------------------------- where it goes wrong, by example

  lemma {:induction false} SplitTwo(a: string, b: string)
    requires '/' !in a && '/' !in b
    ensures Split(a + "/" + b) == [a, b]
  {
    SplitAtSlash(a, b);
    SplitOfPlain(a);
    SplitOfPlain(b);
  }

  lemma {:induction false} WalkTwo(a: string, b: string)
    requires Plain(a) || a == "."
    requires Plain(b) || b == "."
    ensures Walk([a, b], []) == Some((if a == "." then [] else [a]) + (if b == "." then [] else [b]))
  {
    var stack := if a == "." then [] else [a];
    assert [a, b][1..] == [b] && [b][1..] == [] && [] + [a] == [a];
    assert Walk([a, b], []) == Walk([b], stack);
    assert Walk([b], stack) == if b == "." then Walk([], stack) else Walk([], stack + [b]);
    assert stack + [] == stack;
  }

  /** The canonical form of a text whose segments and walk are known. */
  lemma {:induction false} NormalizeBy(value: string, text: string, walked: seq<string>)
    requires text == Slashed(Strip(value)) && text != "" && text != "." && text != "/" && !Absolute(text)
    requires Walk(Split(text), []) == Some(walked) && walked != []
    ensures Normalize(value) == Some(Join(walked))
  {
  }

  lemma {:induction false} NothingToStrip(t: string)
    requires t != "" && !IsSpace(t[0]) && !IsSpace(t[|t| - 1]) && '\\' !in t
    ensures Slashed(Strip(t)) == t
  {
    StripFixes(t);
  }

  lemma {:induction false} DotSlash(b: string)
    requires Plain(b) && !IsSpace(b[|b| - 1])
    ensures Normalize("./" + b) == Some(b)
  {
    var t := "./" + b;
    assert t == "." + "/" + b;
    NothingToStrip(t);
    SplitTwo(".", b);
    WalkTwo(".", b);
    assert [] + [b] == [b];
    NormalizeBy(t, t, [b]);
  }

  lemma {:induction false} OneSegment(b: string)
    requires Plain(b) && Tidy(b)
    ensures Normalize(b) == Some(b)
  {
    SplitOfPlain(b);
    TidyIsFixed(b);
  }

  /** Canonical forms that are not: a drive letter hidden behind "./", as in "./c:x", is refused
      the second time. */
  lemma {:induction false} HiddenDrive(t: string)
    requires Plain(t) && |t| >= 2 && t[1] == ':' && !IsSpace(t[0]) && !IsSpace(t[|t| - 1])
    ensures Normalize("./" + t) == Some(t) && Normalize(t) == None
  {
    DotSlash(t);
    StripFixes(t);
    DriveIsRefused(t);
  }

  /** White space hidden behind "./", as in "./ a", is gone the second time. */
  lemma {:induction false} HiddenSpace(t: string)
    requires Plain(t) && Tidy(t)
    ensures Normalize("./" + " " + t) == Some(" " + t) && Normalize(" " + t) == Some(t)
  {
    assert (" " + t)[0] == ' ' && "."[0] == '.' && ".."[0] == '.';
    assert Plain(" " + t);
    DotSlash(" " + t);
    assert "./" + (" " + t) == "./" + " " + t;
    SpaceInFront(t);
    OneSegment(t);
  }

  lemma {:induction false} SpaceInFront(t: string)
    ensures Normalize(" " + t) == Normalize(t)
  {
    assert (" " + t)[1..] == t;
  }

  /** For tidy canonical paths the overlap test, which makes them canonical once more, is nesting
      of the paths themselves. */
  lemma {:induction false} OverlapOfTidy(l0: string, r0: string)
    requires Normalize(l0).Some? && Normalize(r0).Some?
    requires Normalize(l0).value != "" && Tidy(Normalize(l0).value)
    requires Normalize(r0).value != "" && Tidy(Normalize(r0).value)
    ensures PathsOverlap(Normalize(l0).value, Normalize(r0).value)
            == Some(Nested(Split(Normalize(l0).value), Split(Normalize(r0).value)))
  {
    CanonicalTwice(l0);
    CanonicalTwice(r0);
    OverlapIsNesting(Normalize(l0).value, Normalize(r0).value);
  }

  /** The test does not depend on the order of the two paths. */
  lemma {:induction false} OverlapSymmetric(left: string, right: string)
    ensures PathsOverlap(left, right) == PathsOverlap(right, left)
  {
  }
}
