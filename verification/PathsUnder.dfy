/**
 When the overlap test of tools/work_admission.py sees a path that lies under another.  It puts
 stored paths in canonical form a second time, which can change them; here is which changes
 make it blind, and to what.
 */
module PathsUnder {

  import opened Options
  import opened Paths

  /** A path as it can be stored: the canonical form of something. */
  ghost predicate Canonical(p: string) {
    exists raw :: Normalize(raw) == Some(p)
  }

  /** Canonical paths are the ones made of plain segments. */
  lemma {:induction false} CanonicalIff(p: string)
    ensures Canonical(p) <==> p != "" && AllPlain(Split(p))
  {
    if Canonical(p) {
      var raw :| Normalize(raw) == Some(p);
      NormalizeIsPlain(raw);
    }
    if p != "" && AllPlain(Split(p)) { Wrapped(p); }
  }

  lemma {:induction false} PlainHasNoBackslash(p: string)
    requires AllPlain(Split(p))
    ensures '\\' !in p && p != "" && p[0] != '/'
  {
    JoinSplit(p);
    SplitOfJoin(Split(p));
  }

  lemma {:induction false} Wrapped(p: string)
    requires AllPlain(Split(p))
    ensures Normalize("./" + p + "/.") == Some(p)
  {
    var raw := "./" + p + "/.";
    PlainHasNoBackslash(p);
    NothingToStrip(raw);
    assert raw == "." + "/" + (p + "/" + ".");
    SplitAtSlash(".", p + "/" + ".");
    SplitAtSlash(p, ".");
    SplitOfPlain(".");
    WalkWrapped(Split(p));
    JoinSplit(p);
    NormalizeBy(raw, raw, Split(p));
  }

  lemma {:induction false} WalkWrapped(parts: seq<string>)
    requires AllPlain(parts)
    ensures Walk(["."] + (parts + ["."]), []) == Some(parts)
  {
    assert (["."] + (parts + ["."]))[1..] == parts + ["."];
    WalkSum(parts, ["."], []);
    WalkOfPlain(parts, []);
    assert [] + parts == parts;
    assert Walk(["."], parts) == Walk([], parts);
  }

  lemma {:induction false} WalkSum(a: seq<string>, b: seq<string>, stack: seq<string>)
    ensures Walk(a + b, stack) == if Walk(a, stack) == None then None else Walk(b, Walk(a, stack).value)
    decreases |a|
  {
    if a == [] {
      assert a + b == b;
    } else {
      assert (a + b)[1..] == a[1..] + b;
      if a[0] == "" || a[0] == "." {
        WalkSum(a[1..], b, stack);
      } else if a[0] == ".." {
        if stack != [] { WalkSum(a[1..], b, stack[..|stack| - 1]); }
      } else {
        WalkSum(a[1..], b, stack + [a[0]]);
      }
    }
  }

  // ----------------------------------------------------------- stripping, by segments

  lemma {:induction false} StripLeftSplit(s: string)
    ensures Split(StripLeft(s)) == [StripLeft(Split(s)[0])] + Split(s)[1..]
  {
    if s != "" && IsSpace(s[0]) {
      StripLeftSplit(s[1..]);
      assert Split(s)[0][1..] == Split(s[1..])[0];
    }
  }

  lemma {:induction false} SplitSnoc(s: string, c: char)
    requires c != '/'
    ensures Split(s + [c]) == Most(Split(s)) + [Last(Split(s)) + [c]]
  {
    if s == "" {
      assert s + [c] == [c] && Split(s) == [""];
      SplitOfPlain([c]);
    } else {
      SplitSnoc(s[1..], c);
      assert (s + [c])[1..] == s[1..] + [c] && (s + [c])[0] == s[0];
      SnocIn(s[0], Split(s[1..]), c);
    }
  }

  /** The segments of a text with one more character in front. */
  function Grown(first: char, rest: seq<string>): seq<string>
    requires rest != []
  {
    if first == '/' then [""] + rest else [[first] + rest[0]] + rest[1..]
  }

  lemma {:induction false} SnocIn(first: char, rest: seq<string>, c: char)
    requires rest != []
    ensures Grown(first, Most(rest) + [Last(rest) + [c]]) == Most(Grown(first, rest)) + [Last(Grown(first, rest)) + [c]]
  {
    if |rest| == 1 { assert [first] + (rest[0] + [c]) == [first] + rest[0] + [c]; }
  }

  function Most(parts: seq<string>): seq<string>
    requires parts != []
  {
    parts[..|parts| - 1]
  }

  function Last(parts: seq<string>): string
    requires parts != []
  {
    parts[|parts| - 1]
  }

  lemma {:induction false} StripRightSplit(s: string)
    ensures Split(StripRight(s)) == Most(Split(s)) + [StripRight(Last(Split(s)))]
  {
    if s != "" && IsSpace(s[|s| - 1]) {
      var t, c := s[..|s| - 1], s[|s| - 1];
      StripRightSplit(t);
      SplitSnoc(t, c);
      assert s == t + [c];
      var l := Last(Split(t)) + [c];
      assert l[..|l| - 1] == Last(Split(t));
    } else {
      LastEnds(s);
    }
  }

  /** A text and its last segment end alike. */
  lemma {:induction false} LastEnds(s: string)
    ensures var l := Last(Split(s)); l != "" ==> s != "" && l[|l| - 1] == s[|s| - 1]
  {
    if s != "" && s[|s| - 1] != '/' {
      var t, c := s[..|s| - 1], s[|s| - 1];
      assert s == t + [c];
      SplitSnoc(t, c);
    } else if s != "" {
      var t := s[..|s| - 1];
      assert s == t + "/" + "";
      SplitAtSlash(t, "");
    }
  }

  lemma {:induction false} StripLeftSum(s: string, t: string)
    requires StripLeft(s) != ""
    ensures StripLeft(s + t) == StripLeft(s) + t
  {
    if s != "" && IsSpace(s[0]) {
      StripLeftSum(s[1..], t);
      assert (s + t)[1..] == s[1..] + t;
    } else {
      assert s + t != "" && (s + t)[0] == s[0];
    }
  }

  // ------------------------------------------- the second canonical form, by segments

  /** What the walk of a path has on its stack when it comes to the last segment. */
  function Before(p: string): Option<seq<string>> {
    Walk(Most(Split(StripLeft(p))), [])
  }

  /** The last segment, with the white space behind it. */
  function Final(p: string): string {
    Last(Split(StripLeft(p)))
  }

  lemma {:induction false} SlashedSame(s: string)
    requires '\\' !in s
    ensures Slashed(s) == s
  {
  }

  lemma {:induction false} StripParts(s: string)
    ensures forall c :: c in StripLeft(s) ==> c in s
    ensures forall c :: c in StripRight(s) ==> c in s
    decreases |s|
  {
    if s != "" {
      StripParts(s[1..]);
      StripParts(s[..|s| - 1]);
    }
  }

  lemma {:induction false} StripHasNoBackslash(p: string)
    requires '\\' !in p
    ensures '\\' !in Strip(p)
  {
    StripParts(p);
    StripParts(StripLeft(p));
  }

  /** The canonical form of a text without backslashes is what walking its stripped segments leaves. */
  lemma {:induction false} NormalizeWalks(p: string)
    requires '\\' !in p
    ensures var walked := if Before(p) == None then None else Walk([StripRight(Final(p))], Before(p).value);
            Normalize(p) == if Absolute(Strip(p)) || walked == None || walked.value == [] then None else Some(Join(walked.value))
  {
    StripHasNoBackslash(p);
    SlashedSame(Strip(p));
    StripRightSplit(StripLeft(p));
    WalkSum(Most(Split(StripLeft(p))), [StripRight(Final(p))], []);
    SmallTexts();
  }

  lemma {:induction false} SmallTexts()
    ensures Walk(Split(""), []) == Some([]) && Walk(Split("."), []) == Some([]) && Absolute("/")
  {
    SplitOfPlain(".");
    assert [""][1..] == [] && ["."][1..] == [];
    assert Walk([""], []) == Walk([], []);
    assert Walk(["."], []) == Walk([], []);
  }

  lemma {:induction false} SingleWalk(part: string, stack: seq<string>)
    ensures Walk([part], stack)
         == if part == "" || part == "." then Some(stack)
            else if part == ".." then (if stack == [] then None else Some(stack[..|stack| - 1]))
            else Some(stack + [part])
  {
    assert [part][1..] == [];
    assert Walk([part], stack)
        == if part == "" || part == "." then Walk([], stack)
           else if part == ".." then (if stack == [] then None else Walk([], stack[..|stack| - 1]))
           else Walk([], stack + [part]);
  }

  lemma {:induction false} StripRightEnds(s: string)
    ensures StripRight(s) <= s
    ensures forall i :: |StripRight(s)| <= i < |s| ==> IsSpace(s[i])
  {
    if s != "" && IsSpace(s[|s| - 1]) { StripRightEnds(s[..|s| - 1]); }
  }

  /** The white space behind the last segment is all that keeps it from what it would be read as
      the second time: a different name. */
  predicate Shortens(p: string) {
    Plain(StripRight(Final(p))) && StripRight(Final(p)) != Final(p)
  }

  lemma {:induction false} ShortensEndsInSpace(p: string)
    ensures Shortens(p) ==> p != "" && IsSpace(p[|p| - 1])
  {
    LastEnds(StripLeft(p));
    StripLeftEnds(p);
  }

  lemma {:induction false} StripLeftEnds(s: string)
    ensures StripLeft(s) != "" ==> s != "" && s[|s| - 1] == StripLeft(s)[|StripLeft(s)| - 1]
  {
    if s != "" && IsSpace(s[0]) { StripLeftEnds(s[1..]); }
  }

  lemma {:induction false} FinalIsPlain(p: string)
    requires AllPlain(Split(p)) && Normalize(p).Some?
    ensures Plain(Final(p)) && Before(p).Some? && AllPlain(Before(p).value)
  {
    PlainHasNoBackslash(p);
    NormalizeWalks(p);
    StripLeftSplit(p);
    StripParts(p);
    SplitHasNoSeparator(StripLeft(p));
    WalkKeepsPlain(Most(Split(StripLeft(p))), []);
    if |Split(p)| == 1 {
      OnlyNameIsPlain(Final(p));
    } else {
      assert Final(p) == Last(Split(p));
    }
  }

  lemma {:induction false} OnlyNameIsPlain(name: string)
    requires '/' !in name && '\\' !in name && Walk([StripRight(name)], []).Some? && Walk([StripRight(name)], []).value != []
    ensures Plain(name)
  {
    SingleWalk(StripRight(name), []);
    assert StripRight("") == "" && StripRight(".") == "." && StripRight("..") == "..";
  }

  lemma {:induction false} StartsAlike(p: string, more: string)
    requires AllPlain(Split(p)) && Normalize(p).Some?
    ensures StripLeft(p) != "" && StripLeft(p + "/" + more) == StripLeft(p) + "/" + more
    ensures !Absolute(Strip(p + "/" + more))
  {
    FinalIsPlain(p);
    PlainHasNoBackslash(p);
    NormalizeWalks(p);
    StripLeftSum(p, "/" + more);
    assert p + ("/" + more) == p + "/" + more;
    var l := StripLeft(p);
    assert l + ("/" + more) == l + "/" + more;
    StripRightEnds(l);
    StripRightEnds(l + "/" + more);
    if |l| == 1 { assert (l + "/" + more)[1] == '/'; }
  }

  /** How a path under another is read the second time. */
  lemma {:induction false} UnderForm(p: string, more: string)
    requires AllPlain(Split(p)) && Normalize(p).Some? && AllPlain(Split(more))
    ensures Before(p).Some? && Plain(Final(p)) && AllPlain(Split(p + "/" + more))
    ensures Before(p + "/" + more) == Some(Before(p).value + [Final(p)] + Most(Split(more)))
    ensures Final(p + "/" + more) == Last(Split(more)) && !Absolute(Strip(p + "/" + more))
  {
    FinalIsPlain(p);
    StartsAlike(p, more);
    SplitAtSlash(p, more);
    SplitAtSlash(StripLeft(p), more);
    UnderWalk(Split(StripLeft(p)), Split(more));
  }

  lemma {:induction false} UnderWalk(l: seq<string>, more: seq<string>)
    requires l != [] && more != [] && AllPlain(more) && Plain(Last(l)) && Walk(Most(l), []).Some?
    ensures Walk(Most(l + more), []) == Some(Walk(Most(l), []).value + [Last(l)] + Most(more))
    ensures Last(l + more) == Last(more)
  {
    var stack := Walk(Most(l), []).value;
    assert Most(l + more) == Most(l) + ([Last(l)] + Most(more));
    WalkSum(Most(l), [Last(l)] + Most(more), []);
    WalkOfPlain([Last(l)] + Most(more), stack);
    assert stack + ([Last(l)] + Most(more)) == stack + [Last(l)] + Most(more);
  }

  /** The segments of the second canonical form, from the stack and the last segment. */
  lemma {:induction false} SecondForm(p: string)
    requires AllPlain(Split(p)) && Before(p).Some? && AllPlain(Before(p).value) && Plain(Final(p)) && !Absolute(Strip(p))
    ensures var walked := Walk([StripRight(Final(p))], Before(p).value);
            && (Normalize(p) == None <==> walked == None || walked.value == [])
            && (Normalize(p).Some? ==> Split(Normalize(p).value) == walked.value)
  {
    PlainHasNoBackslash(p);
    NormalizeWalks(p);
    StripParts(Final(p));
    var part := StripRight(Final(p));
    assert NoBackslash([part]);
    WalkKeepsPlain([part], Before(p).value);
    var walked := Walk([part], Before(p).value);
    if Normalize(p).Some? { SplitOfJoin(walked.value); }
  }

  /** A path whose second form does not shorten its last segment is seen over every path under it
      that has a second form. */
  lemma {:induction false} SeesUnder(p: string, more: string)
    requires AllPlain(Split(p)) && Normalize(p).Some? && AllPlain(Split(more)) && !Shortens(p)
    ensures var q := p + "/" + more; PathsOverlap(p, q) == if Normalize(q) == None then None else Some(true)
  {
    var q := p + "/" + more;
    FinalIsPlain(p);
    UnderForm(p, more);
    PlainHasNoBackslash(p);
    NormalizeWalks(p);
    SecondForm(p);
    SecondForm(q);
    var s, part, last := Before(p).value, StripRight(Final(p)), StripRight(Final(q));
    SingleWalk(part, s);
    SingleWalk(last, s + [Final(p)] + Most(Split(more)));
    StripParts(Final(p));
    if Normalize(q).Some? {
      OverlapIsNesting(p, q);
      SeesBySegments(s, Final(p), part, Most(Split(more)), last);
    }
  }

  lemma {:induction false} SeesBySegments(s: seq<string>, name: string, part: string, mid: seq<string>, last: string)
    requires !Plain(part) || part == name
    requires '/' !in part && '\\' !in part
    ensures var a, b := Walk([part], s), Walk([last], s + [name] + mid);
            a.Some? && b.Some? ==> Nested(a.value, b.value)
  {
    SingleWalk(part, s);
    SingleWalk(last, s + [name] + mid);
    if part == ".." && s != [] { assert s[..|s| - 1] <= s; }
    var whole := s + [name] + mid;
    if last == ".." && mid == [] { assert whole[..|whole| - 1] == s; }
    if last == ".." && mid != [] { assert whole[..|whole| - 1] == s + [name] + mid[..|mid| - 1]; }
  }

  lemma {:induction false} MissesBySegments(s: seq<string>, name: string, part: string, mid: seq<string>, last: string)
    requires Plain(part) && part != name && Plain(last)
    ensures var a, b := Walk([part], s), Walk([last], s + [name] + mid);
            a.Some? && b.Some? && a.value != [] && b.value != [] && !Nested(a.value, b.value)
  {
    SingleWalk(part, s);
    SingleWalk(last, s + [name] + mid);
    var a, b := s + [part], s + [name] + mid + [last];
    assert a[|s|] == part && b[|s|] == name;
  }

  /** One that does shorten it misses every path under it whose last segment has no white space behind. */
  lemma {:induction false} OverlapCanBeMissed(p: string, more: string)
    requires Canonical(p) && Normalize(p).Some? && Shortens(p)
    requires more != "" && AllPlain(Split(more)) && !IsSpace(more[|more| - 1])
    ensures var q := p + "/" + more; Canonical(q) && Split(p) < Split(q) && PathsOverlap(p, q) == Some(false)
  {
    var q := p + "/" + more;
    CanonicalIff(p);
    FinalIsPlain(p);
    UnderForm(p, more);
    CanonicalIff(q);
    SplitAtSlash(p, more);
    MissedForms(p, more);
    OverlapIsNesting(p, q);
  }

  lemma {:induction false} MissedForms(p: string, more: string)
    requires AllPlain(Split(p)) && Normalize(p).Some? && Shortens(p)
    requires more != "" && AllPlain(Split(more)) && !IsSpace(more[|more| - 1])
    ensures var q := p + "/" + more;
            Normalize(q).Some? && !Nested(Split(Normalize(p).value), Split(Normalize(q).value))
  {
    FinalIsPlain(p);
    UnderForm(p, more);
    PlainHasNoBackslash(p);
    NormalizeWalks(p);
    SecondForm(p);
    SecondForm(p + "/" + more);
    LastEnds(more);
    MissesBySegments(Before(p).value, Final(p), StripRight(Final(p)), Most(Split(more)), Last(Split(more)));
  }

  /** Of the canonical paths that have a second canonical form, those for which the overlap test
      misses some path at or under them are exactly the ones that form shortens in place: "a " is
      one, "a/ " and "a/. " are not. */
  lemma {:induction false} MissesIffShortened(p: string)
    requires Canonical(p) && Normalize(p).Some?
    ensures (exists q :: Canonical(q) && Split(p) <= Split(q) && PathsOverlap(p, q) == Some(false)) <==> Shortens(p)
  {
    CanonicalIff(p);
    if Shortens(p) {
      SplitOfPlain("x");
      OverlapCanBeMissed(p, "x");
    }
    forall q | Canonical(q) && Split(p) <= Split(q) && PathsOverlap(p, q) == Some(false) ensures Shortens(p) {
      CanonicalIff(q);
      if Split(p) == Split(q) {
        JoinSplit(p);
        JoinSplit(q);
        OverlapIsNesting(p, p);
      } else {
        var more := Below(p, q);
        if !Shortens(p) { SeesUnder(p, more); }
      }
    }
  }

  /** The rest of a path that lies under another. */
  lemma {:induction false} Below(p: string, q: string) returns (more: string)
    requires AllPlain(Split(q)) && Split(p) < Split(q)
    ensures q == p + "/" + more && AllPlain(Split(more))
  {
    var tail := Split(q)[|Split(p)|..];
    assert Split(q) == Split(p) + tail;
    JoinSplit(p);
    JoinSplit(q);
    JoinAppends(Split(p), tail);
    SplitOfJoin(tail);
    more := Join(tail);
  }

  /** Without white space behind the one or the other, a path under another is read the second
      time as the same way down from what the other is read as. */
  lemma {:induction false} UnderStaysUnder(p: string, more: string)
    requires p != "" && Canonical(p) && Normalize(p).Some? && !IsSpace(p[|p| - 1])
    requires more != "" && AllPlain(Split(more)) && !IsSpace(more[|more| - 1])
    ensures Normalize(p + "/" + more) == Some(Normalize(p).value + "/" + more)
  {
    CanonicalIff(p);
    FinalIsPlain(p);
    UnderForm(p, more);
    EndsBare(p);
    EndsBare(p + "/" + more);
    JoinsUnder(Before(p).value, Final(p), more);
  }

  lemma {:induction false} EndsBare(p: string)
    requires p != "" && AllPlain(Split(p)) && !IsSpace(p[|p| - 1]) && Before(p).Some?
    ensures StripRight(Final(p)) == Final(p)
    ensures var walked := Walk([Final(p)], Before(p).value);
            Normalize(p) == if Absolute(Strip(p)) || walked == None || walked.value == [] then None else Some(Join(walked.value))
  {
    PlainHasNoBackslash(p);
    StripLeftEnds(p);
    LastEnds(StripLeft(p));
    NormalizeWalks(p);
  }

  lemma {:induction false} JoinsUnder(s: seq<string>, name: string, more: string)
    requires Plain(name) && AllPlain(Split(more))
    ensures Walk([name], s) == Some(s + [name])
    ensures var q := Walk([Last(Split(more))], s + [name] + Most(Split(more)));
            q.Some? && q.value != [] && Join(q.value) == Join(s + [name]) + "/" + more
  {
    SingleWalk(name, s);
    SingleWalk(Last(Split(more)), s + [name] + Most(Split(more)));
    assert s + [name] + Most(Split(more)) + [Last(Split(more))] == (s + [name]) + Split(more);
    JoinAppends(s + [name], Split(more));
    JoinSplit(more);
  }

  /** Without white space at either end, the second form is refused exactly for a drive letter. */
  lemma {:induction false} SecondFormRefused(p: string)
    requires Canonical(p) && p != "" && !IsSpace(p[0]) && !IsSpace(p[|p| - 1])
    ensures Normalize(p) == None <==> |p| >= 2 && p[1] == ':'
  {
    CanonicalIff(p);
    PlainHasNoBackslash(p);
    if |p| >= 2 && p[1] == ':' {
      StripFixes(p);
      DriveIsRefused(p);
    } else {
      TidyIsFixed(p);
    }
  }

  lemma {:induction false} SecondFormUnder(p: string, more: string)
    requires AllPlain(Split(p)) && Normalize(p).Some? && AllPlain(Split(more))
    ensures Before(p).Some?
    ensures Normalize(p + "/" + more) == None
       <==> Before(p).value == [] && Most(Split(more)) == [] && StripRight(Last(Split(more))) == ".."
  {
    FinalIsPlain(p);
    UnderForm(p, more);
    SecondForm(p + "/" + more);
    EmptyIff(Before(p).value, Final(p), Most(Split(more)), StripRight(Last(Split(more))));
  }

  /** Under a path that has a second form, only a last segment that becomes ".." right below a
      single name is refused; the test then gives no answer, for which admission is refused. */
  lemma {:induction false} RefusedUnder(p: string, more: string)
    requires Canonical(p) && Normalize(p).Some? && AllPlain(Split(more))
    ensures Before(p).Some?
    ensures PathsOverlap(p, p + "/" + more) == None
       <==> Before(p).value == [] && |Split(more)| == 1 && StripRight(Last(Split(more))) == ".."
  {
    CanonicalIff(p);
    SecondFormUnder(p, more);
  }

  lemma {:induction false} EmptyIff(s: seq<string>, name: string, mid: seq<string>, last: string)
    ensures var walked := Walk([last], s + [name] + mid);
            walked == None || walked.value == [] <==> s == [] && mid == [] && last == ".."
  {
    var whole := s + [name] + mid;
    SingleWalk(last, whole);
    assert |whole| == |s| + 1 + |mid|;
  }

  /** White space behind a path need not matter: when the last segment is nothing else, it is
      dropped, and the path is seen over everything under it. */
  lemma {:induction false} SpaceCanBeHarmless(a: string)
    requires Plain(a) && Tidy(a)
    ensures Canonical(a + "/" + " ") && Normalize(a + "/" + " ") == Some(a) && !Shortens(a + "/" + " ")
  {
    var p := a + "/" + " ";
    assert Plain(" ") by { assert " "[0] == ' ' && "."[0] == '.' && ".."[0] == '.'; }
    SplitTwo(a, " ");
    CanonicalIff(p);
    PlainHasNoBackslash(p);
    NormalizeWalks(p);
    assert StripLeft(p) == p && [a, " "][..1] == [a];
    assert " "[..0] == "";
    assert StripRight(" ") == StripRight("") == "";
    StripRightEnds(p);
    assert p[0] == a[0];
    SingleWalk(a, []);
    SingleWalk("", [a]);
    assert [] + [a] == [a];
  }

  // ------------------------------------------------------------- when there is a form at all

  /** How far down some segments lead: names lead down, ".." leads up. */
  function Net(parts: seq<string>): int {
    if parts == [] then 0
    else Net(parts[..|parts| - 1]) + (if Last(parts) == "" || Last(parts) == "." then 0 else if Last(parts) == ".." then -1 else 1)
  }

  lemma {:induction false} WalkSnoc(parts: seq<string>, part: string, stack: seq<string>)
    ensures Walk(parts + [part], stack)
         == if Walk(parts, stack) == None then None
            else var top := Walk(parts, stack).value;
                 if part == "" || part == "." then Some(top)
                 else if part == ".." then (if top == [] then None else Some(top[..|top| - 1]))
                 else Some(top + [part])
  {
    WalkSum(parts, [part], stack);
    if Walk(parts, stack).Some? { SingleWalk(part, Walk(parts, stack).value); }
  }

  /** A walk from the root goes through exactly if it never leads above the root, and ends as deep as
      it leads down. */
  lemma {:induction false} WalkIsNet(parts: seq<string>)
    ensures Walk(parts, []).Some? <==> forall i :: 0 <= i <= |parts| ==> Net(parts[..i]) >= 0
    ensures Walk(parts, []).Some? ==> |Walk(parts, []).value| == Net(parts)
  {
    if parts == [] {
      assert forall i :: 0 <= i <= |parts| ==> parts[..i] == [];
    } else {
      var before, part := Most(parts), Last(parts);
      WalkIsNet(before);
      assert parts == before + [part];
      WalkSnoc(before, part, []);
      assert forall i :: 0 <= i <= |before| ==> parts[..i] == before[..i];
      assert parts[..|parts|] == parts && before[..|before|] == before;
    }
  }

  /** A path is refused exactly if, stripped and with its slashes turned, it is empty, starts with a
      slash or a drive letter, leads above the root on the way, or leads nowhere. */
  lemma {:induction false} RefusedIff(value: string)
    ensures var text := Slashed(Strip(value));
            Normalize(value) == None <==>
              || text == "" || text[0] == '/' || (|text| >= 2 && text[1] == ':')
              || (exists i :: 0 <= i <= |Split(text)| && Net(Split(text)[..i]) < 0)
              || Net(Split(text)) == 0
  {
    var text := Slashed(Strip(value));
    WalkIsNet(Split(text));
    SmallTexts();
    SplitOfPlain(".");
    assert ["."][..0] == [];
  }
}
