/**
 What a projection shows: when one is rendered at all, every line of it in order, which optional
 sections are in it, and what its markers say.
 */
module ProjectionShown {

  import opened Options
  import opened Paths
  import opened Projection

  // ------------------------------------------------------------------ what is expected

  /** A text that fits its cap as it is; a longer one cut to the cap, the notice included. */
  function Short(text: string, cap: nat): string
    requires cap >= 256
  {
    if |text| <= cap then text
    else StripRight(text[..cap - 69]) + "\n...[SECTION_TRUNCATED: inspect authoritative Issue only if required]"
  }

  function ValueOf(m: map<string, string>, k: string): string {
    if k in m then m[k] else ""
  }

  /** The keys that have a value, in the order given. */
  function Valued(metadata: map<string, string>, keys: seq<string>): (r: seq<string>)
    ensures forall k :: k in r <==> k in keys && k in metadata && metadata[k] != ""
  {
    if keys == [] then []
    else (if keys[0] in metadata && metadata[keys[0]] != "" then [keys[0]] else []) + Valued(metadata, keys[1..])
  }

  /** The names of sections the packet has, in the order given. */
  function Present(sections: map<string, string>, names: seq<string>): (r: seq<string>)
    ensures forall n :: n in r <==> n in names && n in sections
  {
    if names == [] then []
    else (if names[0] in sections then [names[0]] else []) + Present(sections, names[1..])
  }

  /** The names whose text is longer than the cap, in the order given. */
  function Long(texts: map<string, string>, names: seq<string>, cap: nat): seq<string> {
    if names == [] then []
    else (if |ValueOf(texts, names[0])| > cap then [names[0]] else []) + Long(texts, names[1..], cap)
  }

  /** One line for a metadata value. */
  function MetaLine(metadata: map<string, string>, key: string): string {
    key + "=" + OneLine(Short(ValueOf(metadata, key), 512))
  }

  function MetaLines(metadata: map<string, string>, keys: seq<string>): (r: seq<string>)
    ensures |r| == |keys|
  {
    if keys == [] then [] else [MetaLine(metadata, keys[0])] + MetaLines(metadata, keys[1..])
  }

  /** A section under its heading. */
  function SectionText(sections: map<string, string>, name: string, cap: nat): string
    requires cap >= 256
  {
    StripRight("## " + name + "\n\n" + Short(ValueOf(sections, name), cap))
  }

  function Texts(sections: map<string, string>, names: seq<string>, cap: nat): (r: seq<string>)
    requires cap >= 256
    ensures |r| == |names|
  {
    if names == [] then [] else [SectionText(sections, names[0], cap)] + Texts(sections, names[1..], cap)
  }

  /** Each section's share of what is left for the content: a quarter of it beyond 2048, but not
      less than 256 and not more than the caller's cap. */
  function Share(sectionCap: nat, projectionCap: nat): nat
    requires projectionCap >= 512
  {
    var quarter := (projectionCap - 512 - 2048) / 4;
    if quarter < 256 then (if sectionCap < 256 then sectionCap else 256)
    else if sectionCap < quarter then sectionCap else quarter
  }

  function Header(p: Packet, audit: Audit): seq<string> {
    MetaLines(p.metadata, Valued(p.metadata, META_ORDER)) + [audit.auditLine, audit.metricsLine]
  }

  /** The header and the required sections. */
  function Core(p: Packet, audit: Audit, cap: nat): seq<string>
    requires cap >= 256
  {
    Header(p, audit) + Texts(p.sections, REQUIRED_SECTIONS, cap)
  }

  function Optional(p: Packet): seq<string> {
    Present(p.sections, OPTIONAL_SECTIONS)
  }

  // -------------------------------------------------------------------- the pieces

  lemma {:induction false} ShortIsBounded(text: string, cap: nat)
    requires cap >= 256
    ensures Bounded(text, cap).text == Short(text, cap) && (Bounded(text, cap).clipped <==> |text| > cap)
  {
    assert |SUFFIX| == 69;
  }

  lemma {:induction false} ValuedOfSum(metadata: map<string, string>, a: seq<string>, k: string)
    ensures Valued(metadata, a + [k]) == Valued(metadata, a) + if k in metadata && metadata[k] != "" then [k] else []
  {
    if a == [] {
      assert [] + [k] == [k] && [k][1..] == [];
    } else {
      ValuedOfSum(metadata, a[1..], k);
      assert (a + [k])[1..] == a[1..] + [k];
    }
  }

  lemma {:induction false} MetaLinesOfSum(metadata: map<string, string>, a: seq<string>, k: string)
    ensures MetaLines(metadata, a + [k]) == MetaLines(metadata, a) + [MetaLine(metadata, k)]
  {
    if a == [] {
      assert [] + [k] == [k] && [k][1..] == [];
    } else {
      MetaLinesOfSum(metadata, a[1..], k);
      assert (a + [k])[1..] == a[1..] + [k];
    }
  }

  lemma {:induction false} LongOfSum(texts: map<string, string>, a: seq<string>, n: string, cap: nat)
    ensures Long(texts, a + [n], cap) == Long(texts, a, cap) + if |ValueOf(texts, n)| > cap then [n] else []
  {
    if a == [] {
      assert [] + [n] == [n] && [n][1..] == [];
    } else {
      LongOfSum(texts, a[1..], n, cap);
      assert (a + [n])[1..] == a[1..] + [n];
    }
  }

  lemma {:induction false} PresentOfSum(sections: map<string, string>, a: seq<string>, n: string)
    ensures Present(sections, a + [n]) == Present(sections, a) + if n in sections then [n] else []
  {
    if a == [] {
      assert [] + [n] == [n] && [n][1..] == [];
    } else {
      PresentOfSum(sections, a[1..], n);
      assert (a + [n])[1..] == a[1..] + [n];
    }
  }

  lemma {:induction false} TextsOfBoth(sections: map<string, string>, a: seq<string>, b: seq<string>, cap: nat)
    requires cap >= 256
    ensures Texts(sections, a + b, cap) == Texts(sections, a, cap) + Texts(sections, b, cap)
  {
    if a == [] {
      assert a + b == b;
    } else {
      TextsOfBoth(sections, a[1..], b, cap);
      assert (a + b)[1..] == a[1..] + b && (a + b)[0] == a[0];
      Regrouped([SectionText(sections, a[0], cap)], Texts(sections, a[1..], cap), Texts(sections, b, cap));
    }
  }

  lemma {:induction false} TextsOfSum(sections: map<string, string>, a: seq<string>, n: string, cap: nat)
    requires cap >= 256
    ensures Texts(sections, a + [n], cap) == Texts(sections, a, cap) + [SectionText(sections, n, cap)]
  {
    TextsOfBoth(sections, a, [n], cap);
    assert [n][1..] == [];
    assert Texts(sections, [n], cap) == [SectionText(sections, n, cap)] + Texts(sections, [], cap);
  }

  lemma {:induction false} LastOff(a: seq<string>)
    requires a != []
    ensures a[..|a| - 1] + [a[|a| - 1]] == a
  {
  }

  lemma {:induction false} MetaStep(metadata: map<string, string>, before: seq<string>, k: string)
    ensures var has := k in metadata && metadata[k] != "";
            && (!has ==> Valued(metadata, before + [k]) == Valued(metadata, before))
            && (has ==>
                  && MetaLines(metadata, Valued(metadata, before + [k])) == MetaLines(metadata, Valued(metadata, before)) + [MetaLine(metadata, k)]
                  && Long(metadata, Valued(metadata, before + [k]), 512)
                     == Long(metadata, Valued(metadata, before), 512) + if |metadata[k]| > 512 then [k] else [])
  {
    ValuedOfSum(metadata, before, k);
    if k in metadata && metadata[k] != "" {
      MetaLinesOfSum(metadata, Valued(metadata, before), k);
      LongOfSum(metadata, Valued(metadata, before), k, 512);
    }
  }

  lemma {:induction false} MetaChunkIsLine(metadata: map<string, string>, keys: seq<string>)
    ensures MetaChunks(metadata, keys) == MetaLines(metadata, Valued(metadata, keys))
    ensures ClippedMeta(metadata, keys) == Long(metadata, Valued(metadata, keys), 512)
  {
    if keys != [] {
      var before, k := keys[..|keys| - 1], keys[|keys| - 1];
      MetaChunkIsLine(metadata, before);
      LastOff(keys);
      MetaStep(metadata, before, k);
      MetaUnfolds(metadata, keys);
    }
  }

  lemma {:induction false} MetaUnfolds(metadata: map<string, string>, keys: seq<string>)
    requires keys != []
    ensures var before, k := keys[..|keys| - 1], keys[|keys| - 1];
            var has := k in metadata && metadata[k] != "";
            && (!has ==> MetaChunks(metadata, keys) == MetaChunks(metadata, before) && ClippedMeta(metadata, keys) == ClippedMeta(metadata, before))
            && (has ==>
                  && MetaChunks(metadata, keys) == MetaChunks(metadata, before) + [MetaLine(metadata, k)]
                  && ClippedMeta(metadata, keys) == ClippedMeta(metadata, before) + if |metadata[k]| > 512 then [k] else [])
  {
    var before, k := keys[..|keys| - 1], keys[|keys| - 1];
    assert MetaChunks(metadata, before) + [] == MetaChunks(metadata, before);
    assert ClippedMeta(metadata, before) + [] == ClippedMeta(metadata, before);
    if k in metadata { ShortIsBounded(metadata[k], 512); }
  }

  lemma {:induction false} ChunkIsText(p: Packet, name: string, cap: nat)
    requires name in p.sections && cap >= 256
    ensures SectionChunk(p, name, cap) == SectionText(p.sections, name, cap)
    ensures Bounded(p.sections[name], cap).clipped <==> |p.sections[name]| > cap
  {
    ShortIsBounded(p.sections[name], cap);
  }

  lemma {:induction false} LongerJoins(a: seq<string>, b: seq<string>)
    ensures |Joined(a, "\n\n")| <= |Joined(a + b, "\n\n")|
  {
    if b == [] {
      assert a + b == a;
    } else {
      LongerJoins(a, b[..|b| - 1]);
      assert (a + b)[..|a + b| - 1] == a + b[..|b| - 1];
      if |a + b| == 1 { assert a == []; }
    }
  }

  // ------------------------------------------------------------ taking the sections

  /** The chunks of `from` with some sections after them. */
  function With(chunks: seq<string>, sections: map<string, string>, names: seq<string>, cap: nat): seq<string>
    requires cap >= 256
  {
    chunks + Texts(sections, names, cap)
  }

  predicate Over(chunks: seq<string>, contentCap: nat) {
    |Joined(chunks, "\n\n")| > contentCap
  }

  lemma {:induction false} WithOneMore(chunks: seq<string>, sections: map<string, string>, names: seq<string>, name: string, cap: nat)
    requires cap >= 256
    ensures With(chunks, sections, names + [name], cap) == With(chunks, sections, names, cap) + [SectionText(sections, name, cap)]
    ensures |Joined(With(chunks, sections, names, cap), "\n\n")| <= |Joined(With(chunks, sections, names + [name], cap), "\n\n")|
  {
    TextsOfSum(sections, names, name, cap);
    var text := SectionText(sections, name, cap);
    assert chunks + (Texts(sections, names, cap) + [text]) == chunks + Texts(sections, names, cap) + [text];
    LongerJoins(With(chunks, sections, names, cap), [text]);
  }

  /** The sections are all taken, or the first of them with which it is too much is named. */
  ghost predicate AllTaken(so: Taken, from: Taken, sections: map<string, string>, names: seq<string>, cap: nat, contentCap: nat)
    requires cap >= 256
  {
    && !so.omitted
    && (so.unfit == None ==>
          && so.chunks == With(from.chunks, sections, names, cap) && so.clipped == from.clipped + Long(sections, names, cap)
          && (names != [] ==> !Over(so.chunks, contentCap)))
    && (so.unfit.Some? ==> Over(With(from.chunks, sections, names, cap), contentCap)
                           && exists i :: FirstOver(from, sections, names, i, cap, contentCap) && so.unfit == Some(names[i]))
  }

  ghost predicate FirstOver(from: Taken, sections: map<string, string>, names: seq<string>, i: int, cap: nat, contentCap: nat)
    requires cap >= 256
  {
    && 0 <= i < |names|
    && Over(With(from.chunks, sections, names[..i + 1], cap), contentCap)
    && (i > 0 ==> !Over(With(from.chunks, sections, names[..i], cap), contentCap))
  }

  lemma {:induction false} FirstOverStays(from: Taken, sections: map<string, string>, names: seq<string>, name: string, i: int, cap: nat, contentCap: nat)
    requires cap >= 256
    requires FirstOver(from, sections, names, i, cap, contentCap)
    ensures FirstOver(from, sections, names + [name], i, cap, contentCap) && (names + [name])[i] == names[i]
  {
    assert (names + [name])[..i + 1] == names[..i + 1] && (names + [name])[..i] == names[..i];
  }

  lemma {:induction false} RequiredStep(so: Taken, p: Packet, names: seq<string>, name: string, cap: nat, contentCap: nat, from: Taken)
    requires cap >= 256 && name in p.sections
    requires AllTaken(so, from, p.sections, names, cap, contentCap)
    ensures AllTaken(TakeSection(p, name, true, cap, contentCap, so), from, p.sections, names + [name], cap, contentCap)
  {
    WithOneMore(from.chunks, p.sections, names, name, cap);
    ChunkIsText(p, name, cap);
    if so.unfit.Some? {
      var i :| FirstOver(from, p.sections, names, i, cap, contentCap) && so.unfit == Some(names[i]);
      FirstOverStays(from, p.sections, names, name, i, cap, contentCap);
    } else {
      RequiredFresh(so, p, names, name, cap, contentCap, from);
    }
  }

  lemma {:induction false} ClippedOneMore(clipped: seq<string>, sections: map<string, string>, names: seq<string>, name: string, cap: nat)
    ensures clipped + Long(sections, names + [name], cap)
         == clipped + Long(sections, names, cap) + if |ValueOf(sections, name)| > cap then [name] else []
  {
    LongOfSum(sections, names, name, cap);
  }

  /** Trying one more section: what is joined with it, and what is then noted as clipped. */
  lemma {:induction false} TriesOne(so: Taken, p: Packet, names: seq<string>, name: string, required: bool, cap: nat, contentCap: nat, from: Taken)
    requires cap >= 256 && name in p.sections
    requires !so.omitted && so.unfit == None && so.chunks == With(from.chunks, p.sections, names, cap)
    requires so.clipped == from.clipped + Long(p.sections, names, cap)
    ensures var next, all := TakeSection(p, name, required, cap, contentCap, so), With(from.chunks, p.sections, names + [name], cap);
            next == if Over(all, contentCap)
                    then Taken(so.chunks, from.clipped + Long(p.sections, names + [name], cap), !required, if required then Some(name) else None)
                    else Taken(all, from.clipped + Long(p.sections, names + [name], cap), false, None)
  {
    WithOneMore(from.chunks, p.sections, names, name, cap);
    ChunkIsText(p, name, cap);
    ClippedOneMore(from.clipped, p.sections, names, name, cap);
  }

  lemma {:induction false} RequiredFresh(so: Taken, p: Packet, names: seq<string>, name: string, cap: nat, contentCap: nat, from: Taken)
    requires cap >= 256 && name in p.sections
    requires AllTaken(so, from, p.sections, names, cap, contentCap) && so.unfit == None
    ensures AllTaken(TakeSection(p, name, true, cap, contentCap, so), from, p.sections, names + [name], cap, contentCap)
  {
    TriesOne(so, p, names, name, true, cap, contentCap, from);
    var next := TakeSection(p, name, true, cap, contentCap, so);
    if next.unfit.Some? {
      assert (names + [name])[..|names| + 1] == names + [name] && (names + [name])[..|names|] == names;
      assert FirstOver(from, p.sections, names + [name], |names|, cap, contentCap);
    }
  }

  lemma {:induction false} TakesRequired(p: Packet, names: seq<string>, cap: nat, contentCap: nat, from: Taken)
    requires cap >= 256 && (forall n :: n in names ==> n in p.sections) && !from.omitted && from.unfit == None
    ensures AllTaken(TakeSections(p, names, true, cap, contentCap, from), from, p.sections, names, cap, contentCap)
    decreases |names|
  {
    if names == [] {
      assert from.chunks + [] == from.chunks && from.clipped + [] == from.clipped;
    } else {
      var before, name := names[..|names| - 1], names[|names| - 1];
      TakesRequired(p, before, cap, contentCap, from);
      RequiredStep(TakeSections(p, before, true, cap, contentCap, from), p, before, name, cap, contentCap, from);
      LastOff(names);
    }
  }

  /** The first n of the sections are taken; if that is not all, one more would have been too much. */
  ghost predicate FirstTaken(so: Taken, from: Taken, sections: map<string, string>, all: seq<string>, n: nat, cap: nat, contentCap: nat)
    requires cap >= 256
  {
    && n <= |all| && so.unfit == None && (so.omitted <==> n < |all|)
    && so.chunks == With(from.chunks, sections, all[..n], cap) && !Over(so.chunks, contentCap)
    && (n < |all| ==> Over(With(from.chunks, sections, all[..n + 1], cap), contentCap))
    && so.clipped == from.clipped + Long(sections, all[..if n < |all| then n + 1 else n], cap)
  }

  lemma {:induction false} OmittedStays(so: Taken, from: Taken, sections: map<string, string>, all: seq<string>, name: string, n: nat, cap: nat, contentCap: nat)
    requires cap >= 256
    requires FirstTaken(so, from, sections, all, n, cap, contentCap) && n < |all|
    ensures FirstTaken(so, from, sections, all + [name], n, cap, contentCap)
  {
    assert (all + [name])[..n] == all[..n] && (all + [name])[..n + 1] == all[..n + 1];
  }

  lemma {:induction false} OptionalStep(so: Taken, p: Packet, all: seq<string>, name: string, cap: nat, contentCap: nat, from: Taken) returns (m: nat)
    requires cap >= 256 && name in p.sections
    requires FirstTaken(so, from, p.sections, all, |all|, cap, contentCap)
    ensures FirstTaken(TakeSection(p, name, false, cap, contentCap, so), from, p.sections, all + [name], m, cap, contentCap)
  {
    assert all[..|all|] == all && (all + [name])[..|all| + 1] == all + [name] && (all + [name])[..|all|] == all;
    TriesOne(so, p, all, name, false, cap, contentCap, from);
    m := if Over(With(from.chunks, p.sections, all + [name], cap), contentCap) then |all| else |all| + 1;
  }

  /** Optional sections: those the packet has are taken in order until one does not fit. */
  lemma {:induction false} TakesOptional(p: Packet, names: seq<string>, cap: nat, contentCap: nat, from: Taken) returns (n: nat)
    requires cap >= 256 && !from.omitted && from.unfit == None && !Over(from.chunks, contentCap)
    ensures FirstTaken(TakeSections(p, names, false, cap, contentCap, from), from, p.sections, Present(p.sections, names), n, cap, contentCap)
    decreases |names|
  {
    if names == [] {
      n := 0;
      assert from.chunks + [] == from.chunks && from.clipped + [] == from.clipped;
    } else {
      var before, name := names[..|names| - 1], names[|names| - 1];
      var so, was := TakeSections(p, before, false, cap, contentCap, from), Present(p.sections, before);
      n := TakesOptional(p, before, cap, contentCap, from);
      LastOff(names);
      PresentOfSum(p.sections, before, name);
      if name !in p.sections {
        assert was + [] == was;
      } else if n < |was| {
        OmittedStays(so, from, p.sections, was, name, n, cap, contentCap);
      } else {
        n := OptionalStep(so, p, was, name, cap, contentCap, from);
      }
    }
  }

  // ---------------------------------------------------------------- the whole of it

  /** Nothing blocks the packet, and every required section is there. */
  ghost predicate Complete(p: Packet, audit: Audit) {
    audit.blocking == {} && forall n :: n in REQUIRED_SECTIONS ==> n in p.sections
  }

  lemma {:induction false} CompleteIff(p: Packet, audit: Audit)
    ensures Complete(p, audit) <==> !Blocked(p, audit)
  {
    if !Complete(p, audit) && audit.blocking == {} {
      var n :| n in REQUIRED_SECTIONS && n !in p.sections;
      var i :| 0 <= i < |REQUIRED_SECTIONS| && REQUIRED_SECTIONS[i] == n;
      assert REQUIRED_SECTIONS[i] !in p.sections;
    }
    if Blocked(p, audit) && audit.blocking == {} {
      var i :| 0 <= i < |REQUIRED_SECTIONS| && REQUIRED_SECTIONS[i] !in p.sections;
      assert REQUIRED_SECTIONS[i] in REQUIRED_SECTIONS;
    }
  }

  lemma {:induction false} ShareIsCap(sectionCap: nat, projectionCap: nat)
    requires sectionCap >= 256 && projectionCap >= 1024
    ensures SectionCap(sectionCap, projectionCap - TAIL_RESERVE) == Share(sectionCap, projectionCap) >= 256
  {
  }

  /** How the body of a packet with all its required sections comes about. */
  lemma {:induction false} BodyIs(p: Packet, audit: Audit, sectionCap: nat, projectionCap: nat) returns (n: nat)
    requires sectionCap >= 256 && projectionCap >= 1024 && Complete(p, audit)
    ensures n <= |Optional(p)|
    ensures var body, cap := Body(p, audit, sectionCap, projectionCap - TAIL_RESERVE), Share(sectionCap, projectionCap);
            var from := Taken(Core(p, audit, cap), Long(p.sections, REQUIRED_SECTIONS, cap), false, None);
            && (body.unfit == None <==> !Over(Core(p, audit, cap), projectionCap - TAIL_RESERVE))
            && (body.unfit == None ==> FirstTaken(body, from, p.sections, Optional(p), n, cap, projectionCap - TAIL_RESERVE))
            && (body.unfit.Some? ==>
                  exists i :: FirstOver(Taken(Header(p, audit), [], false, None), p.sections, REQUIRED_SECTIONS, i, cap,
                                        projectionCap - TAIL_RESERVE)
                    && body.unfit == Some(REQUIRED_SECTIONS[i]))
  {
    var contentCap, cap := projectionCap - TAIL_RESERVE, Share(sectionCap, projectionCap);
    ShareIsCap(sectionCap, projectionCap);
    MetaChunkIsLine(p.metadata, META_ORDER);
    var start := Taken(Header(p, audit), [], false, None);
    TakesRequired(p, REQUIRED_SECTIONS, cap, contentCap, start);
    var so := TakeSections(p, REQUIRED_SECTIONS, true, cap, contentCap, start);
    assert With(start.chunks, p.sections, REQUIRED_SECTIONS, cap) == Core(p, audit, cap);
    assert [] + Long(p.sections, REQUIRED_SECTIONS, cap) == Long(p.sections, REQUIRED_SECTIONS, cap);
    n := 0;
    if so.unfit == None {
      n := TakesOptional(p, OPTIONAL_SECTIONS, cap, contentCap, so);
    } else {
      UnfitStays(p, OPTIONAL_SECTIONS, cap, contentCap, so);
    }
  }

  predicate Legal(sectionCap: nat, projectionCap: nat) {
    sectionCap >= 256 && projectionCap >= 1024
  }

  /** When each answer is given: a projection is rendered exactly if the caps are legal, nothing
      blocks the packet, and the header and required sections fit; and of required sections that do
      not fit the first one is named. */
  lemma {:induction false} AnswersMean(p: Packet, audit: Audit, sectionCap: nat, projectionCap: nat)
    ensures var r := Project(p, audit, sectionCap, projectionCap);
            && (r == BoundInvalid <==> !Legal(sectionCap, projectionCap))
            && (r == StructureInvalid <==> Legal(sectionCap, projectionCap) && !Complete(p, audit))
            && (r.Rendered? <==>
                  && Legal(sectionCap, projectionCap) && Complete(p, audit)
                  && |Joined(Core(p, audit, Share(sectionCap, projectionCap)), "\n\n")| + 512 <= projectionCap)
            && (r.RequiredSectionUnfit? ==>
                  && Legal(sectionCap, projectionCap) && Complete(p, audit)
                  && exists i :: FirstOver(Taken(Header(p, audit), [], false, None), p.sections, REQUIRED_SECTIONS, i,
                                           Share(sectionCap, projectionCap), projectionCap - 512)
                       && r.name == REQUIRED_SECTIONS[i])
            && r != BoundExceeded
  {
    CompleteIff(p, audit);
    if Legal(sectionCap, projectionCap) && Complete(p, audit) {
      var n := BodyIs(p, audit, sectionCap, projectionCap);
      BoundIsNeverExceeded(p, audit, sectionCap, projectionCap);
    }
  }

  /** The lines that end a projection. */
  function Ending(clippedMeta: seq<string>, clippedSections: seq<string>, omitted: bool): seq<string> {
    (if clippedMeta == [] then [] else ["TRUNCATED_METADATA=" + Joined(clippedMeta, ",")])
    + (if clippedSections == [] then [] else ["TRUNCATED_SECTIONS=" + Joined(clippedSections, ",")])
    + (if omitted then ["PROJECTION_TRUNCATED=YES"] else [])
    + ["PACKET_PROJECTION=PASS"]
  }

  /** The first k of some sections fit with what goes before them. */
  predicate RoomIn(chunks: seq<string>, sections: map<string, string>, all: seq<string>, cap: nat, projectionCap: nat, k: nat)
    requires cap >= 256 && k <= |all|
  {
    |Joined(With(chunks, sections, all[..k], cap), "\n\n")| + 512 <= projectionCap
  }

  /** The first k of the optional sections the packet has fit with what goes before them. */
  predicate RoomFor(p: Packet, audit: Audit, cap: nat, projectionCap: nat, k: nat)
    requires cap >= 256 && k <= |Optional(p)|
  {
    RoomIn(Core(p, audit, cap), p.sections, Optional(p), cap, projectionCap, k)
  }

  /** A projection line by line: a line for each metadata value there is, the two lines of the audit,
      the required sections, then the first n of the optional sections the packet has; and at the end
      which values and which of the sections tried were clipped, and whether an optional section was
      left out. */
  function FullText(p: Packet, audit: Audit, cap: nat, n: nat): string
    requires cap >= 256 && n <= |Optional(p)|
  {
    var all := Optional(p);
    var tried := all[..if n < |all| then n + 1 else n];
    Joined(With(Core(p, audit, cap), p.sections, all[..n], cap)
           + Ending(Long(p.metadata, Valued(p.metadata, META_ORDER), 512),
                    Long(p.sections, REQUIRED_SECTIONS, cap) + Long(p.sections, tried, cap), n < |all|), "\n\n") + "\n"
  }

  lemma {:induction false} EndingIsTail(clippedMeta: seq<string>, clipped: seq<string>, omitted: bool)
    ensures Tail(clippedMeta, clipped, omitted) == Ending(clippedMeta, clipped, omitted)
  {
  }

  lemma {:induction false} TextIs(p: Packet, audit: Audit, body: Taken, cap: nat, n: nat, contentCap: nat)
    requires cap >= 256 && n <= |Optional(p)|
    requires FirstTaken(body, Taken(Core(p, audit, cap), Long(p.sections, REQUIRED_SECTIONS, cap), false, None), p.sections,
                        Optional(p), n, cap, contentCap)
    ensures Joined(body.chunks + Tail(ClippedMeta(p.metadata, META_ORDER), body.clipped, body.omitted), "\n\n") + "\n"
         == FullText(p, audit, cap, n)
  {
    MetaChunkIsLine(p.metadata, META_ORDER);
    EndingIsTail(ClippedMeta(p.metadata, META_ORDER), body.clipped, body.omitted);
  }

  /** What is rendered is the full text with as many of the optional sections as there is room for. */
  lemma {:induction false} RenderedIs(p: Packet, audit: Audit, sectionCap: nat, projectionCap: nat) returns (n: nat)
    requires Project(p, audit, sectionCap, projectionCap).Rendered?
    ensures Legal(sectionCap, projectionCap) && Complete(p, audit) && n <= |Optional(p)|
    ensures var cap := Share(sectionCap, projectionCap);
            && Project(p, audit, sectionCap, projectionCap) == Rendered(FullText(p, audit, cap, n))
            && RoomFor(p, audit, cap, projectionCap, n)
            && (n < |Optional(p)| ==> !RoomFor(p, audit, cap, projectionCap, n + 1))
  {
    CompleteIff(p, audit);
    n := BodyIs(p, audit, sectionCap, projectionCap);
    TextIs(p, audit, Body(p, audit, sectionCap, projectionCap - TAIL_RESERVE), Share(sectionCap, projectionCap), n,
           projectionCap - TAIL_RESERVE);
  }

  lemma {:induction false} MoreIsLonger(chunks: seq<string>, sections: map<string, string>, a: seq<string>, b: seq<string>, cap: nat)
    requires cap >= 256
    ensures |Joined(With(chunks, sections, a, cap), "\n\n")| <= |Joined(With(chunks, sections, a + b, cap), "\n\n")|
  {
    var ta, tb := Texts(sections, a, cap), Texts(sections, b, cap);
    TextsOfBoth(sections, a, b, cap);
    LongerJoins(chunks + ta, tb);
    Regrouped(chunks, ta, tb);
  }

  lemma {:induction false} Regrouped(a: seq<string>, b: seq<string>, c: seq<string>)
    ensures a + b + c == a + (b + c)
  {
  }

  /** Room for more sections is room for fewer. */
  lemma {:induction false} RoomForFewer(chunks: seq<string>, sections: map<string, string>, all: seq<string>, cap: nat, projectionCap: nat, j: nat, k: nat)
    requires cap >= 256 && j <= k <= |all| && RoomIn(chunks, sections, all, cap, projectionCap, k)
    ensures RoomIn(chunks, sections, all, cap, projectionCap, j)
  {
    assert all[..k] == all[..j] + all[j..k];
    MoreIsLonger(chunks, sections, all[..j], all[j..k], cap);
  }

  lemma {:induction false} ShownIff(chunks: seq<string>, sections: map<string, string>, all: seq<string>, cap: nat, projectionCap: nat, n: nat, i: nat)
    requires cap >= 256 && n <= |all| && i < |all| && RoomIn(chunks, sections, all, cap, projectionCap, n)
    requires n < |all| ==> !RoomIn(chunks, sections, all, cap, projectionCap, n + 1)
    ensures i < n <==> RoomIn(chunks, sections, all, cap, projectionCap, i + 1)
  {
    if i < n {
      RoomForFewer(chunks, sections, all, cap, projectionCap, i + 1, n);
    } else if RoomIn(chunks, sections, all, cap, projectionCap, i + 1) {
      RoomForFewer(chunks, sections, all, cap, projectionCap, n + 1, i + 1);
    }
  }

  /** Of the optional sections the packet has, the i-th is among those shown if and only if it fits
      with all before it. */
  lemma {:induction false} OptionalShownIff(p: Packet, audit: Audit, sectionCap: nat, projectionCap: nat, i: nat) returns (n: nat)
    requires Project(p, audit, sectionCap, projectionCap).Rendered? && i < |Optional(p)|
    ensures Legal(sectionCap, projectionCap) && Complete(p, audit) && n <= |Optional(p)|
    ensures Project(p, audit, sectionCap, projectionCap) == Rendered(FullText(p, audit, Share(sectionCap, projectionCap), n))
    ensures i < n <==> RoomFor(p, audit, Share(sectionCap, projectionCap), projectionCap, i + 1)
  {
    n := RenderedIs(p, audit, sectionCap, projectionCap);
    var cap := Share(sectionCap, projectionCap);
    ShownIff(Core(p, audit, cap), p.sections, Optional(p), cap, projectionCap, n, i);
  }
}
