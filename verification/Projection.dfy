/**
 The bounded projection of a work packet (tools/context_epoch.py): metadata and sections are
 clipped and joined up to a cap that leaves room for a tail of markers.
 */
module Projection {

  import opened Options
  import opened Paths

  const META_ORDER: seq<string> := [
    "PACKET_VERSION", "TARGET_REPO", "WORKSTREAM", "STATUS", "BRANCH", "TASK_KIND", "OWNER_INTENT",
    "LAST_VERIFIED_HEAD", "PRIORITY", "INTENT_REVISION", "CHANGE_RISK", "EXECUTION_PROFILE",
    "EXECUTION_PROFILE_REVISION", "IMPLEMENTER"]
  const REQUIRED_SECTIONS: seq<string> := ["Goal", "Current State", "Next Action", "Blockers"]
  const OPTIONAL_SECTIONS: seq<string> := [
    "Handoff Sizing", "Completion Contract", "Constraints", "Canonical References", "Latest Evidence"]
  const META_VALUE_CAP: nat := 512
  const TAIL_RESERVE: nat := 512
  const SUFFIX: string := "\n...[SECTION_TRUNCATED: inspect authoritative Issue only if required]"

  datatype Packet = Packet(metadata: map<string, string>, sections: map<string, string>)

  /** The rest of the audit: what else blocks the packet, and the two lines that report on it. */
  datatype Audit = Audit(blocking: set<string>, auditLine: string, metricsLine: string)

  datatype Outcome =
    | Rendered(text: string)
    | BoundInvalid
    | StructureInvalid
    | RequiredSectionUnfit(name: string)
    | BoundExceeded

  /** A packet with a required section missing is blocked whatever else is said of it. */
  predicate Blocked(p: Packet, audit: Audit) {
    audit.blocking != {} || exists i :: 0 <= i < |REQUIRED_SECTIONS| && REQUIRED_SECTIONS[i] !in p.sections
  }

  datatype Clip = Clip(text: string, clipped: bool)

  function Bounded(text: string, cap: nat): Clip {
    if |text| <= cap then Clip(text, false)
    else
      var keep := if cap >= |SUFFIX| then cap - |SUFFIX| else 0;
      Clip(StripRight(text[..keep]) + SUFFIX, true)
  }

  function OneLine(s: string): (r: string)
    ensures |r| == |s| && '\n' !in r
    ensures forall i :: 0 <= i < |s| ==> r[i] == if s[i] == '\n' then ' ' else s[i]
  {
    if s == "" then "" else [if s[0] == '\n' then ' ' else s[0]] + OneLine(s[1..])
  }

  function Joined(chunks: seq<string>, sep: string): string {
    if chunks == [] then ""
    else if |chunks| == 1 then chunks[0]
    else Joined(chunks[..|chunks| - 1], sep) + sep + chunks[|chunks| - 1]
  }

  /** One line for each metadata value there is, clipped to its cap. */
  function MetaChunks(metadata: map<string, string>, keys: seq<string>): seq<string> {
    if keys == [] then []
    else
      var k := keys[|keys| - 1];
      MetaChunks(metadata, keys[..|keys| - 1])
      + if k in metadata && metadata[k] != "" then [k + "=" + OneLine(Bounded(metadata[k], META_VALUE_CAP).text)] else []
  }

  function ClippedMeta(metadata: map<string, string>, keys: seq<string>): seq<string> {
    if keys == [] then []
    else
      var k := keys[|keys| - 1];
      ClippedMeta(metadata, keys[..|keys| - 1])
      + if k in metadata && metadata[k] != "" && Bounded(metadata[k], META_VALUE_CAP).clipped then [k] else []
  }

  function SectionChunk(p: Packet, name: string, cap: nat): string
    requires name in p.sections
  {
    StripRight("## " + name + "\n\n" + Bounded(p.sections[name], cap).text)
  }

  /** How far the sections have been taken: the chunks so far, which were clipped, and whether an
      optional one did not fit or which required one did not. */
  datatype Taken = Taken(chunks: seq<string>, clipped: seq<string>, omitted: bool, unfit: Option<string>)

  function TakeSection(p: Packet, name: string, required: bool, cap: nat, contentCap: nat, so: Taken): Taken {
    if so.omitted || so.unfit.Some? || name !in p.sections then so
    else
      var clipped := so.clipped + if Bounded(p.sections[name], cap).clipped then [name] else [];
      var chunks := so.chunks + [SectionChunk(p, name, cap)];
      if |Joined(chunks, "\n\n")| <= contentCap then Taken(chunks, clipped, false, None)
      else if required then so.(clipped := clipped, unfit := Some(name))
      else so.(clipped := clipped, omitted := true)
  }

  function TakeSections(p: Packet, names: seq<string>, required: bool, cap: nat, contentCap: nat, from: Taken): Taken {
    if names == [] then from
    else
      TakeSection(p, names[|names| - 1], required, cap, contentCap,
                  TakeSections(p, names[..|names| - 1], required, cap, contentCap, from))
  }

  function SectionCap(sectionCap: nat, contentCap: int): nat {
    var share := (contentCap - 2048) / 4;
    var required := if share >= 256 then share else 256;
    if sectionCap <= required then sectionCap else required
  }

  /** A marker that lists some names, if there are any. */
  function Marker(title: string, names: seq<string>): seq<string> {
    if names == [] then [] else [title + Joined(names, ",")]
  }

  function Tail(clippedMeta: seq<string>, clipped: seq<string>, omitted: bool): seq<string> {
    Marker("TRUNCATED_METADATA=", clippedMeta)
    + Marker("TRUNCATED_SECTIONS=", clipped)
    + (if omitted then ["PROJECTION_TRUNCATED=YES"] else [])
    + ["PACKET_PROJECTION=PASS"]
  }

  /** Everything up to the tail: required sections first, then the optional ones that fit. */
  function Body(p: Packet, audit: Audit, sectionCap: nat, contentCap: nat): Taken {
    var header := MetaChunks(p.metadata, META_ORDER) + [audit.auditLine, audit.metricsLine];
    var cap := SectionCap(sectionCap, contentCap);
    TakeSections(p, OPTIONAL_SECTIONS, false, cap, contentCap,
      TakeSections(p, REQUIRED_SECTIONS, true, cap, contentCap, Taken(header, [], false, None)))
  }

  function Project(p: Packet, audit: Audit, sectionCap: nat, projectionCap: nat): Outcome {
    if sectionCap < 256 || projectionCap < 1024 then BoundInvalid
    else if Blocked(p, audit) then StructureInvalid
    else
      var body := Body(p, audit, sectionCap, projectionCap - TAIL_RESERVE);
      if body.unfit.Some? then RequiredSectionUnfit(body.unfit.value)
      else
        var tail := Tail(ClippedMeta(p.metadata, META_ORDER), body.clipped, body.omitted);
        var text := Joined(body.chunks + tail, "\n\n") + "\n";
        if |text| > projectionCap then BoundExceeded else Rendered(text)
  }

  // ------------------------------------------------------------------ the method

  method ProjectPacket(p: Packet, audit: Audit, sectionCap: nat, projectionCap: nat) returns (r: Outcome)
    ensures r == Project(p, audit, sectionCap, projectionCap)
  {
    if sectionCap < 256 || projectionCap < 1024 { return BoundInvalid; }
    if Blocked(p, audit) { return StructureInvalid; }
    var contentCap := projectionCap - TAIL_RESERVE;
    var cap := SectionCap(sectionCap, contentCap);
    var chunks, clippedMeta := MetaLoop(p.metadata);
    chunks := chunks + [audit.auditLine, audit.metricsLine];
    var so := Taken(chunks, [], false, None);
    so := SectionLoop(p, REQUIRED_SECTIONS, true, cap, contentCap, so);
    so := SectionLoop(p, OPTIONAL_SECTIONS, false, cap, contentCap, so);
    if so.unfit.Some? { return RequiredSectionUnfit(so.unfit.value); }
    chunks := so.chunks;
    if clippedMeta != [] { chunks := chunks + ["TRUNCATED_METADATA=" + Joined(clippedMeta, ",")]; }
    if so.clipped != [] { chunks := chunks + ["TRUNCATED_SECTIONS=" + Joined(so.clipped, ",")]; }
    if so.omitted { chunks := chunks + ["PROJECTION_TRUNCATED=YES"]; }
    chunks := chunks + ["PACKET_PROJECTION=PASS"];
    assert chunks == so.chunks + Tail(clippedMeta, so.clipped, so.omitted);
    var text := Joined(chunks, "\n\n") + "\n";
    r := if |text| > projectionCap then BoundExceeded else Rendered(text);
  }

  /** One line for each metadata value, noting which had to be clipped. */
  method MetaLoop(metadata: map<string, string>) returns (chunks: seq<string>, clippedMeta: seq<string>)
    ensures chunks == MetaChunks(metadata, META_ORDER) && clippedMeta == ClippedMeta(metadata, META_ORDER)
  {
    chunks, clippedMeta := [], [];
    var i := 0;
    while i < |META_ORDER|
      invariant 0 <= i <= |META_ORDER|
      invariant chunks == MetaChunks(metadata, META_ORDER[..i])
      invariant clippedMeta == ClippedMeta(metadata, META_ORDER[..i])
    {
      var key := META_ORDER[i];
      assert META_ORDER[..i + 1][..i] == META_ORDER[..i] && META_ORDER[..i + 1][i] == key;
      i := i + 1;
      if key !in metadata || metadata[key] == "" { continue; }
      var bounded := Bounded(metadata[key], META_VALUE_CAP);
      if bounded.clipped { clippedMeta := clippedMeta + [key]; }
      chunks := chunks + [key + "=" + OneLine(bounded.text)];
    }
    assert META_ORDER[..i] == META_ORDER;
  }

  /** Take sections one by one until one does not fit. */
  method SectionLoop(p: Packet, names: seq<string>, required: bool, cap: nat, contentCap: nat, from: Taken) returns (so: Taken)
    ensures so == TakeSections(p, names, required, cap, contentCap, from)
  {
    so := from;
    if so.omitted || so.unfit.Some? {
      RestIsSkipped(p, names, 0, required, cap, contentCap, from);
      return;
    }
    var i := 0;
    while i < |names|
      invariant 0 <= i <= |names| && so == TakeSections(p, names[..i], required, cap, contentCap, from)
      invariant !so.omitted && so.unfit == None
    {
      var name := names[i];
      assert names[..i + 1][..i] == names[..i] && names[..i + 1][i] == name;
      i := i + 1;
      so := TakeNext(p, name, required, cap, contentCap, so);
      if so.omitted || so.unfit.Some? { break; }
    }
    RestIsSkipped(p, names, i, required, cap, contentCap, from);
    assert names[..|names|] == names;
  }

  /** Try one section: take it if what is joined so far still fits with it. */
  method TakeNext(p: Packet, name: string, required: bool, cap: nat, contentCap: nat, so: Taken) returns (next: Taken)
    requires !so.omitted && so.unfit == None
    ensures next == TakeSection(p, name, required, cap, contentCap, so)
  {
    if name !in p.sections { return so; }
    var bounded := Bounded(p.sections[name], cap);
    var clipped := if bounded.clipped then so.clipped + [name] else so.clipped;
    var chunk := StripRight("## " + name + "\n\n" + bounded.text);
    var candidate := Joined(so.chunks + [chunk], "\n\n");
    if |candidate| > contentCap {
      next := if required then so.(clipped := clipped, unfit := Some(name)) else so.(clipped := clipped, omitted := true);
    } else {
      next := Taken(so.chunks + [chunk], clipped, false, None);
    }
  }

  /** Once a section did not fit, the ones after it change nothing. */
  lemma {:induction false} RestIsSkipped(p: Packet, names: seq<string>, i: nat, required: bool, cap: nat, contentCap: nat, from: Taken)
    requires i <= |names|
    ensures var so := TakeSections(p, names[..i], required, cap, contentCap, from);
            so.omitted || so.unfit.Some? ==> TakeSections(p, names, required, cap, contentCap, from) == so
    decreases |names|
  {
    if i < |names| {
      RestIsSkipped(p, names[..|names| - 1], i, required, cap, contentCap, from);
      assert names[..|names| - 1][..i] == names[..i];
    } else {
      assert names[..i] == names;
    }
  }

  // -------------------------------------------------------------- what it guarantees

  /** A clipped text fits its cap and says that it was clipped; a short one is left as it is. */
  lemma {:induction false} BoundedFits(text: string, cap: nat)
    requires cap >= 256
    ensures |Bounded(text, cap).text| <= cap
    ensures Bounded(text, cap).clipped <==> |text| > cap
    ensures !Bounded(text, cap).clipped ==> Bounded(text, cap).text == text
    ensures Bounded(text, cap).clipped ==>
              |Bounded(text, cap).text| >= |SUFFIX| && Bounded(text, cap).text[|Bounded(text, cap).text| - |SUFFIX|..] == SUFFIX
  {
    assert |SUFFIX| <= 256;
  }

  /** The room some names take in a list. */
  function Room(names: seq<string>): nat {
    if names == [] then 0 else Room(names[..|names| - 1]) + |names[|names| - 1]| + 1
  }

  lemma {:induction false} RoomOfSum(a: seq<string>, b: seq<string>)
    ensures Room(a + b) == Room(a) + Room(b)
  {
    if b == [] {
      assert a + b == a;
    } else {
      RoomOfSum(a, b[..|b| - 1]);
      assert (a + b)[..|a + b| - 1] == a + b[..|b| - 1];
    }
  }

  lemma {:induction false} RoomOfList(names: seq<string>)
    ensures names != [] ==> |Joined(names, ",")| + 1 == Room(names)
  {
    if |names| > 1 { RoomOfList(names[..|names| - 1]); }
  }

  lemma {:induction false} ClippedMetaRoom(metadata: map<string, string>, keys: seq<string>)
    ensures Room(ClippedMeta(metadata, keys)) <= Room(keys)
  {
    if keys != [] {
      var before, k := keys[..|keys| - 1], keys[|keys| - 1];
      ClippedMetaRoom(metadata, before);
      RoomOfSum(ClippedMeta(metadata, before), [k]);
      assert [k][..0] == [];
      assert ClippedMeta(metadata, before) + [] == ClippedMeta(metadata, before);
    }
  }

  lemma {:induction false} ClippedSectionsRoom(p: Packet, names: seq<string>, required: bool, cap: nat, contentCap: nat, from: Taken)
    ensures Room(TakeSections(p, names, required, cap, contentCap, from).clipped) <= Room(from.clipped) + Room(names)
  {
    if names != [] {
      var before, name := names[..|names| - 1], names[|names| - 1];
      ClippedSectionsRoom(p, before, required, cap, contentCap, from);
      var so := TakeSections(p, before, required, cap, contentCap, from);
      RoomOfSum(so.clipped, [name]);
      assert [name][..0] == [];
      assert so.clipped + [] == so.clipped;
    }
  }

  lemma {:induction false} RoomOfOne(a: string)
    ensures Room([a]) == |a| + 1
  {
    assert [a][..0] == [];
  }

  lemma {:induction false} RoomOfFour(a: string, b: string, c: string, d: string)
    ensures Room([a, b, c, d]) == |a| + |b| + |c| + |d| + 4
  {
    RoomOfOne(a);
    RoomOfOne(b);
    RoomOfOne(c);
    RoomOfOne(d);
    RoomOfSum([a], [b]);
    RoomOfSum([c], [d]);
    RoomOfSum([a, b], [c, d]);
    assert [a] + [b] == [a, b] && [c] + [d] == [c, d] && [a, b] + [c, d] == [a, b, c, d];
  }

  /** All the metadata keys a marker can list. */
  lemma {:induction false} MetaRoom()
    ensures Room(META_ORDER) == 188
  {
    var a := ["PACKET_VERSION", "TARGET_REPO", "WORKSTREAM", "STATUS"];
    var b := ["BRANCH", "TASK_KIND", "OWNER_INTENT", "LAST_VERIFIED_HEAD"];
    var c := ["PRIORITY", "INTENT_REVISION", "CHANGE_RISK", "EXECUTION_PROFILE"];
    RoomOfFour(a[0], a[1], a[2], a[3]);
    RoomOfFour(b[0], b[1], b[2], b[3]);
    RoomOfFour(c[0], c[1], c[2], c[3]);
    RoomOfOne("EXECUTION_PROFILE_REVISION");
    RoomOfOne("IMPLEMENTER");
    RoomOfSum(["EXECUTION_PROFILE_REVISION"], ["IMPLEMENTER"]);
    RoomOfSum(c, ["EXECUTION_PROFILE_REVISION"] + ["IMPLEMENTER"]);
    RoomOfSum(b, c + (["EXECUTION_PROFILE_REVISION"] + ["IMPLEMENTER"]));
    RoomOfSum(a, b + (c + (["EXECUTION_PROFILE_REVISION"] + ["IMPLEMENTER"])));
    assert META_ORDER == a + (b + (c + (["EXECUTION_PROFILE_REVISION"] + ["IMPLEMENTER"])));
  }

  /** All the section names a marker can list. */
  lemma {:induction false} SectionRoom()
    ensures Room(REQUIRED_SECTIONS) + Room(OPTIONAL_SECTIONS) == 124
  {
    RoomOfFour("Goal", "Current State", "Next Action", "Blockers");
    RoomOfFour("Handoff Sizing", "Completion Contract", "Constraints", "Canonical References");
    RoomOfOne("Latest Evidence");
    RoomOfSum(["Handoff Sizing", "Completion Contract", "Constraints", "Canonical References"], ["Latest Evidence"]);
    assert OPTIONAL_SECTIONS
        == ["Handoff Sizing", "Completion Contract", "Constraints", "Canonical References"] + ["Latest Evidence"];
  }

  // ---------------------------------------------------------------- the reserve

  lemma {:induction false} JoinedGrows(chunks: seq<string>, c: string)
    ensures |Joined(chunks + [c], "\n\n")| <= |Joined(chunks, "\n\n")| + 2 + |c|
  {
    assert (chunks + [c])[..|chunks|] == chunks;
  }

  lemma {:induction false} MarkerFits(chunks: seq<string>, marker: seq<string>, n: nat)
    requires marker == [] || (|marker| == 1 && |marker[0]| <= n)
    ensures |Joined(chunks + marker, "\n\n")| <= |Joined(chunks, "\n\n")| + 2 + n
  {
    if marker == [] {
      assert chunks + marker == chunks;
    } else {
      JoinedGrows(chunks, marker[0]);
      assert marker == [marker[0]];
    }
  }

  lemma {:induction false} MarkerRoom(title: string, names: seq<string>)
    ensures Marker(title, names) == [] || (|Marker(title, names)| == 1 && |Marker(title, names)[0]| + 1 == |title| + Room(names))
  {
    RoomOfList(names);
  }

  lemma {:induction false} FourParts(chunks: seq<string>, one: seq<string>, two: seq<string>, three: seq<string>, four: seq<string>)
    ensures chunks + (one + two + three + four) == chunks + one + two + three + four
  {
  }

  /** The longest tail fits in the reserve with room to spare. */
  lemma {:induction false} TailFits(chunks: seq<string>, clippedMeta: seq<string>, clipped: seq<string>, omitted: bool)
    requires Room(clippedMeta) <= 188 && Room(clipped) <= 124
    ensures |Joined(chunks + Tail(clippedMeta, clipped, omitted), "\n\n") + "\n"| <= |Joined(chunks, "\n\n")| + 403
  {
    var one, two := Marker("TRUNCATED_METADATA=", clippedMeta), Marker("TRUNCATED_SECTIONS=", clipped);
    var three: seq<string> := if omitted then ["PROJECTION_TRUNCATED=YES"] else [];
    MarkerRoom("TRUNCATED_METADATA=", clippedMeta);
    MarkerRoom("TRUNCATED_SECTIONS=", clipped);
    FourParts(chunks, one, two, three, ["PACKET_PROJECTION=PASS"]);
    ThreeMarkersFit(chunks, one, two, three);
    JoinedGrows(chunks + one + two + three, "PACKET_PROJECTION=PASS");
  }

  lemma {:induction false} ThreeMarkersFit(chunks: seq<string>, one: seq<string>, two: seq<string>, three: seq<string>)
    requires one == [] || (|one| == 1 && |one[0]| <= 206)
    requires two == [] || (|two| == 1 && |two[0]| <= 142)
    requires three == [] || (|three| == 1 && |three[0]| <= 24)
    ensures |Joined(chunks + one + two + three, "\n\n")| <= |Joined(chunks, "\n\n")| + 378
  {
    MarkerFits(chunks, one, 206);
    MarkerFits(chunks + one, two, 142);
    MarkerFits(chunks + one + two, three, 24);
  }

  /** Taking sections never leaves more than the content cap once one of them has been taken. */
  lemma {:induction false} TakenFits(p: Packet, names: seq<string>, required: bool, cap: nat, contentCap: nat, from: Taken)
    requires |Joined(from.chunks, "\n\n")| <= contentCap
    ensures |Joined(TakeSections(p, names, required, cap, contentCap, from).chunks, "\n\n")| <= contentCap
  {
    if names != [] { TakenFits(p, names[..|names| - 1], required, cap, contentCap, from); }
  }

  lemma {:induction false} TakeOne(p: Packet, name: string, cap: nat, contentCap: nat, so: Taken, c: string)
    requires name in p.sections && !so.omitted
    ensures var next := TakeSection(p, name, true, cap, contentCap, so);
            && !next.omitted && (next.unfit == None ==> so.unfit == None)
            && (next.unfit == None ==>
                  && |Joined(next.chunks, "\n\n")| <= contentCap
                  && SectionChunk(p, name, cap) in next.chunks
                  && (c in so.chunks ==> c in next.chunks))
  {
  }

  lemma {:induction false} NeverOmitted(p: Packet, names: seq<string>, cap: nat, contentCap: nat, from: Taken)
    requires !from.omitted
    ensures !TakeSections(p, names, true, cap, contentCap, from).omitted
  {
    if names != [] { NeverOmitted(p, names[..|names| - 1], cap, contentCap, from); }
  }

  /** When the required sections are there and fit, each is in the body, whole or clipped. */
  lemma {:induction false} RequiredTaken(p: Packet, names: seq<string>, cap: nat, contentCap: nat, from: Taken, i: nat)
    requires forall k :: 0 <= k < |names| ==> names[k] in p.sections
    requires !from.omitted && i < |names|
    ensures var so := TakeSections(p, names, true, cap, contentCap, from);
            so.unfit == None ==> |Joined(so.chunks, "\n\n")| <= contentCap && SectionChunk(p, names[i], cap) in so.chunks
  {
    var n := |names| - 1;
    var name, chunk := names[n], SectionChunk(p, names[i], cap);
    var so := TakeSections(p, names[..n], true, cap, contentCap, from);
    NeverOmitted(p, names[..n], cap, contentCap, from);
    if i < n {
      RequiredTaken(p, names[..n], cap, contentCap, from, i);
      assert names[..n][i] == names[i];
    } else {
      assert name == names[i];
    }
    TakeOne(p, name, cap, contentCap, so, chunk);
    var next := TakeSection(p, name, true, cap, contentCap, so);
    assert next.unfit == None ==> chunk in next.chunks;
  }

  lemma {:induction false} OptionalKeeps(p: Packet, names: seq<string>, cap: nat, contentCap: nat, from: Taken, c: string)
    requires c in from.chunks && from.unfit == None
    ensures c in TakeSections(p, names, false, cap, contentCap, from).chunks
    ensures TakeSections(p, names, false, cap, contentCap, from).unfit == None
  {
    if names != [] { OptionalKeeps(p, names[..|names| - 1], cap, contentCap, from, c); }
  }

  lemma {:induction false} UnfitStays(p: Packet, names: seq<string>, cap: nat, contentCap: nat, from: Taken)
    requires from.unfit.Some?
    ensures TakeSections(p, names, false, cap, contentCap, from) == from
  {
    if names != [] { UnfitStays(p, names[..|names| - 1], cap, contentCap, from); }
  }

  /** The body of a projection: within the content cap, and showing every required section. */
  lemma {:induction false} BodyFits(p: Packet, audit: Audit, sectionCap: nat, contentCap: nat, i: nat)
    requires !Blocked(p, audit) && i < |REQUIRED_SECTIONS|
    ensures var body := Body(p, audit, sectionCap, contentCap);
            body.unfit == None ==>
              && |Joined(body.chunks, "\n\n")| <= contentCap
              && SectionChunk(p, REQUIRED_SECTIONS[i], SectionCap(sectionCap, contentCap)) in body.chunks
  {
    var cap := SectionCap(sectionCap, contentCap);
    var header := MetaChunks(p.metadata, META_ORDER) + [audit.auditLine, audit.metricsLine];
    var start := Taken(header, [], false, None);
    RequiredTaken(p, REQUIRED_SECTIONS, cap, contentCap, start, i);
    var so := TakeSections(p, REQUIRED_SECTIONS, true, cap, contentCap, start);
    if so.unfit == None {
      TakenFits(p, OPTIONAL_SECTIONS, false, cap, contentCap, so);
      OptionalKeeps(p, OPTIONAL_SECTIONS, cap, contentCap, so, SectionChunk(p, REQUIRED_SECTIONS[i], cap));
    } else {
      UnfitStays(p, OPTIONAL_SECTIONS, cap, contentCap, so);
    }
  }

  lemma {:induction false} BodyClippedRoom(p: Packet, audit: Audit, sectionCap: nat, contentCap: nat)
    ensures Room(Body(p, audit, sectionCap, contentCap).clipped) <= 124
  {
    var cap := SectionCap(sectionCap, contentCap);
    var header := MetaChunks(p.metadata, META_ORDER) + [audit.auditLine, audit.metricsLine];
    var start := Taken(header, [], false, None);
    ClippedSectionsRoom(p, REQUIRED_SECTIONS, true, cap, contentCap, start);
    ClippedSectionsRoom(p, OPTIONAL_SECTIONS, false, cap, contentCap,
                        TakeSections(p, REQUIRED_SECTIONS, true, cap, contentCap, start));
    SectionRoom();
  }

  /** For every packet and legal caps the final bound is never hit: what precedes the tail fits in
      the cap less the reserve, and the tail fits in the reserve. */
  lemma {:induction false} BoundIsNeverExceeded(p: Packet, audit: Audit, sectionCap: nat, projectionCap: nat)
    ensures Project(p, audit, sectionCap, projectionCap) != BoundExceeded
    ensures Project(p, audit, sectionCap, projectionCap).Rendered? ==>
              |Project(p, audit, sectionCap, projectionCap).text| <= projectionCap - TAIL_RESERVE + 403
  {
    if sectionCap >= 256 && projectionCap >= 1024 && !Blocked(p, audit) {
      var contentCap := projectionCap - TAIL_RESERVE;
      var body := Body(p, audit, sectionCap, contentCap);
      BodyFits(p, audit, sectionCap, contentCap, 0);
      BodyClippedRoom(p, audit, sectionCap, contentCap);
      ClippedMetaRoom(p.metadata, META_ORDER);
      MetaRoom();
      TailFits(body.chunks, ClippedMeta(p.metadata, META_ORDER), body.clipped, body.omitted);
    }
  }

  /** A rendered projection shows every required section, clipped at most to its share of the cap,
      which is never less than 256 characters. */
  lemma {:induction false} RequiredSectionsAreShown(p: Packet, audit: Audit, sectionCap: nat, projectionCap: nat, i: nat) returns (chunks: seq<string>)
    requires Project(p, audit, sectionCap, projectionCap).Rendered? && i < |REQUIRED_SECTIONS|
    ensures Project(p, audit, sectionCap, projectionCap).text == Joined(chunks, "\n\n") + "\n"
    ensures chunks != [] && chunks[|chunks| - 1] == "PACKET_PROJECTION=PASS"
    ensures REQUIRED_SECTIONS[i] in p.sections
    ensures var cap := SectionCap(sectionCap, projectionCap - TAIL_RESERVE);
            && cap >= 256 && |Bounded(p.sections[REQUIRED_SECTIONS[i]], cap).text| <= cap
            && SectionChunk(p, REQUIRED_SECTIONS[i], cap) in chunks
  {
    var contentCap := projectionCap - TAIL_RESERVE;
    var body := Body(p, audit, sectionCap, contentCap);
    BodyFits(p, audit, sectionCap, contentCap, i);
    BoundedFits(p.sections[REQUIRED_SECTIONS[i]], SectionCap(sectionCap, contentCap));
    var tail := Tail(ClippedMeta(p.metadata, META_ORDER), body.clipped, body.omitted);
    chunks := body.chunks + tail;
    assert tail[|tail| - 1] == "PACKET_PROJECTION=PASS";
  }
}
