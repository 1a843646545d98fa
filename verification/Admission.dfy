/**
 Admission of parallel work (tools/work_admission.py): whether one more worker may start beside
 those already at work, and when a claim may be given up; and what holds of all active claims
 after any run of such decisions.
 */
module Admission {

  import opened Options
  import opened Paths
  import opened PathsUnder

  /** An identifier, compared for equality only. */
  type Name = nat

  datatype Status = Claimed | Active | Waiting | Yielded | Retrying | Complete | Abandoned | Superseded | Released

  predicate IsActive(s: Status) {
    s.Claimed? || s.Active? || s.Waiting? || s.Yielded? || s.Retrying?
  }

  datatype Runtime = Runtime(id: Name, isolated: bool)

  datatype Claim = Claim(
    id: Name, repository: Name, workstream: Name, revision: nat, worktree: Name, ownedPaths: seq<string>,
    status: Status, runtime: Option<Runtime>, dirty: bool, unpushed: bool, ambiguous: bool)

  datatype Deny =
    | AmbiguousClaim | HostBudget | WipLimit | SharedRuntime | SharedWorktree | OverlappingClaim
    | StaleIntentRevision | InsufficientOwnership | OverlappingPaths | ActiveClaim | UnsafeCleanup

  datatype Decision =
    | Allow
    | Denied(because: Deny)
    | BadFacts

  datatype Host = Pass | Warn | Block

  // ------------------------------------------------------------------- parsing

  /** The owned paths in canonical form; one that has none spoils the claim. */
  function ParsePaths(raw: seq<string>): Option<seq<string>> {
    if raw == [] then Some([])
    else
      var first, rest := Normalize(raw[0]), ParsePaths(raw[1..]);
      if first == None || rest == None then None else Some([first.value] + rest.value)
  }

  /** A claim as parsed: its owned paths are canonical forms. */
  ghost predicate Parsed(c: Claim) {
    forall i :: 0 <= i < |c.ownedPaths| ==> exists raw :: Normalize(raw) == Some(c.ownedPaths[i])
  }

  lemma {:induction false} ParsePathsGivesCanonical(raw: seq<string>)
    ensures ParsePaths(raw).Some? ==>
              forall i :: 0 <= i < |ParsePaths(raw).value| ==> exists r :: Normalize(r) == Some(ParsePaths(raw).value[i])
  {
    if raw != [] && ParsePaths(raw).Some? {
      ParsePathsGivesCanonical(raw[1..]);
      assert Normalize(raw[0]) == Some(ParsePaths(raw).value[0]);
      var rest := ParsePaths(raw[1..]).value;
      forall i | 0 <= i < |rest| + 1 ensures exists r :: Normalize(r) == Some(ParsePaths(raw).value[i]) {
        if i > 0 { assert ParsePaths(raw).value[i] == rest[i - 1]; }
      }
    }
  }

  // ---------------------------------------------------------------- admission

  function ActiveClaims(claims: seq<Claim>): seq<Claim> {
    if claims == [] then []
    else (if IsActive(claims[0].status) then [claims[0]] else []) + ActiveClaims(claims[1..])
  }

  /** What the paths of two claims of one repository come to, left by left and right by right. */
  function PathVerdict(left: string, rights: seq<string>): Decision {
    if rights == [] then Allow
    else
      var o := PathsOverlap(left, rights[0]);
      if o == None then BadFacts
      else if o.value then Denied(OverlappingPaths)
      else PathVerdict(left, rights[1..])
  }

  function PathsVerdict(lefts: seq<string>, rights: seq<string>): Decision {
    if lefts == [] then Allow
    else
      var v := PathVerdict(lefts[0], rights);
      if v != Allow then v else PathsVerdict(lefts[1..], rights)
  }

  /** What one active claim has against a proposed one. */
  function ClaimVerdict(proposed: Claim, claim: Claim): Decision {
    if && proposed.runtime.Some? && claim.runtime.Some? && proposed.runtime.value.id == claim.runtime.value.id
       && (!proposed.runtime.value.isolated || !claim.runtime.value.isolated) then Denied(SharedRuntime)
    else if claim.repository != proposed.repository then Allow
    else if claim.worktree == proposed.worktree then Denied(SharedWorktree)
    else if claim.workstream == proposed.workstream && claim.revision == proposed.revision then Denied(OverlappingClaim)
    else if claim.workstream == proposed.workstream then Denied(StaleIntentRevision)
    else if proposed.ownedPaths == [] || claim.ownedPaths == [] then Denied(InsufficientOwnership)
    else PathsVerdict(proposed.ownedPaths, claim.ownedPaths)
  }

  function ClaimsVerdict(proposed: Claim, live: seq<Claim>): Decision {
    if live == [] then Allow
    else
      var v := ClaimVerdict(proposed, live[0]);
      if v != Allow then v else ClaimsVerdict(proposed, live[1..])
  }

  /** Claims on the books must have ids of their own, and none that is active may be ambiguous. */
  predicate BooksInOrder(claims: seq<Claim>) {
    && (forall i, j :: 0 <= i < j < |claims| ==> claims[i].id != claims[j].id)
    && (forall i :: 0 <= i < |claims| ==> !(claims[i].ambiguous && IsActive(claims[i].status)))
  }

  predicate HasId(claims: seq<Claim>, id: Name) {
    exists i :: 0 <= i < |claims| && claims[i].id == id
  }

  /** The decision on a proposed claim beside the existing ones. */
  function Admit(proposed: Claim, existing: seq<Claim>, host: Host, wipLimit: nat): Decision {
    if wipLimit < 1 then BadFacts
    else if proposed.ambiguous || !IsActive(proposed.status) then Denied(AmbiguousClaim)
    else if host.Block? then Denied(HostBudget)
    else if !BooksInOrder(existing) || HasId(existing, proposed.id) then Denied(AmbiguousClaim)
    else if |ActiveClaims(existing)| > 0 && |ActiveClaims(existing)| >= wipLimit then Denied(WipLimit)
    else ClaimsVerdict(proposed, ActiveClaims(existing))
  }

  method PathsMethod(lefts: seq<string>, rights: seq<string>) returns (d: Decision)
    ensures d == PathsVerdict(lefts, rights)
  {
    var i := 0;
    while i < |lefts|
      invariant 0 <= i <= |lefts| && PathsVerdict(lefts[i..], rights) == PathsVerdict(lefts, rights)
    {
      var j := 0;
      while j < |rights|
        invariant 0 <= j <= |rights| && PathVerdict(lefts[i], rights[j..]) == PathVerdict(lefts[i], rights)
      {
        assert rights[j..][1..] == rights[j + 1..];
        assert lefts[i..][0] == lefts[i];
        var overlap := PathsOverlap(lefts[i], rights[j]);
        if overlap == None { return BadFacts; }
        if overlap.value { return Denied(OverlappingPaths); }
        j := j + 1;
      }
      assert rights[j..] == [];
      assert lefts[i..][1..] == lefts[i + 1..];
      i := i + 1;
    }
    assert lefts[i..] == [];
    return Allow;
  }

  /** Duplicate ids and ambiguous active claims, found in one pass with the ids seen so far. */
  method CheckBooks(existing: seq<Claim>, id: Name) returns (ok: bool)
    ensures ok <==> BooksInOrder(existing) && !HasId(existing, id)
  {
    var seen: set<Name> := {};
    var i := 0;
    while i < |existing|
      invariant 0 <= i <= |existing|
      invariant seen == set k | 0 <= k < i :: existing[k].id
      invariant BooksInOrder(existing[..i])
    {
      var claim := existing[i];
      if claim.id in seen {
        ghost var k :| 0 <= k < i && existing[k].id == claim.id;
        return false;
      }
      seen := seen + {claim.id};
      if claim.ambiguous && IsActive(claim.status) { return false; }
      i := i + 1;
    }
    assert existing[..i] == existing;
    ok := id !in seen;
  }

  method EvaluateAdmit(proposed: Claim, existing: seq<Claim>, host: Host, wipLimit: nat) returns (d: Decision)
    ensures d == Admit(proposed, existing, host, wipLimit)
  {
    if wipLimit < 1 { return BadFacts; }
    if proposed.ambiguous { return Denied(AmbiguousClaim); }
    if !IsActive(proposed.status) { return Denied(AmbiguousClaim); }
    if host.Block? { return Denied(HostBudget); }
    var live := ActiveClaims(existing);
    var ok := CheckBooks(existing, proposed.id);
    if !ok { return Denied(AmbiguousClaim); }
    if live != [] && |live| >= wipLimit { return Denied(WipLimit); }
    var i := 0;
    while i < |live|
      invariant 0 <= i <= |live| && ClaimsVerdict(proposed, live[i..]) == ClaimsVerdict(proposed, live)
    {
      var claim := live[i];
      assert live[i..][0] == claim && live[i..][1..] == live[i + 1..];
      i := i + 1;
      if && proposed.runtime.Some? && claim.runtime.Some? && proposed.runtime.value.id == claim.runtime.value.id
         && (!proposed.runtime.value.isolated || !claim.runtime.value.isolated) { return Denied(SharedRuntime); }
      if claim.repository != proposed.repository { continue; }
      if claim.worktree == proposed.worktree { return Denied(SharedWorktree); }
      if claim.workstream == proposed.workstream && claim.revision == proposed.revision { return Denied(OverlappingClaim); }
      if claim.workstream == proposed.workstream && claim.revision != proposed.revision {
        return Denied(StaleIntentRevision);
      }
      if proposed.ownedPaths == [] || claim.ownedPaths == [] { return Denied(InsufficientOwnership); }
      var v := PathsMethod(proposed.ownedPaths, claim.ownedPaths);
      if v != Allow { return v; }
    }
    assert live[i..] == [];
    return Allow;
  }

  // ------------------------------------------------------- what allowing means

  ghost predicate Apart(lefts: seq<string>, rights: seq<string>) {
    forall i, j :: 0 <= i < |lefts| && 0 <= j < |rights| ==> PathsOverlap(lefts[i], rights[j]) == Some(false)
  }

  /** Two claims that may be at work side by side. */
  ghost predicate Independent(a: Claim, b: Claim) {
    && (a.runtime.Some? && b.runtime.Some? && a.runtime.value.id == b.runtime.value.id ==>
          a.runtime.value.isolated && b.runtime.value.isolated)
    && (a.repository == b.repository ==>
          && a.worktree != b.worktree && a.workstream != b.workstream
          && a.ownedPaths != [] && b.ownedPaths != [] && Apart(a.ownedPaths, b.ownedPaths))
  }

  lemma {:induction false} PathVerdictMeans(left: string, rights: seq<string>)
    ensures PathVerdict(left, rights) == Allow <==> forall j :: 0 <= j < |rights| ==> PathsOverlap(left, rights[j]) == Some(false)
  {
    if rights != [] {
      PathVerdictMeans(left, rights[1..]);
      assert forall j :: 0 < j < |rights| ==> rights[j] == rights[1..][j - 1];
    }
  }

  lemma {:induction false} PathsVerdictMeans(lefts: seq<string>, rights: seq<string>)
    ensures PathsVerdict(lefts, rights) == Allow <==> Apart(lefts, rights)
  {
    if lefts != [] {
      PathVerdictMeans(lefts[0], rights);
      PathsVerdictMeans(lefts[1..], rights);
      assert forall i :: 0 < i < |lefts| ==> lefts[i] == lefts[1..][i - 1];
      if Apart(lefts[1..], rights) && PathVerdict(lefts[0], rights) == Allow {
        forall i, j | 0 <= i < |lefts| && 0 <= j < |rights| ensures PathsOverlap(lefts[i], rights[j]) == Some(false) {
          if i > 0 { assert lefts[i] == lefts[1..][i - 1]; }
        }
      }
      if Apart(lefts, rights) {
        forall i, j | 0 <= i < |lefts[1..]| && 0 <= j < |rights| ensures PathsOverlap(lefts[1..][i], rights[j]) == Some(false) {
          assert lefts[1..][i] == lefts[i + 1];
        }
      }
    }
  }

  lemma {:induction false} ClaimVerdictMeans(proposed: Claim, claim: Claim)
    ensures ClaimVerdict(proposed, claim) == Allow <==> Independent(proposed, claim)
  {
    PathsVerdictMeans(proposed.ownedPaths, claim.ownedPaths);
  }

  lemma {:induction false} ClaimsVerdictMeans(proposed: Claim, live: seq<Claim>)
    ensures ClaimsVerdict(proposed, live) == Allow <==> forall i :: 0 <= i < |live| ==> Independent(proposed, live[i])
  {
    if live != [] {
      ClaimVerdictMeans(proposed, live[0]);
      ClaimsVerdictMeans(proposed, live[1..]);
      assert forall i :: 0 < i < |live| ==> live[i] == live[1..][i - 1];
    }
  }

  lemma {:induction false} ActiveIffListed(claims: seq<Claim>)
    ensures forall c :: c in ActiveClaims(claims) <==> c in claims && IsActive(c.status)
    ensures |ActiveClaims(claims)| <= |claims|
  {
    if claims != [] {
      ActiveIffListed(claims[1..]);
      assert claims == [claims[0]] + claims[1..];
    }
  }

  /** A claim is admitted exactly when it and the host are fit, the books are in order and lack its
      id, there is room under the limit, and it is independent of every active claim. */
  lemma {:induction false} AdmitMeans(proposed: Claim, existing: seq<Claim>, host: Host, wipLimit: nat)
    ensures Admit(proposed, existing, host, wipLimit) == Allow <==>
              && IsActive(proposed.status) && !proposed.ambiguous && !host.Block?
              && BooksInOrder(existing) && !HasId(existing, proposed.id)
              && |ActiveClaims(existing)| < wipLimit
              && forall c :: c in existing && IsActive(c.status) ==> Independent(proposed, c)
  {
    ClaimsVerdictMeans(proposed, ActiveClaims(existing));
    ActiveIffListed(existing);
    var live := ActiveClaims(existing);
    assert (forall i :: 0 <= i < |live| ==> Independent(proposed, live[i]))
      <==> (forall c :: c in live ==> Independent(proposed, c));
  }

  // ------------------------------------------------------------- what refusing means

  /** Two claims share a runtime that one of them does not have to itself. */
  ghost predicate ShareRuntime(a: Claim, b: Claim) {
    && a.runtime.Some? && b.runtime.Some? && a.runtime.value.id == b.runtime.value.id
    && !(a.runtime.value.isolated && b.runtime.value.isolated)
  }

  /** Apart in runtime, of one repository, in worktrees and workstreams of their own. */
  ghost predicate OnlyPathsLeft(a: Claim, b: Claim) {
    !ShareRuntime(a, b) && a.repository == b.repository && a.worktree != b.worktree && a.workstream != b.workstream
  }

  /** The first of the right paths that the left one is not known to be apart from. */
  ghost predicate FirstNear(left: string, rights: seq<string>, j: int) {
    && 0 <= j < |rights| && !KnownApart(left, rights[j])
    && forall k :: 0 <= k < j ==> KnownApart(left, rights[k])
  }

  /** The first pair of paths, left by left and right by right, that are not known to be apart. */
  ghost predicate FirstClash(lefts: seq<string>, rights: seq<string>, i: int, j: int) {
    0 <= i < |lefts| && FirstNear(lefts[i], rights, j) && Apart(lefts[..i], rights)
  }

  /** Overlapping, or not comparable at all. */
  function Clash(left: string, right: string): Decision {
    if PathsOverlap(left, right) == None then BadFacts else Denied(OverlappingPaths)
  }

  /** Known to be apart. */
  predicate KnownApart(left: string, right: string) {
    PathsOverlap(left, right) == Some(false)
  }

  lemma {:induction false} PathVerdictStep(left: string, rights: seq<string>)
    requires rights != []
    ensures PathVerdict(left, rights) == if KnownApart(left, rights[0]) then PathVerdict(left, rights[1..]) else Clash(left, rights[0])
    ensures Clash(left, rights[0]) != Allow
  {
    var o := PathsOverlap(left, rights[0]);
    if o.Some? && !o.value { assert o == Some(false); }
  }

  lemma {:induction false} PathVerdictClash(left: string, rights: seq<string>) returns (j: int)
    requires PathVerdict(left, rights) != Allow
    ensures FirstNear(left, rights, j) && PathVerdict(left, rights) == Clash(left, rights[j])
  {
    j := 0;
    PathVerdictStep(left, rights);
    while KnownApart(left, rights[j])
      invariant 0 <= j < |rights| && PathVerdict(left, rights[j..]) == PathVerdict(left, rights)
      invariant PathVerdict(left, rights[j..])
             == if KnownApart(left, rights[j]) then PathVerdict(left, rights[j + 1..]) else Clash(left, rights[j])
      invariant forall k :: 0 <= k < j ==> KnownApart(left, rights[k])
      decreases |rights| - j
    {
      j := j + 1;
      PathVerdictStep(left, rights[j..]);
      assert rights[j..][0] == rights[j] && rights[j..][1..] == rights[j + 1..];
    }
  }

  lemma {:induction false} ApartLater(lefts: seq<string>, rights: seq<string>, i: int)
    requires lefts != [] && 0 <= i < |lefts[1..]| && Apart(lefts[1..][..i], rights)
    requires forall j :: 0 <= j < |rights| ==> PathsOverlap(lefts[0], rights[j]) == Some(false)
    ensures Apart(lefts[..i + 1], rights)
  {
    var firsts := lefts[..i + 1];
    forall a, b | 0 <= a < |firsts| && 0 <= b < |rights| ensures PathsOverlap(firsts[a], rights[b]) == Some(false) {
      if a > 0 { assert firsts[a] == lefts[1..][..i][a - 1]; }
    }
  }

  lemma {:induction false} PathsVerdictClash(lefts: seq<string>, rights: seq<string>) returns (i: int, j: int)
    requires PathsVerdict(lefts, rights) != Allow
    ensures FirstClash(lefts, rights, i, j) && PathsVerdict(lefts, rights) == Clash(lefts[i], rights[j])
  {
    PathVerdictMeans(lefts[0], rights);
    if PathVerdict(lefts[0], rights) != Allow {
      j := PathVerdictClash(lefts[0], rights);
      i := 0;
    } else {
      i, j := PathsVerdictClash(lefts[1..], rights);
      ApartLater(lefts, rights, i);
      i := i + 1;
    }
  }

  /** What each refusal says of one other claim. */
  lemma {:induction false} RefusalMeans(proposed: Claim, claim: Claim)
    ensures var d := ClaimVerdict(proposed, claim);
            && (d == Denied(SharedRuntime) <==> ShareRuntime(proposed, claim))
            && (d == Denied(SharedWorktree) <==>
                  !ShareRuntime(proposed, claim) && claim.repository == proposed.repository && claim.worktree == proposed.worktree)
            && (d == Denied(OverlappingClaim) <==>
                  && !ShareRuntime(proposed, claim) && claim.repository == proposed.repository && claim.worktree != proposed.worktree
                  && claim.workstream == proposed.workstream && claim.revision == proposed.revision)
            && (d == Denied(StaleIntentRevision) <==>
                  && !ShareRuntime(proposed, claim) && claim.repository == proposed.repository && claim.worktree != proposed.worktree
                  && claim.workstream == proposed.workstream && claim.revision != proposed.revision)
            && (d == Denied(InsufficientOwnership) <==>
                  OnlyPathsLeft(proposed, claim) && (proposed.ownedPaths == [] || claim.ownedPaths == []))
            && (d == Denied(OverlappingPaths) || d == BadFacts ==>
                  && OnlyPathsLeft(proposed, claim)
                  && exists i, j :: FirstClash(proposed.ownedPaths, claim.ownedPaths, i, j)
                       && d == Clash(proposed.ownedPaths[i], claim.ownedPaths[j]))
            && d in {Allow, BadFacts, Denied(SharedRuntime), Denied(SharedWorktree), Denied(OverlappingClaim),
                     Denied(StaleIntentRevision), Denied(InsufficientOwnership), Denied(OverlappingPaths)}
  {
    if PathsVerdict(proposed.ownedPaths, claim.ownedPaths) != Allow {
      var i, j := PathsVerdictClash(proposed.ownedPaths, claim.ownedPaths);
    }
  }

  lemma {:induction false} FirstRefusal(proposed: Claim, live: seq<Claim>) returns (i: nat)
    requires ClaimsVerdict(proposed, live) != Allow
    ensures i < |live| && ClaimsVerdict(proposed, live) == ClaimVerdict(proposed, live[i]) != Allow
    ensures forall k :: 0 <= k < i ==> Independent(proposed, live[k])
  {
    ClaimVerdictMeans(proposed, live[0]);
    if ClaimVerdict(proposed, live[0]) != Allow {
      i := 0;
    } else {
      i := FirstRefusal(proposed, live[1..]);
      i := i + 1;
      assert forall k :: 0 < k < i ==> live[k] == live[1..][k - 1];
    }
  }

  /** Why a claim is refused: for the facts, for what it is itself, for the host, for the books, for
      want of room, or, with all that in order, for the first active claim it is not independent of. */
  lemma {:induction false} AdmitRefusals(proposed: Claim, existing: seq<Claim>, host: Host, wipLimit: nat)
    ensures var d := Admit(proposed, existing, host, wipLimit);
            var fit := wipLimit >= 1 && !proposed.ambiguous && AtWork(proposed.status) && host != Block;
            var booked := fit && BooksInOrder(existing) && !HasId(existing, proposed.id);
            && (d == Denied(AmbiguousClaim) <==> wipLimit >= 1 && (proposed.ambiguous || !AtWork(proposed.status) || (fit && !booked)))
            && (d == Denied(HostBudget) <==> wipLimit >= 1 && !proposed.ambiguous && AtWork(proposed.status) && host == Block)
            && (d == Denied(WipLimit) <==> booked && |ActiveClaims(existing)| >= wipLimit)
            && (d != Allow && booked && |ActiveClaims(existing)| < wipLimit ==>
                  exists i :: 0 <= i < |ActiveClaims(existing)| && d == ClaimVerdict(proposed, ActiveClaims(existing)[i])
                    && forall k :: 0 <= k < i ==> Independent(proposed, ActiveClaims(existing)[k]))
            && (wipLimit == 0 ==> d == BadFacts)
            && (d == BadFacts ==> wipLimit == 0 || booked)
  {
    if ClaimsVerdict(proposed, ActiveClaims(existing)) != Allow {
      var i := FirstRefusal(proposed, ActiveClaims(existing));
      RefusalMeans(proposed, ActiveClaims(existing)[i]);
      assert 0 <= i < |ActiveClaims(existing)|;
    }
  }

  // ----------------------------------------------------------------- release

  datatype ReleaseAction = ReleaseClaim | CleanupWorktree

  function Matches(claims: seq<Claim>, id: Name): seq<Claim> {
    if claims == [] then [] else (if claims[0].id == id then [claims[0]] else []) + Matches(claims[1..], id)
  }

  function Release(claims: seq<Claim>, id: Name, action: ReleaseAction): Decision {
    var found := Matches(claims, id);
    if |found| != 1 then Denied(AmbiguousClaim)
    else if found[0].ambiguous then Denied(AmbiguousClaim)
    else if action.CleanupWorktree? && (found[0].dirty || found[0].unpushed) then Denied(UnsafeCleanup)
    else if IsActive(found[0].status) then Denied(ActiveClaim)
    else Allow
  }

  lemma {:induction false} MatchesAreListed(claims: seq<Claim>, id: Name)
    ensures forall c :: c in Matches(claims, id) <==> c in claims && c.id == id
  {
    if claims != [] {
      MatchesAreListed(claims[1..], id);
      assert claims == [claims[0]] + claims[1..];
    }
  }

  /** A claim that may be released is the only one of its id and no longer at work; a worktree that
      may be cleaned up holds nothing that would be lost. */
  lemma {:induction false} ReleaseMeans(claims: seq<Claim>, id: Name, action: ReleaseAction)
    requires Release(claims, id, action) == Allow
    ensures HasId(claims, id)
    ensures forall c :: c in claims && c.id == id ==>
              !IsActive(c.status) && !c.ambiguous && (action.CleanupWorktree? ==> !c.dirty && !c.unpushed)
  {
    MatchesAreListed(claims, id);
    var found := Matches(claims, id);
    assert found[0] in found;
    forall c | c in claims && c.id == id ensures c == found[0] {
      assert c in found;
    }
  }

  /** When each answer to a release is given. */
  lemma {:induction false} ReleaseAnswers(claims: seq<Claim>, id: Name, action: ReleaseAction)
    ensures var d := Release(claims, id, action);
            && (d == Denied(AmbiguousClaim) <==> !OneOf(claims, id) || (exists c :: c in claims && c.id == id && c.ambiguous))
            && (d == Denied(UnsafeCleanup) <==>
                  && OneOf(claims, id) && action == CleanupWorktree
                  && exists c :: c in claims && c.id == id && !c.ambiguous && (c.dirty || c.unpushed))
            && (d == Denied(ActiveClaim) <==>
                  && OneOf(claims, id)
                  && exists c :: c in claims && c.id == id && !c.ambiguous && AtWork(c.status)
                       && (action == CleanupWorktree ==> !c.dirty && !c.unpushed))
            && (d == Allow <==>
                  && OneOf(claims, id)
                  && exists c :: c in claims && c.id == id && !c.ambiguous && !AtWork(c.status)
                       && (action == CleanupWorktree ==> !c.dirty && !c.unpushed))
            && d in {Allow, Denied(AmbiguousClaim), Denied(UnsafeCleanup), Denied(ActiveClaim)}
  {
    OneMatch(claims, id);
    if |Matches(claims, id)| == 1 {
      MatchesAreListed(claims, id);
      var found := Matches(claims, id);
      assert found[0] in found;
      forall c | c in claims && c.id == id ensures c == found[0] { assert c in found; }
    }
  }

  /** At work: not finished, given up or released. */
  predicate AtWork(s: Status) {
    s in {Claimed, Active, Waiting, Yielded, Retrying}
  }

  /** Exactly one claim has the id. */
  ghost predicate OneOf(claims: seq<Claim>, id: Name) {
    exists i :: 0 <= i < |claims| && claims[i].id == id && forall j :: 0 <= j < |claims| && claims[j].id == id ==> j == i
  }

  lemma {:induction false} NoMatch(claims: seq<Claim>, id: Name)
    ensures Matches(claims, id) == [] <==> forall j :: 0 <= j < |claims| ==> claims[j].id != id
  {
    if claims != [] {
      NoMatch(claims[1..], id);
      assert forall j :: 0 < j < |claims| ==> claims[j] == claims[1..][j - 1];
    }
  }

  lemma {:induction false} OneMatch(claims: seq<Claim>, id: Name)
    ensures |Matches(claims, id)| == 1 <==> OneOf(claims, id)
  {
    if claims != [] {
      var rest := claims[1..];
      OneMatch(rest, id);
      NoMatch(rest, id);
      assert forall j :: 0 < j < |claims| ==> claims[j] == rest[j - 1];
      if claims[0].id == id {
        OneFirst(claims, id);
      } else {
        OneLater(claims, id);
      }
    }
  }

  lemma {:induction false} OneFirst(claims: seq<Claim>, id: Name)
    requires claims != [] && claims[0].id == id
    ensures OneOf(claims, id) <==> forall j :: 0 <= j < |claims[1..]| ==> claims[1..][j].id != id
  {
    var rest := claims[1..];
    if OneOf(claims, id) {
      forall j | 0 <= j < |rest| ensures rest[j].id != id { assert rest[j] == claims[j + 1]; }
    }
    if forall j :: 0 <= j < |rest| ==> rest[j].id != id {
      assert forall j :: 0 < j < |claims| ==> claims[j] == rest[j - 1];
    }
  }

  lemma {:induction false} OneLater(claims: seq<Claim>, id: Name)
    requires claims != [] && claims[0].id != id
    ensures OneOf(claims, id) <==> OneOf(claims[1..], id)
  {
    var rest := claims[1..];
    if OneOf(claims, id) {
      var i :| 0 <= i < |claims| && claims[i].id == id && forall j :: 0 <= j < |claims| && claims[j].id == id ==> j == i;
      assert rest[i - 1].id == id;
      forall j | 0 <= j < |rest| && rest[j].id == id ensures j == i - 1 { assert claims[j + 1] == rest[j]; }
    }
    if OneOf(rest, id) {
      var i :| 0 <= i < |rest| && rest[i].id == id && forall j :: 0 <= j < |rest| && rest[j].id == id ==> j == i;
      assert claims[i + 1].id == id;
      forall j | 0 <= j < |claims| && claims[j].id == id ensures j == i + 1 { assert claims[j] == rest[j - 1]; }
    }
  }

  // -------------------------------------------------------------------- runs

  /** What may happen to the books: a claim is admitted, its worker reports a new status or state,
      or a finished claim is released. */
  datatype Event =
    | Start(claim: Claim, host: Host)
    | Report(id: Name, status: Status, dirty: bool, unpushed: bool, ambiguous: bool)
    | GiveUp(id: Name, action: ReleaseAction)

  function Reported(c: Claim, e: Event): Claim
    requires e.Report?
  {
    if c.id == e.id && (IsActive(c.status) || !IsActive(e.status)) then
      c.(status := e.status, dirty := e.dirty, unpushed := e.unpushed, ambiguous := e.ambiguous)
    else c
  }

  function Updated(claims: seq<Claim>, e: Event): (r: seq<Claim>)
    requires e.Report?
    ensures |r| == |claims| && forall i :: 0 <= i < |r| ==> r[i] == Reported(claims[i], e)
  {
    if claims == [] then [] else [Reported(claims[0], e)] + Updated(claims[1..], e)
  }

  function Without(claims: seq<Claim>, id: Name): (rest: seq<Claim>)
    ensures forall c :: c in rest ==> c in claims
  {
    if claims == [] then [] else (if claims[0].id == id then [] else [claims[0]]) + Without(claims[1..], id)
  }

  /** The books after an event; a denied admission or release leaves them alone, and a claim that
      is no longer active does not become active again. */
  function After(claims: seq<Claim>, e: Event, wipLimit: nat): seq<Claim> {
    match e
    case Start(claim, host) => if Admit(claim, claims, host, wipLimit) == Allow then claims + [claim] else claims
    case Report(id, status, dirty, unpushed, ambiguous) => Updated(claims, e)
    case GiveUp(id, action) => if Release(claims, id, action) == Allow then Without(claims, id) else claims
  }

  function Run(claims: seq<Claim>, events: seq<Event>, wipLimit: nat): seq<Claim>
    decreases |events|
  {
    if events == [] then claims else Run(After(claims, events[0], wipLimit), events[1..], wipLimit)
  }

  /** Two claims on the books: ids of their own, and independent while both are at work. */
  ghost predicate Fits(a: Claim, b: Claim) {
    a.id != b.id && (IsActive(a.status) && IsActive(b.status) ==> Independent(b, a))
  }

  ghost predicate FitsAll(a: Claim, claims: seq<Claim>) {
    forall c :: c in claims ==> Fits(a, c)
  }

  ghost predicate AllFit(claims: seq<Claim>) {
    claims == [] || (FitsAll(claims[0], claims[1..]) && AllFit(claims[1..]))
  }

  ghost predicate Sound(claims: seq<Claim>, wipLimit: nat) {
    AllFit(claims) && |ActiveClaims(claims)| <= wipLimit
  }

  lemma {:induction false} AllFitMeans(claims: seq<Claim>, i: nat, j: nat)
    requires AllFit(claims) && i < j < |claims|
    ensures Fits(claims[i], claims[j])
  {
    if i == 0 {
      assert claims[j] == claims[1..][j - 1];
      assert claims[j] in claims[1..];
    } else {
      AllFitMeans(claims[1..], i - 1, j - 1);
    }
  }

  lemma {:induction false} ActiveAppends(claims: seq<Claim>, c: Claim)
    ensures |ActiveClaims(claims + [c])| <= |ActiveClaims(claims)| + 1
  {
    if claims != [] {
      ActiveAppends(claims[1..], c);
      assert (claims + [c])[1..] == claims[1..] + [c];
    }
  }

  lemma {:induction false} AllFitAppends(claims: seq<Claim>, c: Claim)
    requires AllFit(claims) && forall d :: d in claims ==> Fits(d, c)
    ensures AllFit(claims + [c])
  {
    if claims == [] {
      assert (claims + [c])[1..] == [];
    } else {
      AllFitAppends(claims[1..], c);
      assert (claims + [c])[1..] == claims[1..] + [c];
    }
  }

  lemma {:induction false} ReportFits(a: Claim, b: Claim, e: Event)
    requires e.Report? && Fits(a, b)
    ensures Fits(Reported(a, e), Reported(b, e))
  {
    var a2, b2 := Reported(a, e), Reported(b, e);
    assert a2.runtime == a.runtime && a2.repository == a.repository && a2.ownedPaths == a.ownedPaths;
    assert b2.runtime == b.runtime && b2.repository == b.repository && b2.ownedPaths == b.ownedPaths;
  }

  lemma {:induction false} ReportKeepsSound(claims: seq<Claim>, e: Event)
    requires e.Report? && AllFit(claims)
    ensures AllFit(Updated(claims, e)) && |ActiveClaims(Updated(claims, e))| <= |ActiveClaims(claims)|
  {
    if claims != [] {
      ReportKeepsSound(claims[1..], e);
      var a, rest := Reported(claims[0], e), Updated(claims[1..], e);
      assert Updated(claims, e)[1..] == rest;
      forall c | c in rest ensures Fits(a, c) {
        var i :| 0 <= i < |rest| && rest[i] == c;
        assert claims[1..][i] in claims[1..];
        ReportFits(claims[0], claims[1..][i], e);
      }
    }
  }

  lemma {:induction false} GiveUpKeepsSound(claims: seq<Claim>, id: Name)
    requires AllFit(claims)
    ensures AllFit(Without(claims, id)) && |ActiveClaims(Without(claims, id))| <= |ActiveClaims(claims)|
  {
    if claims != [] {
      GiveUpKeepsSound(claims[1..], id);
      var rest := Without(claims[1..], id);
      if claims[0].id != id { assert Without(claims, id)[1..] == rest; } else { assert Without(claims, id) == rest; }
    }
  }

  lemma {:induction false} StartKeepsSound(claims: seq<Claim>, claim: Claim, host: Host, wipLimit: nat)
    requires Sound(claims, wipLimit) && Admit(claim, claims, host, wipLimit) == Allow
    ensures Sound(claims + [claim], wipLimit)
  {
    AdmitMeans(claim, claims, host, wipLimit);
    ActiveAppends(claims, claim);
    forall d | d in claims ensures Fits(d, claim) {
      var i :| 0 <= i < |claims| && claims[i] == d;
    }
    AllFitAppends(claims, claim);
  }

  lemma {:induction false} RunKeepsSound(claims: seq<Claim>, events: seq<Event>, wipLimit: nat)
    requires Sound(claims, wipLimit)
    ensures Sound(Run(claims, events, wipLimit), wipLimit)
    decreases |events|
  {
    if events != [] {
      var e := events[0];
      if e.Start? {
        if Admit(e.claim, claims, e.host, wipLimit) == Allow { StartKeepsSound(claims, e.claim, e.host, wipLimit); }
      } else if e.Report? {
        ReportKeepsSound(claims, e);
      } else {
        GiveUpKeepsSound(claims, e.id);
      }
      RunKeepsSound(After(claims, e, wipLimit), events[1..], wipLimit);
    }
  }

  /** After any run from empty books, at most wip_limit claims are active, all claims have ids of
      their own, and any two active ones are independent: apart in worktree, workstream and paths
      within one repository, and both isolated on a runtime they share. */
  lemma {:induction false} ActiveClaimsAreIndependent(events: seq<Event>, wipLimit: nat, i: nat, j: nat)
    requires i < |Run([], events, wipLimit)| && j < |Run([], events, wipLimit)| && i != j
    ensures |ActiveClaims(Run([], events, wipLimit))| <= wipLimit
    ensures var books := Run([], events, wipLimit);
            && books[i].id != books[j].id
            && (IsActive(books[i].status) && IsActive(books[j].status) ==> Independent(books[i], books[j]))
  {
    RunKeepsSound([], events, wipLimit);
    var books := Run([], events, wipLimit);
    if i < j { AllFitMeans(books, i, j); } else { AllFitMeans(books, j, i); }
    IndependentBothWays(books[i], books[j]);
  }

  lemma {:induction false} IndependentBothWays(a: Claim, b: Claim)
    ensures Independent(a, b) <==> Independent(b, a)
  {
    forall x, y { OverlapSymmetric(x, y); }
  }

  /** For claims of one repository being apart means what it says, as far as the second canonical
      form allows: a path of one is, lies under, or lies over a path of the other only where the
      upper of the two is one that form shortens. */
  lemma {:induction false} OwnedPathsAreDisjoint(a: Claim, b: Claim, i: nat, j: nat)
    requires Parsed(a) && Parsed(b) && Independent(a, b) && a.repository == b.repository
    requires i < |a.ownedPaths| && j < |b.ownedPaths|
    ensures Split(a.ownedPaths[i]) <= Split(b.ownedPaths[j]) ==> Shortens(a.ownedPaths[i])
    ensures Split(b.ownedPaths[j]) <= Split(a.ownedPaths[i]) ==> Shortens(b.ownedPaths[j])
  {
    var p, q := a.ownedPaths[i], b.ownedPaths[j];
    assert Canonical(p) && Canonical(q);
    assert PathsOverlap(p, q) == Some(false);
    OverlapSymmetric(p, q);
    if Split(p) <= Split(q) { MissesIffShortened(p); }
    if Split(q) <= Split(p) { MissesIffShortened(q); }
  }
}
