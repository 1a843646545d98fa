/**
 What is refused for good, and what is kept, over whole runs with decisions interleaved.  A
 refresh token that was revoked, rotated or refused for its scopes comes back only by a restart
 that reads a file in which it is still live; here is exactly when that happens.  An access
 token never comes back, and a live refresh token that was saved is lost only by what is done
 to it.
 */
module OAuthRefused {

  import opened Options
  import opened OAuth
  import opened OAuthStore
  import opened OAuthRuns
  import opened OAuthProvenance
  import opened OAuthHistory
  import opened OAuthTokens
  import opened SplitDecision

  /** A name in use, where everything is accounted for. */
  ghost predicate Knows(h: Hall, r: Id) {
    HallSound(h) && r in h.st.hist.used
  }

  lemma {:induction false} MoveKnows(h: Hall, m: Move, r: Id)
    requires Allowed(h, m) && Knows(h, r)
    ensures Knows(After(h, m), r)
  {
    MoveSound(h, m);
    MoveExtends(h, m);
  }

  // ------------------------------------------------------------- what one move can do

  ghost predicate Restarts(m: Move) {
    m.Serve? && m.act.DoRestart?
  }

  /** A restart that ends with the service running. */
  ghost predicate Revives(m: Move) {
    m.Serve? && ComesUp(m.act)
  }

  /** The move is no restart and replaces the file. */
  ghost predicate Overwrites(h: Hall, m: Move) {
    || (m.Serve? && Writes(h.st, m.now, m.act))
    || (m.Store? && m.fault != FailedBefore)
  }

  lemma {:induction false} MoveAges(h: Hall, m: Move, r: Id)
    requires Allowed(h, m) && !Restarts(m) && r in h.st.hist.used
    ensures AgesBoth(h.st, After(h, m).st, r)
  {
    match m
    case Serve(now, act) => StepAges(h.st, now, act, r);
    case Take(now, thread, request) => TakeAndDecideKeep(h, m);
    case Decide(now, thread, approve, secretOk, limited) => TakeAndDecideKeep(h, m);
    case Store(now, thread, code, fault) => SaveAges(Coded(h.st, now, h.held[thread], code), now, fault, r);
  }

  lemma {:induction false} MoveWrites(h: Hall, m: Move)
    requires Allowed(h, m) && !Restarts(m)
    ensures var next := After(h, m).st;
            next.disk == if Overwrites(h, m) then Disk(next.clients, next.refresh) else h.st.disk
  {
    if m.Serve? { StepWrites(h.st, m.now, m.act); }
  }

  lemma {:induction false} DeadStays(h: Hall, m: Move, r: Id)
    requires Allowed(h, m) && Knows(h, r) && !Good(h.st, r)
    requires !(Revives(m) && LiveIn(h.st.disk.refresh, r, m.now))
    ensures !Good(After(h, m).st, r)
  {
    ClockMoves(h, m);
    if Restarts(m) { RestartKeepsLive(h.st, m.now, m.act.gone, m.act.fault, r); } else { MoveAges(h, m, r); }
  }

  lemma {:induction false} FileStaysDead(h: Hall, m: Move, r: Id)
    requires Allowed(h, m) && Knows(h, r) && !Good(h.st, r)
    requires !LiveIn(h.st.disk.refresh, r, m.now) || Overwrites(h, m)
    ensures !LiveIn(After(h, m).st.disk.refresh, r, m.now)
  {
    ClockMoves(h, m);
    if Restarts(m) {
      RestartKeepsLive(h.st, m.now, m.act.gone, m.act.fault, r);
    } else {
      DeadStays(h, m, r);
      MoveWrites(h, m);
    }
  }

  /** The file shows the token unrevoked until it expires, and not live after that. */
  ghost predicate Shows(h: Hall, r: Id, until: Time) {
    && (h.st.clock <= until ==> r in h.st.disk.refresh && !h.st.disk.refresh[r].revoked)
    && (r in h.st.disk.refresh && !h.st.disk.refresh[r].revoked ==> h.st.disk.refresh[r].expiresAt == until)
  }

  lemma {:induction false} FileStays(h: Hall, m: Move, r: Id, until: Time)
    requires Allowed(h, m) && Readable(h.st) && Shows(h, r, until) && !Overwrites(h, m)
    ensures Shows(After(h, m), r, until)
  {
    ClockMoves(h, m);
    if Restarts(m) {
      RestartKeepsLive(h.st, m.now, m.act.gone, m.act.fault, r);
      RestartAges(h.st, m.now, m.act.gone, m.act.fault, r);
    } else {
      MoveWrites(h, m);
    }
  }

  // ----------------------------------------------------- good again, and exactly when

  /** No move of the run, restarts aside, replaces the file. */
  ghost predicate Unwritten(h: Hall, ms: seq<Move>)
    requires Moves(h, ms)
    decreases |ms|
  {
    ms == [] || (Unwritten(h, Front(ms)) && !Overwrites(Finally(h, Front(ms)), ms[|ms| - 1]))
  }

  /** At some point of the run, its end included, the token is good. */
  ghost predicate GoodAgain(h: Hall, ms: seq<Move>, r: Id) {
    exists k :: 0 <= k <= |ms| && Moves(h, ms[..k]) && Good(Finally(h, ms[..k]).st, r)
  }

  /** This move of the run starts the service again in time, and the file is still the old one. */
  ghost predicate ReadsOldFile(h: Hall, ms: seq<Move>, i: nat, until: Time) {
    i < |ms| && Moves(h, ms[..i]) && Unwritten(h, ms[..i]) && Revives(ms[i]) && ms[i].now <= until
  }

  /** The file shows the token unrevoked, and is read before it is replaced and before the token expires. */
  ghost predicate Resurrected(h: Hall, ms: seq<Move>, r: Id) {
    && r in h.st.disk.refresh && !h.st.disk.refresh[r].revoked
    && exists i :: ReadsOldFile(h, ms, i, h.st.disk.refresh[r].expiresAt)
  }

  lemma {:induction false} FileKept(h: Hall, ms: seq<Move>, r: Id, until: Time)
    requires Moves(h, ms) && HallSound(h) && Shows(h, r, until) && Unwritten(h, ms)
    ensures Shows(Finally(h, ms), r, until)
    decreases |ms|
  {
    if ms != [] {
      FileKept(h, Front(ms), r, until);
      MovesSound(h, Front(ms));
      FileStays(Finally(h, Front(ms)), ms[|ms| - 1], r, until);
    }
  }

  lemma {:induction false} RunKnows(h: Hall, ms: seq<Move>, r: Id)
    requires Moves(h, ms) && Knows(h, r)
    ensures Knows(Finally(h, ms), r)
  {
    MovesSound(h, ms);
    MovesExtend(h, ms);
  }

  lemma {:induction false} ShorterRun(h: Hall, ms: seq<Move>, r: Id)
    requires ms != [] && Resurrected(h, Front(ms), r)
    ensures Resurrected(h, ms, r)
  {
    var until := h.st.disk.refresh[r].expiresAt;
    var i: nat :| ReadsOldFile(h, Front(ms), i, until);
    assert Front(ms)[..i] == ms[..i];
    assert ReadsOldFile(h, ms, i, until);
  }

  lemma {:induction false} DeadStep(h: Hall, m: Move, r: Id)
    requires Allowed(h, m) && Knows(h, r) && !Good(h.st, r)
    requires !(Revives(m) && LiveIn(h.st.disk.refresh, r, m.now))
    ensures var next := After(h, m).st;
            && !Good(next, r)
            && (LiveIn(next.disk.refresh, r, next.clock) ==>
                  LiveIn(h.st.disk.refresh, r, m.now) && LiveIn(h.st.disk.refresh, r, h.st.clock) && !Overwrites(h, m))
  {
    ClockMoves(h, m);
    DeadStays(h, m, r);
    if !LiveIn(h.st.disk.refresh, r, m.now) || Overwrites(h, m) { FileStaysDead(h, m, r); }
  }

  lemma {:induction false} RevivedLast(h: Hall, ms: seq<Move>, r: Id)
    requires Moves(h, ms) && ms != [] && Knows(h, r) && r in h.st.disk.refresh && !h.st.disk.refresh[r].revoked
    requires Unwritten(h, Front(ms)) && Revives(ms[|ms| - 1])
    requires LiveIn(Finally(h, Front(ms)).st.disk.refresh, r, ms[|ms| - 1].now)
    ensures Resurrected(h, ms, r)
  {
    var until := h.st.disk.refresh[r].expiresAt;
    FileKept(h, Front(ms), r, until);
    ClockMoves(Finally(h, Front(ms)), ms[|ms| - 1]);
    assert Front(ms) == ms[..|ms| - 1];
    assert ReadsOldFile(h, ms, |ms| - 1, until);
  }

  lemma {:induction false} StaysDead(h: Hall, ms: seq<Move>, r: Id)
    requires Moves(h, ms) && Knows(h, r) && !Good(h.st, r) && !Resurrected(h, ms, r)
    ensures !Good(Finally(h, ms).st, r)
    ensures LiveIn(Finally(h, ms).st.disk.refresh, r, Finally(h, ms).st.clock) ==>
              Unwritten(h, ms) && r in h.st.disk.refresh && !h.st.disk.refresh[r].revoked
    decreases |ms|
  {
    if ms != [] {
      var before, m := Front(ms), ms[|ms| - 1];
      var g := Finally(h, before);
      if Resurrected(h, before, r) { ShorterRun(h, ms, r); }
      StaysDead(h, before, r);
      RunKnows(h, before, r);
      ClockMoves(g, m);
      if LiveIn(g.st.disk.refresh, r, m.now) && Revives(m) { RevivedLast(h, ms, r); }
      DeadStep(g, m, r);
    }
  }

  lemma {:induction false} ReviveMakesGood(h: Hall, m: Move, r: Id, until: Time)
    requires Allowed(h, m) && Knows(h, r) && Revives(m) && Shows(h, r, until) && m.now <= until
    ensures Good(After(h, m).st, r)
  {
    ClockMoves(h, m);
    RestartKeepsLive(h.st, m.now, m.act.gone, m.act.fault, r);
  }

  lemma {:induction false} ComesBack(h: Hall, ms: seq<Move>, r: Id)
    requires Moves(h, ms) && Knows(h, r) && Resurrected(h, ms, r)
    ensures GoodAgain(h, ms, r)
  {
    var until := h.st.disk.refresh[r].expiresAt;
    var i: nat :| ReadsOldFile(h, ms, i, until);
    FileKept(h, ms[..i], r, until);
    RunKnows(h, ms[..i], r);
    MoveAt(h, ms, i);
    ReviveMakesGood(Finally(h, ms[..i]), ms[i], r, until);
    assert Good(Finally(h, ms[..i + 1]).st, r);
  }

  /** A refresh token that is not good is good again in a continuation if and only if the file
      shows it unrevoked, and some restart reads that file before the token expires and before
      any move has replaced the file. */
  lemma {:induction false} GoodAgainIff(h: Hall, ms: seq<Move>, r: Id)
    requires Moves(h, ms) && Knows(h, r) && !Good(h.st, r)
    ensures GoodAgain(h, ms, r) <==> Resurrected(h, ms, r)
  {
    if Resurrected(h, ms, r) {
      ComesBack(h, ms, r);
    } else {
      forall k | 0 <= k <= |ms| && Moves(h, ms[..k]) ensures !Good(Finally(h, ms[..k]).st, r) {
        if Resurrected(h, ms[..k], r) { LongerRun(h, ms, k, r); }
        StaysDead(h, ms[..k], r);
      }
    }
  }

  lemma {:induction false} LongerRun(h: Hall, ms: seq<Move>, k: nat, r: Id)
    requires k <= |ms| && Resurrected(h, ms[..k], r)
    ensures Resurrected(h, ms, r)
  {
    var until := h.st.disk.refresh[r].expiresAt;
    var i: nat :| ReadsOldFile(h, ms[..k], i, until);
    assert ms[..k][..i] == ms[..i];
    assert ReadsOldFile(h, ms, i, until);
  }

  // ------------------------------------------------------- names of the two kinds apart

  lemma {:induction false} MoveApart(h: Hall, m: Move)
    requires HallSound(h) && Allowed(h, m) && Apart(h.st.hist)
    ensures Apart(After(h, m).st.hist)
  {
    match m
    case Serve(now, act) => StepApart(h.st, now, act);
    case Take(now, thread, request) => TakeAndDecideKeep(h, m);
    case Decide(now, thread, approve, secretOk, limited) => TakeAndDecideKeep(h, m);
    case Store(now, thread, code, fault) => StoreApart(h, now, thread, code, fault);
  }

  lemma {:induction false} StoreApart(h: Hall, now: Time, thread: Thread, code: Id, fault: Fault)
    requires thread in h.held && Apart(h.st.hist)
    ensures Apart(Stored(h, now, thread, code, fault).st.hist)
  {
  }

  lemma {:induction false} ApartTables(st: State)
    requires Sound(st) && Apart(st.hist)
    ensures st.access.Keys !! st.refresh.Keys && st.access.Keys <= st.hist.used && st.refresh.Keys <= st.hist.used
  {
  }

  lemma {:induction false} RunApart(h: Hall, ms: seq<Move>)
    requires HallSound(h) && Moves(h, ms) && Apart(h.st.hist)
    ensures Apart(Finally(h, ms).st.hist)
    decreases |ms|
  {
    if ms != [] {
      RunApart(h, Front(ms));
      MovesSound(h, Front(ms));
      MoveApart(Finally(h, Front(ms)), ms[|ms| - 1]);
    }
  }

  lemma {:induction false} AlwaysApart(h: Hall)
    requires HallReachable(h)
    ensures HallSound(h) && Apart(h.st.hist) && h.st.access.Keys !! h.st.refresh.Keys
    ensures h.st.access.Keys <= h.st.hist.used && h.st.refresh.Keys <= h.st.hist.used
  {
    AlwaysHallSound(h);
    var ms :| Moves(Door(), ms) && Finally(Door(), ms) == h;
    DoorIsSound();
    RunApart(Door(), ms);
    ApartTables(h.st);
  }

  lemma {:induction false} DoorIsSound()
    ensures HallSound(Door()) && Apart(Door().st.hist)
  {
  }

  // ----------------------------------------------------------- revoked, rotated, refused

  lemma {:induction false} KilledForGood(h: Hall, m: Move, ms: seq<Move>, r: Id)
    requires Knows(h, r) && Allowed(h, m) && !Restarts(m) && !LiveIn(After(h, m).st.refresh, r, m.now)
    requires Moves(After(h, m), ms)
    ensures !Good(After(h, m).st, r)
    ensures GoodAgain(After(h, m), ms, r) <==> Resurrected(After(h, m), ms, r)
    ensures Overwrites(h, m) ==> !GoodAgain(After(h, m), ms, r)
  {
    ClockMoves(h, m);
    MoveKnows(h, m, r);
    GoodAgainIff(After(h, m), ms, r);
    MoveWrites(h, m);
    if Overwrites(h, m) && Resurrected(After(h, m), ms, r) { TooLateToRead(After(h, m), ms, r); }
  }

  lemma {:induction false} TooLateToRead(h: Hall, ms: seq<Move>, r: Id)
    requires Moves(h, ms) && Resurrected(h, ms, r)
    ensures LiveIn(h.st.disk.refresh, r, h.st.clock)
  {
    var until := h.st.disk.refresh[r].expiresAt;
    var i: nat :| ReadsOldFile(h, ms, i, until);
    MoveAt(h, ms, i);
    ClockRuns(h, ms[..i]);
    ClockMoves(Finally(h, ms[..i]), ms[i]);
  }

  lemma {:induction false} ClockRuns(h: Hall, ms: seq<Move>)
    requires Moves(h, ms)
    ensures h.st.clock <= Finally(h, ms).st.clock
    decreases |ms|
  {
    if ms != [] {
      ClockRuns(h, Front(ms));
      ClockMoves(Finally(h, Front(ms)), ms[|ms| - 1]);
    }
  }

  /** After a revocation, whatever hint it came with and however its save ended, the refresh token
      is good again in a continuation exactly when a restart reads a file that still shows it, in
      time and before any write; if the revocation itself replaced the file, it never is. */
  lemma {:induction false} RevokedForGood(h: Hall, now: Time, token: Id, hint: Hint, fault: Fault, ms: seq<Move>)
    requires HallReachable(h) && Allowed(h, Serve(now, DoRevoke(token, hint, fault))) && token in h.st.refresh
    requires Moves(After(h, Serve(now, DoRevoke(token, hint, fault))), ms)
    ensures var next := After(h, Serve(now, DoRevoke(token, hint, fault)));
            && !Good(next.st, token)
            && (GoodAgain(next, ms, token) <==> Resurrected(next, ms, token))
            && (fault != FailedBefore ==> !GoodAgain(next, ms, token))
  {
    AlwaysApart(h);
    RevokeKills(h.st, now, token, hint, fault);
    KilledForGood(h, Serve(now, DoRevoke(token, hint, fault)), ms, token);
  }

  /** The same after a rotation, also one refused for its scopes; the rotation settles it if it
      was not refused and its save replaced the file, and otherwise leaves the file as it was. */
  lemma {:induction false} RotatedForGood(h: Hall, now: Time, form: RefreshForm, access: Id, refresh: Id, fault: Fault, ms: seq<Move>)
    requires HallReachable(h) && Allowed(h, Serve(now, DoRefresh(form, access, refresh, fault)))
    requires RefreshError(h.st, now, form) == None && Moves(After(h, Serve(now, DoRefresh(form, access, refresh, fault))), ms)
    ensures var next := After(h, Serve(now, DoRefresh(form, access, refresh, fault)));
            var settled := RefreshTokens(h.st, now, form, access, refresh, fault).reply != Failed(InvalidScope) && fault != FailedBefore;
            && !Good(next.st, form.token)
            && (GoodAgain(next, ms, form.token) <==> Resurrected(next, ms, form.token))
            && (if settled then !GoodAgain(next, ms, form.token) else next.st.disk == h.st.disk)
  {
    var m := Serve(now, DoRefresh(form, access, refresh, fault));
    AlwaysApart(h);
    RotateKills(h.st, now, form, access, refresh, fault);
    RotateReplies(h.st, now, form, access, refresh, fault);
    KilledForGood(h, m, ms, form.token);
    MoveWrites(h, m);
  }

  // ----------------------------------------------------------------------- access tokens

  lemma {:induction false} AccessStaysDead(h: Hall, m: Move, a: Id)
    requires Allowed(h, m) && Knows(h, a) && !LiveIn(h.st.access, a, h.st.clock)
    ensures !LiveIn(After(h, m).st.access, a, After(h, m).st.clock)
  {
    ClockMoves(h, m);
    if Restarts(m) { RestartAges(h.st, m.now, m.act.gone, m.act.fault, a); } else { MoveAges(h, m, a); }
  }

  lemma {:induction false} AccessRunsDead(h: Hall, ms: seq<Move>, a: Id)
    requires Moves(h, ms) && Knows(h, a) && !LiveIn(h.st.access, a, h.st.clock)
    ensures !LiveIn(Finally(h, ms).st.access, a, Finally(h, ms).st.clock)
    decreases |ms|
  {
    if ms != [] {
      AccessRunsDead(h, Front(ms), a);
      RunKnows(h, Front(ms), a);
      AccessStaysDead(Finally(h, Front(ms)), ms[|ms| - 1], a);
    }
  }

  /** An access token that is revoked, expired or was lost in a restart is never accepted again. */
  lemma {:induction false} AccessNeverComesBack(h: Hall, ms: seq<Move>, a: Id, later: Time, required: set<Scope>)
    requires HallReachable(h) && Moves(h, ms) && a in h.st.hist.used && !LiveIn(h.st.access, a, h.st.clock)
    requires Finally(h, ms).st.clock <= later
    ensures Validate(Finally(h, ms).st, later, Some(a), required) == Failed(InvalidToken)
  {
    AlwaysHallSound(h);
    AccessRunsDead(h, ms, a);
  }

  /** So it is, however the save ends, for every access token that is revoked. */
  lemma {:induction false} RevokedAccessForGood(h: Hall, now: Time, token: Id, hint: Hint, fault: Fault, ms: seq<Move>, later: Time,
                                                required: set<Scope>)
    requires HallReachable(h) && Allowed(h, Serve(now, DoRevoke(token, hint, fault))) && token in h.st.access
    requires var next := After(h, Serve(now, DoRevoke(token, hint, fault))); Moves(next, ms) && Finally(next, ms).st.clock <= later
    ensures Validate(Finally(After(h, Serve(now, DoRevoke(token, hint, fault))), ms).st, later, Some(token), required) == Failed(InvalidToken)
  {
    var m := Serve(now, DoRevoke(token, hint, fault));
    AlwaysApart(h);
    RevokeKills(h.st, now, token, hint, fault);
    MoveKnows(h, m, token);
    AccessRunsDead(After(h, m), ms, token);
  }

  // ------------------------------------------------------------------- what is not lost

  /** The move revokes the token or tries to rotate it. */
  ghost predicate SpentBy(m: Move, r: Id) {
    m.Serve? && Spends(m.act, r)
  }

  lemma {:induction false} StoreKept(h: Hall, now: Time, thread: Thread, code: Id, fault: Fault, r: Id, t: Token)
    requires thread in h.held && h.st.up && Kept(h.st, r, t) && !t.revoked && now <= t.expiresAt
    ensures Kept(Stored(h, now, thread, code, fault).st, r, t)
  {
    SaveKeeps(Coded(h.st, now, h.held[thread], code), now, fault, r);
  }

  lemma {:induction false} MoveKept(h: Hall, m: Move, r: Id, t: Token)
    requires Allowed(h, m) && Knows(h, r) && !SpentBy(m, r)
    requires Kept(h.st, r, t) && !t.revoked && m.now <= t.expiresAt
    ensures Kept(After(h, m).st, r, t)
  {
    match m
    case Serve(now, act) => StepKept(h.st, now, act, r, t);
    case Take(now, thread, request) => TakeAndDecideKeep(h, m);
    case Decide(now, thread, approve, secretOk, limited) => TakeAndDecideKeep(h, m);
    case Store(now, thread, code, fault) => StoreKept(h, now, thread, code, fault, r, t);
  }

  /** A refresh token that was saved stays in the file, and in memory whenever the service runs,
      as it was, until it expires or is itself revoked or shown for rotation: no cleanup, failed
      save, restart or operation on another token costs it. */
  lemma {:induction false} SavedTokenStaysGood(h: Hall, ms: seq<Move>, r: Id, t: Token)
    requires Moves(h, ms) && Knows(h, r) && Kept(h.st, r, t) && !t.revoked && Finally(h, ms).st.clock <= t.expiresAt
    requires forall m :: m in ms ==> !SpentBy(m, r)
    ensures Kept(Finally(h, ms).st, r, t)
    ensures Finally(h, ms).st.up ==> Good(Finally(h, ms).st, r)
    decreases |ms|
  {
    if ms != [] {
      ClockMoves(Finally(h, Front(ms)), ms[|ms| - 1]);
      SavedTokenStaysGood(h, Front(ms), r, t);
      RunKnows(h, Front(ms), r);
      MoveKept(Finally(h, Front(ms)), ms[|ms| - 1], r, t);
    }
  }
}
