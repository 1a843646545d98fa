/**
 The authorization server with the owner's decision taken apart at its lock releases, as
 complete_authorization of relay/oauth.py has them: a request is taken out, then decided on,
 and for an accepted one the code is stored later still.  Between any two of these anything
 else may be served, and any number of decisions may be open at once.
 */
module SplitDecision {

  import opened Options
  import opened OAuth
  import opened OAuthStore
  import opened OAuthRuns
  import opened OAuthRegistered
  import opened OAuthCleanup
  import opened OAuthProvenance
  import opened OAuthHistory
  import opened OAuthFamilies

  /** A request a thread has taken out: still to be decided, or accepted and its code not stored yet. */
  datatype Held = Held(request: Id, p: Pending, accepted: bool)

  type Thread = nat

  datatype Hall = Hall(st: State, held: map<Thread, Held>)

  datatype Move =
    | Serve(now: Time, act: Act)
    | Take(now: Time, thread: Thread, request: Id)
    | Decide(now: Time, thread: Thread, approve: bool, secretOk: bool, limited: bool)
    | Store(now: Time, thread: Thread, code: Id, fault: Fault)

  /** What can happen next; a decision is never served in one piece. */
  ghost predicate Allowed(h: Hall, m: Move) {
    match m
    case Serve(now, act) => !act.DoComplete? && Legal(h.st, now, act)
    case Take(now, thread, request) => 0.0 < now && h.st.clock <= now && h.st.up && thread !in h.held
    case Decide(now, thread, approve, secretOk, limited) =>
      0.0 < now && h.st.clock <= now && h.st.up && thread in h.held && !h.held[thread].accepted
    case Store(now, thread, code, fault) =>
      0.0 < now && h.st.clock <= now && h.st.up && thread in h.held && h.held[thread].accepted && code !in h.st.hist.used
  }

  function TakenOut(h: Hall, now: Time, thread: Thread, request: Id): Hall {
    if request !in h.st.pending then Hall(h.st.(clock := now), h.held)
    else if now > h.st.pending[request].expiresAt then Hall(Popped(h.st, request).(clock := now), h.held)
    else Hall(Popped(h.st, request).(clock := now), h.held[thread := Held(request, h.st.pending[request], false)])
  }

  /** The state in which a request has been put back. */
  function PutBack(st: State, x: Held): State {
    st.(pending := st.pending[x.request := x.p])
  }

  /** Denied: dropped.  Throttled, or the wrong secret: put back.  Otherwise accepted, which marks the
      client as used if it is still there. */
  function Decided(h: Hall, now: Time, thread: Thread, approve: bool, secretOk: bool, limited: bool): Hall
    requires thread in h.held
  {
    var x := h.held[thread];
    if !approve then Hall(h.st.(clock := now), h.held - {thread})
    else if limited || !secretOk then Hall(PutBack(h.st, x).(clock := now), h.held - {thread})
    else Hall(Touched(h.st, x.p.clientId, now).(clock := now), h.held[thread := x.(accepted := true)])
  }

  /** The state with a code for an accepted request, not yet saved. */
  function Coded(st: State, now: Time, x: Held, code: Id): State {
    st.(codes := st.codes[code := CodeFor(x.p, now)],
        hist := st.hist.(used := st.hist.used + {code}, approvals := st.hist.approvals[code := Approval(x.request, x.p)]))
  }

  function Stored(h: Hall, now: Time, thread: Thread, code: Id, fault: Fault): Hall
    requires thread in h.held
  {
    Hall(Save(Coded(h.st, now, h.held[thread], code), now, fault).(clock := now), h.held - {thread})
  }

  ghost function After(h: Hall, m: Move): Hall
    requires Allowed(h, m)
  {
    match m
    case Serve(now, act) => Hall(Step(h.st, now, act), if act.DoRestart? then map[] else h.held)
    case Take(now, thread, request) => TakenOut(h, now, thread, request)
    case Decide(now, thread, approve, secretOk, limited) => Decided(h, now, thread, approve, secretOk, limited)
    case Store(now, thread, code, fault) => Stored(h, now, thread, code, fault)
  }

  function Door(): Hall {
    Hall(Opening(), map[])
  }

  ghost predicate Moves(h: Hall, ms: seq<Move>)
    decreases |ms|, 0
  {
    ms == [] || (Moves(h, Front(ms)) && Allowed(Finally(h, Front(ms)), ms[|ms| - 1]))
  }

  /** Where a run ends. */
  ghost function Finally(h: Hall, ms: seq<Move>): Hall
    requires Moves(h, ms)
    decreases |ms|, 1
  {
    if ms == [] then h else After(Finally(h, Front(ms)), ms[|ms| - 1])
  }

  function Front(ms: seq<Move>): seq<Move>
    requires ms != []
  {
    ms[..|ms| - 1]
  }

  ghost predicate HallReachable(h: Hall) {
    exists ms :: Moves(Door(), ms) && Finally(Door(), ms) == h
  }

  lemma {:induction false} MovesGoOn(h: Hall, ms: seq<Move>, m: Move)
    requires Moves(h, ms) && Allowed(Finally(h, ms), m)
    ensures Moves(h, ms + [m]) && Finally(h, ms + [m]) == After(Finally(h, ms), m)
  {
    assert Front(ms + [m]) == ms;
  }

  /** A run can be cut anywhere. */
  lemma {:induction false} MovesSoFar(h: Hall, ms: seq<Move>, k: nat)
    requires Moves(h, ms) && k <= |ms|
    ensures Moves(h, ms[..k])
    decreases |ms|
  {
    if k == |ms| {
      assert ms[..k] == ms;
    } else {
      assert Front(ms)[..k] == ms[..k];
      MovesSoFar(h, Front(ms), k);
    }
  }

  lemma {:induction false} MoveAt(h: Hall, ms: seq<Move>, k: nat)
    requires Moves(h, ms) && k < |ms|
    ensures Moves(h, ms[..k]) && Moves(h, ms[..k + 1]) && Allowed(Finally(h, ms[..k]), ms[k])
    ensures Finally(h, ms[..k + 1]) == After(Finally(h, ms[..k]), ms[k])
  {
    MovesSoFar(h, ms, k);
    MovesSoFar(h, ms, k + 1);
    assert Front(ms[..k + 1]) == ms[..k];
    assert ms[..k + 1][|ms[..k + 1]| - 1] == ms[k];
  }

  lemma {:induction false} ClockMoves(h: Hall, m: Move)
    requires Allowed(h, m)
    ensures h.st.clock <= m.now && After(h, m).st.clock == m.now
  {
  }

  lemma {:induction false} HallGoesOn(h: Hall, m: Move)
    requires HallReachable(h) && Allowed(h, m)
    ensures HallReachable(After(h, m))
  {
    var ms :| Moves(Door(), ms) && Finally(Door(), ms) == h;
    MovesGoOn(Door(), ms, m);
  }

  // ------------------------------------------------- a decision in one piece is a case of it

  /** A thread's moves on one request, with nothing served in between. */
  function Undisturbed(h: Hall, now: Time, thread: Thread, request: Id, approve: bool, secretOk: bool, limited: bool, code: Id, fault: Fault): Hall
    requires thread !in h.held
  {
    var taken := TakenOut(h, now, thread, request);
    if thread !in taken.held then taken
    else
      var decided := Decided(taken, now, thread, approve, secretOk, limited);
      if thread !in decided.held then decided else Stored(decided, now, thread, code, fault)
  }

  lemma {:induction false} UndisturbedFromTaken(st: State, held: map<Thread, Held>, now: Time, thread: Thread, request: Id, p: Pending,
                                                approve: bool, secretOk: bool, limited: bool, code: Id, fault: Fault)
    requires thread !in held
    ensures var decided := Decided(Hall(st.(clock := now), held[thread := Held(request, p, false)]), now, thread, approve, secretOk, limited);
            (if thread !in decided.held then decided else Stored(decided, now, thread, code, fault))
            == Hall((if !approve then st
                     else if limited || !secretOk then st.(pending := st.pending[request := p])
                     else Save(Approved(st, now, request, p, code), now, fault)).(clock := now), held)
  {
    var x := Held(request, p, false);
    assert held[thread := x] - {thread} == held;
    assert held[thread := x][thread := x.(accepted := true)] - {thread} == held;
    assert Coded(Touched(st, p.clientId, now), now, x.(accepted := true), code) == Approved(st, now, request, p, code);
  }

  /** An undisturbed decision does what the operation in one piece does. */
  lemma {:induction false} UndisturbedIsComplete(h: Hall, now: Time, thread: Thread, request: Id, approve: bool, secretOk: bool, limited: bool,
                                                 code: Id, fault: Fault)
    requires thread !in h.held
    ensures Undisturbed(h, now, thread, request, approve, secretOk, limited, code, fault)
         == Hall(Step(h.st, now, DoComplete(request, approve, secretOk, limited, code, fault)), h.held)
  {
    if request in h.st.pending {
      UndisturbedFromTaken(Popped(h.st, request), h.held, now, thread, request, h.st.pending[request],
                           approve, secretOk, limited, code, fault);
    }
  }

  // ------------------------------------------------------------------ what is held is safe

  /** A held request is a known one, no longer pending and not approved. */
  ghost predicate HeldSound(st: State, x: Held) {
    && x.request in st.hist.used && x.request !in st.pending
    && forall c :: c in st.hist.approvals ==> st.hist.approvals[c].request != x.request
  }

  ghost predicate AllHeld(st: State, held: map<Thread, Held>) {
    && (forall t :: t in held ==> HeldSound(st, held[t]))
    && (forall t, u :: t in held && u in held && held[t].request == held[u].request ==> t == u)
  }

  /** Everything is accounted for, the held requests included. */
  ghost predicate HallSound(h: Hall) {
    Sound(h.st) && Readable(h.st) && OneLiveEach(h.st) && AllHeld(h.st, h.held)
  }

  /** Nothing is approved, and only new requests come in. */
  ghost predicate PagesOnly(st: State, next: State) {
    && next.hist.approvals == st.hist.approvals && st.hist.used <= next.hist.used
    && forall p :: p in next.pending ==> p in st.pending || p !in st.hist.used
  }

  lemma {:induction false} PagesKeepHeld(st: State, next: State, held: map<Thread, Held>)
    requires AllHeld(st, held) && PagesOnly(st, next)
    ensures AllHeld(next, held)
  {
    forall t | t in held ensures HeldSound(next, held[t]) { assert HeldSound(st, held[t]); }
  }

  lemma {:induction false} ServeIsPagesOnly(st: State, now: Time, act: Act)
    requires Legal(st, now, act) && !act.DoComplete? && !act.DoRestart?
    ensures PagesOnly(st, Step(st, now, act))
  {
    match act
    case DoRegister(limited, body, gone, id, fault) => RegisterIsQuiet(st, now, limited, body, gone, id, fault);
    case DoBegin(limited, q, id) => BeginIsQuiet(st, now, limited, q, id);
    case DoExchange(form, access, refresh, fault) =>
      ExchangeKeepsPending(st, now, form, access, refresh, fault);
      ExchangeHistory(st, now, form, access, refresh, fault);
    case DoRefresh(form, access, refresh, fault) =>
      RotateKeepsPending(st, now, form, access, refresh, fault);
      RotateCases(st, now, form, access, refresh, fault);
    case DoRevoke(token, hint, fault) =>
      RevokeKeepsPending(st, now, token, hint, fault);
      RevokeHistory(st, now, token, hint, fault);
  }

  lemma {:induction false} ServeSound(h: Hall, now: Time, act: Act)
    requires HallSound(h) && Allowed(h, Serve(now, act))
    ensures HallSound(After(h, Serve(now, act)))
  {
    StepSound(h.st, now, act);
    StepStaysReadable(h.st, now, act);
    StepOneLive(h.st, now, act);
    if !act.DoRestart? {
      ServeIsPagesOnly(h.st, now, act);
      PagesKeepHeld(h.st, Step(h.st, now, act), h.held);
    }
  }

  lemma {:induction false} Ticked(st: State, now: Time)
    requires Sound(st) && Readable(st) && OneLiveEach(st)
    ensures var next := st.(clock := now); Sound(next) && Readable(next) && OneLiveEach(next)
  {
  }

  lemma {:induction false} PoppedHeld(st: State, held: map<Thread, Held>, thread: Thread, request: Id)
    requires AllHeld(st, held) && NamesUsed(st) && ApprovedOnce(st) && request in st.pending && thread !in held
    ensures AllHeld(Popped(st, request), held)
    ensures AllHeld(Popped(st, request), held[thread := Held(request, st.pending[request], false)])
  {
    var next, grown := Popped(st, request), held[thread := Held(request, st.pending[request], false)];
    forall t | t in held ensures HeldSound(next, held[t]) { assert HeldSound(st, held[t]); }
    forall t | t in grown ensures HeldSound(next, grown[t]) { if t != thread { assert HeldSound(st, held[t]); } }
    forall t, u | t in grown && u in grown && grown[t].request == grown[u].request ensures t == u {
      if t != thread { assert HeldSound(st, held[t]); }
      if u != thread { assert HeldSound(st, held[u]); }
    }
  }

  lemma {:induction false} TakeSound(h: Hall, now: Time, thread: Thread, request: Id)
    requires HallSound(h) && Allowed(h, Take(now, thread, request))
    ensures HallSound(After(h, Take(now, thread, request)))
  {
    Ticked(h.st, now);
    if request in h.st.pending {
      RefusalIsQuiet(h.st, request);
      QuietKeepsSound(h.st, Popped(h.st, request));
      QuietKeepsOneLive(h.st, Popped(h.st, request));
      Ticked(Popped(h.st, request), now);
      PoppedHeld(h.st, h.held, thread, request);
    }
  }

  lemma {:induction false} FewerHeld(st: State, held: map<Thread, Held>, thread: Thread)
    requires AllHeld(st, held)
    ensures AllHeld(st, held - {thread})
  {
    forall t | t in held - {thread} ensures HeldSound(st, (held - {thread})[t]) { assert HeldSound(st, held[t]); }
  }

  lemma {:induction false} PutBackNames(st: State, x: Held)
    requires Sound(st) && HeldSound(st, x)
    ensures Sound(PutBack(st, x))
  {
    var next := PutBack(st, x);
    assert NamesUsed(next) && KeysKnown(next) && ApprovedOnce(next);
    assert TablesMatch(next);
  }

  lemma {:induction false} PutBackHeld(st: State, held: map<Thread, Held>, thread: Thread)
    requires AllHeld(st, held) && thread in held
    ensures AllHeld(PutBack(st, held[thread]), held - {thread})
  {
    forall t | t in held - {thread} ensures HeldSound(PutBack(st, held[thread]), (held - {thread})[t]) {
      assert HeldSound(st, held[t]);
    }
  }

  lemma {:induction false} AcceptedHeld(st: State, held: map<Thread, Held>, thread: Thread, now: Time)
    requires AllHeld(st, held) && thread in held
    ensures AllHeld(Touched(st, held[thread].p.clientId, now), held[thread := held[thread].(accepted := true)])
  {
    var next, grown := Touched(st, held[thread].p.clientId, now), held[thread := held[thread].(accepted := true)];
    forall t | t in grown ensures HeldSound(next, grown[t]) { assert HeldSound(st, held[t]); }
  }

  lemma {:induction false} DecideSound(h: Hall, now: Time, thread: Thread, approve: bool, secretOk: bool, limited: bool)
    requires HallSound(h) && Allowed(h, Decide(now, thread, approve, secretOk, limited))
    ensures HallSound(After(h, Decide(now, thread, approve, secretOk, limited)))
  {
    var x := h.held[thread];
    Ticked(h.st, now);
    if !approve {
      FewerHeld(h.st, h.held, thread);
    } else if limited || !secretOk {
      assert HeldSound(h.st, x);
      PutBackNames(h.st, x);
      PutBackHeld(h.st, h.held, thread);
      Ticked(PutBack(h.st, x), now);
    } else {
      TouchIsQuiet(h.st, x.p.clientId, now);
      QuietKeepsSound(h.st, Touched(h.st, x.p.clientId, now));
      QuietKeepsOneLive(h.st, Touched(h.st, x.p.clientId, now));
      TouchWellFormed(h.st.clients, x.p.clientId, now);
      AcceptedHeld(h.st, h.held, thread, now);
      Ticked(Touched(h.st, x.p.clientId, now), now);
    }
  }

  lemma {:induction false} CodedSound(st: State, now: Time, x: Held, code: Id)
    requires Sound(st) && HeldSound(st, x) && code !in st.hist.used
    ensures Sound(Coded(st, now, x, code))
  {
    ApprovedLines(st.hist.approvals, st.hist.exchanges, st.hist.lineage, code, Approval(x.request, x.p));
    CodedNames(st, now, x, code);
    assert CodesMatch(Coded(st, now, x, code));
  }

  lemma {:induction false} CodedNames(st: State, now: Time, x: Held, code: Id)
    requires NamesUsed(st) && KeysKnown(st) && ApprovedOnce(st) && HeldSound(st, x) && code !in st.hist.used
    ensures var next := Coded(st, now, x, code); NamesUsed(next) && KeysKnown(next) && ApprovedOnce(next)
  {
  }

  lemma {:induction false} StoredHeld(st: State, held: map<Thread, Held>, thread: Thread, now: Time, code: Id, fault: Fault)
    requires AllHeld(st, held) && thread in held
    ensures AllHeld(Save(Coded(st, now, held[thread], code), now, fault), held - {thread})
  {
    var next := Save(Coded(st, now, held[thread], code), now, fault);
    forall t | t in held - {thread} ensures HeldSound(next, (held - {thread})[t]) { assert HeldSound(st, held[t]); }
  }

  lemma {:induction false} StoreSound(h: Hall, now: Time, thread: Thread, code: Id, fault: Fault)
    requires HallSound(h) && Allowed(h, Store(now, thread, code, fault))
    ensures HallSound(After(h, Store(now, thread, code, fault)))
  {
    var x := h.held[thread];
    assert HeldSound(h.st, x);
    var coded := Coded(h.st, now, x, code);
    CodedSound(h.st, now, x, code);
    SaveSound(coded, now, fault);
    SaveReadable(coded, now, fault);
    SaveOneLive(coded, now, fault);
    StoredHeld(h.st, h.held, thread, now, code, fault);
    Ticked(Save(coded, now, fault), now);
  }

  lemma {:induction false} MoveSound(h: Hall, m: Move)
    requires HallSound(h) && Allowed(h, m)
    ensures HallSound(After(h, m))
  {
    match m
    case Serve(now, act) => ServeSound(h, now, act);
    case Take(now, thread, request) => TakeSound(h, now, thread, request);
    case Decide(now, thread, approve, secretOk, limited) => DecideSound(h, now, thread, approve, secretOk, limited);
    case Store(now, thread, code, fault) => StoreSound(h, now, thread, code, fault);
  }

  lemma {:induction false} MovesSound(h: Hall, ms: seq<Move>)
    requires HallSound(h) && Moves(h, ms)
    ensures HallSound(Finally(h, ms))
    decreases |ms|
  {
    if ms != [] {
      MovesSound(h, Front(ms));
      MoveSound(Finally(h, Front(ms)), ms[|ms| - 1]);
    }
  }

  lemma {:induction false} AlwaysHallSound(h: Hall)
    requires HallReachable(h)
    ensures HallSound(h)
  {
    var ms :| Moves(Door(), ms) && Finally(Door(), ms) == h;
    MovesSound(Door(), ms);
  }

  // ------------------------------------------------------------------ runs in one piece

  lemma {:induction false} OnePieceIsReachable(h: Hall, now: Time, act: Act)
    requires HallReachable(h) && h.held == map[] && Legal(h.st, now, act)
    ensures HallReachable(Hall(Step(h.st, now, act), map[]))
  {
    if act.DoComplete? {
      UndisturbedIsComplete(h, now, 0, act.request, act.approve, act.secretOk, act.limited, act.code, act.fault);
      var taken := After(h, Take(now, 0, act.request));
      HallGoesOn(h, Take(now, 0, act.request));
      if 0 in taken.held {
        var decide := Decide(now, 0, act.approve, act.secretOk, act.limited);
        HallGoesOn(taken, decide);
        if 0 in After(taken, decide).held { HallGoesOn(After(taken, decide), Store(now, 0, act.code, act.fault)); }
      }
    } else {
      HallGoesOn(h, Serve(now, act));
    }
  }

  /** Every state that is reached with decisions in one piece is reached here, with none open. */
  lemma {:induction false} ReachableIsHallReachable(ticks: seq<Tick>)
    requires Run(Opening(), ticks)
    ensures HallReachable(Hall(End(Opening(), ticks), map[]))
  {
    assert Moves(Door(), []) && Finally(Door(), []) == Door();
    TicksAreMoves(Opening(), ticks);
  }

  lemma {:induction false} TicksAreMoves(st: State, ticks: seq<Tick>)
    requires HallReachable(Hall(st, map[])) && Run(st, ticks)
    ensures HallReachable(Hall(End(st, ticks), map[]))
    decreases |ticks|
  {
    if ticks != [] {
      OnePieceIsReachable(Hall(st, map[]), ticks[0].now, ticks[0].act);
      TicksAreMoves(Step(st, ticks[0].now, ticks[0].act), ticks[1..]);
    }
  }

  // ------------------------------------------------------------- where tokens come from

  /** However decisions are interleaved: every bearer token the service accepts goes back to one
      exchange of one approved code: by the client, redirect and resource the owner approved, with
      the verifier of the approved challenge, through a line of rotations, with no more scopes than
      were approved. */
  lemma {:induction false} BearerIsAccountedFor(h: Hall, now: Time, bearer: Id, required: set<Scope>) returns (code: Id, line: seq<Id>)
    requires HallReachable(h) && Validate(h.st, now, Some(bearer), required).Accepted?
    ensures code in h.st.hist.exchanges && code in h.st.hist.approvals && code !in h.st.codes
    ensures var token, shown, asked := h.st.access[bearer], h.st.hist.exchanges[code], h.st.hist.approvals[code].pending;
            && asked.challengeMethod == MethodS256 && asked.challenge == S256(shown.verifier)
            && token.clientId == shown.clientId == asked.clientId
            && shown.redirectUri == asked.redirectUri
            && token.resource == shown.resource == asked.resource == Relay
            && token.scopes <= asked.scopes
    ensures h.st.hist.approvals[code].request !in h.st.pending
    ensures Line(h.st.hist, line, code) && line[0] == h.st.hist.exchanges[code].refresh
    ensures bearer in h.st.hist.twin && line[|line| - 1] == h.st.hist.twin[bearer]
    ensures h.st.access[bearer].scopes == h.st.hist.lineage[line[|line| - 1]].scopes
  {
    AlwaysHallSound(h);
    code, line := SoundBearer(h.st, now, bearer, required);
  }

  /** No request gives two codes, and none that gave one is pending or held. */
  lemma {:induction false} OneCodePerRequest(h: Hall, c1: Id, c2: Id)
    requires HallReachable(h) && c1 in h.st.hist.approvals && c2 in h.st.hist.approvals
    ensures h.st.hist.approvals[c1].request == h.st.hist.approvals[c2].request ==> c1 == c2
    ensures h.st.hist.approvals[c1].request !in h.st.pending
    ensures forall t :: t in h.held ==> h.held[t].request != h.st.hist.approvals[c1].request
  {
    AlwaysHallSound(h);
    forall t | t in h.held ensures h.held[t].request != h.st.hist.approvals[c1].request { assert HeldSound(h.st, h.held[t]); }
  }

  /** No code is the root of two lines. */
  lemma {:induction false} OneLinePerCode(h: Hall, r1: Id, r2: Id)
    requires HallReachable(h) && r1 in h.st.hist.lineage && r2 in h.st.hist.lineage
    requires h.st.hist.lineage[r1].parent == None && h.st.hist.lineage[r2].parent == None
    requires h.st.hist.lineage[r1].code == h.st.hist.lineage[r2].code
    ensures r1 == r2
  {
    AlwaysHallSound(h);
    SoundLines(h.st, r1, r2);
  }

  /** However decisions are interleaved, of the refresh tokens of one code at most one is unrevoked,
      in memory and on disk. */
  lemma {:induction false} OneLiveEverywhere(h: Hall)
    requires HallReachable(h)
    ensures OneLiveEach(h.st)
  {
    AlwaysHallSound(h);
  }

  /** No request is with two threads, or pending while it is held. */
  lemma {:induction false} HeldOnce(h: Hall, t: Thread, u: Thread)
    requires HallReachable(h) && t in h.held && u in h.held
    ensures h.held[t].request !in h.st.pending
    ensures h.held[t].request == h.held[u].request ==> t == u
  {
    AlwaysHallSound(h);
    assert HeldSound(h.st, h.held[t]);
  }

  // ----------------------------------------------------------------- how entries are earned

  lemma {:induction false} OnlyStoreApproves(h: Hall, m: Move, c: Id)
    requires Allowed(h, m) && c in After(h, m).st.hist.approvals
    ensures || (c in h.st.hist.approvals && After(h, m).st.hist.approvals[c] == h.st.hist.approvals[c])
            || (m.Store? && m.code == c && After(h, m).st.hist.approvals[c] == Approval(h.held[m.thread].request, h.held[m.thread].p))
  {
    if m.Take? || m.Decide? {
      TakeAndDecideKeep(h, m);
    } else if m.Serve? {
      if m.act.DoRestart? { RestartHistory(h.st, m.now, m.act.gone, m.act.fault); } else { ServeIsPagesOnly(h.st, m.now, m.act); }
    }
  }

  /** Where in a run from the start a held page was accepted. */
  ghost predicate AcceptedAt(ms: seq<Move>, i: nat, x: Held) {
    && i < |ms| && ms[i].Decide? && ms[i].approve && ms[i].secretOk && !ms[i].limited
    && Moves(Door(), ms[..i]) && ms[i].thread in Finally(Door(), ms[..i]).held
    && Finally(Door(), ms[..i]).held[ms[i].thread] == x.(accepted := false)
  }

  lemma {:induction false} AcceptedBefore(ms: seq<Move>, i: nat, x: Held)
    requires ms != [] && AcceptedAt(Front(ms), i, x)
    ensures AcceptedAt(ms, i, x)
  {
    assert Front(ms)[..i] == ms[..i] && Front(ms)[i] == ms[i];
  }

  lemma {:induction false} AcceptedMoves(h: Hall, m: Move, t: Thread)
    requires Allowed(h, m) && t in After(h, m).held && After(h, m).held[t].accepted
    ensures || (t in h.held && h.held[t] == After(h, m).held[t])
            || (&& m.Decide? && m.thread == t && m.approve && m.secretOk && !m.limited
                && t in h.held && h.held[t] == After(h, m).held[t].(accepted := false))
  {
  }

  lemma {:induction false} LastAccepted(ms: seq<Move>, t: Thread)
    requires ms != [] && Moves(Door(), ms) && t in Finally(Door(), ms).held && Finally(Door(), ms).held[t].accepted
    ensures var before, x := Finally(Door(), Front(ms)).held, Finally(Door(), ms).held[t];
            (t in before && before[t] == x) || AcceptedAt(ms, |ms| - 1, x)
  {
    AcceptedMoves(Finally(Door(), Front(ms)), ms[|ms| - 1], t);
    assert Front(ms) == ms[..|ms| - 1];
  }

  /** A page is accepted only by a decision to approve it, with the right secret and unthrottled. */
  lemma {:induction false} AcceptanceIsEarned(ms: seq<Move>, t: Thread) returns (i: nat)
    requires Moves(Door(), ms) && t in Finally(Door(), ms).held && Finally(Door(), ms).held[t].accepted
    ensures AcceptedAt(ms, i, Finally(Door(), ms).held[t])
    decreases |ms|
  {
    var x := Finally(Door(), ms).held[t];
    LastAccepted(ms, t);
    if AcceptedAt(ms, |ms| - 1, x) {
      i := |ms| - 1;
    } else {
      i := AcceptanceIsEarned(Front(ms), t);
      AcceptedBefore(ms, i, x);
    }
  }

  lemma {:induction false} LastApproval(ms: seq<Move>, c: Id)
    requires ms != [] && Moves(Door(), ms) && c in Finally(Door(), ms).st.hist.approvals
    ensures var g, m, a := Finally(Door(), Front(ms)), ms[|ms| - 1], Finally(Door(), ms).st.hist.approvals[c];
            || (c in g.st.hist.approvals && g.st.hist.approvals[c] == a)
            || (m.Store? && m.thread in g.held && g.held[m.thread].accepted
                && a == Approval(g.held[m.thread].request, g.held[m.thread].p))
  {
    OnlyStoreApproves(Finally(Door(), Front(ms)), ms[|ms| - 1], c);
  }

  /** Every approval in the history of a run was earned in it: the owner's decision on that very
      request, with the right secret and unthrottled, came before the code was stored. */
  lemma {:induction false} ApprovalIsEarned(ms: seq<Move>, c: Id) returns (i: nat, x: Held)
    requires Moves(Door(), ms) && c in Finally(Door(), ms).st.hist.approvals
    ensures AcceptedAt(ms, i, x) && Finally(Door(), ms).st.hist.approvals[c] == Approval(x.request, x.p)
    decreases |ms|
  {
    var g, a := Finally(Door(), Front(ms)), Finally(Door(), ms).st.hist.approvals[c];
    LastApproval(ms, c);
    if c in g.st.hist.approvals && g.st.hist.approvals[c] == a {
      i, x := ApprovalIsEarned(Front(ms), c);
    } else {
      x := g.held[ms[|ms| - 1].thread];
      i := AcceptanceIsEarned(Front(ms), ms[|ms| - 1].thread);
    }
    AcceptedBefore(ms, i, x);
  }

  lemma {:induction false} ServeKeepsEntries(st: State, now: Time, act: Act)
    requires Legal(st, now, act) && !act.DoExchange? && !act.DoRefresh? && !act.DoComplete?
    ensures Step(st, now, act).hist.exchanges == st.hist.exchanges && Step(st, now, act).hist.lineage == st.hist.lineage
  {
    match act
    case DoRegister(limited, body, gone, id, fault) => RegisterIsQuiet(st, now, limited, body, gone, id, fault);
    case DoBegin(limited, q, id) => BeginIsQuiet(st, now, limited, q, id);
    case DoRevoke(token, hint, fault) => RevokeHistory(st, now, token, hint, fault);
    case DoRestart(gone, fault) => RestartHistory(st, now, gone, fault);
  }

  lemma {:induction false} MoveKeepsEntries(h: Hall, m: Move)
    requires Allowed(h, m) && (m.Serve? ==> !m.act.DoExchange? && !m.act.DoRefresh?)
    ensures After(h, m).st.hist.exchanges == h.st.hist.exchanges && After(h, m).st.hist.lineage == h.st.hist.lineage
  {
    match m
    case Serve(now, act) => ServeKeepsEntries(h.st, now, act);
    case Take(now, thread, request) => TakeAndDecideKeep(h, m);
    case Decide(now, thread, approve, secretOk, limited) => TakeAndDecideKeep(h, m);
    case Store(now, thread, code, fault) =>
  }

  /** A code was exchanged here: it was outstanding and in time, and its verifier, client, redirect
      and resource were shown. */
  ghost predicate ExchangesHere(st: State, now: Time, act: Act, c: Id, shown: Exchange) {
    && act.DoExchange? && act.form.code == c && c in st.codes && CodeError(st, now, act.form) == None
    && shown == Exchange(act.form.verifier.value, act.form.clientId, act.form.redirectUri, act.form.resource, act.refresh)
  }

  lemma {:induction false} NewExchange(st: State, now: Time, form: CodeForm, access: Id, refresh: Id, fault: Fault, c: Id)
    ensures var next := ExchangeCode(st, now, form, access, refresh, fault).st.hist.exchanges;
            c in next ==> (c in st.hist.exchanges && next[c] == st.hist.exchanges[c])
                          || ExchangesHere(st, now, DoExchange(form, access, refresh, fault), c, next[c])
  {
  }

  lemma {:induction false} RotationExchangesNothing(st: State, now: Time, form: RefreshForm, access: Id, refresh: Id, fault: Fault)
    ensures RefreshTokens(st, now, form, access, refresh, fault).st.hist.exchanges == st.hist.exchanges
  {
  }

  lemma {:induction false} OnlyExchangeExchanges(h: Hall, m: Move, c: Id)
    requires Allowed(h, m) && c in After(h, m).st.hist.exchanges
    ensures || (c in h.st.hist.exchanges && After(h, m).st.hist.exchanges[c] == h.st.hist.exchanges[c])
            || (m.Serve? && ExchangesHere(h.st, m.now, m.act, c, After(h, m).st.hist.exchanges[c]))
  {
    if m.Serve? && m.act.DoExchange? {
      NewExchange(h.st, m.now, m.act.form, m.act.access, m.act.refresh, m.act.fault, c);
    } else if m.Serve? && m.act.DoRefresh? {
      RotationExchangesNothing(h.st, m.now, m.act.rotate, m.act.access, m.act.refresh, m.act.fault);
    } else {
      MoveKeepsEntries(h, m);
    }
  }

  /** Where in a run from the start a code was exchanged. */
  ghost predicate ExchangedAt(ms: seq<Move>, i: nat, c: Id, shown: Exchange) {
    && i < |ms| && ms[i].Serve? && Moves(Door(), ms[..i])
    && ExchangesHere(Finally(Door(), ms[..i]).st, ms[i].now, ms[i].act, c, shown)
  }

  lemma {:induction false} ExchangedBefore(ms: seq<Move>, i: nat, c: Id, shown: Exchange)
    requires ms != [] && ExchangedAt(Front(ms), i, c, shown)
    ensures ExchangedAt(ms, i, c, shown)
  {
    assert Front(ms)[..i] == ms[..i] && Front(ms)[i] == ms[i];
  }

  lemma {:induction false} LastExchange(ms: seq<Move>, c: Id)
    requires ms != [] && Moves(Door(), ms) && c in Finally(Door(), ms).st.hist.exchanges
    ensures var before, shown := Finally(Door(), Front(ms)).st.hist.exchanges, Finally(Door(), ms).st.hist.exchanges[c];
            (c in before && before[c] == shown) || ExchangedAt(ms, |ms| - 1, c, shown)
  {
    OnlyExchangeExchanges(Finally(Door(), Front(ms)), ms[|ms| - 1], c);
    assert Front(ms) == ms[..|ms| - 1];
  }

  /** Every exchange in the history of a run was earned in it. */
  lemma {:induction false} ExchangeIsEarned(ms: seq<Move>, c: Id) returns (i: nat)
    requires Moves(Door(), ms) && c in Finally(Door(), ms).st.hist.exchanges
    ensures ExchangedAt(ms, i, c, Finally(Door(), ms).st.hist.exchanges[c])
    decreases |ms|
  {
    var shown := Finally(Door(), ms).st.hist.exchanges[c];
    LastExchange(ms, c);
    if ExchangedAt(ms, |ms| - 1, c, shown) {
      i := |ms| - 1;
    } else {
      i := ExchangeIsEarned(Front(ms), c);
      ExchangedBefore(ms, i, c, shown);
    }
  }

  /** A token was rotated here: it was unrevoked and in time, and shown by its own client. */
  ghost predicate RotatesHere(st: State, now: Time, act: Act, r: Id, o: Origin) {
    && act.DoRefresh? && act.refresh == r && RefreshError(st, now, act.rotate) == None
    && o.parent == Some(act.rotate.token) && o.clientId == act.rotate.clientId
    && o.resource == st.refresh[act.rotate.token].resource && o.scopes <= st.refresh[act.rotate.token].scopes
  }

  /** A token was the first of its code here. */
  ghost predicate StartsHere(st: State, now: Time, act: Act, r: Id, o: Origin) {
    && act.DoExchange? && act.refresh == r && act.form.code in st.codes && CodeError(st, now, act.form) == None
    && o == Origin(act.form.code, None, 0, act.form.clientId, st.codes[act.form.code].resource, st.codes[act.form.code].scopes)
  }

  lemma {:induction false} NewRoot(st: State, now: Time, form: CodeForm, access: Id, refresh: Id, fault: Fault, r: Id)
    ensures var next := ExchangeCode(st, now, form, access, refresh, fault).st.hist.lineage;
            r in next ==> (r in st.hist.lineage && next[r] == st.hist.lineage[r])
                          || StartsHere(st, now, DoExchange(form, access, refresh, fault), r, next[r])
  {
  }

  lemma {:induction false} NewBranch(st: State, now: Time, form: RefreshForm, access: Id, refresh: Id, fault: Fault, r: Id)
    ensures var next := RefreshTokens(st, now, form, access, refresh, fault).st.hist.lineage;
            r in next ==> (r in st.hist.lineage && next[r] == st.hist.lineage[r])
                          || RotatesHere(st, now, DoRefresh(form, access, refresh, fault), r, next[r])
  {
  }

  lemma {:induction false} OnlyIssuesExtend(h: Hall, m: Move, r: Id)
    requires Allowed(h, m) && r in After(h, m).st.hist.lineage
    ensures || (r in h.st.hist.lineage && After(h, m).st.hist.lineage[r] == h.st.hist.lineage[r])
            || (m.Serve? && StartsHere(h.st, m.now, m.act, r, After(h, m).st.hist.lineage[r]))
            || (m.Serve? && RotatesHere(h.st, m.now, m.act, r, After(h, m).st.hist.lineage[r]))
  {
    if m.Serve? && m.act.DoExchange? {
      NewRoot(h.st, m.now, m.act.form, m.act.access, m.act.refresh, m.act.fault, r);
    } else if m.Serve? && m.act.DoRefresh? {
      NewBranch(h.st, m.now, m.act.rotate, m.act.access, m.act.refresh, m.act.fault, r);
    } else {
      MoveKeepsEntries(h, m);
    }
  }

  /** Where in a run from the start a refresh token was issued. */
  ghost predicate IssuedAt(ms: seq<Move>, i: nat, r: Id, o: Origin) {
    && i < |ms| && ms[i].Serve? && Moves(Door(), ms[..i])
    && (|| StartsHere(Finally(Door(), ms[..i]).st, ms[i].now, ms[i].act, r, o)
        || RotatesHere(Finally(Door(), ms[..i]).st, ms[i].now, ms[i].act, r, o))
  }

  lemma {:induction false} IssuedBefore(ms: seq<Move>, i: nat, r: Id, o: Origin)
    requires ms != [] && IssuedAt(Front(ms), i, r, o)
    ensures IssuedAt(ms, i, r, o)
  {
    assert Front(ms)[..i] == ms[..i] && Front(ms)[i] == ms[i];
  }

  lemma {:induction false} LastIssued(ms: seq<Move>, r: Id)
    requires ms != [] && Moves(Door(), ms) && r in Finally(Door(), ms).st.hist.lineage
    ensures var before, o := Finally(Door(), Front(ms)).st.hist.lineage, Finally(Door(), ms).st.hist.lineage[r];
            (r in before && before[r] == o) || IssuedAt(ms, |ms| - 1, r, o)
  {
    OnlyIssuesExtend(Finally(Door(), Front(ms)), ms[|ms| - 1], r);
    assert Front(ms) == ms[..|ms| - 1];
  }

  /** Every refresh token in the history of a run was earned in it, by a code exchange or by a
      rotation of the token it replaced. */
  lemma {:induction false} TokenIsEarned(ms: seq<Move>, r: Id) returns (i: nat)
    requires Moves(Door(), ms) && r in Finally(Door(), ms).st.hist.lineage
    ensures IssuedAt(ms, i, r, Finally(Door(), ms).st.hist.lineage[r])
    decreases |ms|
  {
    var o := Finally(Door(), ms).st.hist.lineage[r];
    LastIssued(ms, r);
    if IssuedAt(ms, |ms| - 1, r, o) {
      i := |ms| - 1;
    } else {
      i := TokenIsEarned(Front(ms), r);
      IssuedBefore(ms, i, r, o);
    }
  }

  // ------------------------------------------------------------------- what stays for good

  lemma {:induction false} StoreExtends(h: Hall, now: Time, thread: Thread, code: Id, fault: Fault)
    requires NamesUsed(h.st) && thread in h.held && code !in h.st.hist.used
    ensures Extends(h.st.hist, Stored(h, now, thread, code, fault).st.hist)
  {
  }

  /** Only pending requests and the times of last use differ. */
  ghost predicate SameTokens(st: State, next: State) {
    && next.hist == st.hist && next.refresh == st.refresh && next.access == st.access && next.disk == st.disk
    && next.up == st.up && next.codes == st.codes && next.clients.Keys == st.clients.Keys
  }

  lemma {:induction false} TakeKeepsTokens(h: Hall, now: Time, thread: Thread, request: Id)
    ensures SameTokens(h.st, TakenOut(h, now, thread, request).st)
  {
    var next := TakenOut(h, now, thread, request).st;
    assert next == h.st.(clock := now) || next == Popped(h.st, request).(clock := now);
    assert SameTokens(h.st, h.st.(clock := now)) && SameTokens(h.st, Popped(h.st, request).(clock := now));
  }

  lemma {:induction false} DecideKeepsTokens(h: Hall, now: Time, thread: Thread, approve: bool, secretOk: bool, limited: bool)
    requires thread in h.held
    ensures SameTokens(h.st, Decided(h, now, thread, approve, secretOk, limited).st)
  {
    TouchKeys(h.st.clients, h.held[thread].p.clientId, now);
  }

  lemma {:induction false} TakeAndDecideKeep(h: Hall, m: Move)
    requires Allowed(h, m) && (m.Take? || m.Decide?)
    ensures SameTokens(h.st, After(h, m).st)
  {
    if m.Take? { TakeKeepsTokens(h, m.now, m.thread, m.request); }
    if m.Decide? { DecideKeepsTokens(h, m.now, m.thread, m.approve, m.secretOk, m.limited); }
  }

  lemma {:induction false} MoveExtends(h: Hall, m: Move)
    requires HallSound(h) && Allowed(h, m)
    ensures Extends(h.st.hist, After(h, m).st.hist)
  {
    match m
    case Serve(now, act) => StepExtends(h.st, now, act);
    case Take(now, thread, request) => TakeAndDecideKeep(h, m);
    case Decide(now, thread, approve, secretOk, limited) => TakeAndDecideKeep(h, m);
    case Store(now, thread, code, fault) => StoreExtends(h, now, thread, code, fault);
  }

  lemma {:induction false} MovesExtend(h: Hall, ms: seq<Move>)
    requires HallSound(h) && Moves(h, ms)
    ensures Extends(h.st.hist, Finally(h, ms).st.hist)
    decreases |ms|
  {
    if ms != [] {
      MovesExtend(h, Front(ms));
      MovesSound(h, Front(ms));
      MoveExtends(Finally(h, Front(ms)), ms[|ms| - 1]);
    }
  }

  /** A code that was exchanged once is never good again, however decisions are interleaved. */
  lemma {:induction false} SpentForGood(h: Hall, ms: seq<Move>, code: Id)
    requires HallReachable(h) && Moves(h, ms) && code in h.st.hist.exchanges
    ensures code !in Finally(h, ms).st.codes
    ensures var e := Finally(h, ms).st.hist.exchanges; code in e && e[code] == h.st.hist.exchanges[code]
  {
    AlwaysHallSound(h);
    MovesExtend(h, ms);
    MovesSound(h, ms);
  }

  /** No request displaces an open consent page: only taking it out to decide on it, its expiry or
      a restart removes a pending request. */
  lemma {:induction false} ConsentIsNeverDisplaced(h: Hall, m: Move, p: Id)
    requires HallReachable(h) && Allowed(h, m) && !(m.Serve? && m.act.DoRestart?) && !(m.Take? && m.request == p)
    requires p in h.st.pending && h.st.pending[p].expiresAt >= m.now
    ensures p in After(h, m).st.pending && After(h, m).st.pending[p] == h.st.pending[p]
  {
    AlwaysHallSound(h);
    if m.Serve? {
      OpenConsentStays(h.st, m.now, m.act, p);
    } else {
      if m.Decide? { assert HeldSound(h.st, h.held[m.thread]); }
      OthersStayPending(h, m, p);
    }
  }

  lemma {:induction false} OthersStayPending(h: Hall, m: Move, p: Id)
    requires Allowed(h, m) && !m.Serve? && !(m.Take? && m.request == p)
    requires p in h.st.pending && (m.Decide? ==> h.held[m.thread].request != p)
    ensures p in After(h, m).st.pending && After(h, m).st.pending[p] == h.st.pending[p]
  {
    if m.Take? {
      var next := TakenOut(h, m.now, m.thread, m.request).st;
      assert next == h.st.(clock := m.now) || next == Popped(h.st, m.request).(clock := m.now);
    } else if m.Decide? {
      var next := Decided(h, m.now, m.thread, m.approve, m.secretOk, m.limited).st;
      assert next.pending == h.st.pending || next.pending == PutBack(h.st, h.held[m.thread]).pending;
    }
  }

  lemma {:induction false} StoreNamed(h: Hall, now: Time, thread: Thread, code: Id, fault: Fault)
    requires TokensNamed(h.st) && thread in h.held
    ensures TokensNamed(Stored(h, now, thread, code, fault).st)
  {
    SaveNamed(Coded(h.st, now, h.held[thread], code), now, fault);
  }

  lemma {:induction false} MoveNamed(h: Hall, m: Move)
    requires HallSound(h) && TokensNamed(h.st) && Allowed(h, m)
    ensures TokensNamed(After(h, m).st)
  {
    match m
    case Serve(now, act) => StepNamed(h.st, now, act);
    case Take(now, thread, request) => TakeAndDecideKeep(h, m);
    case Decide(now, thread, approve, secretOk, limited) => TakeAndDecideKeep(h, m);
    case Store(now, thread, code, fault) => StoreNamed(h, now, thread, code, fault);
  }

  lemma {:induction false} MovesNamed(ms: seq<Move>)
    requires Moves(Door(), ms)
    ensures HallSound(Finally(Door(), ms)) && TokensNamed(Finally(Door(), ms).st)
    decreases |ms|
  {
    if ms != [] {
      MovesNamed(Front(ms));
      MoveNamed(Finally(Door(), Front(ms)), ms[|ms| - 1]);
      MoveSound(Finally(Door(), Front(ms)), ms[|ms| - 1]);
    }
  }

  /** Every refresh token, in memory and in the file, belongs to a registered client, so a refresh
      request that passes its checks never finds the client gone. */
  lemma {:induction false} RefreshClientIsThere(h: Hall, now: Time, form: RefreshForm)
    requires HallReachable(h)
    ensures TokensNamed(h.st)
    ensures RefreshError(h.st, now, form) == None ==> form.clientId in h.st.clients
  {
    var ms :| Moves(Door(), ms) && Finally(Door(), ms) == h;
    MovesNamed(ms);
  }
}
