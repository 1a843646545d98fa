/**
 The caps on pending requests when decisions are interleaved: exactly which moves break them, by
 how much they can be broken, and that this much is reached.
 */
module PendingCapacity {

  import opened Options
  import opened OAuth
  import opened OAuthStore
  import opened OAuthRuns
  import opened OAuthRegistered
  import opened OAuthCleanup
  import opened SplitDecision

  // ---------------------------------------------------------------- counting

  ghost function HeldOf(held: map<Thread, Held>, c: Id): set<Thread> {
    set t | t in held && held[t].p.clientId == c
  }

  lemma {:induction false} HeldFewer(held: map<Thread, Held>, thread: Thread, c: Id)
    requires thread in held
    ensures |held - {thread}| == |held| - 1
    ensures |HeldOf(held - {thread}, c)| == |HeldOf(held, c)| - (if held[thread].p.clientId == c then 1 else 0)
  {
    SetMinus(held.Keys, {thread});
    assert (held - {thread}).Keys == held.Keys - {thread};
    if held[thread].p.clientId == c {
      SetMinus(HeldOf(held, c), {thread});
      assert HeldOf(held - {thread}, c) == HeldOf(held, c) - {thread};
    } else {
      assert HeldOf(held - {thread}, c) == HeldOf(held, c);
    }
  }

  lemma {:induction false} HeldMore(held: map<Thread, Held>, thread: Thread, x: Held, c: Id)
    requires thread !in held
    ensures |held[thread := x]| == |held| + 1
    ensures |HeldOf(held[thread := x], c)| == |HeldOf(held, c)| + (if x.p.clientId == c then 1 else 0)
  {
    if x.p.clientId == c {
      assert HeldOf(held[thread := x], c) == HeldOf(held, c) + {thread};
    } else {
      assert HeldOf(held[thread := x], c) == HeldOf(held, c);
    }
  }

  lemma {:induction false} HeldSame(held: map<Thread, Held>, thread: Thread, x: Held, c: Id)
    requires thread in held && held[thread].p == x.p
    ensures |held[thread := x]| == |held| && HeldOf(held[thread := x], c) == HeldOf(held, c)
  {
    assert held[thread := x].Keys == held.Keys;
  }

  lemma {:induction false} HeldWithin(held: map<Thread, Held>, c: Id)
    ensures |HeldOf(held, c)| <= |held|
  {
    Fewer(HeldOf(held, c), held.Keys);
  }

  lemma {:induction false} PendingFewer(pending: map<Id, Pending>, request: Id, c: Id)
    requires request in pending
    ensures |pending - {request}| == |pending| - 1
    ensures |PendingOf(pending - {request}, c)| == |PendingOf(pending, c)| - (if pending[request].clientId == c then 1 else 0)
  {
    SetMinus(pending.Keys, {request});
    assert (pending - {request}).Keys == pending.Keys - {request};
    if pending[request].clientId == c {
      SetMinus(PendingOf(pending, c), {request});
      assert PendingOf(pending - {request}, c) == PendingOf(pending, c) - {request};
    } else {
      assert PendingOf(pending - {request}, c) == PendingOf(pending, c);
    }
  }

  lemma {:induction false} PendingMore(pending: map<Id, Pending>, request: Id, p: Pending, c: Id)
    requires request !in pending
    ensures |pending[request := p]| == |pending| + 1
    ensures |PendingOf(pending[request := p], c)| == |PendingOf(pending, c)| + (if p.clientId == c then 1 else 0)
  {
    if p.clientId == c {
      assert PendingOf(pending[request := p], c) == PendingOf(pending, c) + {request};
    } else {
      assert PendingOf(pending[request := p], c) == PendingOf(pending, c);
    }
  }

  // --------------------------------------------------------- exactly when the caps hold

  /** At most 32 requests pending, and at most 4 of the client. */
  ghost predicate WithinCaps(st: State, c: Id) {
    |st.pending| <= MAX_PENDING_AUTHORIZATIONS && |PendingOf(st.pending, c)| <= MAX_PENDING_PER_CLIENT
  }

  /** The move puts a request back: throttled, or the wrong secret. */
  predicate PutsBack(m: Move) {
    m.Decide? && m.approve && (m.limited || !m.secretOk)
  }

  /** A request is put back although the table has filled up since it was taken out, or the
      client's share of it. */
  ghost predicate Overfills(h: Hall, m: Move, c: Id) {
    && PutsBack(m) && m.thread in h.held
    && (|| |h.st.pending| == MAX_PENDING_AUTHORIZATIONS
        || (h.held[m.thread].p.clientId == c && |PendingOf(h.st.pending, c)| == MAX_PENDING_PER_CLIENT))
  }

  /** Serving a new request adds at most one, and only below the caps. */
  lemma {:induction false} BeginRoom(st: State, now: Time, limited: bool, q: AuthorizeRequest, id: Id, c: Id)
    requires id !in st.pending
    ensures var next := Begin(st, now, limited, q, id).st.pending;
            && (|next| <= |st.pending| || |next| <= MAX_PENDING_AUTHORIZATIONS)
            && (|PendingOf(next, c)| <= |PendingOf(st.pending, c)| || |PendingOf(next, c)| <= MAX_PENDING_PER_CLIENT)
  {
    var swept := Unexpired(st.pending, now);
    Fewer(swept.Keys, st.pending.Keys);
    Fewer(PendingOf(swept, c), PendingOf(st.pending, c));
    if RequestError(st, q) == None { PendingMore(swept, id, RequestFor(q, now), c); }
  }

  lemma {:induction false} OthersKeepPending(st: State, now: Time, act: Act)
    requires !act.DoComplete? && !act.DoBegin?
    ensures Step(st, now, act).pending == if act.DoRestart? then map[] else st.pending
  {
    match act
    case DoRegister(limited, body, gone, id, fault) => RegisterKeepsPending(st, now, limited, body, gone, id, fault);
    case DoExchange(form, access, refresh, fault) => ExchangeKeepsPending(st, now, form, access, refresh, fault);
    case DoRefresh(form, access, refresh, fault) => RotateKeepsPending(st, now, form, access, refresh, fault);
    case DoRevoke(token, hint, fault) => RevokeKeepsPending(st, now, token, hint, fault);
    case DoRestart(gone, fault) => assert Restart(st, now, gone, fault).pending == map[];
  }

  lemma {:induction false} ServeRoom(st: State, now: Time, act: Act, c: Id)
    requires Legal(st, now, act) && !act.DoComplete? && st.pending.Keys <= st.hist.used
    ensures var next := Step(st, now, act).pending;
            && (|next| <= |st.pending| || |next| <= MAX_PENDING_AUTHORIZATIONS)
            && (|PendingOf(next, c)| <= |PendingOf(st.pending, c)| || |PendingOf(next, c)| <= MAX_PENDING_PER_CLIENT)
  {
    if act.DoBegin? {
      BeginRoom(st, now, act.limited, act.q, act.id, c);
    } else {
      OthersKeepPending(st, now, act);
    }
  }

  lemma {:induction false} TakeRoom(h: Hall, now: Time, thread: Thread, request: Id, c: Id)
    ensures var next := TakenOut(h, now, thread, request).st.pending;
            |next| <= |h.st.pending| && |PendingOf(next, c)| <= |PendingOf(h.st.pending, c)|
  {
    if request in h.st.pending { PendingFewer(h.st.pending, request, c); }
  }

  lemma {:induction false} DecideRoom(h: Hall, m: Move, c: Id)
    requires m.Decide? && m.thread in h.held && h.held[m.thread].request !in h.st.pending
    ensures var x, next := h.held[m.thread], Decided(h, m.now, m.thread, m.approve, m.secretOk, m.limited).st.pending;
            if PutsBack(m) then
              && |next| == |h.st.pending| + 1
              && |PendingOf(next, c)| == |PendingOf(h.st.pending, c)| + (if x.p.clientId == c then 1 else 0)
            else next == h.st.pending
  {
    PendingMore(h.st.pending, h.held[m.thread].request, h.held[m.thread].p, c);
  }

  /** One move from within the caps breaks them exactly when it overfills. */
  lemma {:induction false} MoveCaps(h: Hall, m: Move, c: Id)
    requires HallSound(h) && Allowed(h, m) && WithinCaps(h.st, c)
    ensures WithinCaps(After(h, m).st, c) <==> !Overfills(h, m, c)
  {
    match m
    case Serve(now, act) => ServeRoom(h.st, now, act, c);
    case Take(now, thread, request) => TakeRoom(h, now, thread, request, c);
    case Decide(now, thread, approve, secretOk, limited) =>
      assert HeldSound(h.st, h.held[thread]);
      DecideRoom(h, m, c);
    case Store(now, thread, code, fault) =>
  }

  /** Every state of the run is within the caps. */
  ghost predicate StaysWithinCaps(h: Hall, ms: seq<Move>, c: Id)
    requires Moves(h, ms)
    decreases |ms|
  {
    WithinCaps(Finally(h, ms).st, c) && (ms != [] ==> StaysWithinCaps(h, Front(ms), c))
  }

  /** No move of the run overfills. */
  ghost predicate NeverOverfills(h: Hall, ms: seq<Move>, c: Id)
    requires Moves(h, ms)
    decreases |ms|
  {
    ms != [] ==> !Overfills(Finally(h, Front(ms)), ms[|ms| - 1], c) && NeverOverfills(h, Front(ms), c)
  }

  /** Over whole runs: a run that starts within the caps stays within them if and only if it never
      puts a request back into a full table, nor one of the client's when it has four. */
  lemma {:induction false} CapsHoldIff(h: Hall, ms: seq<Move>, c: Id)
    requires HallSound(h) && WithinCaps(h.st, c) && Moves(h, ms)
    ensures StaysWithinCaps(h, ms, c) <==> NeverOverfills(h, ms, c)
    decreases |ms|
  {
    if ms != [] {
      CapsHoldIff(h, Front(ms), c);
      MovesSound(h, Front(ms));
      if NeverOverfills(h, Front(ms), c) { MoveCaps(Finally(h, Front(ms)), ms[|ms| - 1], c); }
    }
  }

  // -------------------------------------------------------------- how far they can break

  /** The caps, loosened by as many decisions as are open at once. */
  ghost predicate Roomy(h: Hall, threads: nat, c: Id) {
    && |h.st.pending| + |h.held| <= MAX_PENDING_AUTHORIZATIONS + threads
    && |PendingOf(h.st.pending, c)| + |HeldOf(h.held, c)| <= MAX_PENDING_PER_CLIENT + threads
  }

  /** At no point of the run are more decisions open than that. */
  ghost predicate Narrow(h: Hall, ms: seq<Move>, threads: nat)
    requires Moves(h, ms)
    decreases |ms|
  {
    |Finally(h, ms).held| <= threads && (ms != [] ==> Narrow(h, Front(ms), threads))
  }

  lemma {:induction false} ServeKeepsRoom(h: Hall, threads: nat, now: Time, act: Act, c: Id)
    requires Roomy(h, threads, c) && |h.held| <= threads && Allowed(h, Serve(now, act)) && h.st.pending.Keys <= h.st.hist.used
    ensures Roomy(After(h, Serve(now, act)), threads, c)
  {
    HeldWithin(h.held, c);
    ServeRoom(h.st, now, act, c);
  }

  lemma {:induction false} TakeKeepsRoom(h: Hall, threads: nat, now: Time, thread: Thread, request: Id, c: Id)
    requires Roomy(h, threads, c) && thread !in h.held
    ensures Roomy(TakenOut(h, now, thread, request), threads, c)
  {
    if request in h.st.pending {
      var x := Held(request, h.st.pending[request], false);
      PendingFewer(h.st.pending, request, c);
      HeldMore(h.held, thread, x, c);
      assert Roomy(Hall(Popped(h.st, request).(clock := now), h.held[thread := x]), threads, c);
      assert Roomy(Hall(Popped(h.st, request).(clock := now), h.held), threads, c);
    } else {
      assert Roomy(Hall(h.st.(clock := now), h.held), threads, c);
    }
  }

  lemma {:induction false} DecideKeepsRoom(h: Hall, threads: nat, m: Move, c: Id)
    requires Roomy(h, threads, c) && m.Decide? && m.thread in h.held && h.held[m.thread].request !in h.st.pending
    ensures Roomy(Decided(h, m.now, m.thread, m.approve, m.secretOk, m.limited), threads, c)
  {
    DecideRoom(h, m, c);
    HeldFewer(h.held, m.thread, c);
    HeldSame(h.held, m.thread, h.held[m.thread].(accepted := true), c);
  }

  lemma {:induction false} StoreKeepsRoom(h: Hall, threads: nat, now: Time, thread: Thread, code: Id, fault: Fault, c: Id)
    requires Roomy(h, threads, c) && thread in h.held
    ensures Roomy(Stored(h, now, thread, code, fault), threads, c)
  {
    HeldFewer(h.held, thread, c);
  }

  lemma {:induction false} MoveKeepsRoom(h: Hall, threads: nat, m: Move, c: Id)
    requires HallSound(h) && Roomy(h, threads, c) && |h.held| <= threads && Allowed(h, m)
    ensures Roomy(After(h, m), threads, c)
  {
    match m
    case Serve(now, act) => ServeKeepsRoom(h, threads, now, act, c);
    case Take(now, thread, request) => TakeKeepsRoom(h, threads, now, thread, request, c);
    case Decide(now, thread, approve, secretOk, limited) =>
      assert HeldSound(h.st, h.held[thread]);
      DecideKeepsRoom(h, threads, m, c);
    case Store(now, thread, code, fault) => StoreKeepsRoom(h, threads, now, thread, code, fault, c);
  }

  /** With at most so many decisions open at once, pending and held requests together never
      exceed the caps by more than that many, in total and for each client. */
  lemma {:induction false} SplitCaps(h: Hall, threads: nat, ms: seq<Move>, c: Id)
    requires HallSound(h) && Roomy(h, threads, c) && Moves(h, ms) && Narrow(h, ms, threads)
    ensures Roomy(Finally(h, ms), threads, c)
    decreases |ms|
  {
    if ms != [] {
      SplitCaps(h, threads, Front(ms), c);
      MovesSound(h, Front(ms));
      MoveKeepsRoom(Finally(h, Front(ms)), threads, ms[|ms| - 1], c);
    }
  }

  // ------------------------------------------------------- the cap on clients does hold

  ghost predicate ClientsBounded(st: State) {
    |st.clients| <= MAX_DCR_CLIENTS && |st.disk.clients| <= MAX_DCR_CLIENTS
  }

  lemma {:induction false} RegisterClientsBounded(st: State, now: Time, limited: bool, body: Registration, gone: set<Id>, id: Id, fault: Fault)
    requires ClientsBounded(st)
    ensures ClientsBounded(Register(st, now, limited, body, gone, id, fault).st)
  {
    var st1 := RemoveClients(st, gone);
    RegisterCases(st, now, limited, body, gone, id, fault);
    Fewer(st1.clients.Keys, st.clients.Keys);
    SaveIsSame(WithClient(st1, body, id, now), now, fault);
    assert WithClient(st1, body, id, now).clients.Keys == st1.clients.Keys + {id};
  }

  lemma {:induction false} FewerClientsBounded(st: State, next: State)
    requires ClientsBounded(st) && SameOrFewer(st, next)
    ensures ClientsBounded(next)
  {
    Fewer(next.clients.Keys, st.clients.Keys);
    if next.disk.clients.Keys <= st.clients.Keys { Fewer(next.disk.clients.Keys, st.clients.Keys); }
  }

  lemma {:induction false} RestartClientsBounded(st: State, now: Time, gone: set<Id>, fault: Fault)
    requires ClientsBounded(st) && Readable(st)
    ensures ClientsBounded(Restart(st, now, gone, fault))
  {
    var cleaned := RemoveClients(Loaded(st, st.disk), gone);
    RestartCases(st, now, gone, fault);
    Fewer(cleaned.clients.Keys, st.disk.clients.Keys);
    SaveIsSame(cleaned, now, fault);
  }

  lemma {:induction false} ServeClientsBounded(st: State, now: Time, act: Act)
    requires ClientsBounded(st) && Readable(st) && !act.DoComplete?
    ensures ClientsBounded(Step(st, now, act))
  {
    match act
    case DoRegister(limited, body, gone, id, fault) => RegisterClientsBounded(st, now, limited, body, gone, id, fault);
    case DoBegin(limited, q, id) => BeginCases(st, now, limited, q, id);
    case DoExchange(form, access, refresh, fault) =>
      ExchangeIsSameOrFewer(st, now, form, access, refresh, fault);
      FewerClientsBounded(st, ExchangeCode(st, now, form, access, refresh, fault).st);
    case DoRefresh(form, access, refresh, fault) =>
      RotateIsSameOrFewer(st, now, form, access, refresh, fault);
      FewerClientsBounded(st, RefreshTokens(st, now, form, access, refresh, fault).st);
    case DoRevoke(token, hint, fault) =>
      RevokeIsSameOrFewer(st, now, token, hint, fault);
      FewerClientsBounded(st, Revoke(st, now, token, hint, fault).st);
    case DoRestart(gone, fault) => RestartClientsBounded(st, now, gone, fault);
  }

  lemma {:induction false} MoveClientsBounded(h: Hall, m: Move)
    requires HallSound(h) && Allowed(h, m) && ClientsBounded(h.st)
    ensures ClientsBounded(After(h, m).st)
  {
    match m
    case Serve(now, act) => ServeClientsBounded(h.st, now, act);
    case Take(now, thread, request) =>
      TakeAndDecideKeep(h, m);
      Fewer(After(h, m).st.clients.Keys, h.st.clients.Keys);
    case Decide(now, thread, approve, secretOk, limited) =>
      TakeAndDecideKeep(h, m);
      Fewer(After(h, m).st.clients.Keys, h.st.clients.Keys);
    case Store(now, thread, code, fault) => SaveIsSame(Coded(h.st, now, h.held[thread], code), now, fault);
  }

  /** Unlike the caps on pending requests, the cap of 64 clients, in memory and in the file, holds
      however decisions are interleaved. */
  lemma {:induction false} ClientCapHolds(ms: seq<Move>)
    requires Moves(Door(), ms)
    ensures HallSound(Finally(Door(), ms)) && ClientsBounded(Finally(Door(), ms).st)
    decreases |ms|
  {
    if ms != [] {
      ClientCapHolds(Front(ms));
      MoveClientsBounded(Finally(Door(), Front(ms)), ms[|ms| - 1]);
      MoveSound(Finally(Door(), Front(ms)), ms[|ms| - 1]);
    }
  }
}
