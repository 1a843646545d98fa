/**
 What can become of a client while the owner decides on its request: a request that has been
 taken out protects nobody, so a registration can evict the client before the decision is done.
 Here is exactly when, and what it leads to.
 */
module LostClients {

  import opened Options
  import opened OAuth
  import opened OAuthStore
  import opened OAuthRuns
  import opened OAuthCleanup
  import opened OAuthProvenance
  import opened OAuthTokens
  import opened SplitDecision
  import opened OAuthRefused

  // -------------------------------------------------------- names of clients are not reused

  ghost predicate ClientsUsed(st: State) {
    st.clients.Keys <= st.hist.used && st.disk.clients.Keys <= st.hist.used
  }

  lemma {:induction false} RegisterClientsUsed(st: State, now: Time, limited: bool, body: Registration, gone: set<Id>, id: Id, fault: Fault)
    requires ClientsUsed(st)
    ensures ClientsUsed(Register(st, now, limited, body, gone, id, fault).st)
  {
    RegisterCases(st, now, limited, body, gone, id, fault);
    SaveIsSame(WithClient(RemoveClients(st, gone), body, id, now), now, fault);
  }

  lemma {:induction false} RestartClientsUsed(st: State, now: Time, gone: set<Id>, fault: Fault)
    requires ClientsUsed(st) && Readable(st)
    ensures ClientsUsed(Restart(st, now, gone, fault))
  {
    RestartCases(st, now, gone, fault);
    SaveIsSame(RemoveClients(Loaded(st, st.disk), gone), now, fault);
  }

  lemma {:induction false} ServeClientsUsed(h: Hall, now: Time, act: Act)
    requires HallSound(h) && Allowed(h, Serve(now, act)) && ClientsUsed(h.st)
    ensures ClientsUsed(Step(h.st, now, act))
  {
    MoveExtends(h, Serve(now, act));
    match act
    case DoRegister(limited, body, gone, id, fault) => RegisterClientsUsed(h.st, now, limited, body, gone, id, fault);
    case DoBegin(limited, q, id) => BeginCases(h.st, now, limited, q, id);
    case DoExchange(form, access, refresh, fault) => ExchangeIsSameOrFewer(h.st, now, form, access, refresh, fault);
    case DoRefresh(form, access, refresh, fault) => RotateIsSameOrFewer(h.st, now, form, access, refresh, fault);
    case DoRevoke(token, hint, fault) => RevokeIsSameOrFewer(h.st, now, token, hint, fault);
    case DoRestart(gone, fault) => RestartClientsUsed(h.st, now, gone, fault);
  }

  lemma {:induction false} StoreKeepsClients(h: Hall, now: Time, thread: Thread, code: Id, fault: Fault)
    requires thread in h.held
    ensures var next := Stored(h, now, thread, code, fault).st;
            && next.clients == h.st.clients && h.st.hist.used <= next.hist.used
            && (next.disk == h.st.disk || next.disk.clients == h.st.clients)
  {
  }

  lemma {:induction false} MoveClientsUsed(h: Hall, m: Move)
    requires HallSound(h) && Allowed(h, m) && ClientsUsed(h.st)
    ensures ClientsUsed(After(h, m).st)
  {
    match m
    case Serve(now, act) => ServeClientsUsed(h, now, act);
    case Take(now, thread, request) => TakeAndDecideKeep(h, m);
    case Decide(now, thread, approve, secretOk, limited) => TakeAndDecideKeep(h, m);
    case Store(now, thread, code, fault) => StoreKeepsClients(h, now, thread, code, fault);
  }

  lemma {:induction false} MovesClientsUsed(ms: seq<Move>)
    requires Moves(Door(), ms)
    ensures HallSound(Finally(Door(), ms)) && ClientsUsed(Finally(Door(), ms).st)
    decreases |ms|
  {
    if ms == [] {
      DoorIsSound();
    } else {
      MovesClientsUsed(Front(ms));
      MoveClientsUsed(Finally(Door(), Front(ms)), ms[|ms| - 1]);
      MoveSound(Finally(Door(), Front(ms)), ms[|ms| - 1]);
    }
  }

  // ---------------------------------------------------------------- exactly who is evicted

  predicate Registers(m: Move) {
    m.Serve? && m.act.DoRegister? && !m.act.limited
  }

  lemma {:induction false} ExchangeKeepsClients(st: State, now: Time, form: CodeForm, access: Id, refresh: Id, fault: Fault)
    ensures ExchangeCode(st, now, form, access, refresh, fault).st.clients.Keys == st.clients.Keys
  {
    TouchKeys(st.clients, form.clientId, now);
  }

  lemma {:induction false} RotateKeepsClients(st: State, now: Time, form: RefreshForm, access: Id, refresh: Id, fault: Fault)
    ensures RefreshTokens(st, now, form, access, refresh, fault).st.clients.Keys == st.clients.Keys
  {
    TouchKeys(st.clients, form.clientId, now);
  }

  lemma {:induction false} RevokeKeepsClients(st: State, now: Time, token: Id, hint: Hint, fault: Fault)
    ensures Revoke(st, now, token, hint, fault).st.clients == st.clients
  {
    RevokedKeepsTables(st, token, hint);
    SaveIsSame(Revoked(st, token, hint), now, fault);
  }

  lemma {:induction false} RegisterKeepsClient(st: State, now: Time, limited: bool, body: Registration, gone: set<Id>, id: Id, fault: Fault, c: Id)
    requires Legal(st, now, DoRegister(limited, body, gone, id, fault)) && c != id
    ensures c in Register(st, now, limited, body, gone, id, fault).st.clients
       <==> c in st.clients && !(!limited && Doomed(st, now, 1, c))
  {
    RegisterCases(st, now, limited, body, gone, id, fault);
    SaveIsSame(WithClient(RemoveClients(st, gone), body, id, now), now, fault);
    if !limited && c in st.clients { TakesExactly(st, now, 1, gone, c); }
  }

  lemma {:induction false} ServeKeepsClient(st: State, now: Time, act: Act, c: Id)
    requires Legal(st, now, act) && !act.DoRestart? && !act.DoComplete? && c in st.hist.used
    ensures c in Step(st, now, act).clients <==> c in st.clients && !(act.DoRegister? && !act.limited && Doomed(st, now, 1, c))
  {
    match act
    case DoRegister(limited, body, gone, id, fault) => RegisterKeepsClient(st, now, limited, body, gone, id, fault, c);
    case DoBegin(limited, q, id) => BeginCases(st, now, limited, q, id);
    case DoExchange(form, access, refresh, fault) => ExchangeKeepsClients(st, now, form, access, refresh, fault);
    case DoRefresh(form, access, refresh, fault) => RotateKeepsClients(st, now, form, access, refresh, fault);
    case DoRevoke(token, hint, fault) => RevokeKeepsClients(st, now, token, hint, fault);
  }

  /** A move other than a restart costs a client its registration exactly if it is an unthrottled
      registration that dooms it. */
  lemma {:induction false} MoveKeepsClient(h: Hall, m: Move, c: Id)
    requires Allowed(h, m) && !Restarts(m) && c in h.st.hist.used
    ensures c in After(h, m).st.clients <==> c in h.st.clients && !(Registers(m) && Doomed(h.st, m.now, 1, c))
  {
    match m
    case Serve(now, act) => ServeKeepsClient(h.st, now, act, c);
    case Take(now, thread, request) => TakeAndDecideKeep(h, m);
    case Decide(now, thread, approve, secretOk, limited) => TakeAndDecideKeep(h, m);
    case Store(now, thread, code, fault) => StoreKeepsClients(h, now, thread, code, fault);
  }

  /** This move of the run evicts the client: it is an unthrottled registration, and at that point
      the client has no live refresh token and no open page in the table, and is stale or among
      the oldest that are wanted. */
  ghost predicate EvictedAt(h: Hall, ms: seq<Move>, i: nat, c: Id) {
    && i < |ms| && Moves(h, ms[..i]) && Registers(ms[i])
    && c in Finally(h, ms[..i]).st.clients && Doomed(Finally(h, ms[..i]).st, ms[i].now, 1, c)
  }

  ghost predicate NoRestart(ms: seq<Move>) {
    forall m :: m in ms ==> !Restarts(m)
  }

  lemma {:induction false} EvictedInFront(h: Hall, ms: seq<Move>, i: nat, c: Id)
    requires ms != [] && i < |ms| - 1
    ensures EvictedAt(h, ms, i, c) <==> EvictedAt(h, Front(ms), i, c)
  {
    assert Front(ms)[..i] == ms[..i] && Front(ms)[i] == ms[i];
  }

  lemma {:induction false} EvictedBefore(h: Hall, ms: seq<Move>, c: Id)
    requires ms != []
    ensures (exists i :: EvictedAt(h, ms, i, c)) <==> (exists i :: EvictedAt(h, Front(ms), i, c)) || EvictedAt(h, ms, |ms| - 1, c)
  {
    forall i: nat | i < |ms| - 1 ensures EvictedAt(h, ms, i, c) <==> EvictedAt(h, Front(ms), i, c) { EvictedInFront(h, ms, i, c); }
    forall i: nat | i >= |ms| - 1 ensures !EvictedAt(h, Front(ms), i, c) {}
  }

  lemma {:induction false} LostIff(h: Hall, ms: seq<Move>, c: Id)
    requires HallSound(h) && ClientsUsed(h.st) && Moves(h, ms) && NoRestart(ms) && c in h.st.clients
    ensures c !in Finally(h, ms).st.clients <==> exists i :: EvictedAt(h, ms, i, c)
    ensures c in Finally(h, ms).st.hist.used
    decreases |ms|
  {
    if ms != [] {
      var g, m := Finally(h, Front(ms)), ms[|ms| - 1];
      LostIff(h, Front(ms), c);
      MoveKeepsClient(g, m, c);
      EvictedBefore(h, ms, c);
      assert Front(ms) == ms[..|ms| - 1];
      MovesSound(h, Front(ms));
      MoveExtends(g, m);
    }
  }

  /** While a client's request is held, and any moves but a restart go on, the client is gone in
      the end if and only if one of them evicts it: an unthrottled registration at a point where
      no live refresh token and no other open page protects the client, and it is stale or within
      the excess. */
  lemma {:induction false} GoneWhileDeciding(h: Hall, ms: seq<Move>, thread: Thread)
    requires HallReachable(h) && thread in h.held && h.held[thread].p.clientId in h.st.clients
    requires Moves(h, ms) && NoRestart(ms)
    ensures h.held[thread].p.clientId !in Finally(h, ms).st.clients <==> exists i :: EvictedAt(h, ms, i, h.held[thread].p.clientId)
  {
    var start :| Moves(Door(), start) && Finally(Door(), start) == h;
    MovesClientsUsed(start);
    LostIff(h, ms, h.held[thread].p.clientId);
  }

  /** The code stored for an accepted request names a registered client exactly if the client is
      there at that moment; if it is not, the code is refused to everyone. */
  lemma {:induction false} CodeForNobody(h: Hall, now: Time, thread: Thread, code: Id, fault: Fault)
    requires Allowed(h, Store(now, thread, code, fault))
    ensures var next, c := After(h, Store(now, thread, code, fault)).st, h.held[thread].p.clientId;
            && code in next.codes && next.codes[code].clientId == c
            && (c in next.clients <==> c in h.st.clients)
            && (c !in h.st.clients ==> forall later, form: CodeForm :: form.code == code ==> CodeError(next, later, form).Some?)
  {
    StoreKeepsClients(h, now, thread, code, fault);
  }
}
