/**
 Runs from the very start with decisions interleaved: for any number of threads, one that fills
 the table of pending requests as far beyond its caps as it can go; and one that ends with a
 code for a client that is no longer registered.
 */
module SplitExamples {

  import opened Options
  import opened OAuth
  import opened OAuthStore
  import opened OAuthRuns
  import opened OAuthCleanup
  import opened SplitDecision
  import opened PendingCapacity
  import opened LostClients
  import opened OAuthExamples

  /** Reached from the start with at most so many decisions open at any time. */
  ghost predicate ReachedWith(h: Hall, threads: nat) {
    exists ms :: Moves(Door(), ms) && Narrow(Door(), ms, threads) && Finally(Door(), ms) == h
  }

  lemma {:induction false} ReachedIsReachable(h: Hall, threads: nat)
    requires ReachedWith(h, threads)
    ensures HallReachable(h) && HallSound(h)
  {
    var ms :| Moves(Door(), ms) && Narrow(Door(), ms, threads) && Finally(Door(), ms) == h;
    AlwaysHallSound(h);
  }

  lemma {:induction false} ReachedGoesOn(h: Hall, threads: nat, m: Move)
    requires ReachedWith(h, threads) && Allowed(h, m) && |After(h, m).held| <= threads
    ensures ReachedWith(After(h, m), threads)
  {
    var ms :| Moves(Door(), ms) && Narrow(Door(), ms, threads) && Finally(Door(), ms) == h;
    MovesGoOn(Door(), ms, m);
    assert Front(ms + [m]) == ms;
    assert Narrow(Door(), ms + [m], threads);
  }

  lemma {:induction false} Opened(threads: nat) returns (h: Hall)
    ensures ReachedWith(h, threads) && JustStarted(h.st) && h.held == map[]
  {
    assert Moves(Door(), []) && Narrow(Door(), [], threads) && Finally(Door(), []) == Door();
    FirstStart(Opening());
    h := After(Door(), RESTART);
    ReachedGoesOn(Door(), threads, RESTART);
  }

  // -------------------------------------------------------------------- eight clients

  /** The clients 0 to n - 1, all registered and last used at time 1. */
  ghost predicate FirstClients(clients: map<Id, Client>, n: nat) {
    && |clients| == n
    && (forall c :: c in clients ==> c < n && clients[c].redirectUris == [Home()] && clients[c].lastUsedAt == 1.0)
    && (forall c: nat :: c < n ==> c in clients)
  }

  ghost predicate Enrolled(st: State, n: nat) {
    && st.up && st.clock == 1.0 && st.pending.Keys == {} && FirstClients(st.clients, n)
    && (forall x :: x in st.hist.used ==> x < n)
  }

  lemma {:induction false} FirstClientsGrow(clients: map<Id, Client>, n: nat)
    requires FirstClients(clients, n)
    ensures n !in clients && FirstClients(clients[n := NewClient(Body(), n, 1.0)], n + 1)
  {
    var x := NewClient(Body(), n, 1.0);
    assert x.redirectUris == [Home()] && x.lastUsedAt == 1.0;
    OneMoreKey(clients, n, x);
    var more := clients[n := x];
    forall c | c in more ensures c < n + 1 && more[c].redirectUris == [Home()] && more[c].lastUsedAt == 1.0 {
      if c != n { assert c in clients; }
    }
  }

  lemma {:induction false} OneMoreKey<V>(m: map<Id, V>, k: Id, v: V)
    requires k !in m
    ensures |m[k := v]| == |m| + 1
  {
    assert m[k := v].Keys == m.Keys + {k};
  }

  lemma {:induction false} OneMoreClient(st: State, n: nat)
    requires Enrolled(st, n) && n < 8
    ensures var act := DoRegister(false, Body(), {}, n, Saved); Legal(st, 1.0, act) && Enrolled(Step(st, 1.0, act), n + 1)
  {
    FirstClientsGrow(st.clients, n);
    RegistersAt1(st, n);
  }

  lemma {:induction false} RegistersAt1(st: State, n: nat)
    requires Enrolled(st, n) && n < 8 && n !in st.clients
    ensures var act := DoRegister(false, Body(), {}, n, Saved);
            var next := Step(st, 1.0, act);
            && Legal(st, 1.0, act) && next.up && next.clock == 1.0
            && next.clients == st.clients[n := NewClient(Body(), n, 1.0)]
            && next.pending == st.pending && next.hist.used == st.hist.used + {n}
  {
    CanRegister(st, 1.0, n);
  }

  lemma {:induction false} EightClients(threads: nat) returns (h: Hall)
    ensures ReachedWith(h, threads) && Enrolled(h.st, 8) && h.held == map[]
  {
    h := Opened(threads);
    var n := 0;
    assert h.st.clients.Keys == {} && |h.st.clients| == |h.st.clients.Keys|;
    assert FirstClients(h.st.clients, 0);
    while n < 8
      invariant n <= 8 && ReachedWith(h, threads) && Enrolled(h.st, n) && h.held == map[]
    {
      OneMoreClient(h.st, n);
      var m := Serve(1.0, DoRegister(false, Body(), {}, n, Saved));
      ReachedGoesOn(h, threads, m);
      h, n := After(h, m), n + 1;
    }
  }

  // ------------------------------------------- held pages, then a full table, then put back

  function Page(c: Id): Pending {
    RequestFor(AskFor(c), 1.0)
  }

  /** The eight clients are registered, and the names from `fresh` on are free. */
  ghost predicate Ready(st: State, names: nat) {
    && st.up && st.clock == 1.0
    && (forall c: nat :: c < 8 ==> c in st.clients && st.clients[c].redirectUris == [Home()])
    && (forall x :: x in st.hist.used ==> x < names)
  }

  /** So many undecided pages of client 0 are held. */
  ghost predicate Holding(h: Hall, n: nat) {
    |h.held| == n && forall t :: t in h.held ==> t < n && h.held[t].p == Page(0) && !h.held[t].accepted
  }

  ghost predicate AllOpen(pending: map<Id, Pending>) {
    forall p :: p in pending ==> pending[p].expiresAt >= 1.0
  }

  lemma {:induction false} NothingSwept(pending: map<Id, Pending>)
    requires AllOpen(pending)
    ensures Unexpired(pending, 1.0) == pending
  {
  }

  /** Client c opens a page, while it has fewer than four and the table is not full. */
  lemma {:induction false} Asks(st: State, c: Id, names: nat)
    requires Ready(st, names) && AllOpen(st.pending) && c < 8
    requires |st.pending| < MAX_PENDING_AUTHORIZATIONS && |PendingOf(st.pending, c)| < MAX_PENDING_PER_CLIENT
    ensures var act := DoBegin(false, AskFor(c), names);
            && Legal(st, 1.0, act) && Ready(Step(st, 1.0, act), names + 1)
            && Step(st, 1.0, act).pending == st.pending[names := Page(c)]
            && AllOpen(st.pending[names := Page(c)])
  {
    NothingSwept(st.pending);
    CanAsk(st, 1.0, c, names);
  }

  lemma {:induction false} TakesPage(h: Hall, n: nat, request: Id, names: nat)
    requires Ready(h.st, names) && Holding(h, n) && h.st.pending.Keys == {request} && h.st.pending[request] == Page(0)
    ensures Allowed(h, Take(1.0, n, request))
    ensures var next := After(h, Take(1.0, n, request));
            Ready(next.st, names) && Holding(next, n + 1) && next.st.pending.Keys == {}
  {
    assert n !in h.held;
    HeldMore(h.held, n, Held(request, Page(0), false), 0);
    assert (h.st.pending - {request}).Keys == {};
  }

  lemma {:induction false} HeldByThreads(threads: nat) returns (h: Hall)
    ensures ReachedWith(h, threads) && Ready(h.st, 8 + threads) && Holding(h, threads) && h.st.pending.Keys == {}
  {
    h := EightClients(threads);
    var i := 0;
    while i < threads
      invariant i <= threads && ReachedWith(h, threads) && Ready(h.st, 8 + i) && Holding(h, i) && h.st.pending.Keys == {}
    {
      h := OneMoreHeld(h, threads, i);
      i := i + 1;
    }
  }

  lemma {:induction false} OneMoreHeld(h: Hall, threads: nat, i: nat) returns (next: Hall)
    requires i < threads && ReachedWith(h, threads) && Ready(h.st, 8 + i) && Holding(h, i) && h.st.pending.Keys == {}
    ensures ReachedWith(next, threads) && Ready(next.st, 9 + i) && Holding(next, i + 1) && next.st.pending.Keys == {}
  {
    var ask, take := Serve(1.0, DoBegin(false, AskFor(0), 8 + i)), Take(1.0, i, 8 + i);
    assert |h.st.pending| == |h.st.pending.Keys|;
    Fewer(PendingOf(h.st.pending, 0), h.st.pending.Keys);
    Asks(h.st, 0, 8 + i);
    ReachedGoesOn(h, threads, ask);
    var asked := After(h, ask);
    TakesPage(asked, i, 8 + i, 9 + i);
    ReachedGoesOn(asked, threads, take);
    next := After(asked, take);
  }

  /** Client c's share of the first n pages, four for each client in turn. */
  function Share(n: nat, c: nat): nat {
    if n <= 4 * c then 0 else if n >= 4 * c + 4 then 4 else n - 4 * c
  }

  ghost predicate Filled(pending: map<Id, Pending>, n: nat) {
    AllOpen(pending) && |pending| == n && forall c: nat :: c < 8 ==> |PendingOf(pending, c)| == Share(n, c)
  }

  lemma {:induction false} FillsOneMore(pending: map<Id, Pending>, n: nat, id: Id)
    requires Filled(pending, n) && n < 32 && id !in pending
    ensures Filled(pending[id := Page(n / 4)], n + 1)
  {
    var more := pending[id := Page(n / 4)];
    forall c: nat | c < 8 ensures |PendingOf(more, c)| == Share(n + 1, c) {
      PendingMore(pending, id, Page(n / 4), c);
    }
    PendingMore(pending, id, Page(n / 4), 0);
  }

  lemma {:induction false} NothingFilled(pending: map<Id, Pending>)
    requires pending.Keys == {}
    ensures Filled(pending, 0)
  {
    forall c: nat | c < 8 ensures |PendingOf(pending, c)| == Share(0, c) { assert PendingOf(pending, c) == {}; }
    assert |pending| == |pending.Keys|;
  }

  lemma {:induction false} FullTable(threads: nat) returns (h: Hall)
    ensures ReachedWith(h, threads) && Ready(h.st, 40 + threads) && Holding(h, threads) && Filled(h.st.pending, 32)
  {
    h := HeldByThreads(threads);
    NothingFilled(h.st.pending);
    var n := 0;
    while n < 32
      invariant n <= 32 && ReachedWith(h, threads) && Ready(h.st, 8 + threads + n) && Holding(h, threads) && Filled(h.st.pending, n)
    {
      h := OneMorePage(h, threads, n);
      n := n + 1;
    }
  }

  lemma {:induction false} OneMorePage(h: Hall, threads: nat, n: nat) returns (next: Hall)
    requires n < 32 && ReachedWith(h, threads) && Ready(h.st, 8 + threads + n) && Holding(h, threads) && Filled(h.st.pending, n)
    ensures ReachedWith(next, threads) && Ready(next.st, 9 + threads + n) && Holding(next, threads) && Filled(next.st.pending, n + 1)
  {
    var names := 8 + threads + n;
    ReachedIsReachable(h, threads);
    assert names !in h.st.pending;
    assert Share(n, n / 4) < 4;
    Asks(h.st, n / 4, names);
    FillsOneMore(h.st.pending, n, names);
    var m := Serve(1.0, DoBegin(false, AskFor(n / 4), names));
    ReachedGoesOn(h, threads, m);
    next := After(h, m);
  }

  /** So many of the held pages have been put back on top of the full table. */
  ghost predicate Overfull(h: Hall, threads: nat, n: nat) {
    && h.st.up && h.st.clock == 1.0 && n <= threads && |h.held| == threads - n
    && (forall t :: t in h.held ==> h.held[t].p == Page(0) && !h.held[t].accepted)
    && |h.st.pending| == MAX_PENDING_AUTHORIZATIONS + n && |PendingOf(h.st.pending, 0)| == MAX_PENDING_PER_CLIENT + n
  }

  lemma {:induction false} OneMoreBack(h: Hall, threads: nat, n: nat) returns (next: Hall)
    requires n < threads && ReachedWith(h, threads) && Overfull(h, threads, n)
    ensures ReachedWith(next, threads) && Overfull(next, threads, n + 1)
  {
    assert |h.held.Keys| > 0;
    var t :| t in h.held;
    var m := Decide(1.0, t, true, false, false);
    ReachedIsReachable(h, threads);
    assert HeldSound(h.st, h.held[t]);
    DecideRoom(h, m, 0);
    HeldFewer(h.held, t, 0);
    ReachedGoesOn(h, threads, m);
    next := After(h, m);
  }

  /** The bound of SplitCaps is reached, for every number of threads: from the start, never with
      more decisions open than that, to a table that is over both caps by that many, with none
      open any more. */
  lemma {:induction false} BoundIsReached(threads: nat) returns (ms: seq<Move>)
    ensures Moves(Door(), ms) && Narrow(Door(), ms, threads)
    ensures var end := Finally(Door(), ms);
            && end.held == map[]
            && |end.st.pending| == MAX_PENDING_AUTHORIZATIONS + threads
            && |PendingOf(end.st.pending, 0)| == MAX_PENDING_PER_CLIENT + threads
  {
    var h := FullTable(threads);
    var n := 0;
    while n < threads
      invariant n <= threads && ReachedWith(h, threads) && Overfull(h, threads, n)
    {
      h := OneMoreBack(h, threads, n);
      n := n + 1;
    }
    assert |h.held.Keys| == 0;
    ms :| Moves(Door(), ms) && Narrow(Door(), ms, threads) && Finally(Door(), ms) == h;
  }

  // ----------------------------------------------------- a code for a client that is gone

  const LATER: Time := 3601.0

  /** Client 0 is registered and stale, and its only page is held. */
  ghost predicate StaleAndHeld(h: Hall) {
    && h.st.up && h.st.clock == LATER && (forall x :: x in h.st.hist.used ==> x < 2)
    && h.st.clients.Keys == {0} && h.st.clients[0].lastUsedAt == 1.0 && h.st.refresh.Keys == {}
    && h.st.pending.Keys == {} && 0 in h.held && h.held[0].p.clientId == 0 && !h.held[0].accepted
  }

  /** Client 0 is registered and nothing is open. */
  ghost predicate AloneAndIdle(st: State) {
    && st.up && st.clock == 1.0 && st.clients.Keys == {0} && st.clients[0].lastUsedAt == 1.0
    && st.clients[0].redirectUris == [Home()] && st.refresh.Keys == {} && st.pending.Keys == {} && (forall x :: x in st.hist.used ==> x < 1)
  }

  ghost predicate AloneAndAsking(st: State) {
    && st.up && st.clock == LATER && st.clients.Keys == {0} && st.clients[0].lastUsedAt == 1.0
    && st.refresh.Keys == {} && (forall x :: x in st.hist.used ==> x < 2)
    && st.pending.Keys == {1} && st.pending[1] == RequestFor(AskFor(0), LATER)
  }

  lemma {:induction false} OneClient(threads: nat) returns (h: Hall)
    ensures ReachedWith(h, threads) && AloneAndIdle(h.st) && h.held == map[]
  {
    var start := Opened(threads);
    assert |start.st.clients| == |start.st.clients.Keys|;
    var m := Serve(1.0, DoRegister(false, Body(), {}, 0, Saved));
    CanRegister(start.st, 1.0, 0);
    ReachedGoesOn(start, threads, m);
    h := After(start, m);
  }

  lemma {:induction false} AskedLate(st: State)
    requires AloneAndIdle(st)
    ensures var act := DoBegin(false, AskFor(0), 1); Legal(st, LATER, act) && AloneAndAsking(Step(st, LATER, act))
  {
    var swept := Unexpired(st.pending, LATER);
    assert swept.Keys == {} && |swept| == |swept.Keys|;
    Fewer(PendingOf(swept, 0), swept.Keys);
    CanAsk(st, LATER, 0, 1);
  }

  lemma {:induction false} TakesLate(h: Hall)
    requires AloneAndAsking(h.st) && h.held == map[]
    ensures Allowed(h, Take(LATER, 0, 1))
    ensures StaleAndHeld(After(h, Take(LATER, 0, 1))) && |After(h, Take(LATER, 0, 1)).held| == 1
  {
    HeldMore(h.held, 0, Held(1, h.st.pending[1], false), 0);
    assert (h.st.pending - {1}).Keys == {};
  }

  lemma {:induction false} LatePage() returns (h: Hall)
    ensures ReachedWith(h, 1) && StaleAndHeld(h) && |h.held| == 1
  {
    var one := OneClient(1);
    AskedLate(one.st);
    var ask, take := Serve(LATER, DoBegin(false, AskFor(0), 1)), Take(LATER, 0, 1);
    ReachedGoesOn(one, 1, ask);
    var asked := After(one, ask);
    TakesLate(asked);
    ReachedGoesOn(asked, 1, take);
    h := After(asked, take);
  }

  /** A registration now evicts client 0, which nothing protects. */
  lemma {:induction false} EvictsHeld(st: State)
    requires st.up && st.clock == LATER && (forall x :: x in st.hist.used ==> x < 2)
    requires st.clients.Keys == {0} && st.clients[0].lastUsedAt == 1.0 && st.refresh.Keys == {} && st.pending.Keys == {}
    ensures CleanedAway(st, LATER, 1, {0})
  {
    assert Stale(st, LATER) == {0} && Evictable(st, LATER) == {0} && Inactive(st, LATER) == {0};
    assert |st.clients| == |st.clients.Keys|;
  }

  lemma {:induction false} RegistersOver(h: Hall)
    requires StaleAndHeld(h)
    ensures var m := Serve(LATER, DoRegister(false, Body(), {0}, 2, Saved));
            && Allowed(h, m) && var next := After(h, m);
               && next.st.up && next.st.clock == LATER && 0 !in next.st.clients && (forall x :: x in next.st.hist.used ==> x < 3)
               && next.held == h.held
  {
    EvictsHeld(h.st);
    RegisterCases(h.st, LATER, false, Body(), {0}, 2, Saved);
    SaveIsSame(WithClient(RemoveClients(h.st, {0}), Body(), 2, LATER), LATER, Saved);
  }

  lemma {:induction false} AcceptsForNobody(h: Hall)
    requires h.st.up && h.st.clock == LATER && 0 !in h.st.clients && (forall x :: x in h.st.hist.used ==> x < 3)
    requires 0 in h.held && h.held[0].p.clientId == 0 && !h.held[0].accepted
    ensures var decide, store := Decide(LATER, 0, true, true, false), Store(LATER, 0, 3, Saved);
            && Allowed(h, decide) && Allowed(After(h, decide), store)
            && |After(h, decide).held| == |h.held| && |After(After(h, decide), store).held| <= |h.held|
            && var end := After(After(h, decide), store).st;
               3 in end.codes && end.codes[3].clientId == 0 && 0 !in end.clients
  {
    HeldSame(h.held, 0, h.held[0].(accepted := true), 0);
    var accepted := After(h, Decide(LATER, 0, true, true, false));
    HeldFewer(accepted.held, 0, 0);
    DecideKeepsTokens(h, LATER, 0, true, true, false);
    CodeForNobody(accepted, LATER, 0, 3, Saved);
  }

  /** From the start, with one decision open at a time: a client registers, an hour later asks for
      consent, another client registers while the owner decides, the owner accepts, and the code
      that is stored names no registered client. */
  lemma {:induction false} CodeForGoneClient() returns (ms: seq<Move>)
    ensures Moves(Door(), ms) && Narrow(Door(), ms, 1)
    ensures var end := Finally(Door(), ms).st; 3 in end.codes && end.codes[3].clientId !in end.clients
  {
    var page := LatePage();
    RegistersOver(page);
    ReachedGoesOn(page, 1, Serve(LATER, DoRegister(false, Body(), {0}, 2, Saved)));
    var evicted := After(page, Serve(LATER, DoRegister(false, Body(), {0}, 2, Saved)));
    AcceptsForNobody(evicted);
    ReachedGoesOn(evicted, 1, Decide(LATER, 0, true, true, false));
    var accepted := After(evicted, Decide(LATER, 0, true, true, false));
    ReachedGoesOn(accepted, 1, Store(LATER, 0, 3, Saved));
    var end := After(accepted, Store(LATER, 0, 3, Saved));
    ms :| Moves(Door(), ms) && Narrow(Door(), ms, 1) && Finally(Door(), ms) == end;
  }
}
