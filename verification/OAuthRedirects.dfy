/**
 Where the service sends people.  Over whole runs, with decisions interleaved and clients evicted
 meanwhile, every redirect that is pending, held, approved, in a code or exchanged was registered
 by its client in that run, and is HTTPS with a host or plain HTTP on a loopback host.
 */
module OAuthRedirects {

  import opened Options
  import opened OAuth
  import opened OAuthStore
  import opened OAuthRuns
  import opened OAuthRegistered
  import opened OAuthCleanup
  import opened OAuthProvenance
  import opened OAuthHistory
  import opened OAuthTokens
  import opened OAuthAnswers
  import opened SplitDecision
  import opened PendingCapacity

  /** At this point of the run the client registered, this redirect among others, all of them safe. */
  ghost predicate EnteredAt(ms: seq<Move>, i: nat, c: Id, u: Uri) {
    && i < |ms| && Moves(Door(), ms[..i]) && ms[i].Serve? && ms[i].act.DoRegister? && ms[i].act.id == c
    && u in ms[i].act.body.redirectUris && SafeRedirect(u)
    && Perform(Finally(Door(), ms[..i]).st, ms[i].now, ms[i].act).reply in {Registered(c), Failed(ServerError)}
  }

  ghost predicate RegisteredIn(ms: seq<Move>, c: Id, u: Uri) {
    exists i :: EnteredAt(ms, i, c, u)
  }

  lemma {:induction false} RegisteredBefore(ms: seq<Move>, c: Id, u: Uri)
    requires ms != [] && RegisteredIn(Front(ms), c, u)
    ensures RegisteredIn(ms, c, u)
  {
    var i: nat :| EnteredAt(Front(ms), i, c, u);
    assert Front(ms)[..i] == ms[..i] && Front(ms)[i] == ms[i];
    assert EnteredAt(ms, i, c, u);
  }

  // ----------------------------------------------------------- what happens to clients

  /** The second table has no client and no redirect that the first has not. */
  ghost predicate UrisFrom(before: map<Id, Client>, after: map<Id, Client>) {
    forall c :: c in after ==> c in before && after[c].redirectUris == before[c].redirectUris
  }

  lemma {:induction false} ExchangeUris(st: State, now: Time, form: CodeForm, access: Id, refresh: Id, fault: Fault)
    ensures UrisFrom(st.clients, ExchangeCode(st, now, form, access, refresh, fault).st.clients)
  {
    TouchUris(st.clients, form.clientId, now);
  }

  lemma {:induction false} TouchUris(clients: map<Id, Client>, c: Id, now: Time)
    ensures UrisFrom(clients, Touch(clients, c, now))
  {
  }

  lemma {:induction false} RotateUris(st: State, now: Time, form: RefreshForm, access: Id, refresh: Id, fault: Fault)
    ensures UrisFrom(st.clients, RefreshTokens(st, now, form, access, refresh, fault).st.clients)
  {
    TouchUris(st.clients, form.clientId, now);
  }

  lemma {:induction false} RestartUris(st: State, now: Time, gone: set<Id>, fault: Fault)
    requires Readable(st)
    ensures UrisFrom(st.disk.clients, Restart(st, now, gone, fault).clients)
    ensures UrisFrom(st.disk.clients, Restart(st, now, gone, fault).disk.clients)
  {
    RestartCases(st, now, gone, fault);
    SaveIsSame(RemoveClients(Loaded(st, st.disk), gone), now, fault);
  }

  /** Every operation but a registration and a restart. */
  lemma {:induction false} ServeUris(st: State, now: Time, act: Act)
    requires !act.DoRegister? && !act.DoRestart? && !act.DoComplete?
    ensures UrisFrom(st.clients, Step(st, now, act).clients)
    ensures Step(st, now, act).disk.clients == st.disk.clients || Step(st, now, act).disk.clients == Step(st, now, act).clients
  {
    StepWrites(st, now, act);
    match act
    case DoBegin(limited, q, id) => BeginCases(st, now, limited, q, id);
    case DoExchange(form, access, refresh, fault) => ExchangeUris(st, now, form, access, refresh, fault);
    case DoRefresh(form, access, refresh, fault) => RotateUris(st, now, form, access, refresh, fault);
    case DoRevoke(token, hint, fault) =>
      RevokedKeepsTables(st, token, hint);
      SaveIsSame(Revoked(st, token, hint), now, fault);
  }

  /** A registration adds at most the client it is for, with the redirects it names, all safe. */
  lemma {:induction false} RegisterUris(st: State, now: Time, limited: bool, body: Registration, gone: set<Id>, id: Id, fault: Fault)
    requires id !in st.clients
    ensures var o := Register(st, now, limited, body, gone, id, fault);
            && UrisFrom(st.clients, o.st.clients - {id})
            && (id in o.st.clients ==>
                  && o.st.clients[id].redirectUris == body.redirectUris && o.reply in {Registered(id), Failed(ServerError)}
                  && forall u :: u in body.redirectUris ==> SafeRedirect(u))
            && (o.st.disk.clients == st.disk.clients || o.st.disk.clients == o.st.clients)
  {
    RegisterWrites(st, now, limited, body, gone, id, fault);
    RegisterCases(st, now, limited, body, gone, id, fault);
    RegistersSafe(st, now, limited, body, gone, id, fault);
    SaveIsSame(WithClient(RemoveClients(st, gone), body, id, now), now, fault);
  }

  lemma {:induction false} RegistersSafe(st: State, now: Time, limited: bool, body: Registration, gone: set<Id>, id: Id, fault: Fault)
    requires id !in st.clients
    ensures var o := Register(st, now, limited, body, gone, id, fault);
            id in o.st.clients ==>
              o.reply in {Registered(id), Failed(ServerError)} && forall u :: u in body.redirectUris ==> SafeRedirect(u)
  {
    var o := Register(st, now, limited, body, gone, id, fault);
    if id in o.st.clients {
      assert RegistrationError(body) == None;
      forall u | u in body.redirectUris ensures SafeRedirect(u) {
        var i :| 0 <= i < |body.redirectUris| && body.redirectUris[i] == u;
        assert RedirectSafe(body.redirectUris[i]);
      }
    }
  }

  // ------------------------------------------------------------------ the invariant

  ghost predicate ClientsCovered(ms: seq<Move>, clients: map<Id, Client>) {
    forall c, u :: c in clients && u in clients[c].redirectUris ==> RegisteredIn(ms, c, u)
  }

  ghost predicate PageCovered(ms: seq<Move>, p: Pending) {
    RegisteredIn(ms, p.clientId, p.redirectUri)
  }

  ghost predicate PagesCovered(ms: seq<Move>, pending: map<Id, Pending>, held: map<Thread, Held>, approvals: map<Id, Approval>) {
    && (forall p :: p in pending ==> PageCovered(ms, pending[p]))
    && (forall t :: t in held ==> PageCovered(ms, held[t].p))
    && (forall c :: c in approvals ==> PageCovered(ms, approvals[c].pending))
  }

  lemma {:induction false} StillCovered(ms: seq<Move>, clients: map<Id, Client>)
    requires ms != [] && ClientsCovered(Front(ms), clients)
    ensures ClientsCovered(ms, clients)
  {
    forall c, u | c in clients && u in clients[c].redirectUris ensures RegisteredIn(ms, c, u) { RegisteredBefore(ms, c, u); }
  }

  lemma {:induction false} PagesStillCovered(ms: seq<Move>, pending: map<Id, Pending>, held: map<Thread, Held>, approvals: map<Id, Approval>)
    requires ms != [] && PagesCovered(Front(ms), pending, held, approvals)
    ensures PagesCovered(ms, pending, held, approvals)
  {
    forall p | p in pending ensures PageCovered(ms, pending[p]) { RegisteredBefore(ms, pending[p].clientId, pending[p].redirectUri); }
    forall t | t in held ensures PageCovered(ms, held[t].p) { RegisteredBefore(ms, held[t].p.clientId, held[t].p.redirectUri); }
    forall c | c in approvals ensures PageCovered(ms, approvals[c].pending) {
      RegisteredBefore(ms, approvals[c].pending.clientId, approvals[c].pending.redirectUri);
    }
  }

  lemma {:induction false} FromCovered(ms: seq<Move>, before: map<Id, Client>, after: map<Id, Client>)
    requires ClientsCovered(ms, before) && UrisFrom(before, after)
    ensures ClientsCovered(ms, after)
  {
  }

  lemma {:induction false} RegisterCovered(ms: seq<Move>)
    requires ms != [] && Moves(Door(), ms) && ms[|ms| - 1].Serve? && ms[|ms| - 1].act.DoRegister?
    requires ClientsCovered(Front(ms), Finally(Door(), Front(ms)).st.clients)
    requires ClientsCovered(Front(ms), Finally(Door(), Front(ms)).st.disk.clients)
    ensures ClientsCovered(ms, Finally(Door(), ms).st.clients) && ClientsCovered(ms, Finally(Door(), ms).st.disk.clients)
  {
    var h, m := Finally(Door(), Front(ms)), ms[|ms| - 1];
    var act := m.act;
    var next := Finally(Door(), ms).st;
    RegisterUris(h.st, m.now, act.limited, act.body, act.gone, act.id, act.fault);
    StillCovered(ms, h.st.clients);
    StillCovered(ms, h.st.disk.clients);
    assert Front(ms) == ms[..|ms| - 1];
    forall c, u | c in next.clients && u in next.clients[c].redirectUris ensures RegisteredIn(ms, c, u) {
      if c == act.id {
        assert EnteredAt(ms, |ms| - 1, c, u);
      } else {
        assert c in next.clients - {act.id};
      }
    }
  }

  lemma {:induction false} MoveUris(h: Hall, m: Move)
    requires Allowed(h, m) && Readable(h.st) && !(m.Serve? && m.act.DoRegister?)
    ensures var st, next := h.st, After(h, m).st;
            && (UrisFrom(st.clients, next.clients) || UrisFrom(st.disk.clients, next.clients))
            && (next.disk.clients == st.disk.clients || next.disk.clients == next.clients || UrisFrom(st.disk.clients, next.disk.clients))
  {
    match m
    case Serve(now, act) =>
      if act.DoRestart? { RestartUris(h.st, now, act.gone, act.fault); } else { ServeUris(h.st, now, act); }
    case Take(now, thread, request) => TakeAndDecideKeep(h, m);
    case Decide(now, thread, approve, secretOk, limited) => TakeAndDecideKeep(h, m);
    case Store(now, thread, code, fault) => SaveIsSame(Coded(h.st, now, h.held[thread], code), now, fault);
  }

  ghost predicate AllCovered(ms: seq<Move>, h: Hall) {
    PagesCovered(ms, h.st.pending, h.held, h.st.hist.approvals)
  }

  lemma {:induction false} BeginCovered(ms: seq<Move>, h: Hall, now: Time, limited: bool, q: AuthorizeRequest, id: Id)
    requires AllCovered(ms, h) && ClientsCovered(ms, h.st.clients)
    ensures PagesCovered(ms, Begin(h.st, now, limited, q, id).st.pending, h.held, h.st.hist.approvals)
  {
    BeginCases(h.st, now, limited, q, id);
    if RequestError(h.st, q) == None {
      assert RegisteredIn(ms, q.clientId, q.redirectUri);
      assert PageCovered(ms, RequestFor(q, now));
    }
  }

  lemma {:induction false} ServeCovered(ms: seq<Move>, h: Hall, now: Time, act: Act)
    requires AllCovered(ms, h) && ClientsCovered(ms, h.st.clients) && Allowed(h, Serve(now, act))
    ensures AllCovered(ms, After(h, Serve(now, act)))
  {
    if act.DoRestart? { RestartHistory(h.st, now, act.gone, act.fault); } else { ServeIsPagesOnly(h.st, now, act); }
    if act.DoBegin? { BeginCovered(ms, h, now, act.limited, act.q, act.id); } else { OthersKeepPending(h.st, now, act); }
  }

  lemma {:induction false} TakeCovered(ms: seq<Move>, h: Hall, now: Time, thread: Thread, request: Id)
    requires AllCovered(ms, h)
    ensures AllCovered(ms, TakenOut(h, now, thread, request))
  {
    TakenCases(h, now, thread, request);
    FewerPages(ms, h.st.pending, h.held, h.st.hist.approvals, request);
    if request in h.st.pending {
      var x := Held(request, h.st.pending[request], false);
      assert PageCovered(ms, x.p);
      OneMoreHeld(ms, h.st.pending - {request}, h.held, h.st.hist.approvals, thread, x);
    }
  }

  lemma {:induction false} TakenCases(h: Hall, now: Time, thread: Thread, request: Id)
    ensures var next := TakenOut(h, now, thread, request);
            && next.st.hist == h.st.hist
            && (|| (next.st.pending == h.st.pending && next.held == h.held)
                || (&& request in h.st.pending && next.st.pending == h.st.pending - {request}
                    && (next.held == h.held || next.held == h.held[thread := Held(request, h.st.pending[request], false)])))
  {
    TakeKeepsTokens(h, now, thread, request);
    var next := TakenOut(h, now, thread, request);
    if request !in h.st.pending {
      assert next == Hall(h.st.(clock := now), h.held);
    } else if now > h.st.pending[request].expiresAt {
      assert next == Hall(Popped(h.st, request).(clock := now), h.held);
    } else {
      assert next.st == Popped(h.st, request).(clock := now);
      assert next.held == h.held[thread := Held(request, h.st.pending[request], false)];
    }
  }

  lemma {:induction false} FewerPages(ms: seq<Move>, pending: map<Id, Pending>, held: map<Thread, Held>, approvals: map<Id, Approval>, request: Id)
    requires PagesCovered(ms, pending, held, approvals)
    ensures PagesCovered(ms, pending - {request}, held, approvals)
  {
  }

  lemma {:induction false} OneMoreHeld(ms: seq<Move>, pending: map<Id, Pending>, held: map<Thread, Held>, approvals: map<Id, Approval>,
                                       thread: Thread, x: Held)
    requires PagesCovered(ms, pending, held, approvals) && PageCovered(ms, x.p)
    ensures PagesCovered(ms, pending, held[thread := x], approvals)
  {
  }

  lemma {:induction false} DecideCovered(ms: seq<Move>, h: Hall, now: Time, thread: Thread, approve: bool, secretOk: bool, limited: bool)
    requires AllCovered(ms, h) && thread in h.held
    ensures AllCovered(ms, Decided(h, now, thread, approve, secretOk, limited))
  {
    assert PageCovered(ms, h.held[thread].p);
  }

  lemma {:induction false} StoreCovered(ms: seq<Move>, h: Hall, now: Time, thread: Thread, code: Id, fault: Fault)
    requires AllCovered(ms, h) && thread in h.held
    ensures AllCovered(ms, Stored(h, now, thread, code, fault))
  {
    assert PageCovered(ms, h.held[thread].p);
  }

  lemma {:induction false} MoveCovered(ms: seq<Move>, h: Hall, m: Move)
    requires AllCovered(ms, h) && ClientsCovered(ms, h.st.clients) && Allowed(h, m)
    ensures AllCovered(ms, After(h, m))
  {
    match m
    case Serve(now, act) => ServeCovered(ms, h, now, act);
    case Take(now, thread, request) => TakeCovered(ms, h, now, thread, request);
    case Decide(now, thread, approve, secretOk, limited) => DecideCovered(ms, h, now, thread, approve, secretOk, limited);
    case Store(now, thread, code, fault) => StoreCovered(ms, h, now, thread, code, fault);
  }

  lemma {:induction false} ClientsStep(ms: seq<Move>)
    requires ms != [] && Moves(Door(), ms) && Readable(Finally(Door(), Front(ms)).st)
    requires ClientsCovered(Front(ms), Finally(Door(), Front(ms)).st.clients)
    requires ClientsCovered(Front(ms), Finally(Door(), Front(ms)).st.disk.clients)
    ensures ClientsCovered(ms, Finally(Door(), ms).st.clients) && ClientsCovered(ms, Finally(Door(), ms).st.disk.clients)
  {
    var h, m := Finally(Door(), Front(ms)), ms[|ms| - 1];
    if m.Serve? && m.act.DoRegister? {
      RegisterCovered(ms);
    } else {
      MoveUris(h, m);
      StillCovered(ms, h.st.clients);
      StillCovered(ms, h.st.disk.clients);
    }
  }

  lemma {:induction false} RunCovered(ms: seq<Move>)
    requires Moves(Door(), ms)
    ensures var h := Finally(Door(), ms);
            ClientsCovered(ms, h.st.clients) && ClientsCovered(ms, h.st.disk.clients) && AllCovered(ms, h) && HallSound(h)
    decreases |ms|
  {
    if ms != [] {
      var h := Finally(Door(), Front(ms));
      RunCovered(Front(ms));
      ClientsStep(ms);
      StillCovered(ms, h.st.clients);
      PagesStillCovered(ms, h.st.pending, h.held, h.st.hist.approvals);
      MoveCovered(ms, h, ms[|ms| - 1]);
      MoveSound(h, ms[|ms| - 1]);
    } else {
      NothingAtTheDoor();
    }
  }

  lemma {:induction false} NothingAtTheDoor()
    ensures HallSound(Door()) && AllCovered([], Door()) && ClientsCovered([], Door().st.clients) && ClientsCovered([], Door().st.disk.clients)
  {
  }

  /** Every redirect of a registered client, in memory and in the file, of a request that is pending
      or held, and of an approval was registered by that client in the run, with all its redirects
      safe; the client itself may be gone by now. */
  lemma {:induction false} RedirectsAreRegistered(ms: seq<Move>)
    requires Moves(Door(), ms)
    ensures var h := Finally(Door(), ms);
            && (forall c, u :: c in h.st.clients && u in h.st.clients[c].redirectUris ==> RegisteredIn(ms, c, u))
            && (forall p :: p in h.st.pending ==> RegisteredIn(ms, h.st.pending[p].clientId, h.st.pending[p].redirectUri))
            && (forall t :: t in h.held ==> RegisteredIn(ms, h.held[t].p.clientId, h.held[t].p.redirectUri))
            && (forall c :: c in h.st.hist.approvals ==>
                  RegisteredIn(ms, h.st.hist.approvals[c].pending.clientId, h.st.hist.approvals[c].pending.redirectUri))
  {
    RunCovered(ms);
    var h := Finally(Door(), ms);
    forall p | p in h.st.pending ensures RegisteredIn(ms, h.st.pending[p].clientId, h.st.pending[p].redirectUri) {
      assert PageCovered(ms, h.st.pending[p]);
    }
    forall t | t in h.held ensures RegisteredIn(ms, h.held[t].p.clientId, h.held[t].p.redirectUri) {
      assert PageCovered(ms, h.held[t].p);
    }
    forall c | c in h.st.hist.approvals
      ensures RegisteredIn(ms, h.st.hist.approvals[c].pending.clientId, h.st.hist.approvals[c].pending.redirectUri)
    {
      assert PageCovered(ms, h.st.hist.approvals[c].pending);
    }
  }

  /** So was the redirect of every outstanding code and of every exchange. */
  lemma {:induction false} CodesGoWhereRegistered(ms: seq<Move>, c: Id)
    requires Moves(Door(), ms)
    ensures var st := Finally(Door(), ms).st;
            && (c in st.codes ==> RegisteredIn(ms, st.codes[c].clientId, st.codes[c].redirectUri))
            && (c in st.hist.exchanges ==> RegisteredIn(ms, st.hist.exchanges[c].clientId, st.hist.exchanges[c].redirectUri))
  {
    RunCovered(ms);
    var h := Finally(Door(), ms).st.hist;
    if c in h.approvals { assert PageCovered(ms, h.approvals[c].pending); }
    if c in h.exchanges { assert ExchangeSound(c, h.approvals, h.exchanges, h.lineage); }
  }
}
