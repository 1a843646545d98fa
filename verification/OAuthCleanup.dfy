/**
 What a cleanup of idle clients amounts to: which clients it may take, in which order, when it
 stops, and why it never takes a live token; and the bounds this gives the service's tables.
 */
module OAuthCleanup {

  import opened Options
  import opened OAuth
  import opened OAuthStore
  import opened OAuthRuns
  import opened OAuthRegistered

  lemma {:induction false} LiveAfter(st: State, gone: set<Id>, c: Id, now: Time)
    requires c !in gone
    ensures LiveRefresh(RemoveClients(st, gone).refresh, c, now) <==> LiveRefresh(st.refresh, c, now)
  {
    var next := RemoveClients(st, gone);
    if LiveRefresh(st.refresh, c, now) {
      var t :| t in st.refresh && st.refresh[t].clientId == c && !st.refresh[t].revoked && st.refresh[t].expiresAt >= now;
      assert t in next.refresh;
    }
  }

  lemma {:induction false} InactiveAfter(st: State, gone: set<Id>, now: Time)
    ensures Inactive(RemoveClients(st, gone), now) == Inactive(st, now) - gone
    ensures Evictable(RemoveClients(st, gone), now) == Evictable(st, now) - gone
  {
    forall c | c !in gone ensures LiveRefresh(RemoveClients(st, gone).refresh, c, now) <==> LiveRefresh(st.refresh, c, now) {
      LiveAfter(st, gone, c, now);
    }
  }

  lemma {:induction false} SetMinus<T>(a: set<T>, b: set<T>)
    requires b <= a
    ensures |a - b| == |a| - |b|
  {
    assert (a - b) + b == a && (a - b) * b == {};
  }

  /** A live refresh token survives every cleanup, and so does its client. */
  lemma {:induction false} LiveTokensSurvive(st: State, now: Time, reserve: nat, gone: set<Id>, t: Id)
    requires CleanedAway(st, now, reserve, gone)
    requires t in st.refresh && !st.refresh[t].revoked && st.refresh[t].expiresAt >= now
    ensures t in RemoveClients(st, gone).refresh && RemoveClients(st, gone).refresh[t] == st.refresh[t]
    ensures st.refresh[t].clientId in st.clients ==> st.refresh[t].clientId in RemoveClients(st, gone).clients
  {
    assert LiveRefresh(st.refresh, st.refresh[t].clientId, now);
  }

  /** The evictable clients that are not stale and come before a client in the order of age. */
  ghost function Older(st: State, now: Time, c: Id): set<Id>
    requires c in st.clients
  {
    set k | k in Evictable(st, now) && k !in Stale(st, now) && Before(st.clients[k], st.clients[c])
  }

  /** How many clients beyond the stale ones a cleanup has to find. */
  ghost function Wanted(st: State, now: Time, reserve: nat): nat {
    Excess(|Inactive(st, now)| - |Stale(st, now)|, |st.clients| - |Stale(st, now)|, reserve)
  }

  /** Whom a cleanup takes: who is evictable, and stale or among the oldest that are wanted. */
  ghost predicate Doomed(st: State, now: Time, reserve: nat, c: Id)
    requires c in st.clients
  {
    c in Evictable(st, now) && (c in Stale(st, now) || |Older(st, now, c)| < Wanted(st, now, reserve))
  }

  lemma {:induction false} TakenHasRoom(st: State, now: Time, reserve: nat, gone: set<Id>, c: Id)
    requires CleanedAway(st, now, reserve, gone) && c in gone && c !in Stale(st, now)
    ensures c in st.clients && |Older(st, now, c)| < Wanted(st, now, reserve)
  {
    var chosen := gone - Stale(st, now);
    forall k | k in Older(st, now, c) ensures k in chosen - {c} {
      assert k !in gone ==> Before(st.clients[c], st.clients[k]);
    }
    Fewer(Older(st, now, c), chosen - {c});
    SetMinus(gone, Stale(st, now));
    SetMinus(chosen, {c});
  }

  lemma {:induction false} KeptHasNone(st: State, now: Time, reserve: nat, gone: set<Id>, c: Id)
    requires CleanedAway(st, now, reserve, gone) && c in Evictable(st, now) && c !in gone
    ensures c in st.clients && |Older(st, now, c)| >= Wanted(st, now, reserve)
  {
    var chosen := gone - Stale(st, now);
    forall k | k in chosen ensures k in Older(st, now, c) {}
    Fewer(chosen, Older(st, now, c));
    SetMinus(gone, Stale(st, now));
    Fewer(gone + {c}, Evictable(st, now));
  }

  /** A cleanup takes exactly the doomed. */
  lemma {:induction false} TakesExactly(st: State, now: Time, reserve: nat, gone: set<Id>, c: Id)
    requires CleanedAway(st, now, reserve, gone) && c in st.clients
    ensures c in gone <==> Doomed(st, now, reserve, c)
  {
    if c in Evictable(st, now) && c !in Stale(st, now) {
      if c in gone { TakenHasRoom(st, now, reserve, gone, c); } else { KeptHasNone(st, now, reserve, gone, c); }
    }
  }

  /** So there is one way to clean up. */
  lemma {:induction false} OneCleanup(st: State, now: Time, reserve: nat, a: set<Id>, b: set<Id>)
    requires CleanedAway(st, now, reserve, a) && CleanedAway(st, now, reserve, b)
    ensures a == b
  {
    forall c | c in a || c in b ensures c in a && c in b {
      TakesExactly(st, now, reserve, a, c);
      TakesExactly(st, now, reserve, b, c);
    }
  }

  /** An unthrottled registration costs exactly the doomed clients their place, whether or not it
      succeeds. */
  lemma {:induction false} RegistrationEvictsExactly(st: State, now: Time, body: Registration, gone: set<Id>, id: Id, fault: Fault, c: Id)
    requires Legal(st, now, DoRegister(false, body, gone, id, fault)) && c in st.clients
    ensures c !in Step(st, now, DoRegister(false, body, gone, id, fault)).clients <==> Doomed(st, now, 1, c)
  {
    TakesExactly(st, now, 1, gone, c);
    RegisterCases(st, now, false, body, gone, id, fault);
    SaveIsSame(WithClient(RemoveClients(st, gone), body, id, now), now, fault);
  }

  lemma {:induction false} ClientsAfter(st: State, gone: set<Id>)
    requires gone <= st.clients.Keys
    ensures |RemoveClients(st, gone).clients| == |st.clients| - |gone|
  {
    SetMinus(st.clients.Keys, gone);
    assert RemoveClients(st, gone).clients.Keys == st.clients.Keys - gone;
  }

  lemma {:induction false} IdleAfter(st: State, now: Time, gone: set<Id>)
    requires gone <= Evictable(st, now)
    ensures |Inactive(RemoveClients(st, gone), now)| == |Inactive(st, now)| - |gone|
    ensures |Evictable(RemoveClients(st, gone), now)| == |Evictable(st, now)| - |gone|
  {
    InactiveAfter(st, gone, now);
    SetMinus(Evictable(st, now), gone);
    SetMinus(Inactive(st, now), gone);
  }

  lemma {:induction false} SizesAfter(st: State, now: Time, gone: set<Id>)
    requires gone <= Evictable(st, now)
    ensures |Inactive(RemoveClients(st, gone), now)| == |Inactive(st, now)| - |gone|
    ensures |RemoveClients(st, gone).clients| == |st.clients| - |gone|
    ensures |Evictable(RemoveClients(st, gone), now)| == |Evictable(st, now)| - |gone|
  {
    ClientsAfter(st, gone);
    IdleAfter(st, now, gone);
  }

  lemma {:induction false} StopArithmetic(inactive: int, total: int, all: int, stale: int, reserve: nat, gone: int)
    requires gone - stale == Least(Excess(inactive - stale, total - stale, reserve), all - stale)
    ensures Excess(inactive - gone, total - gone, reserve) == 0 || all - gone == 0
  {
  }

  /** A cleanup ends with both budgets met, or with nobody left whom it could take. */
  lemma {:induction false} CleaningStopsInTime(st: State, now: Time, reserve: nat, gone: set<Id>)
    requires CleanedAway(st, now, reserve, gone)
    ensures var next := RemoveClients(st, gone);
            Excess(|Inactive(next, now)|, |next.clients|, reserve) == 0 || Evictable(next, now) == {}
  {
    SizesAfter(st, now, gone);
    StopArithmetic(|Inactive(st, now)|, |st.clients|, |Evictable(st, now)|, |Stale(st, now)|, reserve, |gone|);
  }

  /** It takes nobody beyond the stale ones while the budgets are met without. */
  lemma {:induction false} CleaningIsLazy(st: State, now: Time, reserve: nat, gone: set<Id>)
    requires CleanedAway(st, now, reserve, gone)
    requires Excess(|Inactive(st, now)| - |Stale(st, now)|, |st.clients| - |Stale(st, now)|, reserve) == 0
    ensures gone == Stale(st, now)
  {
    Fewer(Stale(st, now), Evictable(st, now));
    SetMinus(gone, Stale(st, now));
    assert gone - Stale(st, now) == {};
  }

  lemma {:induction false} FullMeansProtected(st: State, now: Time, gone: set<Id>)
    requires CleanedAway(st, now, 1, gone)
    requires var next := RemoveClients(st, gone);
             |Inactive(next, now)| >= MAX_INACTIVE_DCR_CLIENTS || |next.clients| >= MAX_DCR_CLIENTS
    ensures Evictable(RemoveClients(st, gone), now) == {}
  {
    CleaningStopsInTime(st, now, 1, gone);
  }

  /** Registration is refused for lack of room only when every client that counts against the
      budget is protected: by a live token or an open consent page. */
  lemma {:induction false} RefusedOnlyWhenFull(st: State, now: Time, body: Registration, gone: set<Id>, id: Id, fault: Fault)
    requires CleanedAway(st, now, 1, gone)
    requires Register(st, now, false, body, gone, id, fault).reply == Failed(LimitReached)
    ensures Register(st, now, false, body, gone, id, fault).st == RemoveClients(st, gone)
    ensures Evictable(RemoveClients(st, gone), now) == {}
  {
    RegisterCases(st, now, false, body, gone, id, fault);
    FullMeansProtected(st, now, gone);
  }

  /** The three ways a registration can leave the service. */
  lemma {:induction false} RegisterCases(st: State, now: Time, limited: bool, body: Registration, gone: set<Id>, id: Id, fault: Fault)
    ensures var st1 := RemoveClients(st, gone);
            var next := Register(st, now, limited, body, gone, id, fault);
            || (limited && next.st == st)
            || (!limited && next.st == st1 && (next.reply == Failed(LimitReached) ==>
                  |Inactive(st1, now)| >= MAX_INACTIVE_DCR_CLIENTS || |st1.clients| >= MAX_DCR_CLIENTS))
            || (&& !limited && next.st == Save(WithClient(st1, body, id, now), now, fault)
                && next.reply != Failed(LimitReached)
                && |Inactive(st1, now)| < MAX_INACTIVE_DCR_CLIENTS && |st1.clients| < MAX_DCR_CLIENTS)
  {
  }

  // ---------------------------------------------------------------- the bounds

  lemma {:induction false} Fewer<T>(a: set<T>, b: set<T>)
    requires a <= b
    ensures |a| <= |b|
  {
    SetMinus(b, a);
  }

  lemma {:induction false} SaveKeepsInactive(st: State, now: Time, fault: Fault)
    ensures Inactive(Save(st, now, fault), now) == Inactive(st, now)
  {
    var next := Save(st, now, fault);
    forall c ensures LiveRefresh(next.refresh, c, now) <==> LiveRefresh(st.refresh, c, now) {
      if LiveRefresh(st.refresh, c, now) {
        var t :| t in st.refresh && st.refresh[t].clientId == c && !st.refresh[t].revoked && st.refresh[t].expiresAt >= now;
        assert t in next.refresh;
      }
    }
  }

  /** Right after a registration at most sixteen clients are inactive, the new one among them. */
  lemma {:induction false} InactiveAfterRegistration(st: State, now: Time, limited: bool, body: Registration, gone: set<Id>, id: Id, fault: Fault)
    requires Register(st, now, limited, body, gone, id, fault).reply == Registered(id)
    ensures |Inactive(Register(st, now, limited, body, gone, id, fault).st, now)| <= MAX_INACTIVE_DCR_CLIENTS
  {
    var st1 := RemoveClients(st, gone);
    var st2 := WithClient(st1, body, id, now);
    SaveKeepsInactive(st2, now, fault);
    assert Inactive(st2, now) <= Inactive(st1, now) + {id};
    Fewer(Inactive(st2, now), Inactive(st1, now) + {id});
  }

  /** The service's tables are within their bounds, in memory and on disk. */
  ghost predicate Bounded(st: State) {
    |st.clients| <= MAX_DCR_CLIENTS && |st.disk.clients| <= MAX_DCR_CLIENTS && |st.pending| <= MAX_PENDING_AUTHORIZATIONS
  }

  lemma {:induction false} RemoveBounded(st: State, gone: set<Id>)
    requires Bounded(st)
    ensures Bounded(RemoveClients(st, gone))
  {
    Fewer(RemoveClients(st, gone).clients.Keys, st.clients.Keys);
  }

  lemma {:induction false} RegisterBounded(st: State, now: Time, limited: bool, body: Registration, gone: set<Id>, id: Id, fault: Fault)
    requires Bounded(st)
    ensures Bounded(Register(st, now, limited, body, gone, id, fault).st)
  {
    RegisterCases(st, now, limited, body, gone, id, fault);
    RemoveBounded(st, gone);
    WithClientBounded(RemoveClients(st, gone), now, body, id, fault);
  }

  lemma {:induction false} WithClientBounded(st: State, now: Time, body: Registration, id: Id, fault: Fault)
    requires Bounded(st)
    ensures |st.clients| < MAX_DCR_CLIENTS ==> Bounded(Save(WithClient(st, body, id, now), now, fault))
  {
    assert WithClient(st, body, id, now).clients.Keys == st.clients.Keys + {id};
  }

  /** The state keeps its clients, perhaps saves them, and gains no pending request. */
  ghost predicate SameOrFewer(st: State, next: State) {
    && next.clients.Keys <= st.clients.Keys
    && (next.disk.clients.Keys == st.disk.clients.Keys || next.disk.clients.Keys <= st.clients.Keys)
    && next.pending.Keys <= st.pending.Keys
  }

  lemma {:induction false} FewerIsBounded(st: State, next: State)
    requires Bounded(st) && SameOrFewer(st, next)
    ensures Bounded(next)
  {
    Fewer(next.clients.Keys, st.clients.Keys);
    Fewer(next.pending.Keys, st.pending.Keys);
    if next.disk.clients.Keys <= st.clients.Keys { Fewer(next.disk.clients.Keys, st.clients.Keys); }
  }

  /** The ways a new request can leave the pending ones. */
  lemma {:induction false} BeginCases(st: State, now: Time, limited: bool, q: AuthorizeRequest, id: Id)
    ensures var next, swept := Begin(st, now, limited, q, id).st, Unexpired(st.pending, now);
            && next.clients == st.clients && next.disk == st.disk
            && (next.pending == st.pending || next.pending == swept
                || (&& RequestError(st, q) == None && |swept| < MAX_PENDING_AUTHORIZATIONS
                    && next.pending == swept[id := RequestFor(q, now)]))
  {
  }

  lemma {:induction false} BeginBounded(st: State, now: Time, limited: bool, q: AuthorizeRequest, id: Id)
    requires Bounded(st)
    ensures Bounded(Begin(st, now, limited, q, id).st)
  {
    BeginCases(st, now, limited, q, id);
    Fewer(Unexpired(st.pending, now).Keys, st.pending.Keys);
  }

  lemma {:induction false} TouchKeys(clients: map<Id, Client>, c: Id, now: Time)
    ensures Touch(clients, c, now).Keys == clients.Keys
  {
  }

  lemma {:induction false} CompleteIsSameOrFewer(st: State, now: Time, request: Id, approve: bool, secretOk: bool, limited: bool, code: Id, fault: Fault)
    ensures SameOrFewer(st, Complete(st, now, request, approve, secretOk, limited, code, fault).st)
  {
    if request in st.pending { TouchKeys(st.clients, st.pending[request].clientId, now); }
  }

  lemma {:induction false} ExchangeIsSameOrFewer(st: State, now: Time, form: CodeForm, access: Id, refresh: Id, fault: Fault)
    ensures SameOrFewer(st, ExchangeCode(st, now, form, access, refresh, fault).st)
  {
    TouchKeys(st.clients, form.clientId, now);
    ExchangeKeepsPending(st, now, form, access, refresh, fault);
  }

  lemma {:induction false} RotateIsSameOrFewer(st: State, now: Time, form: RefreshForm, access: Id, refresh: Id, fault: Fault)
    ensures SameOrFewer(st, RefreshTokens(st, now, form, access, refresh, fault).st)
  {
    TouchKeys(st.clients, form.clientId, now);
    RotateKeepsPending(st, now, form, access, refresh, fault);
  }

  lemma {:induction false} RevokedKeepsTables(st: State, token: Id, hint: Hint)
    ensures var next := Revoked(st, token, hint);
            next.clients == st.clients && next.disk == st.disk && next.pending == st.pending
  {
    if token in st.access { RevokeBothKeepsTables(RevokeAccess(st, token), token); }
    RevokeBothKeepsTables(st, token);
  }

  lemma {:induction false} RevokeBothKeepsTables(st: State, token: Id)
    ensures token in st.access ==>
              var next := RevokeAccess(st, token); next.clients == st.clients && next.disk == st.disk && next.pending == st.pending
    ensures token in st.refresh ==>
              var next := RevokeRefresh(st, token); next.clients == st.clients && next.disk == st.disk && next.pending == st.pending
  {
  }

  lemma {:induction false} SaveIsSame(st: State, now: Time, fault: Fault)
    ensures var next := Save(st, now, fault);
            && next.clients == st.clients && next.pending == st.pending
            && next.disk.clients == (if fault == FailedBefore then st.disk.clients else st.clients)
  {
  }

  lemma {:induction false} RevokeIsSameOrFewer(st: State, now: Time, token: Id, hint: Hint, fault: Fault)
    ensures SameOrFewer(st, Revoke(st, now, token, hint, fault).st)
  {
    RevokedKeepsTables(st, token, hint);
    SaveIsSame(Revoked(st, token, hint), now, fault);
  }

  lemma {:induction false} SaveBounded(st: State, now: Time, fault: Fault)
    requires Bounded(st)
    ensures Bounded(Save(st, now, fault)) && Bounded(Down(Save(st, now, fault)))
  {
  }

  lemma {:induction false} RestartBounded(st: State, now: Time, gone: set<Id>, fault: Fault)
    requires Bounded(st) && Readable(st)
    ensures Bounded(Restart(st, now, gone, fault))
  {
    RestartCases(st, now, gone, fault);
    RemoveBounded(Loaded(st, st.disk), gone);
    SaveBounded(RemoveClients(Loaded(st, st.disk), gone), now, fault);
  }

  lemma {:induction false} StepBounded(st: State, now: Time, act: Act)
    requires Bounded(st) && Readable(st)
    ensures Bounded(Step(st, now, act))
  {
    match act
    case DoRegister(limited, body, gone, id, fault) => RegisterBounded(st, now, limited, body, gone, id, fault);
    case DoBegin(limited, q, id) => BeginBounded(st, now, limited, q, id);
    case DoComplete(request, approve, secretOk, limited, code, fault) =>
      CompleteIsSameOrFewer(st, now, request, approve, secretOk, limited, code, fault);
      FewerIsBounded(st, Complete(st, now, request, approve, secretOk, limited, code, fault).st);
    case DoExchange(form, access, refresh, fault) =>
      ExchangeIsSameOrFewer(st, now, form, access, refresh, fault);
      FewerIsBounded(st, ExchangeCode(st, now, form, access, refresh, fault).st);
    case DoRefresh(form, access, refresh, fault) =>
      RotateIsSameOrFewer(st, now, form, access, refresh, fault);
      FewerIsBounded(st, RefreshTokens(st, now, form, access, refresh, fault).st);
    case DoRevoke(token, hint, fault) =>
      RevokeIsSameOrFewer(st, now, token, hint, fault);
      FewerIsBounded(st, Revoke(st, now, token, hint, fault).st);
    case DoRestart(gone, fault) => RestartBounded(st, now, gone, fault);
  }

  // -------------------------------------------------- pending requests of one client

  /** A client has at most four pending requests. */
  ghost predicate FairShare(st: State, c: Id) {
    |PendingOf(st.pending, c)| <= MAX_PENDING_PER_CLIENT
  }

  lemma {:induction false} BeginFair(st: State, now: Time, limited: bool, q: AuthorizeRequest, id: Id, c: Id)
    requires FairShare(st, c)
    ensures FairShare(Begin(st, now, limited, q, id).st, c)
  {
    var swept := Unexpired(st.pending, now);
    Fewer(PendingOf(swept, c), PendingOf(st.pending, c));
    if RequestError(st, q) == None {
      var grown := swept[id := RequestFor(q, now)];
      var all := if c == q.clientId then PendingOf(swept, c) + {id} else PendingOf(swept, c);
      Fewer(PendingOf(grown, c), all);
    }
  }

  lemma {:induction false} CompleteFair(st: State, now: Time, request: Id, approve: bool, secretOk: bool, limited: bool, code: Id, fault: Fault, c: Id)
    requires FairShare(st, c)
    ensures FairShare(Complete(st, now, request, approve, secretOk, limited, code, fault).st, c)
  {
    if request in st.pending {
      Fewer(PendingOf(st.pending - {request}, c), PendingOf(st.pending, c));
      assert (st.pending - {request})[request := st.pending[request]] == st.pending;
    }
  }

  lemma {:induction false} StepFair(st: State, now: Time, act: Act, c: Id)
    requires FairShare(st, c) && Readable(st)
    ensures FairShare(Step(st, now, act), c)
  {
    match act
    case DoRegister(limited, body, gone, id, fault) => RegisterKeepsPending(st, now, limited, body, gone, id, fault);
    case DoBegin(limited, q, id) => BeginFair(st, now, limited, q, id, c);
    case DoComplete(request, approve, secretOk, limited, code, fault) =>
      CompleteFair(st, now, request, approve, secretOk, limited, code, fault, c);
    case DoExchange(form, access, refresh, fault) => ExchangeKeepsPending(st, now, form, access, refresh, fault);
    case DoRefresh(form, access, refresh, fault) => RotateKeepsPending(st, now, form, access, refresh, fault);
    case DoRevoke(token, hint, fault) => RevokeKeepsPending(st, now, token, hint, fault);
    case DoRestart(gone, fault) => assert Restart(st, now, gone, fault).pending == map[];
  }

  lemma {:induction false} RunBounded(st: State, ticks: seq<Tick>, c: Id)
    requires Bounded(st) && FairShare(st, c) && Readable(st) && Run(st, ticks)
    ensures Bounded(End(st, ticks)) && FairShare(End(st, ticks), c)
    decreases |ticks|
  {
    if ticks != [] {
      StepBounded(st, ticks[0].now, ticks[0].act);
      StepFair(st, ticks[0].now, ticks[0].act, c);
      StepStaysReadable(st, ticks[0].now, ticks[0].act);
      RunBounded(Step(st, ticks[0].now, ticks[0].act), ticks[1..], c);
    }
  }

  /** In every reachable state, restarts included: at most 64 clients in memory and on disk, at
      most 32 pending requests, and at most 4 of any one client. */
  lemma {:induction false} AlwaysBounded(st: State, c: Id)
    requires Reachable(st)
    ensures Bounded(st) && FairShare(st, c)
  {
    var ticks :| Run(Opening(), ticks) && End(Opening(), ticks) == st;
    RunBounded(Opening(), ticks, c);
  }
}
