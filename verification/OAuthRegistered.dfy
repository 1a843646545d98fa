/**
 Who is registered: in every reachable state each refresh token and each open consent page
 belongs to a registered client, cleanups and new requests never close an open consent page,
 and the tables stay within their bounds.
 */
module OAuthRegistered {

  import opened Options
  import opened OAuth
  import opened OAuthStore
  import opened OAuthRuns

  ghost predicate RefreshNamed(clients: map<Id, Client>, refresh: map<Id, Token>) {
    forall t :: t in refresh ==> refresh[t].clientId in clients
  }

  ghost predicate PendingNamed(clients: map<Id, Client>, pending: map<Id, Pending>, now: Time) {
    forall p :: p in pending && pending[p].expiresAt >= now ==> pending[p].clientId in clients
  }

  /** Each refresh token names a registered client. */
  ghost predicate TokensNamed(st: State) {
    && RefreshNamed(st.clients, st.refresh)
    && RefreshNamed(st.disk.clients, st.disk.refresh)
  }

  /** So does each unexpired pending request. */
  ghost predicate PagesNamed(st: State, now: Time) {
    PendingNamed(st.clients, st.pending, now)
  }

  ghost predicate Named(st: State, now: Time) {
    TokensNamed(st) && PagesNamed(st, now)
  }

  lemma {:induction false} CleanedNamed(st: State, now: Time, gone: set<Id>)
    requires TokensNamed(st) && gone <= Evictable(st, now)
    ensures TokensNamed(RemoveClients(st, gone))
    ensures PagesNamed(st, now) ==> PagesNamed(RemoveClients(st, gone), now)
  {
    forall p | p in st.pending && st.pending[p].expiresAt >= now ensures st.pending[p].clientId !in gone {
      assert LivePending(st.pending, st.pending[p].clientId, now);
    }
  }

  lemma {:induction false} SaveNamed(st: State, now: Time, fault: Fault)
    requires TokensNamed(st)
    ensures TokensNamed(Save(st, now, fault))
    ensures PagesNamed(st, now) ==> PagesNamed(Save(st, now, fault), now)
  {
  }

  lemma {:induction false} RegisterNamed(st: State, now: Time, limited: bool, body: Registration, gone: set<Id>, id: Id, fault: Fault)
    requires TokensNamed(st) && (!limited ==> gone <= Evictable(st, now))
    ensures TokensNamed(Register(st, now, limited, body, gone, id, fault).st)
    ensures PagesNamed(st, now) ==> PagesNamed(Register(st, now, limited, body, gone, id, fault).st, now)
  {
    if !limited {
      CleanedNamed(st, now, gone);
      SaveNamed(WithClient(RemoveClients(st, gone), body, id, now), now, fault);
    }
  }

  lemma {:induction false} BeginNamed(st: State, now: Time, limited: bool, q: AuthorizeRequest, id: Id)
    requires TokensNamed(st)
    ensures TokensNamed(Begin(st, now, limited, q, id).st)
    ensures PagesNamed(st, now) ==> PagesNamed(Begin(st, now, limited, q, id).st, now)
  {
    var swept := Unexpired(st.pending, now);
    assert PagesNamed(st, now) ==> PendingNamed(st.clients, swept, now);
    if RequestError(st, q) == None {
      assert PagesNamed(st, now) ==> PendingNamed(st.clients, swept[id := RequestFor(q, now)], now);
    }
  }

  lemma {:induction false} TouchedNamed(st: State, c: Id, now: Time)
    requires TokensNamed(st)
    ensures TokensNamed(Touched(st, c, now)) && Touch(st.clients, c, now).Keys == st.clients.Keys
    ensures PagesNamed(st, now) ==> PagesNamed(Touched(st, c, now), now)
  {
  }

  lemma {:induction false} IssueNamed(st: State, now: Time, origin: Origin, access: Id, refresh: Id, fault: Fault)
    requires TokensNamed(st) && origin.clientId in st.clients
    ensures TokensNamed(Issue(st, now, origin, access, refresh, fault).st)
    ensures PagesNamed(st, now) ==> PagesNamed(Issue(st, now, origin, access, refresh, fault).st, now)
  {
    var minted := Minted(st, now, origin, access, refresh);
    assert TokensNamed(minted);
    SaveNamed(minted, now, fault);
  }

  lemma {:induction false} ApprovedNamed(st: State, now: Time, request: Id, p: Pending, code: Id)
    requires TokensNamed(st)
    ensures TokensNamed(Approved(st, now, request, p, code))
    ensures PagesNamed(st, now) ==> PagesNamed(Approved(st, now, request, p, code), now)
  {
    TouchedNamed(st, p.clientId, now);
  }

  lemma {:induction false} CompleteNamed(st: State, now: Time, request: Id, approve: bool, secretOk: bool, limited: bool, code: Id, fault: Fault)
    requires TokensNamed(st)
    ensures TokensNamed(Complete(st, now, request, approve, secretOk, limited, code, fault).st)
    ensures PagesNamed(st, now) ==> PagesNamed(Complete(st, now, request, approve, secretOk, limited, code, fault).st, now)
  {
    if request in st.pending {
      var popped := Popped(st, request);
      assert TokensNamed(popped);
      ApprovedNamed(popped, now, request, st.pending[request], code);
      SaveNamed(Approved(popped, now, request, st.pending[request], code), now, fault);
    }
  }

  lemma {:induction false} ExchangedNamed(st: State, now: Time, form: CodeForm, refresh: Id)
    requires TokensNamed(st) && form.verifier.Some?
    ensures TokensNamed(Exchanged(st, now, form, refresh))
    ensures PagesNamed(st, now) ==> PagesNamed(Exchanged(st, now, form, refresh), now)
    ensures Exchanged(st, now, form, refresh).clients.Keys == st.clients.Keys
  {
    TouchedNamed(st, form.clientId, now);
  }

  lemma {:induction false} ExchangeNamed(st: State, now: Time, form: CodeForm, access: Id, refresh: Id, fault: Fault)
    requires TokensNamed(st)
    ensures TokensNamed(ExchangeCode(st, now, form, access, refresh, fault).st)
    ensures PagesNamed(st, now) ==> PagesNamed(ExchangeCode(st, now, form, access, refresh, fault).st, now)
  {
    if form.code in st.codes && CodeError(st, now, form) == None {
      var record := st.codes[form.code];
      ExchangedNamed(st, now, form, refresh);
      IssueNamed(Exchanged(st, now, form, refresh), now,
                 Origin(form.code, None, 0, form.clientId, record.resource, record.scopes), access, refresh, fault);
    }
  }

  lemma {:induction false} RevokeRefreshNamed(st: State, token: Id, now: Time)
    requires TokensNamed(st) && token in st.refresh
    ensures TokensNamed(RevokeRefresh(st, token))
    ensures PagesNamed(st, now) ==> PagesNamed(RevokeRefresh(st, token), now)
  {
  }

  lemma {:induction false} RotateNamed(st: State, now: Time, form: RefreshForm, access: Id, refresh: Id, fault: Fault)
    requires TokensNamed(st)
    ensures TokensNamed(RefreshTokens(st, now, form, access, refresh, fault).st)
    ensures PagesNamed(st, now) ==> PagesNamed(RefreshTokens(st, now, form, access, refresh, fault).st, now)
  {
    if RefreshError(st, now, form) == None {
      var record := st.refresh[form.token];
      var scopes := RotatedScopes(record.scopes, form.scope);
      RevokeRefreshNamed(st, form.token, now);
      if scopes.Some? {
        TouchedNamed(RevokeRefresh(st, form.token), form.clientId, now);
        IssueNamed(Touched(RevokeRefresh(st, form.token), form.clientId, now), now,
                   Rotated(st.hist, form.token, form.clientId, record.resource, scopes.value), access, refresh, fault);
      }
    }
  }

  lemma {:induction false} RevokeNamed(st: State, now: Time, token: Id, hint: Hint, fault: Fault)
    requires TokensNamed(st)
    ensures TokensNamed(Revoke(st, now, token, hint, fault).st)
    ensures PagesNamed(st, now) ==> PagesNamed(Revoke(st, now, token, hint, fault).st, now)
  {
    assert TokensNamed(Revoked(st, token, hint));
    SaveNamed(Revoked(st, token, hint), now, fault);
  }

  lemma {:induction false} RestartNamed(st: State, now: Time, gone: set<Id>, fault: Fault)
    requires TokensNamed(st) && Readable(st)
    ensures TokensNamed(Restart(st, now, gone, fault))
    ensures PagesNamed(st, now) ==> PagesNamed(Restart(st, now, gone, fault), now)
  {
    RestartReads(st);
    var cleaned := RemoveClients(Loaded(st, st.disk), gone);
    assert TokensNamed(cleaned);
    SaveNamed(cleaned, now, fault);
  }

  lemma {:induction false} StepNamed(st: State, now: Time, act: Act)
    requires TokensNamed(st) && Readable(st) && Legal(st, now, act)
    ensures TokensNamed(Step(st, now, act))
    ensures PagesNamed(st, st.clock) ==> PagesNamed(Step(st, now, act), now)
  {
    match act
    case DoRegister(limited, body, gone, id, fault) =>
      RegisterNamed(st, now, limited, body, gone, id, fault);
    case DoBegin(limited, q, id) => BeginNamed(st, now, limited, q, id);
    case DoComplete(request, approve, secretOk, limited, code, fault) =>
      CompleteNamed(st, now, request, approve, secretOk, limited, code, fault);
    case DoExchange(form, access, refresh, fault) => ExchangeNamed(st, now, form, access, refresh, fault);
    case DoRefresh(form, access, refresh, fault) => RotateNamed(st, now, form, access, refresh, fault);
    case DoRevoke(token, hint, fault) => RevokeNamed(st, now, token, hint, fault);
    case DoRestart(gone, fault) => RestartNamed(st, now, gone, fault);
  }

  lemma {:induction false} RunNamed(st: State, ticks: seq<Tick>)
    requires Named(st, st.clock) && Readable(st) && Run(st, ticks)
    ensures Named(End(st, ticks), End(st, ticks).clock)
    decreases |ticks|
  {
    if ticks != [] {
      StepNamed(st, ticks[0].now, ticks[0].act);
      StepStaysReadable(st, ticks[0].now, ticks[0].act);
      RunNamed(Step(st, ticks[0].now, ticks[0].act), ticks[1..]);
    }
  }

  /** In every reachable state, refresh tokens and open consent pages belong to registered clients. */
  lemma {:induction false} AlwaysNamed(st: State)
    requires Reachable(st)
    ensures Named(st, st.clock)
  {
    var ticks :| Run(Opening(), ticks) && End(Opening(), ticks) == st;
    RunNamed(Opening(), ticks);
  }

  /** A good refresh token or an approved request never names a client that is gone: the branches
      that guard against a missing client there are never taken. */
  lemma {:induction false} NoMissingClient(st: State, now: Time)
    requires Reachable(st) && st.clock <= now
    ensures forall form :: RefreshError(st, now, form) == None ==> form.clientId in st.clients
    ensures forall p :: p in st.pending && !(now > st.pending[p].expiresAt) ==> st.pending[p].clientId in st.clients
  {
    AlwaysNamed(st);
  }

  lemma {:induction false} BeginKeepsOpen(st: State, now: Time, limited: bool, q: AuthorizeRequest, id: Id, p: Id)
    requires p in st.pending && st.pending[p].expiresAt >= now && id != p
    ensures var next := Begin(st, now, limited, q, id).st; p in next.pending && next.pending[p] == st.pending[p]
  {
  }

  /** An open consent page stays open: nothing but a decision on it, its expiry or a restart
      removes a pending request, and a wrong or throttled secret does not either. */
  lemma {:induction false} OpenConsentStays(st: State, now: Time, act: Act, p: Id)
    requires Legal(st, now, act) && !act.DoRestart?
    requires p in st.pending && st.pending[p].expiresAt >= now && p in st.hist.used
    requires act.DoComplete? && act.request == p ==> act.approve && (act.limited || !act.secretOk)
    ensures p in Step(st, now, act).pending && Step(st, now, act).pending[p] == st.pending[p]
  {
    match act
    case DoRegister(limited, body, gone, id, fault) => RegisterKeepsPending(st, now, limited, body, gone, id, fault);
    case DoBegin(limited, q, id) => BeginKeepsOpen(st, now, limited, q, id, p);
    case DoComplete(request, approve, secretOk, limited, code, fault) =>
      CompleteKeepsOthers(st, now, request, approve, secretOk, limited, code, fault, p);
    case DoExchange(form, access, refresh, fault) => ExchangeKeepsPending(st, now, form, access, refresh, fault);
    case DoRefresh(form, access, refresh, fault) => RotateKeepsPending(st, now, form, access, refresh, fault);
    case DoRevoke(token, hint, fault) => RevokeKeepsPending(st, now, token, hint, fault);
  }

  lemma {:induction false} RegisterKeepsPending(st: State, now: Time, limited: bool, body: Registration, gone: set<Id>, id: Id, fault: Fault)
    ensures Register(st, now, limited, body, gone, id, fault).st.pending == st.pending
  {
  }

  lemma {:induction false} CompleteKeepsOthers(st: State, now: Time, request: Id, approve: bool, secretOk: bool, limited: bool, code: Id,
                            fault: Fault, p: Id)
    requires p in st.pending && st.pending[p].expiresAt >= now
    requires request == p ==> approve && (limited || !secretOk)
    ensures var next := Complete(st, now, request, approve, secretOk, limited, code, fault).st;
            p in next.pending && next.pending[p] == st.pending[p]
  {
  }

  lemma {:induction false} RevokeKeepsPending(st: State, now: Time, token: Id, hint: Hint, fault: Fault)
    ensures Revoke(st, now, token, hint, fault).st.pending == st.pending
  {
  }

  lemma {:induction false} ExchangeKeepsPending(st: State, now: Time, form: CodeForm, access: Id, refresh: Id, fault: Fault)
    ensures ExchangeCode(st, now, form, access, refresh, fault).st.pending == st.pending
  {
  }

  lemma {:induction false} RotateKeepsPending(st: State, now: Time, form: RefreshForm, access: Id, refresh: Id, fault: Fault)
    ensures RefreshTokens(st, now, form, access, refresh, fault).st.pending == st.pending
  {
  }
}
