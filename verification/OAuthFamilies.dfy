/**
 Rotation: of all the refresh tokens that go back to one authorization code, at most one is
 unrevoked, in memory and on disk alike, whatever saves fail and whenever the service restarts;
 and nothing is approved, exchanged or rotated except by the step that earns it.
 */
module OAuthFamilies {

  import opened Options
  import opened OAuth
  import opened OAuthStore
  import opened OAuthRuns
  import opened OAuthRegistered
  import opened OAuthProvenance

  /** At most one unrevoked token for each code. */
  ghost predicate OneLive(refresh: map<Id, Token>, lineage: map<Id, Origin>) {
    forall r, s ::
      (r in refresh && s in refresh && r in lineage && s in lineage
       && !refresh[r].revoked && !refresh[s].revoked && lineage[r].code == lineage[s].code)
      ==> r == s
  }

  ghost predicate OneLiveEach(st: State) {
    OneLive(st.refresh, st.hist.lineage) && OneLive(st.disk.refresh, st.hist.lineage)
  }

  lemma {:induction false} QuietKeepsOneLive(st: State, next: State)
    requires Quiet(st, next) && OneLiveEach(st)
    ensures OneLiveEach(next)
  {
  }

  lemma {:induction false} SaveOneLive(st: State, now: Time, fault: Fault)
    requires OneLiveEach(st)
    ensures OneLiveEach(Save(st, now, fault))
  {
    SaveIsQuiet(st, now, fault);
    QuietKeepsOneLive(st, Save(st, now, fault));
  }

  /** A new token keeps the rule if no unrevoked token shares its code. */
  lemma {:induction false} MintedOneLive(st: State, now: Time, origin: Origin, access: Id, refresh: Id)
    requires OneLiveEach(st) && refresh !in st.disk.refresh
    requires st.refresh.Keys <= st.hist.lineage.Keys && refresh !in st.hist.lineage
    requires forall r :: r in st.refresh && !st.refresh[r].revoked ==> st.hist.lineage[r].code != origin.code
    ensures OneLiveEach(Minted(st, now, origin, access, refresh))
  {
  }

  lemma {:induction false} CompleteOneLive(st: State, now: Time, request: Id, approve: bool, secretOk: bool, limited: bool, code: Id, fault: Fault)
    requires OneLiveEach(st)
    ensures OneLiveEach(Complete(st, now, request, approve, secretOk, limited, code, fault).st)
  {
    if request in st.pending {
      var approved := Approved(Popped(st, request), now, request, st.pending[request], code);
      assert OneLiveEach(approved);
      SaveOneLive(approved, now, fault);
    }
  }

  /** A code that is still outstanding has given no tokens yet. */
  lemma {:induction false} OutstandingCodeHasNoLine(st: State, code: Id)
    requires Sound(st) && code in st.codes
    ensures forall r :: r in st.refresh ==> r in st.hist.lineage && st.hist.lineage[r].code != code
  {
    forall r | r in st.refresh ensures r in st.hist.lineage && st.hist.lineage[r].code != code {
      assert OriginSound(r, st.hist.approvals, st.hist.exchanges, st.hist.lineage);
    }
  }

  lemma {:induction false} ExchangeOneLive(st: State, now: Time, form: CodeForm, access: Id, refresh: Id, fault: Fault)
    requires OneLiveEach(st) && Sound(st) && refresh !in st.hist.used
    requires form.code in st.codes && CodeError(st, now, form) == None
    ensures OneLiveEach(ExchangeCode(st, now, form, access, refresh, fault).st)
  {
    OutstandingCodeHasNoLine(st, form.code);
    var origin := Origin(form.code, None, 0, form.clientId, st.codes[form.code].resource, st.codes[form.code].scopes);
    MintedOneLive(Exchanged(st, now, form, refresh), now, origin, access, refresh);
    SaveOneLive(Minted(Exchanged(st, now, form, refresh), now, origin, access, refresh), now, fault);
  }

  /** Once the live token of a code is revoked, none is left. */
  lemma {:induction false} RevokedLeavesNone(st: State, token: Id)
    requires OneLiveEach(st) && token in st.refresh && token in st.hist.lineage && !st.refresh[token].revoked
    requires st.refresh.Keys <= st.hist.lineage.Keys
    ensures forall r :: r in RevokeRefresh(st, token).refresh && !RevokeRefresh(st, token).refresh[r].revoked ==>
              st.hist.lineage[r].code != st.hist.lineage[token].code
  {
  }

  lemma {:induction false} RotateMintOneLive(st: State, now: Time, form: RefreshForm, scopes: set<Scope>, access: Id, refresh: Id, fault: Fault)
    requires OneLiveEach(st) && Sound(st) && refresh !in st.hist.used
    requires form.token in st.refresh && !st.refresh[form.token].revoked
    ensures var origin := Rotated(st.hist, form.token, form.clientId, st.refresh[form.token].resource, scopes);
            OneLiveEach(Issue(Touched(RevokeRefresh(st, form.token), form.clientId, now), now, origin, access, refresh, fault).st)
  {
    var origin := Rotated(st.hist, form.token, form.clientId, st.refresh[form.token].resource, scopes);
    var touched := Touched(RevokeRefresh(st, form.token), form.clientId, now);
    RevokedLeavesNone(st, form.token);
    RevokeIsQuiet(st, form.token);
    QuietKeepsOneLive(st, RevokeRefresh(st, form.token));
    MintedOneLive(touched, now, origin, access, refresh);
    SaveOneLive(Minted(touched, now, origin, access, refresh), now, fault);
  }

  lemma {:induction false} RotateOneLive(st: State, now: Time, form: RefreshForm, access: Id, refresh: Id, fault: Fault)
    requires OneLiveEach(st) && Sound(st) && refresh !in st.hist.used
    requires RefreshError(st, now, form) == None
    ensures OneLiveEach(RefreshTokens(st, now, form, access, refresh, fault).st)
  {
    RotateCases(st, now, form, access, refresh, fault);
    RevokeIsQuiet(st, form.token);
    QuietKeepsOneLive(st, RevokeRefresh(st, form.token));
    var scopes := RotatedScopes(st.refresh[form.token].scopes, form.scope);
    if scopes.Some? { RotateMintOneLive(st, now, form, scopes.value, access, refresh, fault); }
  }

  lemma {:induction false} RevokedOneLive(st: State, token: Id, hint: Hint)
    requires OneLiveEach(st)
    ensures OneLiveEach(Revoked(st, token, hint))
  {
    RevokeIsQuiet(st, token);
    if token in st.access { RevokeIsQuiet(RevokeAccess(st, token), token); }
  }

  lemma {:induction false} RestartOneLive(st: State, now: Time, gone: set<Id>, fault: Fault)
    requires OneLiveEach(st) && Readable(st)
    ensures OneLiveEach(Restart(st, now, gone, fault))
  {
    RestartReads(st);
    var cleaned := RemoveClients(Loaded(st, st.disk), gone);
    CleanedIsQuiet(Loaded(st, st.disk), gone);
    QuietKeepsOneLive(Loaded(st, st.disk), cleaned);
    SaveOneLive(cleaned, now, fault);
  }

  lemma {:induction false} StepOneLive(st: State, now: Time, act: Act)
    requires OneLiveEach(st) && Sound(st) && Readable(st) && Legal(st, now, act)
    ensures OneLiveEach(Step(st, now, act))
  {
    match act
    case DoRegister(limited, body, gone, id, fault) =>
      RegisterIsQuiet(st, now, limited, body, gone, id, fault);
      QuietKeepsOneLive(st, Register(st, now, limited, body, gone, id, fault).st);
    case DoBegin(limited, q, id) =>
      BeginIsQuiet(st, now, limited, q, id);
      QuietKeepsOneLive(st, Begin(st, now, limited, q, id).st);
    case DoComplete(request, approve, secretOk, limited, code, fault) =>
      CompleteOneLive(st, now, request, approve, secretOk, limited, code, fault);
    case DoExchange(form, access, refresh, fault) =>
      if form.code in st.codes && CodeError(st, now, form) == None {
        ExchangeOneLive(st, now, form, access, refresh, fault);
      }
    case DoRefresh(form, access, refresh, fault) =>
      if RefreshError(st, now, form) == None { RotateOneLive(st, now, form, access, refresh, fault); }
    case DoRevoke(token, hint, fault) =>
      RevokedOneLive(st, token, hint);
      SaveOneLive(Revoked(st, token, hint), now, fault);
    case DoRestart(gone, fault) => RestartOneLive(st, now, gone, fault);
  }

  lemma {:induction false} RunOneLive(st: State, ticks: seq<Tick>)
    requires OneLiveEach(st) && Sound(st) && Readable(st) && Run(st, ticks)
    ensures OneLiveEach(End(st, ticks))
    decreases |ticks|
  {
    if ticks != [] {
      StepOneLive(st, ticks[0].now, ticks[0].act);
      StepSound(st, ticks[0].now, ticks[0].act);
      StepStaysReadable(st, ticks[0].now, ticks[0].act);
      RunOneLive(Step(st, ticks[0].now, ticks[0].act), ticks[1..]);
    }
  }

  /** In every reachable state at most one refresh token of each code is unrevoked, in memory
      and on disk. */
  lemma {:induction false} AlwaysOneLive(st: State)
    requires Reachable(st)
    ensures OneLiveEach(st)
  {
    var ticks :| Run(Opening(), ticks) && End(Opening(), ticks) == st;
    RunOneLive(Opening(), ticks);
  }
}
