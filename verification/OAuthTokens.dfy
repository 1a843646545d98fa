/**
 What the operations do to one token, in memory and in the file: none but a restart brings one
 back, an answer says whether the file was replaced, and what costs a live token its place.
 */
module OAuthTokens {

  import opened Options
  import opened OAuth
  import opened OAuthStore
  import opened OAuthRuns
  import opened OAuthRegistered
  import opened OAuthCleanup
  import opened OAuthProvenance
  import opened OAuthHistory

  // --------------------------------------------------------------------- one token

  ghost predicate LiveIn(tokens: map<Id, Token>, r: Id, now: Time) {
    r in tokens && !tokens[r].revoked && now <= tokens[r].expiresAt
  }

  /** A refresh token is good: its own client can rotate it now. */
  ghost predicate Good(st: State, r: Id) {
    LiveIn(st.refresh, r, st.clock)
  }

  lemma {:induction false} GoodMeans(st: State, r: Id)
    ensures Good(st, r) <==> exists form: RefreshForm :: form.token == r && RefreshError(st, st.clock, form) == None
  {
    if Good(st, r) {
      var form := RefreshForm(r, st.refresh[r].clientId, None, Absent);
      assert form.token == r && RefreshError(st, st.clock, form) == None;
    }
  }

  /** Between two tables a token has kept its term, and has not been unrevoked. */
  ghost predicate Ages(before: map<Id, Token>, after: map<Id, Token>, r: Id) {
    r in after ==>
      r in before && after[r].expiresAt == before[r].expiresAt && (before[r].revoked ==> after[r].revoked)
  }

  ghost predicate AgesBoth(st: State, next: State, r: Id) {
    Ages(st.refresh, next.refresh, r) && Ages(st.access, next.access, r)
  }

  lemma {:induction false} SaveAges(st: State, now: Time, fault: Fault, r: Id)
    ensures AgesBoth(st, Save(st, now, fault), r)
  {
  }

  lemma {:induction false} RegisterAges(st: State, now: Time, limited: bool, body: Registration, gone: set<Id>, id: Id, fault: Fault, r: Id)
    ensures AgesBoth(st, Register(st, now, limited, body, gone, id, fault).st, r)
  {
    RegisterCases(st, now, limited, body, gone, id, fault);
    SaveAges(WithClient(RemoveClients(st, gone), body, id, now), now, fault, r);
  }

  lemma {:induction false} CompleteAges(st: State, now: Time, request: Id, approve: bool, secretOk: bool, limited: bool, code: Id, fault: Fault, r: Id)
    ensures AgesBoth(st, Complete(st, now, request, approve, secretOk, limited, code, fault).st, r)
  {
    if request in st.pending { SaveAges(Approved(Popped(st, request), now, request, st.pending[request], code), now, fault, r); }
  }

  lemma {:induction false} IssueAges(st: State, now: Time, origin: Origin, access: Id, refresh: Id, fault: Fault, r: Id)
    requires r != access && r != refresh
    ensures AgesBoth(st, Issue(st, now, origin, access, refresh, fault).st, r)
  {
    SaveAges(Minted(st, now, origin, access, refresh), now, fault, r);
  }

  lemma {:induction false} ExchangeAges(st: State, now: Time, form: CodeForm, access: Id, refresh: Id, fault: Fault, r: Id)
    requires r != access && r != refresh
    ensures AgesBoth(st, ExchangeCode(st, now, form, access, refresh, fault).st, r)
  {
    if form.code in st.codes && CodeError(st, now, form) == None {
      var record := st.codes[form.code];
      IssueAges(Exchanged(st, now, form, refresh), now,
                Origin(form.code, None, 0, form.clientId, record.resource, record.scopes), access, refresh, fault, r);
    }
  }

  lemma {:induction false} RotateAges(st: State, now: Time, form: RefreshForm, access: Id, refresh: Id, fault: Fault, r: Id)
    requires r != access && r != refresh
    ensures AgesBoth(st, RefreshTokens(st, now, form, access, refresh, fault).st, r)
  {
    RotateCases(st, now, form, access, refresh, fault);
    if form.token in st.refresh && RotatedScopes(st.refresh[form.token].scopes, form.scope).Some? {
      var scopes := RotatedScopes(st.refresh[form.token].scopes, form.scope).value;
      IssueAges(Touched(RevokeRefresh(st, form.token), form.clientId, now), now,
                Rotated(st.hist, form.token, form.clientId, st.refresh[form.token].resource, scopes), access, refresh, fault, r);
    }
  }

  lemma {:induction false} RevokedAges(st: State, token: Id, hint: Hint, r: Id)
    ensures AgesBoth(st, Revoked(st, token, hint), r)
  {
    RevokedCases(st, token, hint);
  }

  lemma {:induction false} RevokeAges(st: State, now: Time, token: Id, hint: Hint, fault: Fault, r: Id)
    ensures AgesBoth(st, Revoke(st, now, token, hint, fault).st, r)
  {
    RevokedAges(st, token, hint, r);
    SaveAges(Revoked(st, token, hint), now, fault, r);
  }

  /** Every operation but a restart only ages a token whose name is not new. */
  lemma {:induction false} StepAges(st: State, now: Time, act: Act, r: Id)
    requires Legal(st, now, act) && !act.DoRestart? && r in st.hist.used
    ensures AgesBoth(st, Step(st, now, act), r)
  {
    match act
    case DoRegister(limited, body, gone, id, fault) => RegisterAges(st, now, limited, body, gone, id, fault, r);
    case DoBegin(limited, q, id) =>
    case DoComplete(request, approve, secretOk, limited, code, fault) =>
      CompleteAges(st, now, request, approve, secretOk, limited, code, fault, r);
    case DoExchange(form, access, refresh, fault) => ExchangeAges(st, now, form, access, refresh, fault, r);
    case DoRefresh(form, access, refresh, fault) => RotateAges(st, now, form, access, refresh, fault, r);
    case DoRevoke(token, hint, fault) => RevokeAges(st, now, token, hint, fault, r);
  }

  // ---------------------------------------------------------------------- the file

  /** An answer that is given only after a save was tried. */
  predicate Saves(reply: Reply) {
    reply.Registered? || reply.CodeIssued? || reply.Tokens? || reply.Done? || reply == Failed(ServerError)
  }

  /** The operation is no restart, tried to save, and the file was replaced. */
  ghost predicate Writes(st: State, now: Time, act: Act) {
    && !act.DoBegin? && !act.DoRestart?
    && act.fault != FailedBefore && Saves(Perform(st, now, act).reply)
  }

  lemma {:induction false} RegisterWrites(st: State, now: Time, limited: bool, body: Registration, gone: set<Id>, id: Id, fault: Fault)
    ensures var o := Register(st, now, limited, body, gone, id, fault);
            o.st.disk == if fault != FailedBefore && Saves(o.reply) then Disk(o.st.clients, o.st.refresh) else st.disk
  {
  }

  lemma {:induction false} CompleteWrites(st: State, now: Time, request: Id, approve: bool, secretOk: bool, limited: bool, code: Id, fault: Fault)
    ensures var o := Complete(st, now, request, approve, secretOk, limited, code, fault);
            o.st.disk == if fault != FailedBefore && Saves(o.reply) then Disk(o.st.clients, o.st.refresh) else st.disk
  {
  }

  lemma {:induction false} ExchangeWrites(st: State, now: Time, form: CodeForm, access: Id, refresh: Id, fault: Fault)
    ensures var o := ExchangeCode(st, now, form, access, refresh, fault);
            o.st.disk == if fault != FailedBefore && Saves(o.reply) then Disk(o.st.clients, o.st.refresh) else st.disk
  {
  }

  lemma {:induction false} RotateWrites(st: State, now: Time, form: RefreshForm, access: Id, refresh: Id, fault: Fault)
    ensures var o := RefreshTokens(st, now, form, access, refresh, fault);
            o.st.disk == if fault != FailedBefore && Saves(o.reply) then Disk(o.st.clients, o.st.refresh) else st.disk
  {
  }

  lemma {:induction false} RevokeWrites(st: State, now: Time, token: Id, hint: Hint, fault: Fault)
    ensures var o := Revoke(st, now, token, hint, fault);
            o.st.disk == if fault != FailedBefore then Disk(o.st.clients, o.st.refresh) else st.disk
  {
    RevokedKeepsTables(st, token, hint);
  }

  /** The file is memory as it was after the last write. */
  lemma {:induction false} StepWrites(st: State, now: Time, act: Act)
    requires !act.DoRestart?
    ensures var next := Step(st, now, act);
            next.disk == if Writes(st, now, act) then Disk(next.clients, next.refresh) else st.disk
  {
    match act
    case DoRegister(limited, body, gone, id, fault) => RegisterWrites(st, now, limited, body, gone, id, fault);
    case DoBegin(limited, q, id) => BeginCases(st, now, limited, q, id);
    case DoComplete(request, approve, secretOk, limited, code, fault) =>
      CompleteWrites(st, now, request, approve, secretOk, limited, code, fault);
    case DoExchange(form, access, refresh, fault) => ExchangeWrites(st, now, form, access, refresh, fault);
    case DoRefresh(form, access, refresh, fault) => RotateWrites(st, now, form, access, refresh, fault);
    case DoRevoke(token, hint, fault) => RevokeWrites(st, now, token, hint, fault);
  }

  // ------------------------------------------------------------------------ restart

  /** A restart that ends with the service running. */
  predicate ComesUp(act: Act) {
    act.DoRestart? && (act.gone == {} || act.fault == Saved)
  }

  lemma {:induction false} SaveKeepsLive(st: State, now: Time, fault: Fault, r: Id)
    ensures LiveIn(Save(st, now, fault).refresh, r, now) <==> LiveIn(st.refresh, r, now)
    ensures Save(st, now, fault).disk.refresh == if fault == FailedBefore then st.disk.refresh else Save(st, now, fault).refresh
  {
  }

  /** A cleanup takes no live token. */
  lemma {:induction false} CleaningKeepsLive(st: State, now: Time, gone: set<Id>, r: Id)
    requires gone <= Evictable(st, now)
    ensures LiveIn(RemoveClients(st, gone).refresh, r, now) <==> LiveIn(st.refresh, r, now)
  {
    if LiveIn(st.refresh, r, now) { assert LiveRefresh(st.refresh, st.refresh[r].clientId, now); }
  }

  lemma {:induction false} CleanedIsLive(cleaned: State, now: Time, gone: set<Id>, fault: Fault, r: Id, live: bool)
    requires LiveIn(cleaned.refresh, r, now) == live && LiveIn(cleaned.disk.refresh, r, now) == live
    ensures var next := if gone == {} then cleaned else if fault == Saved then Save(cleaned, now, fault) else Down(Save(cleaned, now, fault));
            && LiveIn(next.disk.refresh, r, now) == live
            && LiveIn(next.refresh, r, now) == (ComesUp(DoRestart(gone, fault)) && live)
  {
    SaveKeepsLive(cleaned, now, fault, r);
  }

  lemma {:induction false} RestartKeepsLive(st: State, now: Time, gone: set<Id>, fault: Fault, r: Id)
    requires Readable(st) && Legal(st, now, DoRestart(gone, fault))
    ensures LiveIn(Restart(st, now, gone, fault).disk.refresh, r, now) <==> LiveIn(st.disk.refresh, r, now)
    ensures LiveIn(Restart(st, now, gone, fault).refresh, r, now)
       <==> ComesUp(DoRestart(gone, fault)) && LiveIn(st.disk.refresh, r, now)
  {
    RestartReads(st);
    RestartIs(st, now, gone, fault);
    var loaded := Loaded(st, st.disk);
    CleaningKeepsLive(loaded, now, gone, r);
    CleanedIsLive(RemoveClients(loaded, gone), now, gone, fault, r, LiveIn(st.disk.refresh, r, now));
  }

  lemma {:induction false} RestartAges(st: State, now: Time, gone: set<Id>, fault: Fault, r: Id)
    requires Readable(st)
    ensures var next := Restart(st, now, gone, fault);
            && Ages(st.disk.refresh, next.refresh, r) && Ages(st.disk.refresh, next.disk.refresh, r) && next.access == map[]
  {
    RestartCases(st, now, gone, fault);
    SaveAges(RemoveClients(Loaded(st, st.disk), gone), now, fault, r);
  }

  // ------------------------------------------------------- names of the two kinds apart

  /** No name is an access token's and a refresh token's. */
  ghost predicate Apart(h: History) {
    h.twin.Keys !! h.lineage.Keys
  }

  lemma {:induction false} StepApart(st: State, now: Time, act: Act)
    requires Sound(st) && Legal(st, now, act) && Apart(st.hist)
    ensures Apart(Step(st, now, act).hist)
  {
    match act
    case DoRegister(limited, body, gone, id, fault) => RegisterIsQuiet(st, now, limited, body, gone, id, fault);
    case DoBegin(limited, q, id) => BeginIsQuiet(st, now, limited, q, id);
    case DoComplete(request, approve, secretOk, limited, code, fault) =>
      CompleteHistory(st, now, request, approve, secretOk, limited, code, fault);
    case DoExchange(form, access, refresh, fault) => ExchangeHistory(st, now, form, access, refresh, fault);
    case DoRefresh(form, access, refresh, fault) => RotateHistory(st, now, form, access, refresh, fault);
    case DoRevoke(token, hint, fault) => RevokeHistory(st, now, token, hint, fault);
    case DoRestart(gone, fault) => RestartHistory(st, now, gone, fault);
  }

  // ------------------------------------------------------------------ revoked, rotated

  lemma {:induction false} RevokeKills(st: State, now: Time, token: Id, hint: Hint, fault: Fault)
    requires token !in st.access || token !in st.refresh
    ensures var next := Step(st, now, DoRevoke(token, hint, fault));
            && !LiveIn(next.refresh, token, now) && !LiveIn(next.access, token, now)
  {
    RevokedIsMarked(st, token, hint);
    SaveAges(Revoked(st, token, hint), now, fault, token);
  }

  lemma {:induction false} RevokedIsMarked(st: State, token: Id, hint: Hint)
    requires token !in st.access || token !in st.refresh
    ensures var revoked := Revoked(st, token, hint);
            && (token in revoked.access ==> revoked.access[token].revoked)
            && (token in revoked.refresh ==> revoked.refresh[token].revoked)
  {
    if token in st.access { assert token in RevokeAccess(st, token).access; }
  }

  lemma {:induction false} RotateKills(st: State, now: Time, form: RefreshForm, access: Id, refresh: Id, fault: Fault)
    requires RefreshError(st, now, form) == None && refresh != form.token
    ensures !LiveIn(RefreshTokens(st, now, form, access, refresh, fault).st.refresh, form.token, now)
    ensures (RefreshTokens(st, now, form, access, refresh, fault).reply == Failed(InvalidScope)
             <==> RotatedScopes(st.refresh[form.token].scopes, form.scope) == None)
  {
    var scopes := RotatedScopes(st.refresh[form.token].scopes, form.scope);
    if scopes.Some? {
      var minted := Minted(Touched(RevokeRefresh(st, form.token), form.clientId, now), now,
                           Rotated(st.hist, form.token, form.clientId, st.refresh[form.token].resource, scopes.value), access, refresh);
      assert minted.refresh[form.token].revoked;
      SaveAges(minted, now, fault, form.token);
    }
  }

  lemma {:induction false} RotateReplies(st: State, now: Time, form: RefreshForm, access: Id, refresh: Id, fault: Fault)
    requires RefreshError(st, now, form) == None
    ensures var reply := RefreshTokens(st, now, form, access, refresh, fault).reply;
            Saves(reply) <==> reply != Failed(InvalidScope)
  {
  }

  // ------------------------------------------------------------------- what is not lost

  /** The file holds the token as it is, and so does memory while the service runs. */
  ghost predicate Kept(st: State, r: Id, t: Token) {
    && r in st.disk.refresh && st.disk.refresh[r] == t
    && (st.up ==> r in st.refresh && st.refresh[r] == t)
  }

  /** The operation revokes the token or tries to rotate it. */
  predicate Spends(act: Act, r: Id) {
    (act.DoRevoke? && act.token == r) || (act.DoRefresh? && act.rotate.token == r)
  }

  ghost predicate SameIn(before: map<Id, Token>, after: map<Id, Token>, r: Id) {
    r in before && r in after && after[r] == before[r]
  }

  lemma {:induction false} SaveKeeps(st: State, now: Time, fault: Fault, r: Id)
    requires LiveIn(st.refresh, r, now)
    ensures SameIn(st.refresh, Save(st, now, fault).refresh, r)
  {
  }

  lemma {:induction false} CleaningKeeps(st: State, now: Time, gone: set<Id>, r: Id)
    requires gone <= Evictable(st, now) && LiveIn(st.refresh, r, now)
    ensures SameIn(st.refresh, RemoveClients(st, gone).refresh, r)
  {
    assert LiveRefresh(st.refresh, st.refresh[r].clientId, now);
  }

  lemma {:induction false} RegisterKeeps(st: State, now: Time, limited: bool, body: Registration, gone: set<Id>, id: Id, fault: Fault, r: Id)
    requires !limited ==> gone <= Evictable(st, now)
    requires LiveIn(st.refresh, r, now)
    ensures SameIn(st.refresh, Register(st, now, limited, body, gone, id, fault).st.refresh, r)
  {
    RegisterCases(st, now, limited, body, gone, id, fault);
    if !limited {
      CleaningKeeps(st, now, gone, r);
      SaveKeeps(WithClient(RemoveClients(st, gone), body, id, now), now, fault, r);
    }
  }

  lemma {:induction false} CompleteKeeps(st: State, now: Time, request: Id, approve: bool, secretOk: bool, limited: bool, code: Id, fault: Fault, r: Id)
    requires LiveIn(st.refresh, r, now)
    ensures SameIn(st.refresh, Complete(st, now, request, approve, secretOk, limited, code, fault).st.refresh, r)
  {
    if request in st.pending { SaveKeeps(Approved(Popped(st, request), now, request, st.pending[request], code), now, fault, r); }
  }

  lemma {:induction false} IssueKeeps(st: State, now: Time, origin: Origin, access: Id, refresh: Id, fault: Fault, r: Id)
    requires LiveIn(st.refresh, r, now) && r != refresh
    ensures SameIn(st.refresh, Issue(st, now, origin, access, refresh, fault).st.refresh, r)
  {
    SaveKeeps(Minted(st, now, origin, access, refresh), now, fault, r);
  }

  lemma {:induction false} ExchangeKeeps(st: State, now: Time, form: CodeForm, access: Id, refresh: Id, fault: Fault, r: Id)
    requires LiveIn(st.refresh, r, now) && r != refresh
    ensures SameIn(st.refresh, ExchangeCode(st, now, form, access, refresh, fault).st.refresh, r)
  {
    if form.code in st.codes && CodeError(st, now, form) == None {
      var record := st.codes[form.code];
      IssueKeeps(Exchanged(st, now, form, refresh), now,
                 Origin(form.code, None, 0, form.clientId, record.resource, record.scopes), access, refresh, fault, r);
    }
  }

  lemma {:induction false} RotateKeeps(st: State, now: Time, form: RefreshForm, access: Id, refresh: Id, fault: Fault, r: Id)
    requires LiveIn(st.refresh, r, now) && r != refresh && r != form.token
    ensures SameIn(st.refresh, RefreshTokens(st, now, form, access, refresh, fault).st.refresh, r)
  {
    RotateCases(st, now, form, access, refresh, fault);
    if form.token in st.refresh && RotatedScopes(st.refresh[form.token].scopes, form.scope).Some? {
      var scopes := RotatedScopes(st.refresh[form.token].scopes, form.scope).value;
      IssueKeeps(Touched(RevokeRefresh(st, form.token), form.clientId, now), now,
                 Rotated(st.hist, form.token, form.clientId, st.refresh[form.token].resource, scopes), access, refresh, fault, r);
    }
  }

  lemma {:induction false} RevokeKeeps(st: State, now: Time, token: Id, hint: Hint, fault: Fault, r: Id)
    requires LiveIn(st.refresh, r, now) && r != token
    ensures SameIn(st.refresh, Revoke(st, now, token, hint, fault).st.refresh, r)
  {
    var revoked := Revoked(st, token, hint);
    RevokedCases(st, token, hint);
    assert SameIn(st.refresh, revoked.refresh, r);
    SaveKeeps(revoked, now, fault, r);
  }

  lemma {:induction false} StepKeeps(st: State, now: Time, act: Act, r: Id)
    requires Legal(st, now, act) && !act.DoRestart? && !Spends(act, r)
    requires r in st.hist.used && LiveIn(st.refresh, r, now)
    ensures SameIn(st.refresh, Step(st, now, act).refresh, r)
  {
    match act
    case DoRegister(limited, body, gone, id, fault) => RegisterKeeps(st, now, limited, body, gone, id, fault, r);
    case DoBegin(limited, q, id) =>
    case DoComplete(request, approve, secretOk, limited, code, fault) =>
      CompleteKeeps(st, now, request, approve, secretOk, limited, code, fault, r);
    case DoExchange(form, access, refresh, fault) => ExchangeKeeps(st, now, form, access, refresh, fault, r);
    case DoRefresh(form, access, refresh, fault) => RotateKeeps(st, now, form, access, refresh, fault, r);
    case DoRevoke(token, hint, fault) => RevokeKeeps(st, now, token, hint, fault, r);
  }

  lemma {:induction false} RestartKeeps(st: State, now: Time, gone: set<Id>, fault: Fault, r: Id, t: Token)
    requires Readable(st) && Legal(st, now, DoRestart(gone, fault))
    requires r in st.disk.refresh && st.disk.refresh[r] == t && !t.revoked && now <= t.expiresAt
    ensures Kept(Restart(st, now, gone, fault), r, t)
  {
    RestartReads(st);
    var cleaned := RemoveClients(Loaded(st, st.disk), gone);
    CleaningKeeps(Loaded(st, st.disk), now, gone, r);
    CleanedKept(st, cleaned, now, fault, r, t);
    RestartCases(st, now, gone, fault);
  }

  lemma {:induction false} CleanedKept(st: State, cleaned: State, now: Time, fault: Fault, r: Id, t: Token)
    requires r in st.disk.refresh && st.disk.refresh[r] == t && !t.revoked && now <= t.expiresAt
    requires cleaned.disk == st.disk && r in cleaned.refresh && cleaned.refresh[r] == t
    ensures Kept(cleaned, r, t) && Kept(Save(cleaned, now, fault), r, t) && Kept(Down(Save(cleaned, now, fault)), r, t)
  {
    SaveKeeps(cleaned, now, fault, r);
    SaveKeepsLive(cleaned, now, fault, r);
  }

  lemma {:induction false} BeginUp(st: State, now: Time, limited: bool, q: AuthorizeRequest, id: Id)
    ensures Begin(st, now, limited, q, id).st.up == st.up
  {
  }

  lemma {:induction false} RevokeUp(st: State, now: Time, token: Id, hint: Hint, fault: Fault)
    ensures Revoke(st, now, token, hint, fault).st.up == st.up
  {
    assert Revoked(st, token, hint).up == st.up;
  }

  lemma {:induction false} CompleteUp(st: State, now: Time, request: Id, approve: bool, secretOk: bool, limited: bool, code: Id, fault: Fault)
    ensures Complete(st, now, request, approve, secretOk, limited, code, fault).st.up == st.up
  {
  }

  lemma {:induction false} ExchangeUp(st: State, now: Time, form: CodeForm, access: Id, refresh: Id, fault: Fault)
    ensures ExchangeCode(st, now, form, access, refresh, fault).st.up == st.up
  {
  }

  lemma {:induction false} RotateUp(st: State, now: Time, form: RefreshForm, access: Id, refresh: Id, fault: Fault)
    ensures RefreshTokens(st, now, form, access, refresh, fault).st.up == st.up
  {
  }

  lemma {:induction false} UpStaysUp(st: State, now: Time, act: Act)
    requires Legal(st, now, act) && !act.DoRestart?
    ensures st.up && Step(st, now, act).up
  {
    match act
    case DoRegister(limited, body, gone, id, fault) => RegisterCases(st, now, limited, body, gone, id, fault);
    case DoBegin(limited, q, id) => BeginUp(st, now, limited, q, id);
    case DoComplete(request, approve, secretOk, limited, code, fault) =>
      CompleteUp(st, now, request, approve, secretOk, limited, code, fault);
    case DoExchange(form, access, refresh, fault) => ExchangeUp(st, now, form, access, refresh, fault);
    case DoRefresh(form, access, refresh, fault) => RotateUp(st, now, form, access, refresh, fault);
    case DoRevoke(token, hint, fault) => RevokeUp(st, now, token, hint, fault);
  }

  lemma {:induction false} StepKept(st: State, now: Time, act: Act, r: Id, t: Token)
    requires Legal(st, now, act) && Readable(st) && r in st.hist.used && !Spends(act, r)
    requires Kept(st, r, t) && !t.revoked && now <= t.expiresAt
    ensures Kept(Step(st, now, act), r, t)
  {
    if act.DoRestart? {
      RestartKeeps(st, now, act.gone, act.fault, r, t);
    } else {
      UpStaysUp(st, now, act);
      StepKeeps(st, now, act, r);
      StepWrites(st, now, act);
    }
  }

  /** Every new refresh token whose save replaced the file is such a token. */
  lemma {:induction false} IssuedIsKept(st: State, now: Time, origin: Origin, access: Id, refresh: Id, fault: Fault)
    requires fault != FailedBefore
    ensures Kept(Issue(st, now, origin, access, refresh, fault).st, refresh,
                 Token(origin.clientId, origin.resource, origin.scopes, now + REFRESH_TTL, false))
  {
    SaveKeeps(Minted(st, now, origin, access, refresh), now, fault, refresh);
  }
}
