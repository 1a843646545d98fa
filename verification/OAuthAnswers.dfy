/**
 What every answer of the service means: for each request, exactly when each answer is given, and
 what is then different, in terms of the tables and the request alone.
 */
module OAuthAnswers {

  import opened Options
  import opened OAuth
  import opened OAuthStore
  import opened OAuthRuns
  import opened OAuthCleanup
  import opened OAuthTokens

  /** A redirect that may be registered. */
  predicate SafeRedirect(u: Uri) {
    && u.fragment == ""
    && (|| (u.scheme == "https" && u.netloc != "")
        || (u.scheme == "http" && (u.hostname == "localhost" || u.hostname == "127.0.0.1" || u.hostname == "::1")))
  }

  // -------------------------------------------------------------------- registration

  ghost predicate RedirectsOk(body: Registration) {
    body.redirectUris != [] && forall u :: u in body.redirectUris ==> SafeRedirect(u)
  }

  /** Public clients only, with the two grants and the one response type there are. */
  ghost predicate MetadataOk(body: Registration) {
    && body.authMethod in {None, Some(NoAuth)}
    && (forall g :: g in body.grantTypes ==> g == AuthorizationCode || g == RefreshGrant)
    && (forall r :: r in body.responseTypes ==> r == CodeResponse)
  }

  lemma {:induction false} RegistrationErrorMeans(body: Registration)
    ensures RegistrationError(body) == None <==> RedirectsOk(body) && MetadataOk(body)
    ensures RegistrationError(body) == Some(InvalidRedirectUri) <==> !RedirectsOk(body)
    ensures RegistrationError(body) == Some(InvalidMetadata) <==> RedirectsOk(body) && !MetadataOk(body)
  {
    if exists i :: 0 <= i < |body.redirectUris| && !RedirectSafe(body.redirectUris[i]) {
      var i :| 0 <= i < |body.redirectUris| && !RedirectSafe(body.redirectUris[i]);
      assert !SafeRedirect(body.redirectUris[i]) && body.redirectUris[i] in body.redirectUris;
    } else {
      forall u | u in body.redirectUris ensures SafeRedirect(u) {
        var i :| 0 <= i < |body.redirectUris| && body.redirectUris[i] == u;
        assert RedirectSafe(body.redirectUris[i]);
      }
    }
    if exists i :: 0 <= i < |body.grantTypes| && body.grantTypes[i].OtherGrant? {
      var i :| 0 <= i < |body.grantTypes| && body.grantTypes[i].OtherGrant?;
      assert body.grantTypes[i] in body.grantTypes;
    }
    if exists i :: 0 <= i < |body.responseTypes| && body.responseTypes[i] != CodeResponse {
      var i :| 0 <= i < |body.responseTypes| && body.responseTypes[i] != CodeResponse;
      assert body.responseTypes[i] in body.responseTypes;
    }
    assert OrElse(body.authMethod, NoAuth) == NoAuth <==> body.authMethod in {None, Some(NoAuth)};
  }

  /** There is room for one more client once the idle ones are cleaned away. */
  ghost predicate HasRoom(st: State, now: Time, gone: set<Id>) {
    |RemoveClients(st, gone).clients| < 64 && |Inactive(RemoveClients(st, gone), now)| < 16
  }

  /** When each answer to a registration is given, and what the new client is. */
  lemma {:induction false} RegisterMeans(st: State, now: Time, limited: bool, body: Registration, gone: set<Id>, id: Id, fault: Fault)
    ensures var o, st1 := Register(st, now, limited, body, gone, id, fault), RemoveClients(st, gone);
            && (o.reply == Failed(RateLimited) <==> limited)
            && (o.reply == Failed(LimitReached) <==> !limited && !HasRoom(st, now, gone))
            && (o.reply == Failed(InvalidRedirectUri) <==> !limited && HasRoom(st, now, gone) && !RedirectsOk(body))
            && (o.reply == Failed(InvalidMetadata) <==> !limited && HasRoom(st, now, gone) && RedirectsOk(body) && !MetadataOk(body))
            && (o.reply == Registered(id) <==> !limited && HasRoom(st, now, gone) && RedirectsOk(body) && MetadataOk(body) && fault == Saved)
            && (o.reply == Failed(ServerError) <==> !limited && HasRoom(st, now, gone) && RedirectsOk(body) && MetadataOk(body) && fault != Saved)
            && (if limited then o.st == st
                else if o.reply == Registered(id) || o.reply == Failed(ServerError) then
                  o.st.clients == st1.clients[id := Client(id, body.redirectUris, body.name, NoAuth,
                    if body.grantTypes == [] then [AuthorizationCode, RefreshGrant] else body.grantTypes,
                    [CodeResponse], now.Floor, now)]
                else o.st == st1)
  {
    RegistrationErrorMeans(body);
  }

  // ------------------------------------------------------------------- authorization

  /** The client is registered and the redirect is one of its own. */
  ghost predicate Known(st: State, q: AuthorizeRequest) {
    q.clientId in st.clients && q.redirectUri in st.clients[q.clientId].redirectUris
  }

  ghost predicate Pkce(q: AuthorizeRequest) {
    q.challengeMethod == MethodS256 && q.challenge != None
  }

  /** Nothing is asked for beyond the one scope there is. */
  ghost predicate ScopesOk(scope: ScopeParam) {
    scope.Names? ==> forall s :: s in scope.scopes ==> s == McpProxy
  }

  /** Every test of an authorization request. */
  ghost predicate ProperRequest(st: State, q: AuthorizeRequest) {
    Known(st, q) && q.responseType == CodeResponse && Pkce(q) && q.resource == Relay && ScopesOk(q.scope)
  }

  /** Fewer than four open pages of this client, and fewer than 32 in all. */
  ghost predicate RoomForPage(st: State, now: Time, c: Id) {
    && |set p | p in st.pending && st.pending[p].expiresAt >= now && st.pending[p].clientId == c| < 4
    && |set p | p in st.pending && st.pending[p].expiresAt >= now| < 32
  }

  lemma {:induction false} RoomMeans(st: State, now: Time, c: Id)
    ensures |PendingOf(Unexpired(st.pending, now), c)| == |set p | p in st.pending && st.pending[p].expiresAt >= now && st.pending[p].clientId == c|
    ensures |Unexpired(st.pending, now)| == |set p | p in st.pending && st.pending[p].expiresAt >= now|
  {
    assert PendingOf(Unexpired(st.pending, now), c)
        == set p | p in st.pending && st.pending[p].expiresAt >= now && st.pending[p].clientId == c;
    assert Unexpired(st.pending, now).Keys == set p | p in st.pending && st.pending[p].expiresAt >= now;
  }

  lemma {:induction false} ScopesMean(scope: ScopeParam)
    ensures ParseScopes(scope).Some? <==> ScopesOk(scope)
    ensures ScopesOk(scope) ==> ParseScopes(scope) == Some({McpProxy})
  {
    if scope.Names? && scope.scopes != {} && ScopesOk(scope) {
      var s :| s in scope.scopes;
      assert scope.scopes == {McpProxy};
    }
  }

  lemma {:induction false} RequestErrorMeans(st: State, q: AuthorizeRequest)
    ensures RequestError(st, q) == None <==> ProperRequest(st, q)
    ensures RequestError(st, q) == Some(Failed(UnauthorizedClient)) <==> q.clientId !in st.clients
    ensures RequestError(st, q) == Some(Failed(InvalidRequest)) <==> q.clientId in st.clients && !Known(st, q)
    ensures RequestError(st, q) == Some(ErrorRedirect(UnsupportedResponseType)) <==> Known(st, q) && q.responseType != CodeResponse
    ensures RequestError(st, q) == Some(ErrorRedirect(InvalidRequest)) <==> Known(st, q) && q.responseType == CodeResponse && !Pkce(q)
    ensures RequestError(st, q) == Some(ErrorRedirect(InvalidTarget)) <==>
              Known(st, q) && q.responseType == CodeResponse && Pkce(q) && q.resource != Relay
    ensures RequestError(st, q) == Some(ErrorRedirect(InvalidScope)) <==>
              Known(st, q) && q.responseType == CodeResponse && Pkce(q) && q.resource == Relay && !ScopesOk(q.scope)
  {
    ScopesMean(q.scope);
  }

  /** Consent is asked for exactly for a proper request of a registered client with one of its own
      redirects, unthrottled and with room for it; and when each refusal is given. */
  lemma {:induction false} BeginMeans(st: State, now: Time, limited: bool, q: AuthorizeRequest, id: Id)
    ensures var r := Begin(st, now, limited, q, id).reply;
            && (r.Consent? <==> ProperRequest(st, q) && !limited && RoomForPage(st, now, q.clientId))
            && (r.Consent? ==> r.request == id)
            && (r == Failed(UnauthorizedClient) <==> q.clientId !in st.clients)
            && (r == Failed(InvalidRequest) <==> q.clientId in st.clients && !Known(st, q))
            && (r == ErrorRedirect(UnsupportedResponseType) <==> Known(st, q) && q.responseType != CodeResponse)
            && (r == ErrorRedirect(InvalidRequest) <==> Known(st, q) && q.responseType == CodeResponse && !Pkce(q))
            && (r == ErrorRedirect(InvalidTarget) <==> Known(st, q) && q.responseType == CodeResponse && Pkce(q) && q.resource != Relay)
            && (r == ErrorRedirect(InvalidScope) <==>
                  Known(st, q) && q.responseType == CodeResponse && Pkce(q) && q.resource == Relay && !ScopesOk(q.scope))
            && (r == Failed(RateLimited) <==> ProperRequest(st, q) && limited)
            && (r == Failed(CapacityExceeded) <==> ProperRequest(st, q) && !limited && !RoomForPage(st, now, q.clientId))
  {
    RequestErrorMeans(st, q);
    RoomMeans(st, now, q.clientId);
  }

  /** What a request leaves behind: the page it asks for, good for a minute, beside those that have
      not expired; a refusal for room sweeps the expired ones, any other changes nothing. */
  lemma {:induction false} BeginLeaves(st: State, now: Time, limited: bool, q: AuthorizeRequest, id: Id)
    ensures var o := Begin(st, now, limited, q, id);
            && (!o.reply.Consent? && o.reply != Failed(CapacityExceeded) ==> o.st == st)
            && (o.reply == Failed(CapacityExceeded) ==> o.st == st.(pending := Unexpired(st.pending, now)))
            && (o.reply.Consent? ==>
                  && ProperRequest(st, q)
                  && o.st.pending == Unexpired(st.pending, now)[id :=
                       Pending(q.clientId, q.redirectUri, q.echo, q.challenge.value, MethodS256, Relay, {McpProxy}, now + 60.0)])
            && o.st.clients == st.clients && o.st.codes == st.codes && o.st.access == st.access && o.st.refresh == st.refresh
            && o.st.disk == st.disk
  {
    RequestErrorMeans(st, q);
    ScopesMean(q.scope);
  }

  lemma {:induction false} UnexpiredMeans(pending: map<Id, Pending>, now: Time, p: Id)
    ensures p in Unexpired(pending, now) <==> p in pending && now <= pending[p].expiresAt
    ensures p in Unexpired(pending, now) ==> Unexpired(pending, now)[p] == pending[p]
  {
  }

  // ------------------------------------------------------------------- code exchange

  /** The code is outstanding, in time, and shown by its own client. */
  ghost predicate OwnCode(st: State, now: Time, form: CodeForm) {
    form.code in st.codes && now <= st.codes[form.code].expiresAt && form.clientId == st.codes[form.code].clientId
  }

  /** With the redirect it was issued for. */
  ghost predicate OwnRedirect(st: State, form: CodeForm)
    requires form.code in st.codes
  {
    form.redirectUri == st.codes[form.code].redirectUri
  }

  /** With the verifier of its challenge. */
  ghost predicate Verified(st: State, form: CodeForm)
    requires form.code in st.codes
  {
    && st.codes[form.code].challengeMethod == MethodS256
    && form.verifier.Some? && st.codes[form.code].challenge == S256(form.verifier.value)
  }

  /** When each answer to a code exchange is given; whatever it is, the code is used up. */
  lemma {:induction false} ExchangeMeans(st: State, now: Time, form: CodeForm, access: Id, refresh: Id, fault: Fault)
    ensures var o := ExchangeCode(st, now, form, access, refresh, fault);
            var here := OwnCode(st, now, form) && form.clientId in st.clients && OwnRedirect(st, form);
            var target := here && form.resource == st.codes[form.code].resource && form.resource == Relay;
            && (o.reply.Tokens? <==> target && Verified(st, form) && fault == Saved)
            && (o.reply == Failed(ServerError) <==> target && Verified(st, form) && fault != Saved)
            && (o.reply == Failed(UnauthorizedClient) <==> OwnCode(st, now, form) && form.clientId !in st.clients)
            && (o.reply == Failed(InvalidTarget) <==> here && !target)
            && (o.reply == Failed(InvalidGrant) <==>
                  || !OwnCode(st, now, form) || (form.clientId in st.clients && !OwnRedirect(st, form)) || (target && !Verified(st, form)))
            && form.code !in o.st.codes
            && (!o.reply.Tokens? && o.reply != Failed(ServerError) ==> o.st == st.(codes := st.codes - {form.code}))
  {
    if form.code !in st.codes { assert st.codes - {form.code} == st.codes; }
  }

  /** What an exchange gives: an access token for an hour and a refresh token for thirty days, of the
      client, resource and scopes of the code. */
  lemma {:induction false} ExchangeGives(st: State, now: Time, form: CodeForm, access: Id, refresh: Id, fault: Fault)
    requires var r := ExchangeCode(st, now, form, access, refresh, fault).reply; r.Tokens? || r == Failed(ServerError)
    ensures form.code in st.codes
    ensures var o, code := ExchangeCode(st, now, form, access, refresh, fault), st.codes[form.code];
            && (fault == Saved ==> o.reply == Tokens(access, refresh, code.scopes))
            && form.clientId in st.clients
            && o.st.clients == st.clients[form.clientId := st.clients[form.clientId].(lastUsedAt := now)]
            && o.st.access == st.access[access := Token(code.clientId, Relay, code.scopes, now + 3600.0, false)]
            && refresh in o.st.refresh && o.st.refresh[refresh] == Token(code.clientId, Relay, code.scopes, now + 2592000.0, false)
            && (fault != FailedBefore ==> o.st.disk == Disk(o.st.clients, o.st.refresh))
  {
  }

  // ------------------------------------------------------------------------ rotation

  /** The token is there, unrevoked and in time, and shown by its own client. */
  ghost predicate OwnToken(st: State, now: Time, form: RefreshForm) {
    && form.token in st.refresh && !st.refresh[form.token].revoked && now <= st.refresh[form.token].expiresAt
    && form.clientId == st.refresh[form.token].clientId
  }

  ghost predicate OwnTarget(st: State, form: RefreshForm)
    requires form.token in st.refresh
  {
    form.resource == None || (form.resource == Some(Relay) && st.refresh[form.token].resource == Relay)
  }

  /** The scopes asked for: without the parameter, what the token has; with a blank or empty one, all
      there is; and otherwise those it names. */
  ghost function AskedFor(had: set<Scope>, scope: ScopeParam): set<Scope> {
    if scope == Absent then had
    else if scope.Names? && scope.scopes != {} then scope.scopes
    else {McpProxy}
  }

  ghost predicate Grantable(had: set<Scope>, scope: ScopeParam) {
    scope != Absent ==> AskedFor(had, scope) <= had && AskedFor(had, scope) <= {McpProxy}
  }

  lemma {:induction false} RotatedScopesMean(had: set<Scope>, scope: ScopeParam)
    ensures RotatedScopes(had, scope) == if Grantable(had, scope) then Some(AskedFor(had, scope)) else None
  {
  }

  /** When each answer to a rotation is given, and with which scopes. */
  lemma {:induction false} RotationMeans(st: State, now: Time, form: RefreshForm, access: Id, refresh: Id, fault: Fault)
    ensures var o := RefreshTokens(st, now, form, access, refresh, fault);
            var here := OwnToken(st, now, form) && OwnTarget(st, form);
            var granted := here && Grantable(st.refresh[form.token].scopes, form.scope);
            && (o.reply.Tokens? <==> granted && fault == Saved)
            && (granted && fault == Saved ==> o.reply == Tokens(access, refresh, AskedFor(st.refresh[form.token].scopes, form.scope)))
            && (o.reply == Failed(ServerError) <==> granted && fault != Saved)
            && (o.reply == Failed(InvalidScope) <==> here && !granted)
            && (o.reply == Failed(InvalidTarget) <==> OwnToken(st, now, form) && !OwnTarget(st, form))
            && (o.reply == Failed(InvalidGrant) <==> !OwnToken(st, now, form))
            && (!here ==> o.st == st)
            && (here && !granted ==> o.st == st.(refresh := st.refresh[form.token := st.refresh[form.token].(revoked := true)]))
  {
    if form.token in st.refresh { RotatedScopesMean(st.refresh[form.token].scopes, form.scope); }
  }

  /** What a rotation gives: a new pair of the same client and resource, with the scopes asked for,
      and the old token revoked. */
  lemma {:induction false} RotationGives(st: State, now: Time, form: RefreshForm, access: Id, refresh: Id, fault: Fault)
    requires var r := RefreshTokens(st, now, form, access, refresh, fault).reply; r.Tokens? || r == Failed(ServerError)
    requires refresh != form.token
    ensures form.token in st.refresh
    ensures var o, was := RefreshTokens(st, now, form, access, refresh, fault), st.refresh[form.token];
            var scopes := AskedFor(was.scopes, form.scope);
            && (was.clientId in st.clients ==> o.st.clients == st.clients[was.clientId := st.clients[was.clientId].(lastUsedAt := now)])
            && o.st.access == st.access[access := Token(was.clientId, was.resource, scopes, now + 3600.0, false)]
            && refresh in o.st.refresh && o.st.refresh[refresh] == Token(was.clientId, was.resource, scopes, now + 2592000.0, false)
            && (form.token in o.st.refresh ==> o.st.refresh[form.token] == was.(revoked := true))
            && (fault != FailedBefore ==> o.st.disk == Disk(o.st.clients, o.st.refresh))
  {
    RotationMeans(st, now, form, access, refresh, fault);
    RotatedScopesMean(st.refresh[form.token].scopes, form.scope);
  }

  // ---------------------------------------------------------------------- revocation

  /** What a revocation does: the token shown is revoked wherever its hint, or a wrong hint, finds it,
      no other token is touched, and only a failed save is an error. */
  lemma {:induction false} RevocationMeans(st: State, now: Time, token: Id, hint: Hint, fault: Fault, t: Id)
    requires token !in st.access || token !in st.refresh
    ensures var o := Revoke(st, now, token, hint, fault);
            && o.reply == (if fault == Saved then Done else Failed(ServerError))
            && o.st.access.Keys == st.access.Keys
            && (t in st.access ==> o.st.access[t] == st.access[t].(revoked := st.access[t].revoked || t == token))
            && (t in o.st.refresh ==> t in st.refresh && o.st.refresh[t] == st.refresh[t].(revoked := st.refresh[t].revoked || t == token))
            && (t in st.refresh && now <= st.refresh[t].expiresAt ==> t in o.st.refresh)
            && (fault != FailedBefore ==> o.st.disk == Disk(o.st.clients, o.st.refresh))
            && o.st.clients == st.clients && o.st.codes == st.codes && o.st.pending == st.pending
  {
    RevokedMeans(st, token, hint, t);
    RevokeWrites(st, now, token, hint, fault);
    var revoked := Revoked(st, token, hint);
    assert t in Save(revoked, now, fault).refresh ==> Save(revoked, now, fault).refresh[t] == revoked.refresh[t];
  }

  lemma {:induction false} RevokedMeans(st: State, token: Id, hint: Hint, t: Id)
    requires token !in st.access || token !in st.refresh
    ensures var next := Revoked(st, token, hint);
            && next.access.Keys == st.access.Keys && next.refresh.Keys == st.refresh.Keys
            && (t in st.access ==> next.access[t] == st.access[t].(revoked := st.access[t].revoked || t == token))
            && (t in st.refresh ==> next.refresh[t] == st.refresh[t].(revoked := st.refresh[t].revoked || t == token))
            && next.clients == st.clients && next.codes == st.codes && next.pending == st.pending
  {
  }

  // ---------------------------------------------------------------------- validation

  ghost predicate GoodBearer(st: State, now: Time, token: Id) {
    && token in st.access && !st.access[token].revoked && now <= st.access[token].expiresAt && st.access[token].resource == Relay
  }

  /** When a bearer token is accepted, and when each refusal is given; with no scopes required it
      must have the one there is. */
  lemma {:induction false} ValidationMeans(st: State, now: Time, token: Option<Id>, required: set<Scope>)
    ensures var r := Validate(st, now, token, required);
            var good := token.Some? && GoodBearer(st, now, token.value);
            var enough := good && (if required == {} then McpProxy in st.access[token.value].scopes else required <= st.access[token.value].scopes);
            && (r.Accepted? <==> enough)
            && (enough ==> r == Accepted(st.access[token.value]))
            && (r == Failed(InsufficientScope) <==> good && !enough)
            && (r == Failed(InvalidToken) <==> !good)
  {
    assert SUPPORTED == {McpProxy};
  }

  // ------------------------------------------------------------------------- a restart

  /** What a restart from a readable file leaves: nothing of codes, access tokens and pages; and if it
      comes up, the clients of the file but those cleaned away, with their refresh tokens. */
  lemma {:induction false} RestartMeans(st: State, now: Time, gone: set<Id>, fault: Fault)
    requires Readable(st)
    ensures var next := Restart(st, now, gone, fault);
            && next.codes == map[] && next.access == map[] && next.pending == map[]
            && (next.up <==> gone == {} || fault == Saved)
            && (next.up ==>
                  && next.clients == (map c | c in st.disk.clients && c !in gone :: st.disk.clients[c])
                  && (forall t :: t in next.refresh ==> t in st.disk.refresh && next.refresh[t] == st.disk.refresh[t])
                  && (forall t :: (t in st.disk.refresh && st.disk.refresh[t].clientId !in gone
                                   && !(st.disk.refresh[t].revoked && st.disk.refresh[t].expiresAt < now)) ==> t in next.refresh))
            && (!next.up ==> next.clients == map[] && next.refresh == map[])
            && (gone == {} || fault == FailedBefore ==> next.disk == st.disk)
            && (gone != {} && fault == Saved ==> next.disk == Disk(next.clients, next.refresh))
  {
    RestartIs(st, now, gone, fault);
  }

  // ------------------------------------------------------------- saving and cleaning up

  /** What a save does: refresh tokens that are both revoked and expired are dropped, and unless it
      fails before, the file becomes the clients and the tokens that remain. */
  lemma {:induction false} SaveMeans(st: State, now: Time, fault: Fault, t: Id)
    ensures var next := Save(st, now, fault);
            && (t in next.refresh <==> t in st.refresh && !(st.refresh[t].revoked && st.refresh[t].expiresAt < now))
            && (t in next.refresh ==> next.refresh[t] == st.refresh[t])
            && next.disk == (if fault == FailedBefore then st.disk else Disk(st.clients, next.refresh))
            && next == st.(refresh := next.refresh, disk := next.disk)
  {
  }

  /** A client that may be cleaned away: it has no live refresh token and no open page. */
  ghost predicate Idle(st: State, now: Time, c: Id) {
    && c in st.clients
    && (forall t :: t in st.refresh && st.refresh[t].clientId == c ==> st.refresh[t].revoked || st.refresh[t].expiresAt < now)
    && (forall p :: p in st.pending && st.pending[p].clientId == c ==> st.pending[p].expiresAt < now)
  }

  /** Unused for an hour. */
  ghost predicate Old(st: State, now: Time, c: Id)
    requires c in st.clients
  {
    st.clients[c].lastUsedAt + 3600.0 <= now
  }

  /** Issued earlier; or at the same second and used earlier; or by the order of ids. */
  predicate Sooner(a: Client, b: Client) {
    if a.issuedAt != b.issuedAt then a.issuedAt < b.issuedAt
    else if a.lastUsedAt != b.lastUsedAt then a.lastUsedAt < b.lastUsedAt
    else a.id < b.id
  }

  /** By how many a number is over a limit. */
  function Beyond(n: int, limit: int): nat {
    if n <= limit then 0 else n - limit
  }

  /** How many clients beyond the old ones have to go to leave at most `inactive` without a live token
      and at most `total` in all. */
  ghost function MustGo(st: State, now: Time, inactive: nat, total: nat): nat {
    var aged := |set c | c in st.clients && Idle(st, now, c) && Old(st, now, c)|;
    var a := Beyond(|set c | c in st.clients && !LiveRefresh(st.refresh, c, now)| - aged, inactive);
    var b := Beyond(|st.clients| - aged, total);
    if a >= b then a else b
  }

  lemma {:induction false} IdleMeans(st: State, now: Time, c: Id)
    ensures c in Evictable(st, now) <==> Idle(st, now, c)
    ensures c in Stale(st, now) <==> Idle(st, now, c) && Old(st, now, c)
  {
  }

  /** The idle clients that are not old and come sooner. */
  ghost function Ahead(st: State, now: Time, c: Id): set<Id>
    requires c in st.clients
  {
    set k | k in st.clients && Idle(st, now, k) && !Old(st, now, k) && Sooner(st.clients[k], st.clients[c])
  }

  lemma {:induction false} MustGoMeans(st: State, now: Time, free: nat)
    requires free <= 1
    ensures Wanted(st, now, free) == MustGo(st, now, 16 - free, 64 - free)
  {
    forall c ensures c in Stale(st, now) <==> Idle(st, now, c) && Old(st, now, c) { IdleMeans(st, now, c); }
    assert Stale(st, now) == set c | c in st.clients && Idle(st, now, c) && Old(st, now, c);
    assert Inactive(st, now) == set c | c in st.clients && !LiveRefresh(st.refresh, c, now);
  }

  lemma {:induction false} AheadMeans(st: State, now: Time, c: Id)
    requires c in st.clients
    ensures Older(st, now, c) == Ahead(st, now, c)
  {
    forall k ensures k in Evictable(st, now) <==> Idle(st, now, k) { IdleMeans(st, now, k); }
    forall k ensures k in Stale(st, now) <==> Idle(st, now, k) && Old(st, now, k) { IdleMeans(st, now, k); }
  }

  /** Whom a registration (with one place to be kept free) or a start (with none) evicts: an idle client
      that is old, or one of so many of the soonest others that at most 15 clients without a live
      token and 63 in all are left, or 16 and 64. */
  lemma {:induction false} EvictionMeans(st: State, now: Time, free: nat, c: Id)
    requires c in st.clients && free <= 1
    ensures Doomed(st, now, free, c) <==>
              Idle(st, now, c) && (Old(st, now, c) || |Ahead(st, now, c)| < MustGo(st, now, 16 - free, 64 - free))
  {
    MustGoMeans(st, now, free);
    IdleMeans(st, now, c);
    AheadMeans(st, now, c);
  }

  // ------------------------------------------------------------------ smaller things

  /** A code is good for a minute, and is of the page it was issued for in everything else. */
  lemma {:induction false} CodeMeans(p: Pending, now: Time)
    ensures CodeFor(p, now) == Code(p.clientId, p.redirectUri, p.challenge, p.challengeMethod, p.resource, p.scopes, now + 60.0)
  {
  }

  lemma {:induction false} TouchMeans(st: State, c: Id, now: Time)
    ensures Touched(st, c, now)
         == if c in st.clients then st.(clients := st.clients[c := st.clients[c].(lastUsedAt := now)]) else st
  {
  }
}
