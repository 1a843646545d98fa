/**
 The other direction: what is asked for properly is granted.  A registered client that shows the
 right things in time gets its code, its tokens and its rotation, and the tokens are accepted.
 */
module OAuthFlow {

  import opened Options
  import opened OAuth
  import opened OAuthTokens

  /** A client just registered can ask for consent with any of the redirects it registered. */
  lemma {:induction false} RegisteredCanAsk(st: State, now: Time, body: Registration, gone: set<Id>, id: Id, q: AuthorizeRequest)
    requires Register(st, now, false, body, gone, id, Saved).reply == Registered(id)
    requires q.clientId == id && q.redirectUri in body.redirectUris
    requires q.responseType == CodeResponse && q.challengeMethod == MethodS256 && q.challenge.Some?
    requires q.resource == Relay && ParseScopes(q.scope).Some?
    ensures RequestError(Register(st, now, false, body, gone, id, Saved).st, q) == None
    ensures RedirectSafe(q.redirectUri)
  {
    assert RegistrationError(body) == None;
    var next := Save(WithClient(RemoveClients(st, gone), body, id, now), now, Saved);
    assert next.clients[id] == NewClient(body, id, now);
  }

  /** Below both caps a proper request is let in, to be decided within a minute. */
  lemma {:induction false} ProperRequestIsLetIn(st: State, now: Time, q: AuthorizeRequest, request: Id)
    requires RequestError(st, q) == None
    requires |Unexpired(st.pending, now)| < MAX_PENDING_AUTHORIZATIONS
    requires |PendingOf(Unexpired(st.pending, now), q.clientId)| < MAX_PENDING_PER_CLIENT
    ensures var next := Begin(st, now, false, q, request);
            && next.reply == Consent(request) && next.st.clients == st.clients
            && request in next.st.pending && next.st.pending[request] == RequestFor(q, now)
  {
  }

  /** The owner's approval turns an open request into a code for the same client, redirect,
      challenge, resource and scopes, good for a minute. */
  lemma {:induction false} ApprovalGivesACode(st: State, now: Time, request: Id, code: Id)
    requires request in st.pending && now <= st.pending[request].expiresAt
    ensures var next := Complete(st, now, request, true, true, false, code, Saved);
            && next.reply == CodeIssued(code) && request !in next.st.pending
            && code in next.st.codes && next.st.codes[code] == CodeFor(st.pending[request], now)
            && next.st.clients.Keys == st.clients.Keys
  {
  }

  /** A code shown in time by its client with the verifier of its challenge gives two tokens that
      are good at once, and is refused when it is shown again. */
  lemma {:induction false} CodeGivesTokens(st: State, now: Time, form: CodeForm, access: Id, refresh: Id)
    requires form.code in st.codes && now <= st.codes[form.code].expiresAt
    requires form.clientId == st.codes[form.code].clientId && form.clientId in st.clients
    requires form.redirectUri == st.codes[form.code].redirectUri
    requires form.resource == st.codes[form.code].resource == Relay
    requires st.codes[form.code].challengeMethod == MethodS256
    requires form.verifier.Some? && st.codes[form.code].challenge == S256(form.verifier.value)
    ensures var next, scopes := ExchangeCode(st, now, form, access, refresh, Saved), st.codes[form.code].scopes;
            && next.reply == Tokens(access, refresh, scopes)
            && access in next.st.access
            && next.st.access[access] == Token(form.clientId, Relay, scopes, now + ACCESS_TTL, false)
            && refresh in next.st.refresh
            && next.st.refresh[refresh] == Token(form.clientId, Relay, scopes, now + REFRESH_TTL, false)
            && form.code !in next.st.codes
  {
  }

  /** A live access token of this resource is accepted for any of its scopes. */
  lemma {:induction false} LiveTokenIsAccepted(st: State, now: Time, token: Id, required: set<Scope>)
    requires token in st.access && !st.access[token].revoked && now <= st.access[token].expiresAt
    requires st.access[token].resource == Relay
    ensures Validate(st, now, Some(token), required) ==
              if (if required == {} then SUPPORTED else required) <= st.access[token].scopes
              then Accepted(st.access[token]) else Failed(InsufficientScope)
  {
  }

  /** From a proper request to an accepted token, and only once. */
  lemma {:induction false} ProperFlowIsGranted(st: State, q: AuthorizeRequest, verifier: Verifier, request: Id, code: Id, access: Id, refresh: Id,
                            t0: Time, t1: Time, t2: Time, t3: Time)
    requires RequestError(st, q) == None && q.challenge == Some(S256(verifier))
    requires |Unexpired(st.pending, t0)| < MAX_PENDING_AUTHORIZATIONS
    requires |PendingOf(Unexpired(st.pending, t0), q.clientId)| < MAX_PENDING_PER_CLIENT
    requires t0 <= t1 <= t0 + CODE_TTL && t1 <= t2 <= t1 + CODE_TTL && t2 <= t3 <= t2 + ACCESS_TTL
    ensures var scopes := ParseScopes(q.scope).value;
            var form := CodeForm(code, q.clientId, q.redirectUri, q.resource, Some(verifier));
            var s1 := Begin(st, t0, false, q, request).st;
            var s2 := Complete(s1, t1, request, true, true, false, code, Saved).st;
            var end := ExchangeCode(s2, t2, form, access, refresh, Saved);
            && end.reply == Tokens(access, refresh, scopes)
            && Validate(end.st, t3, Some(access), scopes) == Accepted(Token(q.clientId, Relay, scopes, t2 + ACCESS_TTL, false))
            && ExchangeCode(end.st, t3, form, access, refresh, Saved) == Outcome(end.st, Failed(InvalidGrant))
  {
    var form := CodeForm(code, q.clientId, q.redirectUri, q.resource, Some(verifier));
    ProperRequestIsLetIn(st, t0, q, request);
    var s1 := Begin(st, t0, false, q, request).st;
    ApprovalGivesACode(s1, t1, request, code);
    var s2 := Complete(s1, t1, request, true, true, false, code, Saved).st;
    FlowEnds(s2, form, access, refresh, t2, t3);
  }

  lemma {:induction false} FlowEnds(st: State, form: CodeForm, access: Id, refresh: Id, now: Time, later: Time)
    requires form.code in st.codes && now <= st.codes[form.code].expiresAt
    requires form.clientId == st.codes[form.code].clientId && form.clientId in st.clients
    requires form.redirectUri == st.codes[form.code].redirectUri
    requires form.resource == st.codes[form.code].resource == Relay
    requires st.codes[form.code].challengeMethod == MethodS256 && st.codes[form.code].scopes != {}
    requires form.verifier.Some? && st.codes[form.code].challenge == S256(form.verifier.value)
    requires later <= now + ACCESS_TTL
    ensures var end, scopes := ExchangeCode(st, now, form, access, refresh, Saved), st.codes[form.code].scopes;
            && end.reply == Tokens(access, refresh, scopes)
            && Validate(end.st, later, Some(access), scopes) == Accepted(Token(form.clientId, Relay, scopes, now + ACCESS_TTL, false))
            && ExchangeCode(end.st, later, form, access, refresh, Saved) == Outcome(end.st, Failed(InvalidGrant))
  {
    CodeGivesTokens(st, now, form, access, refresh);
    LiveTokenIsAccepted(ExchangeCode(st, now, form, access, refresh, Saved).st, later, access, st.codes[form.code].scopes);
  }

  /** A live refresh token shown by its client is replaced by a new pair with the scopes it had:
      the old one is then refused, the new one is good. */
  lemma {:induction false} RotationIsGranted(st: State, now: Time, form: RefreshForm, access: Id, refresh: Id, later: Time)
    requires RefreshError(st, now, form) == None && form.scope == Absent
    requires refresh != form.token && now <= later <= now + REFRESH_TTL
    requires st.refresh[form.token].resource == Relay
    ensures var next, scopes := RefreshTokens(st, now, form, access, refresh, Saved), st.refresh[form.token].scopes;
            && next.reply == Tokens(access, refresh, scopes)
            && access in next.st.access && next.st.access[access].scopes == scopes
            && RefreshError(next.st, later, form) == Some(InvalidGrant)
            && RefreshError(next.st, later, form.(token := refresh)) == None
  {
    var scopes := st.refresh[form.token].scopes;
    var touched := Touched(RevokeRefresh(st, form.token), form.clientId, now);
    var minted := Minted(touched, now, Rotated(st.hist, form.token, form.clientId, Relay, scopes), access, refresh);
    assert minted.refresh[form.token].revoked;
    assert Save(minted, now, Saved).refresh[refresh] == minted.refresh[refresh];
  }

  /** In the state a revocation leaves, saved or not, the token is refused; what becomes of it
      later is said in OAuthRefused.dfy. */
  lemma {:induction false} RevokedIsRefused(st: State, now: Time, token: Id, hint: Hint, fault: Fault, later: Time, required: set<Scope>, form: RefreshForm)
    requires token !in st.access || token !in st.refresh
    requires form.token == token
    ensures var next := Revoke(st, now, token, hint, fault).st;
            && Validate(next, later, Some(token), required) == Failed(InvalidToken)
            && RefreshError(next, later, form) == Some(InvalidGrant)
  {
    RevokedIsMarked(st, token, hint);
    SaveAges(Revoked(st, token, hint), now, fault, token);
  }
}
