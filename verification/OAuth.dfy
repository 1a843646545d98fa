/**
 The authorization server of relay/oauth.py as functions on values: what every operation of
 the service answers and what it leaves behind, in memory, on disk, and in the history of
 who approved and exchanged what.
 */
module OAuth {

  import opened Options

  type Time = real

  /** An unguessable name: a client id, request id, code or token. */
  type Id = nat

  datatype Uri = Uri(scheme: string, netloc: string, hostname: string, fragment: string, rest: string)

  /** HTTPS with a host, or HTTP on a loopback host only; never with a fragment. */
  predicate RedirectSafe(u: Uri) {
    && u.fragment == ""
    && (|| (u.scheme == "https" && u.netloc != "")
        || (u.scheme == "http" && u.hostname in {"localhost", "127.0.0.1", "::1"}))
  }

  datatype Scope = McpProxy | OtherScope(name: string)
  datatype Resource = Relay | OtherResource(name: string)
  datatype Grant = AuthorizationCode | RefreshGrant | OtherGrant(name: string)
  datatype ResponseType = CodeResponse | OtherResponse(name: string)
  datatype AuthMethod = NoAuth | OtherAuth(name: string)
  datatype ChallengeMethod = MethodS256 | OtherMethod(name: string)
  type Verifier = nat
  /** A PKCE challenge: the S256 digest of a verifier, or text that is no verifier's digest. */
  datatype Challenge = S256(verifier: Verifier) | Opaque(text: string)
  /** A scope parameter: missing or empty, only white space, or some names. */
  datatype ScopeParam = Absent | Blank | Names(scopes: set<Scope>)

  const SUPPORTED: set<Scope> := {McpProxy}
  const CODE_TTL: Time := 60.0
  const ACCESS_TTL: Time := 3600.0
  const REFRESH_TTL: Time := 2592000.0
  const INACTIVE_CLIENT_TTL: Time := 3600.0
  const MAX_DCR_CLIENTS: nat := 64
  const MAX_INACTIVE_DCR_CLIENTS: nat := 16
  const MAX_PENDING_AUTHORIZATIONS: nat := 32
  const MAX_PENDING_PER_CLIENT: nat := 4

  datatype Client = Client(
    id: Id, redirectUris: seq<Uri>, name: Option<string>, authMethod: AuthMethod,
    grantTypes: seq<Grant>, responseTypes: seq<ResponseType>, issuedAt: int, lastUsedAt: Time)

  datatype Code = Code(
    clientId: Id, redirectUri: Uri, challenge: Challenge, challengeMethod: ChallengeMethod,
    resource: Resource, scopes: set<Scope>, expiresAt: Time)

  datatype Token = Token(clientId: Id, resource: Resource, scopes: set<Scope>, expiresAt: Time, revoked: bool)

  datatype Pending = Pending(
    clientId: Id, redirectUri: Uri, echo: Option<string>, challenge: Challenge, challengeMethod: ChallengeMethod,
    resource: Resource, scopes: set<Scope>, expiresAt: Time)

  /** What the durable store holds: the clients and the refresh tokens, nothing else. */
  datatype Disk = Disk(clients: map<Id, Client>, refresh: map<Id, Token>)

  // ------------------------------------------------------------------------- history

  /** The request the owner approved when a code was issued. */
  datatype Approval = Approval(request: Id, pending: Pending)
  /** What was shown when a code was exchanged, and the first refresh token it gave. */
  datatype Exchange = Exchange(verifier: Verifier, clientId: Id, redirectUri: Uri, resource: Resource, refresh: Id)
  /** Where a refresh token comes from: its code, and the token it replaced. */
  datatype Origin = Origin(code: Id, parent: Option<Id>, depth: nat, clientId: Id, resource: Resource, scopes: set<Scope>)

  datatype History = History(
    used: set<Id>, approvals: map<Id, Approval>, exchanges: map<Id, Exchange>,
    lineage: map<Id, Origin>, twin: map<Id, Id>)

  datatype State = State(
    clients: map<Id, Client>, codes: map<Id, Code>, access: map<Id, Token>, refresh: map<Id, Token>,
    pending: map<Id, Pending>, disk: Disk, hist: History, up: bool, clock: Time)

  datatype Error =
    | RateLimited | LimitReached | InvalidRedirectUri | InvalidMetadata | UnauthorizedClient | InvalidRequest
    | UnsupportedResponseType | InvalidTarget | InvalidScope | CapacityExceeded | AccessDenied | InvalidGrant
    | InvalidToken | InsufficientScope | ServerError

  datatype Reply =
    | Registered(id: Id)
    | Consent(request: Id)
    | ErrorRedirect(error: Error)
    | OwnerDenied
    | CodeIssued(code: Id)
    | Tokens(access: Id, refresh: Id, scopes: set<Scope>)
    | Done
    | Accepted(token: Token)
    | Failed(error: Error)

  datatype Outcome = Outcome(st: State, reply: Reply)

  // -------------------------------------------------------------------- saving

  /** How a save ended: done; failed before the file was replaced; or failed after it. */
  datatype Fault = Saved | FailedBefore | FailedAfter

  /** Saving drops refresh tokens that are both expired and revoked, then replaces the file. */
  function Save(st: State, now: Time, fault: Fault): State {
    var kept := map t | t in st.refresh && !(st.refresh[t].expiresAt < now && st.refresh[t].revoked) :: st.refresh[t];
    st.(refresh := kept, disk := if fault == FailedBefore then st.disk else Disk(st.clients, kept))
  }

  function Reported(fault: Fault, reply: Reply): Reply {
    if fault == Saved then reply else Failed(ServerError)
  }

  // -------------------------------------------------------------- idle clients

  ghost predicate LiveRefresh(refresh: map<Id, Token>, c: Id, now: Time) {
    exists t :: t in refresh && refresh[t].clientId == c && !refresh[t].revoked && refresh[t].expiresAt >= now
  }

  ghost predicate LivePending(pending: map<Id, Pending>, c: Id, now: Time) {
    exists p :: p in pending && pending[p].clientId == c && pending[p].expiresAt >= now
  }

  /** Clients without a live refresh token. */
  ghost function Inactive(st: State, now: Time): set<Id> {
    set c | c in st.clients && !LiveRefresh(st.refresh, c, now)
  }

  /** Inactive clients that no open consent page protects. */
  ghost function Evictable(st: State, now: Time): set<Id> {
    set c | c in st.clients && !LiveRefresh(st.refresh, c, now) && !LivePending(st.pending, c, now)
  }

  ghost function Stale(st: State, now: Time): set<Id> {
    set c | c in Evictable(st, now) && now - st.clients[c].lastUsedAt >= INACTIVE_CLIENT_TTL
  }

  /** Removing clients removes their refresh tokens with them. */
  function RemoveClients(st: State, gone: set<Id>): State {
    st.(clients := map c | c in st.clients && c !in gone :: st.clients[c],
        refresh := map t | t in st.refresh && st.refresh[t].clientId !in gone :: st.refresh[t])
  }

  /** Oldest first: by issue time, then last use, then id. */
  predicate Before(a: Client, b: Client) {
    || a.issuedAt < b.issuedAt
    || (a.issuedAt == b.issuedAt && a.lastUsedAt < b.lastUsedAt)
    || (a.issuedAt == b.issuedAt && a.lastUsedAt == b.lastUsedAt && a.id < b.id)
  }

  /** How many clients are over the two budgets, leaving room for `reserve` newcomers. */
  function Excess(inactive: int, total: int, reserve: nat): nat {
    var a := inactive - (if reserve <= MAX_INACTIVE_DCR_CLIENTS then MAX_INACTIVE_DCR_CLIENTS - reserve else 0);
    var b := total - (if reserve <= MAX_DCR_CLIENTS then MAX_DCR_CLIENTS - reserve else 0);
    if a <= 0 && b <= 0 then 0 else if a >= b then a else b
  }

  /** Some of the evictable clients: all the stale ones, and of the others none before an older one. */
  ghost predicate OldestPicked(clients: map<Id, Client>, stale: set<Id>, all: set<Id>, gone: set<Id>) {
    && stale <= gone <= all <= clients.Keys
    && forall g, k :: g in gone && g !in stale && k in all && k !in gone ==> Before(clients[g], clients[k])
  }

  /** What a cleanup takes away: every stale client, and then, oldest first, as many of the other
      evictable ones as the budgets are exceeded by. */
  ghost predicate CleanedAway(st: State, now: Time, reserve: nat, gone: set<Id>) {
    var stale, all := Stale(st, now), Evictable(st, now);
    && OldestPicked(st.clients, stale, all, gone)
    && |gone| - |stale| == Least(Excess(|Inactive(st, now)| - |stale|, |st.clients| - |stale|, reserve), |all| - |stale|)
  }

  function Least(a: int, b: int): int {
    if a <= b then a else b
  }

  // -------------------------------------------------------------- registration

  /** The body of a registration request; an empty list stands for a missing one. */
  datatype Registration = Registration(
    redirectUris: seq<Uri>, authMethod: Option<AuthMethod>, grantTypes: seq<Grant>,
    responseTypes: seq<ResponseType>, name: Option<string>)

  function RegistrationError(body: Registration): Option<Error> {
    if body.redirectUris == [] || exists i :: 0 <= i < |body.redirectUris| && !RedirectSafe(body.redirectUris[i]) then
      Some(InvalidRedirectUri)
    else if OrElse(body.authMethod, NoAuth) != NoAuth then Some(InvalidMetadata)
    else if exists i :: 0 <= i < |body.grantTypes| && body.grantTypes[i].OtherGrant? then Some(InvalidMetadata)
    else if exists i :: 0 <= i < |body.responseTypes| && body.responseTypes[i] != CodeResponse then Some(InvalidMetadata)
    else None
  }

  function NewClient(body: Registration, id: Id, now: Time): Client {
    Client(id, body.redirectUris, body.name, NoAuth,
           if body.grantTypes == [] then [AuthorizationCode, RefreshGrant] else body.grantTypes,
           [CodeResponse], now.Floor, now)
  }

  function WithClient(st: State, body: Registration, id: Id, now: Time): State {
    st.(clients := st.clients[id := NewClient(body, id, now)], hist := st.hist.(used := st.hist.used + {id}))
  }

  /** Registration, with the clients a cleanup takes away to make room given as `gone`. */
  ghost function Register(st: State, now: Time, limited: bool, body: Registration, gone: set<Id>, id: Id, fault: Fault): Outcome {
    if limited then Outcome(st, Failed(RateLimited))
    else
      var st1 := RemoveClients(st, gone);
      if |Inactive(st1, now)| >= MAX_INACTIVE_DCR_CLIENTS || |st1.clients| >= MAX_DCR_CLIENTS then
        Outcome(st1, Failed(LimitReached))
      else if RegistrationError(body).Some? then Outcome(st1, Failed(RegistrationError(body).value))
      else
        Outcome(Save(WithClient(st1, body, id, now), now, fault), Reported(fault, Registered(id)))
  }

  // ------------------------------------------------------------- authorization

  datatype AuthorizeRequest = AuthorizeRequest(
    clientId: Id, redirectUri: Uri, responseType: ResponseType, echo: Option<string>, challenge: Option<Challenge>,
    challengeMethod: ChallengeMethod, resource: Resource, scope: ScopeParam)

  /** The scopes asked for, or nothing if one of them is unsupported. */
  function ParseScopes(scope: ScopeParam): Option<set<Scope>> {
    if !scope.Names? || scope.scopes == {} then Some(SUPPORTED)
    else if scope.scopes <= SUPPORTED then Some(scope.scopes)
    else None
  }

  /** The checks of an authorization request in their order: refused outright, or sent back to the client. */
  function RequestError(st: State, q: AuthorizeRequest): Option<Reply> {
    if q.clientId !in st.clients then Some(Failed(UnauthorizedClient))
    else if q.redirectUri !in st.clients[q.clientId].redirectUris then Some(Failed(InvalidRequest))
    else if q.responseType != CodeResponse then Some(ErrorRedirect(UnsupportedResponseType))
    else if q.challengeMethod != MethodS256 then Some(ErrorRedirect(InvalidRequest))
    else if q.challenge == None then Some(ErrorRedirect(InvalidRequest))
    else if q.resource != Relay then Some(ErrorRedirect(InvalidTarget))
    else if ParseScopes(q.scope) == None then Some(ErrorRedirect(InvalidScope))
    else None
  }

  /** Pending requests that have not expired. */
  function Unexpired(pending: map<Id, Pending>, now: Time): map<Id, Pending> {
    map p | p in pending && !(pending[p].expiresAt < now) :: pending[p]
  }

  function PendingOf(pending: map<Id, Pending>, c: Id): set<Id> {
    set p | p in pending && pending[p].clientId == c
  }

  function RequestFor(q: AuthorizeRequest, now: Time): Pending
    requires q.challenge.Some? && ParseScopes(q.scope).Some?
  {
    Pending(q.clientId, q.redirectUri, q.echo, q.challenge.value, q.challengeMethod, q.resource,
            ParseScopes(q.scope).value, now + CODE_TTL)
  }

  function Begin(st: State, now: Time, limited: bool, q: AuthorizeRequest, id: Id): Outcome {
    var error := RequestError(st, q);
    if error.Some? then Outcome(st, error.value)
    else if limited then Outcome(st, Failed(RateLimited))
    else
      var swept := Unexpired(st.pending, now);
      if |PendingOf(swept, q.clientId)| >= MAX_PENDING_PER_CLIENT || |swept| >= MAX_PENDING_AUTHORIZATIONS then
        Outcome(st.(pending := swept), Failed(CapacityExceeded))
      else
        Outcome(st.(pending := swept[id := RequestFor(q, now)], hist := st.hist.(used := st.hist.used + {id})), Consent(id))
  }

  /** A client's last use; a client that is gone is left alone. */
  function Touch(clients: map<Id, Client>, c: Id, now: Time): map<Id, Client> {
    if c in clients then clients[c := clients[c].(lastUsedAt := now)] else clients
  }

  function CodeFor(p: Pending, now: Time): Code {
    Code(p.clientId, p.redirectUri, p.challenge, p.challengeMethod, p.resource, p.scopes, now + CODE_TTL)
  }

  function Popped(st: State, request: Id): State {
    st.(pending := st.pending - {request})
  }

  /** The state with a code for an approved request, not yet saved. */
  function Approved(st: State, now: Time, request: Id, p: Pending, code: Id): State {
    st.(clients := Touch(st.clients, p.clientId, now),
        codes := st.codes[code := CodeFor(p, now)],
        hist := st.hist.(used := st.hist.used + {code},
                         approvals := st.hist.approvals[code := Approval(request, p)]))
  }

  /** The owner's decision on a pending request, with the lock held throughout. */
  function Complete(st: State, now: Time, request: Id, approve: bool, secretOk: bool, limited: bool, code: Id, fault: Fault): Outcome {
    if request !in st.pending then Outcome(st, Failed(InvalidRequest))
    else
      var p, popped := st.pending[request], Popped(st, request);
      if now > p.expiresAt then Outcome(popped, Failed(InvalidRequest))
      else if !approve then Outcome(popped, OwnerDenied)
      else if limited || !secretOk then Outcome(popped.(pending := popped.pending[request := p]), Failed(AccessDenied))
      else Outcome(Save(Approved(popped, now, request, p, code), now, fault), Reported(fault, CodeIssued(code)))
  }

  // ---------------------------------------------------------------- tokens

  /** The state with a new access and refresh token of the given origin, not yet saved. */
  function Minted(st: State, now: Time, origin: Origin, access: Id, refresh: Id): State {
    st.(access := st.access[access := Token(origin.clientId, origin.resource, origin.scopes, now + ACCESS_TTL, false)],
        refresh := st.refresh[refresh := Token(origin.clientId, origin.resource, origin.scopes, now + REFRESH_TTL, false)],
        hist := st.hist.(used := st.hist.used + {access, refresh},
                         lineage := st.hist.lineage[refresh := origin],
                         twin := st.hist.twin[access := refresh]))
  }

  function Issue(st: State, now: Time, origin: Origin, access: Id, refresh: Id, fault: Fault): Outcome {
    Outcome(Save(Minted(st, now, origin, access, refresh), now, fault),
            Reported(fault, Tokens(access, refresh, origin.scopes)))
  }

  function Touched(st: State, c: Id, now: Time): State {
    st.(clients := Touch(st.clients, c, now))
  }

  datatype CodeForm = CodeForm(code: Id, clientId: Id, redirectUri: Uri, resource: Resource, verifier: Option<Verifier>)

  function CodeError(st: State, now: Time, form: CodeForm): Option<Error>
    requires form.code in st.codes
  {
    var record := st.codes[form.code];
    if now > record.expiresAt then Some(InvalidGrant)
    else if record.clientId != form.clientId then Some(InvalidGrant)
    else if form.clientId !in st.clients then Some(UnauthorizedClient)
    else if record.redirectUri != form.redirectUri then Some(InvalidGrant)
    else if form.resource != record.resource || form.resource != Relay then Some(InvalidTarget)
    else if record.challengeMethod != MethodS256 then Some(InvalidGrant)
    else if form.verifier == None || S256(form.verifier.value) != record.challenge then Some(InvalidGrant)
    else None
  }

  function Taken(st: State, code: Id): State {
    st.(codes := st.codes - {code})
  }

  /** The state in which a code has been exchanged, before the tokens are minted. */
  function Exchanged(st: State, now: Time, form: CodeForm, refresh: Id): State
    requires form.verifier.Some?
  {
    var shown := Exchange(form.verifier.value, form.clientId, form.redirectUri, form.resource, refresh);
    Touched(Taken(st, form.code), form.clientId, now).(
      hist := st.hist.(exchanges := st.hist.exchanges[form.code := shown]))
  }

  /** A code is used up by the first attempt, whether or not the attempt succeeds. */
  function ExchangeCode(st: State, now: Time, form: CodeForm, access: Id, refresh: Id, fault: Fault): Outcome {
    if form.code !in st.codes then Outcome(st, Failed(InvalidGrant))
    else
      var record, error := st.codes[form.code], CodeError(st, now, form);
      if error.Some? then Outcome(Taken(st, form.code), Failed(error.value))
      else
        Issue(Exchanged(st, now, form, refresh), now,
              Origin(form.code, None, 0, form.clientId, record.resource, record.scopes), access, refresh, fault)
  }

  datatype RefreshForm = RefreshForm(token: Id, clientId: Id, resource: Option<Resource>, scope: ScopeParam)

  function RefreshError(st: State, now: Time, form: RefreshForm): Option<Error> {
    if form.token !in st.refresh || st.refresh[form.token].revoked || now > st.refresh[form.token].expiresAt then
      Some(InvalidGrant)
    else if st.refresh[form.token].clientId != form.clientId then Some(InvalidGrant)
    else if form.resource.Some? && form.resource.value != st.refresh[form.token].resource then Some(InvalidTarget)
    else if form.resource.Some? && form.resource.value != Relay then Some(InvalidTarget)
    else None
  }

  /** The scopes of the rotated token, or nothing if more is asked for than it had. */
  function RotatedScopes(had: set<Scope>, scope: ScopeParam): Option<set<Scope>> {
    if scope == Absent then Some(had)
    else
      var requested := ParseScopes(scope);
      if requested.Some? && requested.value <= had then requested else None
  }

  function RevokeRefresh(st: State, token: Id): State
    requires token in st.refresh
  {
    st.(refresh := st.refresh[token := st.refresh[token].(revoked := true)])
  }

  /** Rotation: the old token is revoked before the scope is looked at, so a request refused for
      its scope leaves it revoked in memory only. */
  function RefreshTokens(st: State, now: Time, form: RefreshForm, access: Id, refresh: Id, fault: Fault): Outcome {
    var error := RefreshError(st, now, form);
    if error.Some? then Outcome(st, Failed(error.value))
    else
      var record := st.refresh[form.token];
      var revoked := RevokeRefresh(st, form.token);
      var scopes := RotatedScopes(record.scopes, form.scope);
      if scopes == None then Outcome(revoked, Failed(InvalidScope))
      else
        Issue(Touched(revoked, form.clientId, now), now, Rotated(st.hist, form.token, form.clientId, record.resource, scopes.value), access, refresh, fault)
  }

  /** The origin of a token that replaces another. */
  function Rotated(hist: History, token: Id, clientId: Id, resource: Resource, scopes: set<Scope>): Origin {
    if token in hist.lineage then
      Origin(hist.lineage[token].code, Some(token), hist.lineage[token].depth + 1, clientId, resource, scopes)
    else Origin(token, Some(token), 0, clientId, resource, scopes)
  }

  datatype Hint = NoHint | AccessHint | RefreshHint | OtherHint

  function RevokeAccess(st: State, token: Id): State
    requires token in st.access
  {
    st.(access := st.access[token := st.access[token].(revoked := true)])
  }

  /** What a revocation marks, before it is saved; an unknown token is not an error. */
  function Revoked(st: State, token: Id, hint: Hint): State {
    if hint in {NoHint, AccessHint} && token in st.access then RevokeAccess(st, token)
    else if hint in {NoHint, RefreshHint} && token in st.refresh then RevokeRefresh(st, token)
    else
      var st1 := if token in st.access then RevokeAccess(st, token) else st;
      if token in st1.refresh then RevokeRefresh(st1, token) else st1
  }

  function Revoke(st: State, now: Time, token: Id, hint: Hint, fault: Fault): Outcome {
    Outcome(Save(Revoked(st, token, hint), now, fault), Reported(fault, Done))
  }

  /** Whether a bearer token is good for a request. */
  function Validate(st: State, now: Time, token: Option<Id>, required: set<Scope>): Reply {
    var needed := if required == {} then SUPPORTED else required;
    if token == None then Failed(InvalidToken)
    else if token.value !in st.access || st.access[token.value].revoked then Failed(InvalidToken)
    else if now > st.access[token.value].expiresAt then Failed(InvalidToken)
    else if st.access[token.value].resource != Relay then Failed(InvalidToken)
    else if !(needed <= st.access[token.value].scopes) then Failed(InsufficientScope)
    else Accepted(st.access[token.value])
  }
}
