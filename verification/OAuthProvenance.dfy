/**
 Where tokens come from.  In every reachable state each access token goes back, through
 rotations that never widen its scopes, to one code exchange with the right PKCE verifier, and
 the code to one request the owner approved, of the same client, redirect and resource.
 */
module OAuthProvenance {

  import opened Options
  import opened OAuth
  import opened OAuthStore
  import opened OAuthRuns
  import opened OAuthRegistered

  /** Every name the history or a table mentions has been used up. */
  ghost predicate NamesUsed(st: State) {
    && st.hist.approvals.Keys <= st.hist.used
    && st.hist.lineage.Keys <= st.hist.used
    && st.hist.twin.Keys <= st.hist.used
    && st.pending.Keys <= st.hist.used
    && forall c :: c in st.hist.approvals ==> st.hist.approvals[c].request in st.hist.used
  }

  /** Every code was issued by an approval and has not been exchanged; every token has an origin. */
  ghost predicate KeysKnown(st: State) {
    && st.codes.Keys <= st.hist.approvals.Keys
    && st.codes.Keys !! st.hist.exchanges.Keys
    && st.hist.exchanges.Keys <= st.hist.approvals.Keys
    && st.refresh.Keys <= st.hist.lineage.Keys
    && st.disk.refresh.Keys <= st.hist.lineage.Keys
    && st.access.Keys <= st.hist.twin.Keys
    && forall a :: a in st.hist.twin ==> st.hist.twin[a] in st.hist.lineage
  }

  /** No request is approved twice, and an approved request is no longer pending. */
  ghost predicate ApprovedOnce(st: State) {
    && (forall c :: c in st.hist.approvals ==> st.hist.approvals[c].request !in st.pending)
    && (forall c, d :: c in st.hist.approvals && d in st.hist.approvals && c != d ==>
          st.hist.approvals[c].request != st.hist.approvals[d].request)
  }

  predicate CodeMatches(c: Code, p: Pending) {
    && c.clientId == p.clientId && c.redirectUri == p.redirectUri && c.resource == p.resource && c.scopes == p.scopes
    && c.challenge == p.challenge && c.challengeMethod == p.challengeMethod
  }

  ghost predicate CodesMatch(st: State) {
    forall c :: c in st.codes && c in st.hist.approvals ==> CodeMatches(st.codes[c], st.hist.approvals[c].pending)
  }

  /** An exchange showed the verifier of the approved challenge, and the approved client, redirect
      and resource; the refresh token it gave is the root of its line. */
  ghost predicate ExchangeSound(c: Id, a: map<Id, Approval>, e: map<Id, Exchange>, l: map<Id, Origin>) {
    && c in e && c in a
    && a[c].pending.challengeMethod == MethodS256
    && a[c].pending.challenge == S256(e[c].verifier)
    && a[c].pending.clientId == e[c].clientId
    && a[c].pending.redirectUri == e[c].redirectUri
    && a[c].pending.resource == e[c].resource == Relay
    && e[c].refresh in l && l[e[c].refresh].code == c && l[e[c].refresh].parent == None
  }

  /** A refresh token's line: a root is the one its code gave; any other replaced a token of the
      same line, with no more scopes. */
  ghost predicate OriginSound(r: Id, a: map<Id, Approval>, e: map<Id, Exchange>, l: map<Id, Origin>) {
    && r in l && l[r].code in e && l[r].code in a
    && l[r].clientId == a[l[r].code].pending.clientId
    && l[r].resource == a[l[r].code].pending.resource
    && l[r].scopes <= a[l[r].code].pending.scopes
    && (l[r].parent == None ==> e[l[r].code].refresh == r && l[r].depth == 0)
    && (l[r].parent.Some? ==>
          && l[r].parent.value in l
          && l[l[r].parent.value].code == l[r].code
          && l[r].depth == l[l[r].parent.value].depth + 1
          && l[r].scopes <= l[l[r].parent.value].scopes)
  }

  ghost predicate LinesSound(a: map<Id, Approval>, e: map<Id, Exchange>, l: map<Id, Origin>) {
    && (forall c :: c in e ==> ExchangeSound(c, a, e, l))
    && (forall r :: r in l ==> OriginSound(r, a, e, l))
  }

  predicate TokenMatches(t: Token, o: Origin) {
    t.clientId == o.clientId && t.resource == o.resource && t.scopes == o.scopes
  }

  ghost predicate RefreshMatches(refresh: map<Id, Token>, lineage: map<Id, Origin>) {
    forall t :: t in refresh && t in lineage ==> TokenMatches(refresh[t], lineage[t])
  }

  ghost predicate AccessMatches(access: map<Id, Token>, twin: map<Id, Id>, lineage: map<Id, Origin>) {
    forall a :: a in access && a in twin && twin[a] in lineage ==> TokenMatches(access[a], lineage[twin[a]])
  }

  ghost predicate TablesMatch(st: State) {
    && CodesMatch(st)
    && RefreshMatches(st.refresh, st.hist.lineage)
    && RefreshMatches(st.disk.refresh, st.hist.lineage)
    && AccessMatches(st.access, st.hist.twin, st.hist.lineage)
  }

  ghost predicate Sound(st: State) {
    && NamesUsed(st) && KeysKnown(st) && ApprovedOnce(st)
    && TablesMatch(st)
    && LinesSound(st.hist.approvals, st.hist.exchanges, st.hist.lineage)
  }

  // ------------------------------------------------- changes that mint nothing

  /** The same tokens, fewer or revoked. */
  ghost predicate Fades(before: map<Id, Token>, after: map<Id, Token>) {
    forall t :: t in after ==>
      t in before && after[t].clientId == before[t].clientId && after[t].resource == before[t].resource
      && after[t].scopes == before[t].scopes && (before[t].revoked ==> after[t].revoked)
  }

  /** Nothing is approved, exchanged or minted: tables lose entries, tokens may be revoked, the
      file is rewritten from memory, and fresh names may be used up for new pending requests. */
  ghost predicate Quiet(st: State, next: State) {
    && next.hist == st.hist.(used := next.hist.used) && st.hist.used <= next.hist.used
    && (forall c :: c in next.codes ==> c in st.codes && next.codes[c] == st.codes[c])
    && Fades(st.access, next.access)
    && Fades(st.refresh, next.refresh)
    && (next.disk.refresh == st.disk.refresh || next.disk.refresh == next.refresh)
    && (forall p :: p in next.pending ==> p in st.pending || (p !in st.hist.used && p in next.hist.used))
  }

  lemma {:induction false} QuietKeepsNames(st: State, next: State)
    requires Quiet(st, next) && NamesUsed(st) && KeysKnown(st) && ApprovedOnce(st)
    ensures NamesUsed(next) && KeysKnown(next) && ApprovedOnce(next)
  {
  }

  lemma {:induction false} QuietKeepsTables(st: State, next: State)
    requires Quiet(st, next) && TablesMatch(st) && KeysKnown(st)
    ensures TablesMatch(next)
  {
  }

  lemma {:induction false} QuietKeepsSound(st: State, next: State)
    requires Quiet(st, next) && Sound(st)
    ensures Sound(next)
  {
    QuietKeepsNames(st, next);
    QuietKeepsTables(st, next);
  }

  // ------------------------------------------------------------ the three that do

  lemma {:induction false} ApprovedLines(a: map<Id, Approval>, e: map<Id, Exchange>, l: map<Id, Origin>, code: Id, approval: Approval)
    requires LinesSound(a, e, l) && code !in a
    ensures LinesSound(a[code := approval], e, l)
  {
    var a2 := a[code := approval];
    forall c | c in e ensures ExchangeSound(c, a2, e, l) { assert ExchangeSound(c, a, e, l); }
    forall r | r in l ensures OriginSound(r, a2, e, l) { assert OriginSound(r, a, e, l); }
  }

  lemma {:induction false} RootLines(a: map<Id, Approval>, e: map<Id, Exchange>, l: map<Id, Origin>, code: Id, shown: Exchange, origin: Origin)
    requires LinesSound(a, e, l) && code in a && code !in e && shown.refresh !in l
    requires a[code].pending.challengeMethod == MethodS256 && a[code].pending.challenge == S256(shown.verifier)
    requires a[code].pending.clientId == shown.clientId && a[code].pending.redirectUri == shown.redirectUri
    requires a[code].pending.resource == shown.resource == Relay
    requires origin == Origin(code, None, 0, shown.clientId, shown.resource, a[code].pending.scopes)
    ensures LinesSound(a, e[code := shown], l[shown.refresh := origin])
  {
    var e2, l2 := e[code := shown], l[shown.refresh := origin];
    forall c | c in e2 ensures ExchangeSound(c, a, e2, l2) {
      if c != code { assert ExchangeSound(c, a, e, l); }
    }
    forall r | r in l2 ensures OriginSound(r, a, e2, l2) {
      if r != shown.refresh { assert OriginSound(r, a, e, l); }
    }
  }

  lemma {:induction false} RotatedLines(a: map<Id, Approval>, e: map<Id, Exchange>, l: map<Id, Origin>, parent: Id, next: Id, scopes: set<Scope>)
    requires LinesSound(a, e, l) && parent in l && next !in l && scopes <= l[parent].scopes
    ensures LinesSound(a, e, l[next := Origin(l[parent].code, Some(parent), l[parent].depth + 1, l[parent].clientId, l[parent].resource, scopes)])
  {
    var origin := Origin(l[parent].code, Some(parent), l[parent].depth + 1, l[parent].clientId, l[parent].resource, scopes);
    var l2 := l[next := origin];
    assert OriginSound(parent, a, e, l);
    forall c | c in e ensures ExchangeSound(c, a, e, l2) { assert ExchangeSound(c, a, e, l); }
    forall r | r in l2 ensures OriginSound(r, a, e, l2) {
      if r != next { assert OriginSound(r, a, e, l); }
    }
  }

  lemma {:induction false} ApprovedNames(st: State, now: Time, request: Id, code: Id)
    requires NamesUsed(st) && KeysKnown(st) && ApprovedOnce(st) && request in st.pending && code !in st.hist.used
    ensures var next := Approved(Popped(st, request), now, request, st.pending[request], code);
            NamesUsed(next) && KeysKnown(next) && ApprovedOnce(next)
  {
  }

  lemma {:induction false} ApprovedSound(st: State, now: Time, request: Id, code: Id)
    requires Sound(st) && request in st.pending && code !in st.hist.used
    ensures Sound(Approved(Popped(st, request), now, request, st.pending[request], code))
  {
    ApprovedLines(st.hist.approvals, st.hist.exchanges, st.hist.lineage, code, Approval(request, st.pending[request]));
    ApprovedNames(st, now, request, code);
    assert CodesMatch(Approved(Popped(st, request), now, request, st.pending[request], code));
  }

  lemma {:induction false} RootSound(st: State, now: Time, form: CodeForm, access: Id, refresh: Id)
    requires Sound(st) && form.code in st.codes && CodeError(st, now, form) == None
    requires access !in st.hist.used && refresh !in st.hist.used && access != refresh
    ensures var origin := Origin(form.code, None, 0, form.clientId, st.codes[form.code].resource, st.codes[form.code].scopes);
            Sound(Minted(Exchanged(st, now, form, refresh), now, origin, access, refresh))
  {
    var record, approved := st.codes[form.code], st.hist.approvals[form.code].pending;
    assert CodeMatches(record, approved);
    var origin := Origin(form.code, None, 0, form.clientId, record.resource, record.scopes);
    var shown := Exchange(form.verifier.value, form.clientId, form.redirectUri, form.resource, refresh);
    RootLines(st.hist.approvals, st.hist.exchanges, st.hist.lineage, form.code, shown, origin);
    var from := Exchanged(st, now, form, refresh);
    assert from.codes.Keys <= st.codes.Keys - {form.code};
    assert TablesMatch(from);
    MintedSound(from, now, origin, access, refresh);
  }

  lemma {:induction false} MintedNames(st: State, now: Time, origin: Origin, access: Id, refresh: Id)
    requires NamesUsed(st) && KeysKnown(st) && ApprovedOnce(st)
    requires access !in st.hist.used && refresh !in st.hist.used && access != refresh
    ensures var next := Minted(st, now, origin, access, refresh); NamesUsed(next) && KeysKnown(next) && ApprovedOnce(next)
  {
  }

  lemma {:induction false} MintedTables(st: State, now: Time, origin: Origin, access: Id, refresh: Id)
    requires TablesMatch(st) && NamesUsed(st) && KeysKnown(st) && refresh !in st.hist.used && access !in st.hist.used
    ensures TablesMatch(Minted(st, now, origin, access, refresh))
  {
    var next := Minted(st, now, origin, access, refresh);
    assert RefreshMatches(next.refresh, next.hist.lineage);
    assert AccessMatches(next.access, next.hist.twin, next.hist.lineage);
  }

  lemma {:induction false} MintedSound(st: State, now: Time, origin: Origin, access: Id, refresh: Id)
    requires NamesUsed(st) && KeysKnown(st) && ApprovedOnce(st) && TablesMatch(st)
    requires access !in st.hist.used && refresh !in st.hist.used && access != refresh
    requires LinesSound(st.hist.approvals, st.hist.exchanges, st.hist.lineage[refresh := origin])
    ensures Sound(Minted(st, now, origin, access, refresh))
  {
    MintedNames(st, now, origin, access, refresh);
    MintedTables(st, now, origin, access, refresh);
  }

  lemma {:induction false} RotatedOrigin(h: History, refresh: map<Id, Token>, token: Id, scopes: set<Scope>)
    requires RefreshMatches(refresh, h.lineage) && token in refresh && token in h.lineage
    ensures var o := h.lineage[token];
            Rotated(h, token, refresh[token].clientId, refresh[token].resource, scopes)
            == Origin(o.code, Some(token), o.depth + 1, o.clientId, o.resource, scopes)
    ensures refresh[token].scopes == h.lineage[token].scopes
  {
    assert TokenMatches(refresh[token], h.lineage[token]);
  }

  lemma {:induction false} RotatedLinesFor(h: History, refresh: map<Id, Token>, token: Id, next: Id, scopes: set<Scope>)
    requires LinesSound(h.approvals, h.exchanges, h.lineage) && RefreshMatches(refresh, h.lineage)
    requires token in refresh && token in h.lineage && next !in h.lineage && scopes <= refresh[token].scopes
    ensures LinesSound(h.approvals, h.exchanges,
                       h.lineage[next := Rotated(h, token, refresh[token].clientId, refresh[token].resource, scopes)])
  {
    RotatedOrigin(h, refresh, token, scopes);
    RotatedLines(h.approvals, h.exchanges, h.lineage, token, next, scopes);
  }

  lemma {:induction false} RotatedSound(st: State, now: Time, token: Id, scopes: set<Scope>, access: Id, refresh: Id)
    requires Sound(st) && token in st.refresh && scopes <= st.refresh[token].scopes
    requires access !in st.hist.used && refresh !in st.hist.used && access != refresh
    ensures var origin := Rotated(st.hist, token, st.refresh[token].clientId, st.refresh[token].resource, scopes);
            Sound(Minted(st, now, origin, access, refresh))
  {
    RotatedLinesFor(st.hist, st.refresh, token, refresh, scopes);
    MintedSound(st, now, Rotated(st.hist, token, st.refresh[token].clientId, st.refresh[token].resource, scopes), access, refresh);
  }

  // ------------------------------------------------------------------- every step

  lemma {:induction false} SaveIsQuiet(st: State, now: Time, fault: Fault)
    ensures Quiet(st, Save(st, now, fault))
  {
  }

  lemma {:induction false} SaveSound(st: State, now: Time, fault: Fault)
    requires Sound(st)
    ensures Sound(Save(st, now, fault))
  {
    SaveIsQuiet(st, now, fault);
    QuietKeepsSound(st, Save(st, now, fault));
  }

  lemma {:induction false} RegisterIsQuiet(st: State, now: Time, limited: bool, body: Registration, gone: set<Id>, id: Id, fault: Fault)
    ensures Quiet(st, Register(st, now, limited, body, gone, id, fault).st)
  {
    CleanedIsQuiet(st, gone);
    SaveIsQuiet(WithClient(RemoveClients(st, gone), body, id, now), now, fault);
  }

  lemma {:induction false} SweptIsQuiet(st: State, now: Time)
    ensures Quiet(st, st.(pending := Unexpired(st.pending, now)))
  {
  }

  lemma {:induction false} AskedIsQuiet(st: State, now: Time, p: Pending, id: Id)
    requires id !in st.hist.used
    ensures Quiet(st, st.(pending := Unexpired(st.pending, now)[id := p], hist := st.hist.(used := st.hist.used + {id})))
  {
  }

  lemma {:induction false} BeginIsQuiet(st: State, now: Time, limited: bool, q: AuthorizeRequest, id: Id)
    requires id !in st.hist.used
    ensures Quiet(st, Begin(st, now, limited, q, id).st)
  {
    SweptIsQuiet(st, now);
    if RequestError(st, q) == None { AskedIsQuiet(st, now, RequestFor(q, now), id); }
  }

  lemma {:induction false} RefusalIsQuiet(st: State, request: Id)
    requires request in st.pending
    ensures Quiet(st, Popped(st, request))
    ensures Popped(st, request).(pending := Popped(st, request).pending[request := st.pending[request]]) == st
  {
    assert Popped(st, request).pending[request := st.pending[request]] == st.pending;
  }

  lemma {:induction false} CompleteSound(st: State, now: Time, request: Id, approve: bool, secretOk: bool, limited: bool, code: Id, fault: Fault)
    requires Sound(st) && code !in st.hist.used
    ensures Sound(Complete(st, now, request, approve, secretOk, limited, code, fault).st)
  {
    if request in st.pending {
      RefusalIsQuiet(st, request);
      QuietKeepsSound(st, Popped(st, request));
      ApprovedSound(st, now, request, code);
      SaveSound(Approved(Popped(st, request), now, request, st.pending[request], code), now, fault);
    }
  }

  lemma {:induction false} TakenIsQuiet(st: State, code: Id)
    ensures Quiet(st, Taken(st, code))
  {
  }

  lemma {:induction false} ExchangeMintSound(st: State, now: Time, form: CodeForm, access: Id, refresh: Id, fault: Fault)
    requires Sound(st) && access !in st.hist.used && refresh !in st.hist.used && access != refresh
    requires form.code in st.codes && CodeError(st, now, form) == None
    ensures Sound(ExchangeCode(st, now, form, access, refresh, fault).st)
  {
    var origin := Origin(form.code, None, 0, form.clientId, st.codes[form.code].resource, st.codes[form.code].scopes);
    RootSound(st, now, form, access, refresh);
    SaveSound(Minted(Exchanged(st, now, form, refresh), now, origin, access, refresh), now, fault);
  }

  lemma {:induction false} ExchangeStepSound(st: State, now: Time, form: CodeForm, access: Id, refresh: Id, fault: Fault)
    requires Sound(st) && access !in st.hist.used && refresh !in st.hist.used && access != refresh
    ensures Sound(ExchangeCode(st, now, form, access, refresh, fault).st)
  {
    if form.code in st.codes {
      if CodeError(st, now, form) == None {
        ExchangeMintSound(st, now, form, access, refresh, fault);
      } else {
        TakenIsQuiet(st, form.code);
        QuietKeepsSound(st, Taken(st, form.code));
      }
    }
  }

  lemma {:induction false} RevokeIsQuiet(st: State, token: Id)
    ensures token in st.refresh ==> Quiet(st, RevokeRefresh(st, token))
    ensures token in st.access ==> Quiet(st, RevokeAccess(st, token))
  {
  }

  lemma {:induction false} TouchIsQuiet(st: State, c: Id, now: Time)
    ensures Quiet(st, Touched(st, c, now))
  {
  }

  lemma {:induction false} RotateMintSound(st: State, now: Time, form: RefreshForm, scopes: set<Scope>, access: Id, refresh: Id, fault: Fault)
    requires Sound(st) && access !in st.hist.used && refresh !in st.hist.used && access != refresh
    requires form.token in st.refresh && scopes <= st.refresh[form.token].scopes
    requires st.refresh[form.token].clientId == form.clientId
    ensures var origin := Rotated(st.hist, form.token, form.clientId, st.refresh[form.token].resource, scopes);
            Sound(Issue(Touched(st, form.clientId, now), now, origin, access, refresh, fault).st)
  {
    var touched := Touched(st, form.clientId, now);
    var origin := Rotated(st.hist, form.token, form.clientId, st.refresh[form.token].resource, scopes);
    TouchIsQuiet(st, form.clientId, now);
    QuietKeepsSound(st, touched);
    RotatedSound(touched, now, form.token, scopes, access, refresh);
    SaveSound(Minted(touched, now, origin, access, refresh), now, fault);
  }

  /** The ways a refresh request can leave the service. */
  lemma {:induction false} RotateCases(st: State, now: Time, form: RefreshForm, access: Id, refresh: Id, fault: Fault)
    ensures var next := RefreshTokens(st, now, form, access, refresh, fault).st;
            || next == st
            || (form.token in st.refresh && next == RevokeRefresh(st, form.token))
            || (&& form.token in st.refresh && st.refresh[form.token].clientId == form.clientId
                && RotatedScopes(st.refresh[form.token].scopes, form.scope).Some?
                && var scopes := RotatedScopes(st.refresh[form.token].scopes, form.scope).value;
                && scopes <= st.refresh[form.token].scopes
                && next == Issue(Touched(RevokeRefresh(st, form.token), form.clientId, now), now,
                                 Rotated(st.hist, form.token, form.clientId, st.refresh[form.token].resource, scopes),
                                 access, refresh, fault).st)
  {
  }

  lemma {:induction false} RotateSound(st: State, now: Time, form: RefreshForm, access: Id, refresh: Id, fault: Fault)
    requires Sound(st) && access !in st.hist.used && refresh !in st.hist.used && access != refresh
    ensures Sound(RefreshTokens(st, now, form, access, refresh, fault).st)
  {
    RotateCases(st, now, form, access, refresh, fault);
    if form.token in st.refresh {
      RevokeIsQuiet(st, form.token);
      QuietKeepsSound(st, RevokeRefresh(st, form.token));
      var scopes := RotatedScopes(st.refresh[form.token].scopes, form.scope);
      if scopes.Some? && scopes.value <= st.refresh[form.token].scopes && st.refresh[form.token].clientId == form.clientId {
        RotateMintSound(RevokeRefresh(st, form.token), now, form, scopes.value, access, refresh, fault);
      }
    }
  }

  lemma {:induction false} RevokeEitherSound(st: State, token: Id)
    requires Sound(st)
    ensures token in st.refresh ==> Sound(RevokeRefresh(st, token))
    ensures token in st.access ==> Sound(RevokeAccess(st, token))
  {
    RevokeIsQuiet(st, token);
    if token in st.refresh { QuietKeepsSound(st, RevokeRefresh(st, token)); }
    if token in st.access { QuietKeepsSound(st, RevokeAccess(st, token)); }
  }

  /** The ways a revocation can mark a token. */
  lemma {:induction false} RevokedCases(st: State, token: Id, hint: Hint)
    ensures var next := Revoked(st, token, hint);
            || next == st
            || (token in st.access && next == RevokeAccess(st, token))
            || (token in st.refresh && next == RevokeRefresh(st, token))
            || (token in st.access && token in st.refresh && next == RevokeRefresh(RevokeAccess(st, token), token))
  {
  }

  lemma {:induction false} RevokedSound(st: State, token: Id, hint: Hint)
    requires Sound(st)
    ensures Sound(Revoked(st, token, hint))
  {
    RevokedCases(st, token, hint);
    RevokeEitherSound(st, token);
    if token in st.access { RevokeEitherSound(RevokeAccess(st, token), token); }
  }

  lemma {:induction false} RevokeSound(st: State, now: Time, token: Id, hint: Hint, fault: Fault)
    requires Sound(st)
    ensures Sound(Revoke(st, now, token, hint, fault).st)
  {
    RevokedSound(st, token, hint);
    SaveSound(Revoked(st, token, hint), now, fault);
  }

  lemma {:induction false} LoadedSound(st: State)
    requires Sound(st)
    ensures Sound(Loaded(st, st.disk))
  {
    var next := Loaded(st, st.disk);
    assert NamesUsed(next) && KeysKnown(next) && ApprovedOnce(next);
    assert TablesMatch(next);
  }

  lemma {:induction false} CleanedIsQuiet(st: State, gone: set<Id>)
    ensures Quiet(st, RemoveClients(st, gone))
  {
  }

  lemma {:induction false} RestartSound(st: State, now: Time, gone: set<Id>, fault: Fault)
    requires Sound(st) && Readable(st)
    ensures Sound(Restart(st, now, gone, fault))
  {
    RestartReads(st);
    LoadedSound(st);
    CleanedIsQuiet(Loaded(st, st.disk), gone);
    var cleaned := RemoveClients(Loaded(st, st.disk), gone);
    QuietKeepsSound(Loaded(st, st.disk), cleaned);
    SaveSound(cleaned, now, fault);
    DownIsQuiet(Save(cleaned, now, fault));
    QuietKeepsSound(Save(cleaned, now, fault), Down(Save(cleaned, now, fault)));
  }

  lemma {:induction false} DownIsQuiet(st: State)
    ensures Quiet(st, Down(st))
  {
  }

  lemma {:induction false} StepSound(st: State, now: Time, act: Act)
    requires Sound(st) && Readable(st) && Legal(st, now, act)
    ensures Sound(Step(st, now, act))
  {
    match act
    case DoRegister(limited, body, gone, id, fault) =>
      RegisterIsQuiet(st, now, limited, body, gone, id, fault);
      QuietKeepsSound(st, Register(st, now, limited, body, gone, id, fault).st);
    case DoBegin(limited, q, id) =>
      BeginIsQuiet(st, now, limited, q, id);
      QuietKeepsSound(st, Begin(st, now, limited, q, id).st);
    case DoComplete(request, approve, secretOk, limited, code, fault) =>
      CompleteSound(st, now, request, approve, secretOk, limited, code, fault);
    case DoExchange(form, access, refresh, fault) => ExchangeStepSound(st, now, form, access, refresh, fault);
    case DoRefresh(form, access, refresh, fault) => RotateSound(st, now, form, access, refresh, fault);
    case DoRevoke(token, hint, fault) => RevokeSound(st, now, token, hint, fault);
    case DoRestart(gone, fault) => RestartSound(st, now, gone, fault);
  }

  lemma {:induction false} RunSound(st: State, ticks: seq<Tick>)
    requires Sound(st) && Readable(st) && Run(st, ticks)
    ensures Sound(End(st, ticks))
    decreases |ticks|
  {
    if ticks != [] {
      StepSound(st, ticks[0].now, ticks[0].act);
      StepStaysReadable(st, ticks[0].now, ticks[0].act);
      RunSound(Step(st, ticks[0].now, ticks[0].act), ticks[1..]);
    }
  }

  lemma {:induction false} AlwaysSound(st: State)
    requires Reachable(st)
    ensures Sound(st)
  {
    var ticks :| Run(Opening(), ticks) && End(Opening(), ticks) == st;
    RunSound(Opening(), ticks);
  }

  // --------------------------------------------------------------- what it means

  /** A line of refresh tokens from a root to a token: each replaced the one before it, for the
      same code, client and resource, and never with more scopes. */
  ghost predicate Line(h: History, line: seq<Id>, code: Id) {
    && line != []
    && (forall i :: 0 <= i < |line| ==> line[i] in h.lineage && h.lineage[line[i]].code == code)
    && h.lineage[line[0]].parent == None
    && forall i :: 0 < i < |line| ==>
         h.lineage[line[i]].parent == Some(line[i - 1]) && h.lineage[line[i]].scopes <= h.lineage[line[i - 1]].scopes
  }

  lemma {:induction false} LineTo(h: History, r: Id) returns (line: seq<Id>)
    requires LinesSound(h.approvals, h.exchanges, h.lineage) && r in h.lineage
    ensures Line(h, line, h.lineage[r].code) && line[|line| - 1] == r
    ensures line[0] == h.exchanges[h.lineage[r].code].refresh
    decreases h.lineage[r].depth
  {
    assert OriginSound(r, h.approvals, h.exchanges, h.lineage);
    if h.lineage[r].parent == None {
      line := [r];
    } else {
      var before := LineTo(h, h.lineage[r].parent.value);
      line := before + [r];
    }
  }

  /** Every bearer token that is accepted in a sound state goes back to one exchange of one approved code: by
      the client, redirect and resource the owner approved, with the verifier of the approved
      challenge, through a line of rotations, with no more scopes than were approved. */
  lemma {:induction false} SoundBearer(st: State, now: Time, bearer: Id, required: set<Scope>) returns (code: Id, line: seq<Id>)
    requires Sound(st) && Validate(st, now, Some(bearer), required).Accepted?
    ensures code in st.hist.exchanges && code in st.hist.approvals && code !in st.codes
    ensures var token, shown, asked := st.access[bearer], st.hist.exchanges[code], st.hist.approvals[code].pending;
            && asked.challengeMethod == MethodS256 && asked.challenge == S256(shown.verifier)
            && token.clientId == shown.clientId == asked.clientId
            && shown.redirectUri == asked.redirectUri
            && token.resource == shown.resource == asked.resource == Relay
            && token.scopes <= asked.scopes
    ensures st.hist.approvals[code].request !in st.pending
    ensures Line(st.hist, line, code) && line[0] == st.hist.exchanges[code].refresh
    ensures bearer in st.hist.twin && line[|line| - 1] == st.hist.twin[bearer]
    ensures st.access[bearer].scopes == st.hist.lineage[line[|line| - 1]].scopes
  {
    var h, r := st.hist, st.hist.twin[bearer];
    assert TokenMatches(st.access[bearer], h.lineage[r]);
    assert OriginSound(r, h.approvals, h.exchanges, h.lineage);
    code := h.lineage[r].code;
    assert ExchangeSound(code, h.approvals, h.exchanges, h.lineage);
    line := LineTo(h, r);
  }

  /** No code is the root of two token pairs, and no request of two codes. */
  lemma {:induction false} SoundLines(st: State, r1: Id, r2: Id)
    requires Sound(st) && r1 in st.hist.lineage && r2 in st.hist.lineage
    requires st.hist.lineage[r1].parent == None && st.hist.lineage[r2].parent == None
    ensures st.hist.lineage[r1].code in st.hist.approvals && st.hist.lineage[r2].code in st.hist.approvals
    ensures st.hist.approvals[st.hist.lineage[r1].code].request == st.hist.approvals[st.hist.lineage[r2].code].request ==> r1 == r2
  {
    assert OriginSound(r1, st.hist.approvals, st.hist.exchanges, st.hist.lineage);
    assert OriginSound(r2, st.hist.approvals, st.hist.exchanges, st.hist.lineage);
  }
}
