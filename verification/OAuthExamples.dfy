/**
 Runs from the very start that reach what the theorems speak of: small states, built one
 operation at a time.
 */
module OAuthExamples {

  import opened Options
  import opened OAuth
  import opened OAuthStore
  import opened OAuthRuns
  import opened OAuthRegistered
  import opened OAuthCleanup
  import opened OAuthProvenance
  import opened OAuthFlow
  import opened OAuthHistory
  import opened OAuthTokens
  import opened SplitDecision
  import opened OAuthRefused

  function Home(): Uri {
    Uri("https", "client.example", "client.example", "", "/callback")
  }

  function Body(): Registration {
    Registration([Home()], None, [], [], None)
  }

  const KEY: Verifier := 7

  function AskFor(c: Id): AuthorizeRequest {
    AuthorizeRequest(c, Home(), CodeResponse, None, Some(S256(KEY)), MethodS256, Relay, Absent)
  }

  /** The service runs and has nothing yet. */
  ghost predicate JustStarted(st: State) {
    && st.up && st.clock == 1.0 && st.clients.Keys == {} && st.pending.Keys == {} && st.hist.used == {} && st.refresh.Keys == {}
  }

  lemma {:induction false} NothingToClean(st: State, now: Time)
    requires st.clients.Keys == {}
    ensures CleanedAway(st, now, 0, {})
  {
    assert Stale(st, now) == {} && Evictable(st, now) == {} && Inactive(st, now) == {};
  }

  lemma {:induction false} FirstStart(st: State)
    requires Readable(st) && st.disk.clients.Keys == {} && st.disk.refresh.Keys == {} && st.hist.used == {} && st.clock == 0.0
    ensures Legal(st, 1.0, DoRestart({}, Saved)) && JustStarted(Step(st, 1.0, DoRestart({}, Saved)))
  {
    RestartReads(st);
    NothingToClean(Loaded(st, st.disk), 1.0);
  }

  lemma {:induction false} Started() returns (st: State)
    ensures Reachable(st) && JustStarted(st)
  {
    assert Run(Opening(), []) && End(Opening(), []) == Opening();
    FirstStart(Opening());
    ReachableGoesOn(Opening(), 1.0, DoRestart({}, Saved));
    st := Step(Opening(), 1.0, DoRestart({}, Saved));
  }

  lemma {:induction false} NobodyIdle(st: State, now: Time)
    requires forall c :: c in st.clients ==> now - st.clients[c].lastUsedAt < INACTIVE_CLIENT_TTL
    requires |st.clients| < MAX_INACTIVE_DCR_CLIENTS
    ensures CleanedAway(st, now, 1, {}) && |Inactive(st, now)| < MAX_INACTIVE_DCR_CLIENTS
    ensures RemoveClients(st, {}) == st
  {
    assert Stale(st, now) == {};
    Fewer(Inactive(st, now), st.clients.Keys);
    assert RemoveClients(st, {}).clients == st.clients;
    assert RemoveClients(st, {}).refresh == st.refresh;
  }

  /** While there are few clients and none is stale, another one can register. */
  lemma {:induction false} CanRegister(st: State, now: Time, id: Id)
    requires st.up && 0.0 < now && st.clock <= now && id !in st.hist.used && id !in st.clients
    requires forall c :: c in st.clients ==> now - st.clients[c].lastUsedAt < INACTIVE_CLIENT_TTL
    requires |st.clients| < MAX_INACTIVE_DCR_CLIENTS
    ensures var act := DoRegister(false, Body(), {}, id, Saved);
            var next := Step(st, now, act);
            && Legal(st, now, act) && next.up && next.clock == now
            && next.clients == st.clients[id := NewClient(Body(), id, now)]
            && next.pending == st.pending && next.refresh.Keys <= st.refresh.Keys && next.hist == st.hist.(used := st.hist.used + {id})
  {
    NobodyIdle(st, now);
    assert RegistrationError(Body()) == None;
  }

  /** A registered client below both caps can open a consent page. */
  lemma {:induction false} CanAsk(st: State, now: Time, c: Id, id: Id)
    requires st.up && 0.0 < now && st.clock <= now && id !in st.hist.used
    requires c in st.clients && st.clients[c].redirectUris == [Home()]
    requires |Unexpired(st.pending, now)| < MAX_PENDING_AUTHORIZATIONS
    requires |PendingOf(Unexpired(st.pending, now), c)| < MAX_PENDING_PER_CLIENT
    ensures var act := DoBegin(false, AskFor(c), id);
            && Legal(st, now, act) && RequestError(st, AskFor(c)) == None
            && Step(st, now, act) == st.(pending := Unexpired(st.pending, now)[id := RequestFor(AskFor(c), now)],
                                         hist := st.hist.(used := st.hist.used + {id}), clock := now)
  {
  }

  // ------------------------------------------------------------------- a saved token

  const TOKEN: Token := Token(0, Relay, SUPPORTED, 1.0 + REFRESH_TTL, false)

  /** Client 0 has a refresh token 4, in memory and in the file, and nobody else is registered. */
  ghost predicate HasToken(st: State) {
    && st.up && st.clock == 1.0 && st.hist.used == {0, 1, 2, 3, 4}
    && st.disk == Disk(st.clients, st.refresh) && st.clients.Keys == {0}
    && 4 in st.refresh && st.refresh[4] == TOKEN
  }

  ghost predicate HasClient(st: State) {
    && st.up && st.clock == 1.0 && st.hist.used == {0} && st.clients.Keys == {0} && st.clients[0].redirectUris == [Home()]
    && st.pending.Keys == {}
  }

  lemma {:induction false} WithOneClient() returns (st: State)
    ensures Reachable(st) && HasClient(st)
  {
    var blank := Started();
    CanRegister(blank, 1.0, 0);
    ReachableGoesOn(blank, 1.0, DoRegister(false, Body(), {}, 0, Saved));
    st := Step(blank, 1.0, DoRegister(false, Body(), {}, 0, Saved));
  }

  ghost predicate HasPage(st: State) {
    && st.up && st.clock == 1.0 && st.hist.used == {0, 1} && st.clients.Keys == {0}
    && 1 in st.pending && st.pending[1] == RequestFor(AskFor(0), 1.0)
  }

  lemma {:induction false} WithPage() returns (st: State)
    ensures Reachable(st) && HasPage(st)
  {
    var one := WithOneClient();
    assert |one.pending.Keys| == 0;
    Fewer(Unexpired(one.pending, 1.0).Keys, one.pending.Keys);
    Fewer(PendingOf(Unexpired(one.pending, 1.0), 0), one.pending.Keys);
    CanAsk(one, 1.0, 0, 1);
    ReachableGoesOn(one, 1.0, DoBegin(false, AskFor(0), 1));
    st := Step(one, 1.0, DoBegin(false, AskFor(0), 1));
  }

  ghost predicate HasCode(st: State) {
    && st.up && st.clock == 1.0 && st.hist.used == {0, 1, 2} && st.clients.Keys == {0}
    && 2 in st.codes && st.codes[2] == CodeFor(RequestFor(AskFor(0), 1.0), 1.0)
  }

  lemma {:induction false} WithCode() returns (st: State)
    ensures Reachable(st) && HasCode(st)
  {
    var page := WithPage();
    var act := DoComplete(1, true, true, false, 2, Saved);
    ApprovalGivesACode(page, 1.0, 1, 2);
    ReachableGoesOn(page, 1.0, act);
    st := Step(page, 1.0, act);
    CompleteUp(page, 1.0, 1, true, true, false, 2, Saved);
    CompleteHistory(page, 1.0, 1, true, true, false, 2, Saved);
  }

  lemma {:induction false} WithToken() returns (st: State)
    ensures Reachable(st) && HasToken(st)
  {
    var coded := WithCode();
    var form := CodeForm(2, 0, Home(), Relay, Some(KEY));
    CodeGivesTokens(coded, 1.0, form, 3, 4);
    ReachableGoesOn(coded, 1.0, DoExchange(form, 3, 4, Saved));
    st := Step(coded, 1.0, DoExchange(form, 3, 4, Saved));
    ExchangeUp(coded, 1.0, form, 3, 4, Saved);
    ExchangeWrites(coded, 1.0, form, 3, 4, Saved);
    ExchangeHistory(coded, 1.0, form, 3, 4, Saved);
    ExchangeIsSameOrFewer(coded, 1.0, form, 3, 4, Saved);
    TouchKeys(coded.clients, 0, 1.0);
  }

  lemma {:induction false} InTheHall(st: State)
    requires Reachable(st)
    ensures HallReachable(Hall(st, map[]))
  {
    var ticks :| Run(Opening(), ticks) && End(Opening(), ticks) == st;
    ReachableIsHallReachable(ticks);
  }

  /** The only client's token keeps it from being cleaned away on a restart. */
  lemma {:induction false} RestartWithToken(st: State)
    requires Readable(st) && st.clock == 1.0
    requires st.disk.clients.Keys == {0} && 4 in st.disk.refresh && st.disk.refresh[4] == TOKEN
    ensures Legal(st, 1.0, DoRestart({}, Saved)) && Good(Step(st, 1.0, DoRestart({}, Saved)), 4)
  {
    RestartReads(st);
    var loaded := Loaded(st, st.disk);
    assert LiveRefresh(loaded.refresh, 0, 1.0);
    assert Evictable(loaded, 1.0) == {} && Stale(loaded, 1.0) == {};
    RestartKeepsLive(st, 1.0, {}, Saved, 4);
  }

  const RESTART: Move := Serve(1.0, DoRestart({}, Saved))

  lemma {:induction false} BackByRestart(h: Hall)
    requires HallSound(h) && h.st.clock == 1.0
    requires h.st.disk.clients.Keys == {0} && 4 in h.st.disk.refresh && h.st.disk.refresh[4] == TOKEN
    ensures Moves(h, [RESTART]) && GoodAgain(h, [RESTART], 4)
  {
    RestartWithToken(h.st);
    OneMove(h, RESTART);
    GoodAtTheEnd(h, [RESTART], 4);
  }

  lemma {:induction false} OneMove(h: Hall, m: Move)
    requires Allowed(h, m)
    ensures Moves(h, [m]) && Finally(h, [m]) == After(h, m)
  {
    MovesGoOn(h, [], m);
    assert [] + [m] == [m];
  }

  lemma {:induction false} GoodAtTheEnd(h: Hall, ms: seq<Move>, r: Id)
    requires Moves(h, ms) && Good(Finally(h, ms).st, r)
    ensures GoodAgain(h, ms, r)
  {
    assert ms[..|ms|] == ms;
  }

  const FORM: RefreshForm := RefreshForm(4, 0, None, Names({OtherScope("x")}))

  lemma {:induction false} ScopeIsRefused(st: State)
    requires HasToken(st)
    ensures RefreshError(st, 1.0, FORM) == None && RefreshTokens(st, 1.0, FORM, 5, 6, Saved).reply == Failed(InvalidScope)
    ensures !LiveIn(RefreshTokens(st, 1.0, FORM, 5, 6, Saved).st.refresh, 4, 1.0)
  {
    assert OtherScope("x") in {OtherScope("x")} && OtherScope("x") !in SUPPORTED;
    assert RotatedScopes(SUPPORTED, FORM.scope) == None;
    RotateKills(st, 1.0, FORM, 5, 6, Saved);
  }

  lemma {:induction false} RefusalStep(st: State)
    requires HasToken(st)
    ensures var act, next := DoRefresh(FORM, 5, 6, Saved), Step(st, 1.0, DoRefresh(FORM, 5, 6, Saved));
            && Legal(st, 1.0, act) && Perform(st, 1.0, act).reply == Failed(InvalidScope)
            && next.disk == st.disk && next.clock == 1.0 && !Good(next, 4)
  {
    ScopeIsRefused(st);
    StepWrites(st, 1.0, DoRefresh(FORM, 5, 6, Saved));
  }

  /** A run from the start in which a refresh token refused for its scopes, and so spent, is good
      again after a restart. */
  lemma {:induction false} RefusedScopeComesBack() returns (h: Hall)
    ensures HallReachable(h) && Good(h.st, 4)
    ensures var m := Serve(1.0, DoRefresh(FORM, 5, 6, Saved));
            && Allowed(h, m) && Perform(h.st, 1.0, m.act).reply == Failed(InvalidScope)
            && !Good(After(h, m).st, 4)
            && Moves(After(h, m), [RESTART]) && GoodAgain(After(h, m), [RESTART], 4)
  {
    var st := WithToken();
    h := Hall(st, map[]);
    InTheHall(st);
    AlwaysHallSound(h);
    RefusalStep(st);
    MoveSound(h, Serve(1.0, DoRefresh(FORM, 5, 6, Saved)));
    BackByRestart(After(h, Serve(1.0, DoRefresh(FORM, 5, 6, Saved))));
  }

  /** And one in which a revocation whose save failed before the file was replaced is undone by a restart. */
  lemma {:induction false} LostRevocationComesBack() returns (h: Hall)
    ensures HallReachable(h) && Good(h.st, 4)
    ensures var m := Serve(1.0, DoRevoke(4, RefreshHint, FailedBefore));
            && Allowed(h, m) && Perform(h.st, 1.0, m.act).reply == Failed(ServerError)
            && !Good(After(h, m).st, 4)
            && Moves(After(h, m), [RESTART]) && GoodAgain(After(h, m), [RESTART], 4)
  {
    var st := WithToken();
    h := Hall(st, map[]);
    InTheHall(st);
    AlwaysApart(h);
    RevokeKills(st, 1.0, 4, RefreshHint, FailedBefore);
    var m := Serve(1.0, DoRevoke(4, RefreshHint, FailedBefore));
    MoveSound(h, m);
    MoveWrites(h, m);
    BackByRestart(After(h, m));
  }
}
