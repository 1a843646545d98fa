/**
 The service object of relay/oauth.py: its tables updated in place, request by request, each
 method proved to do exactly what OAuth.dfy says of it.
 */
module OAuthService {

  import opened Options
  import opened OAuth
  import opened OAuthStore
  import opened OAuthRuns
  import opened OAuthCleanup
  import opened SplitDecision

  /** The bookkeeping of the capacity phase of a cleanup: some of the oldest are gone, and not
      more than the budgets ask for. */
  ghost predicate Under(st: State, now: Time, reserve: nat, gone: set<Id>) {
    var stale, all := Stale(st, now), Evictable(st, now);
    && OldestPicked(st.clients, stale, all, gone)
    && |gone| - |stale| <= Least(Excess(|Inactive(st, now)| - |stale|, |st.clients| - |stale|, reserve), |all| - |stale|)
  }

  lemma {:induction false} UnderAtFirst(st: State, now: Time, reserve: nat)
    ensures Under(st, now, reserve, Stale(st, now))
  {
    Fewer(Stale(st, now), Evictable(st, now));
  }

  lemma {:induction false} ExcessShrinks(inactive: int, total: int, reserve: nat, taken: nat)
    ensures Excess(inactive - taken, total - taken, reserve) == 0 ==> Excess(inactive, total, reserve) <= taken
    ensures Excess(inactive - taken, total - taken, reserve) > 0 ==> taken < Excess(inactive, total, reserve)
  {
  }

  lemma {:induction false} UnderEnds(st: State, now: Time, reserve: nat, gone: set<Id>)
    requires Under(st, now, reserve, gone)
    requires Excess(|Inactive(st, now)| - |gone|, |st.clients| - |gone|, reserve) == 0 || gone == Evictable(st, now)
    ensures CleanedAway(st, now, reserve, gone)
  {
    var stale := Stale(st, now);
    Fewer(stale, gone);
    ExcessShrinks(|Inactive(st, now)| - |stale|, |st.clients| - |stale|, reserve, |gone| - |stale|);
  }

  lemma {:induction false} PickOneMore(clients: map<Id, Client>, stale: set<Id>, all: set<Id>, gone: set<Id>, victim: Id)
    requires OldestPicked(clients, stale, all, gone) && victim in all && victim !in gone
    requires forall k :: k in all && k !in gone && k != victim ==> Before(clients[victim], clients[k])
    ensures OldestPicked(clients, stale, all, gone + {victim})
    ensures |stale| <= |gone| && |gone + {victim}| == |gone| + 1 <= |all|
  {
    Fewer(stale, gone);
    Fewer(gone + {victim}, all);
  }

  lemma {:induction false} UnderGrows(st: State, now: Time, reserve: nat, gone: set<Id>, victim: Id)
    requires Under(st, now, reserve, gone) && victim in Evictable(st, now) && victim !in gone
    requires Excess(|Inactive(st, now)| - |gone|, |st.clients| - |gone|, reserve) > 0
    requires forall k :: k in Evictable(st, now) && k !in gone && k != victim ==> Before(st.clients[victim], st.clients[k])
    ensures Under(st, now, reserve, gone + {victim})
  {
    var stale := Stale(st, now);
    PickOneMore(st.clients, stale, Evictable(st, now), gone, victim);
    ExcessShrinks(|Inactive(st, now)| - |stale|, |st.clients| - |stale|, reserve, |gone| - |stale|);
  }

  lemma {:induction false} RemoveTwice(st: State, a: set<Id>, b: set<Id>)
    ensures RemoveClients(RemoveClients(st, a), b) == RemoveClients(st, a + b)
  {
  }

  lemma {:induction false} RemoveNone(st: State)
    ensures RemoveClients(st, {}) == st
  {
    assert RemoveClients(st, {}).clients == st.clients;
    assert RemoveClients(st, {}).refresh == st.refresh;
  }

  lemma {:induction false} StaleAfter(st: State, gone: set<Id>, c: Id, now: Time)
    requires c !in gone
    ensures c in Stale(RemoveClients(st, gone), now) <==> c in Stale(st, now)
  {
    LiveAfter(st, gone, c, now);
  }

  lemma {:induction false} CapacityStep(first: State, now: Time, reserve: nat, gone: set<Id>, victim: Id)
    requires Under(first, now, reserve, gone)
    requires var st := RemoveClients(first, gone);
             && victim in Evictable(st, now) && Excess(|Inactive(st, now)|, |st.clients|, reserve) > 0
             && forall k :: k in Evictable(st, now) && k != victim ==> Before(st.clients[victim], st.clients[k])
    ensures Under(first, now, reserve, gone + {victim})
  {
    var st := RemoveClients(first, gone);
    SizesAfter(first, now, gone);
    InactiveAfter(first, gone, now);
    forall k | k in Evictable(first, now) && k !in gone && k != victim ensures Before(first.clients[victim], first.clients[k]) {
      assert k in Evictable(st, now);
    }
    UnderGrows(first, now, reserve, gone, victim);
  }

  lemma {:induction false} CapacityStop(first: State, now: Time, reserve: nat, gone: set<Id>)
    requires Under(first, now, reserve, gone)
    requires var st := RemoveClients(first, gone);
             Excess(|Inactive(st, now)|, |st.clients|, reserve) == 0 || Evictable(st, now) == {}
    ensures CleanedAway(first, now, reserve, gone)
  {
    SizesAfter(first, now, gone);
    InactiveAfter(first, gone, now);
    if Evictable(RemoveClients(first, gone), now) == {} { assert gone == Evictable(first, now); }
    UnderEnds(first, now, reserve, gone);
  }

  lemma {:induction false} RemovedWellFormed(st: State, gone: set<Id>)
    requires AllWellFormed(st.clients)
    ensures AllWellFormed(RemoveClients(st, gone).clients)
  {
  }

  lemma {:induction false} OneFewer(clients: map<Id, Client>, c: Id)
    requires c in clients
    ensures |clients - {c}| < |clients|
  {
    assert (clients - {c}).Keys + {c} == clients.Keys;
  }

  class Service {
    var clients: map<Id, Client>
    var codes: map<Id, Code>
    var access: map<Id, Token>
    var refresh: map<Id, Token>
    var pending: map<Id, Pending>
    var disk: Disk
    var up: bool
    ghost var hist: History
    ghost var clock: Time

    ghost function St(): State
      reads this
    {
      State(clients, codes, access, refresh, pending, disk, hist, up, clock)
    }

    ghost predicate Valid()
      reads this
    {
      AllWellFormed(clients) && AllWellFormed(disk.clients)
    }

    // ------------------------------------------------------------------ saving

    /** Drop refresh tokens that are expired and revoked, then write the file. */
    method Persist(now: Time, fault: Fault) returns (ok: bool)
      modifies this
      ensures St() == Save(old(St()), now, fault) && ok == (fault == Saved)
    {
      var todo := refresh.Keys;
      while todo != {}
        invariant todo <= old(refresh).Keys && refresh.Keys <= old(refresh).Keys
        invariant forall t :: t in refresh ==> refresh[t] == old(refresh)[t]
        invariant forall t :: t in todo ==> t in refresh
        invariant forall t :: t in old(refresh) && t !in todo ==>
                    (t in refresh <==> !(old(refresh)[t].expiresAt < now && old(refresh)[t].revoked))
        invariant St() == old(St()).(refresh := refresh)
        decreases |todo|
      {
        var t :| t in todo;
        todo := todo - {t};
        if refresh[t].expiresAt < now && refresh[t].revoked { refresh := refresh - {t}; }
      }
      assert refresh == Save(old(St()), now, fault).refresh;
      if fault != FailedBefore { disk := Disk(clients, refresh); }
      ok := fault == Saved;
    }

    // ------------------------------------------------------------ idle clients

    method ClientHasLiveRefresh(c: Id, now: Time) returns (live: bool)
      ensures live == LiveRefresh(refresh, c, now)
    {
      var todo := refresh.Keys;
      while todo != {}
        invariant todo <= refresh.Keys
        invariant forall t :: t in refresh && t !in todo ==>
                    !(refresh[t].clientId == c && !refresh[t].revoked && refresh[t].expiresAt >= now)
        decreases |todo|
      {
        var t :| t in todo;
        todo := todo - {t};
        if refresh[t].clientId == c && !refresh[t].revoked && refresh[t].expiresAt >= now { return true; }
      }
      return false;
    }

    method ClientHasLivePending(c: Id, now: Time) returns (live: bool)
      ensures live == LivePending(pending, c, now)
    {
      var todo := pending.Keys;
      while todo != {}
        invariant todo <= pending.Keys
        invariant forall p :: p in pending && p !in todo ==> !(pending[p].clientId == c && pending[p].expiresAt >= now)
        decreases |todo|
      {
        var p :| p in todo;
        todo := todo - {p};
        if pending[p].clientId == c && pending[p].expiresAt >= now { return true; }
      }
      return false;
    }

    method RemoveTokensOf(c: Id)
      modifies `refresh
      ensures refresh == map t | t in old(refresh) && old(refresh)[t].clientId != c :: old(refresh)[t]
    {
      var todo := refresh.Keys;
      while todo != {}
        invariant todo <= old(refresh).Keys && refresh.Keys <= old(refresh).Keys
        invariant forall t :: t in refresh ==> refresh[t] == old(refresh)[t]
        invariant forall t :: t in todo ==> t in refresh
        invariant forall t :: t in old(refresh) && t !in todo ==> (t in refresh <==> old(refresh)[t].clientId != c)
        decreases |todo|
      {
        var t :| t in todo;
        todo := todo - {t};
        if refresh[t].clientId == c { refresh := refresh - {t}; }
      }
    }

    method RemoveClient(c: Id)
      modifies `clients, `refresh
      ensures St() == RemoveClients(old(St()), {c}) && clients == old(clients) - {c}
    {
      RemoveTokensOf(c);
      clients := clients - {c};
      assert refresh == RemoveClients(old(St()), {c}).refresh;
      assert clients == RemoveClients(old(St()), {c}).clients;
    }

    /** How many clients have no live refresh token. */
    method InactiveOccupancy(now: Time) returns (n: nat)
      ensures n == |Inactive(St(), now)|
    {
      var todo := clients.Keys;
      n := 0;
      ghost var seen: set<Id> := {};
      while todo != {}
        invariant todo <= clients.Keys
        invariant seen == set c | c in clients && c !in todo && !LiveRefresh(refresh, c, now)
        invariant n == |seen|
        decreases |todo|
      {
        var c :| c in todo;
        todo := todo - {c};
        var live := ClientHasLiveRefresh(c, now);
        if !live { n, seen := n + 1, seen + {c}; }
      }
      assert seen == Inactive(St(), now);
    }

    /** The clients that may be evicted. */
    method InactiveClients(now: Time) returns (idle: set<Id>)
      ensures idle == Evictable(St(), now)
    {
      var todo := clients.Keys;
      idle := {};
      while todo != {}
        invariant todo <= clients.Keys
        invariant idle == set c | c in clients && c !in todo && !LiveRefresh(refresh, c, now) && !LivePending(pending, c, now)
        decreases |todo|
      {
        var c :| c in todo;
        todo := todo - {c};
        var live := ClientHasLiveRefresh(c, now);
        var open := ClientHasLivePending(c, now);
        if !live && !open { idle := idle + {c}; }
      }
    }

    /** The first of the idle clients in the order of issue time, last use and id. */
    method Oldest(idle: set<Id>) returns (victim: Id)
      requires idle != {} && idle <= clients.Keys && AllWellFormed(clients)
      ensures victim in idle && forall k :: k in idle && k != victim ==> Before(clients[victim], clients[k])
    {
      victim :| victim in idle;
      var todo := idle - {victim};
      while todo != {}
        invariant todo <= idle && victim in idle && victim !in todo
        invariant forall k :: k in idle && k !in todo && k != victim ==> Before(clients[victim], clients[k])
        decreases |todo|
      {
        var c :| c in todo;
        todo := todo - {c};
        if Before(clients[c], clients[victim]) { victim := c; }
      }
    }

    method IsStale(c: Id, now: Time) returns (stale: bool)
      requires c in clients
      ensures stale == (c in Stale(St(), now))
    {
      var live := ClientHasLiveRefresh(c, now);
      if live { return false; }
      var open := ClientHasLivePending(c, now);
      if open { return false; }
      stale := !(now - clients[c].lastUsedAt < INACTIVE_CLIENT_TTL);
    }

    method RemoveStale(now: Time) returns (gone: set<Id>)
      modifies `clients, `refresh
      ensures gone == Stale(old(St()), now) && St() == RemoveClients(old(St()), gone)
    {
      var todo := clients.Keys;
      gone := {};
      ghost var first := St();
      RemoveNone(first);
      while todo != {}
        invariant todo <= first.clients.Keys && gone !! todo
        invariant todo <= clients.Keys
        invariant forall c :: c in gone ==> c in Stale(first, now)
        invariant forall c :: c in Stale(first, now) && c !in todo ==> c in gone
        invariant St() == RemoveClients(first, gone)
        decreases |todo|
      {
        var c :| c in todo;
        todo := todo - {c};
        StaleAfter(first, gone, c, now);
        var stale := IsStale(c, now);
        if stale {
          RemoveTwice(first, gone, {c});
          RemoveClient(c);
          gone := gone + {c};
        }
      }
      assert gone == Stale(first, now);
    }

    /** Evict idle clients, stale ones first and then the oldest, until the budgets are met or
        nobody is left to evict. */
    method CleanupInactiveClients(now: Time, reserve: nat) returns (gone: set<Id>)
      requires AllWellFormed(clients)
      modifies `clients, `refresh
      ensures St() == RemoveClients(old(St()), gone) && CleanedAway(old(St()), now, reserve, gone)
    {
      ghost var first := St();
      gone := RemoveStale(now);
      UnderAtFirst(first, now, reserve);
      gone := CapacityPhase(now, reserve, gone, first);
    }

    method CapacityPhase(now: Time, reserve: nat, stale: set<Id>, ghost first: State) returns (gone: set<Id>)
      requires St() == RemoveClients(first, stale) && AllWellFormed(first.clients) && Under(first, now, reserve, stale)
      modifies `clients, `refresh
      ensures St() == RemoveClients(first, gone) && CleanedAway(first, now, reserve, gone)
    {
      gone := stale;
      while true
        invariant St() == RemoveClients(first, gone) && Under(first, now, reserve, gone)
        decreases |clients|
      {
        var idle := InactiveClients(now);
        var over := OverBudget(now, reserve);
        if !over || idle == {} {
          CapacityStop(first, now, reserve, gone);
          break;
        }
        var victim := EvictOldest(idle, first, now, reserve, gone);
        gone := gone + {victim};
      }
    }

    method OverBudget(now: Time, reserve: nat) returns (over: bool)
      ensures over == (Excess(|Inactive(St(), now)|, |clients|, reserve) > 0)
    {
      var inactiveBudget := if reserve <= MAX_INACTIVE_DCR_CLIENTS then MAX_INACTIVE_DCR_CLIENTS - reserve else 0;
      var totalBudget := if reserve <= MAX_DCR_CLIENTS then MAX_DCR_CLIENTS - reserve else 0;
      var occupancy := InactiveOccupancy(now);
      over := occupancy > inactiveBudget || |clients| > totalBudget;
    }

    /** One turn of the capacity phase. */
    method EvictOldest(idle: set<Id>, ghost first: State, now: Time, reserve: nat, ghost gone: set<Id>) returns (victim: Id)
      requires St() == RemoveClients(first, gone) && AllWellFormed(first.clients) && Under(first, now, reserve, gone)
      requires idle == Evictable(St(), now) && idle != {}
      requires Excess(|Inactive(St(), now)|, |clients|, reserve) > 0
      modifies `clients, `refresh
      ensures St() == RemoveClients(first, gone + {victim}) && Under(first, now, reserve, gone + {victim})
      ensures |clients| < |old(clients)|
    {
      RemovedWellFormed(first, gone);
      victim := Oldest(idle);
      CapacityStep(first, now, reserve, gone, victim);
      RemoveTwice(first, gone, {victim});
      RemoveClient(victim);
      OneFewer(old(clients), victim);
    }

    // ---------------------------------------------------------------- registration

    method RegistrationCheck(body: Registration) returns (error: Option<Error>)
      ensures error == RegistrationError(body)
    {
      if body.redirectUris == [] { return Some(InvalidRedirectUri); }
      for i := 0 to |body.redirectUris|
        invariant forall j :: 0 <= j < i ==> RedirectSafe(body.redirectUris[j])
      {
        if !RedirectSafe(body.redirectUris[i]) { return Some(InvalidRedirectUri); }
      }
      if OrElse(body.authMethod, NoAuth) != NoAuth { return Some(InvalidMetadata); }
      for i := 0 to |body.grantTypes|
        invariant forall j :: 0 <= j < i ==> !body.grantTypes[j].OtherGrant?
      {
        if body.grantTypes[i].OtherGrant? { return Some(InvalidMetadata); }
      }
      for i := 0 to |body.responseTypes|
        invariant forall j :: 0 <= j < i ==> body.responseTypes[j] == CodeResponse
      {
        if body.responseTypes[i] != CodeResponse { return Some(InvalidMetadata); }
      }
      return None;
    }

    method RegisterClient(now: Time, limited: bool, body: Registration, id: Id, fault: Fault)
      returns (reply: Reply, ghost gone: set<Id>)
      requires Valid()
      modifies this
      ensures Outcome(St(), reply) == Register(old(St()), now, limited, body, gone, id, fault)
      ensures !limited ==> CleanedAway(old(St()), now, 1, gone)
    {
      gone := {};
      if limited { return Failed(RateLimited), {}; }
      gone := CleanupInactiveClients(now, 1);
      var occupancy := InactiveOccupancy(now);
      if occupancy >= MAX_INACTIVE_DCR_CLIENTS || |clients| >= MAX_DCR_CLIENTS { return Failed(LimitReached), gone; }
      var error := RegistrationCheck(body);
      if error.Some? { return Failed(error.value), gone; }
      clients := clients[id := NewClient(body, id, now)];
      hist := hist.(used := hist.used + {id});
      var ok := Persist(now, fault);
      reply := if ok then Registered(id) else Failed(ServerError);
    }

    // --------------------------------------------------------------- authorization

    /** Sweep expired pending requests, and only those. */
    method CleanupPending(now: Time)
      modifies `pending
      ensures pending == Unexpired(old(pending), now)
    {
      var todo := pending.Keys;
      while todo != {}
        invariant todo <= old(pending).Keys && pending.Keys <= old(pending).Keys
        invariant forall p :: p in pending ==> pending[p] == old(pending)[p]
        invariant forall p :: p in todo ==> p in pending
        invariant forall p :: p in old(pending) && p !in todo ==> (p in pending <==> !(old(pending)[p].expiresAt < now))
        decreases |todo|
      {
        var p :| p in todo;
        todo := todo - {p};
        if pending[p].expiresAt < now { pending := pending - {p}; }
      }
    }

    method PendingCount(c: Id) returns (n: nat)
      ensures n == |PendingOf(pending, c)|
    {
      var todo := pending.Keys;
      n := 0;
      ghost var seen: set<Id> := {};
      while todo != {}
        invariant todo <= pending.Keys
        invariant seen == set p | p in pending && p !in todo && pending[p].clientId == c
        invariant n == |seen|
        decreases |todo|
      {
        var p :| p in todo;
        todo := todo - {p};
        if pending[p].clientId == c { n, seen := n + 1, seen + {p}; }
      }
      assert seen == PendingOf(pending, c);
    }

    method BeginAuthorization(now: Time, limited: bool, q: AuthorizeRequest, id: Id) returns (reply: Reply)
      modifies this
      ensures Outcome(St(), reply) == Begin(old(St()), now, limited, q, id)
    {
      if q.clientId !in clients { return Failed(UnauthorizedClient); }
      if q.redirectUri !in clients[q.clientId].redirectUris { return Failed(InvalidRequest); }
      if q.responseType != CodeResponse { return ErrorRedirect(UnsupportedResponseType); }
      if q.challengeMethod != MethodS256 { return ErrorRedirect(InvalidRequest); }
      if q.challenge == None { return ErrorRedirect(InvalidRequest); }
      if q.resource != Relay { return ErrorRedirect(InvalidTarget); }
      var scopes := ParseScopes(q.scope);
      if scopes == None { return ErrorRedirect(InvalidScope); }
      if limited { return Failed(RateLimited); }
      CleanupPending(now);
      var mine := PendingCount(q.clientId);
      if mine >= MAX_PENDING_PER_CLIENT || |pending| >= MAX_PENDING_AUTHORIZATIONS { return Failed(CapacityExceeded); }
      pending := pending[id := Pending(q.clientId, q.redirectUri, q.echo, q.challenge.value, q.challengeMethod, q.resource,
                                       scopes.value, now + CODE_TTL)];
      hist := hist.(used := hist.used + {id});
      reply := Consent(id);
    }

    method TouchClient(c: Id, now: Time)
      modifies `clients
      ensures clients == Touch(old(clients), c, now)
    {
      if c in clients { clients := clients[c := clients[c].(lastUsedAt := now)]; }
    }

    /** The first of the three regions under the lock: the request is taken out. */
    method TakeRequest(now: Time, request: Id, ghost h: Hall, ghost thread: Thread) returns (p: Option<Pending>)
      requires h.st == St()
      modifies this
      ensures TakenOut(h, now, thread, request)
           == Hall(St().(clock := now), if p == None then h.held else h.held[thread := Held(request, p.value, false)])
      ensures p == if request !in old(pending) || now > old(pending)[request].expiresAt then None else Some(old(pending)[request])
      ensures St() == if request in old(pending) then Popped(old(St()), request) else old(St())
    {
      if request !in pending { return None; }
      var x := pending[request];
      pending := pending - {request};
      p := if now > x.expiresAt then None else Some(x);
    }

    /** The second: the decision; a request that is not accepted is answered now. */
    method DecideRequest(now: Time, request: Id, p: Pending, approve: bool, secretOk: bool, limited: bool, ghost h: Hall, ghost thread: Thread)
      returns (reply: Option<Reply>)
      requires h.st == St() && thread in h.held && h.held[thread] == Held(request, p, false)
      modifies this
      ensures Decided(h, now, thread, approve, secretOk, limited)
           == Hall(St().(clock := now), if reply == None then h.held[thread := Held(request, p, true)] else h.held - {thread})
      ensures St() == if !approve then old(St())
                      else if limited || !secretOk then PutBack(old(St()), Held(request, p, false))
                      else Touched(old(St()), p.clientId, now)
      ensures reply == if !approve then Some(OwnerDenied) else if limited || !secretOk then Some(Failed(AccessDenied)) else None
    {
      if !approve { return Some(OwnerDenied); }
      if limited || !secretOk {
        pending := pending[request := p];
        return Some(Failed(AccessDenied));
      }
      TouchClient(p.clientId, now);
      reply := None;
    }

    /** The third: the code is stored and the state is saved. */
    method StoreCode(now: Time, request: Id, p: Pending, code: Id, fault: Fault, ghost h: Hall, ghost thread: Thread) returns (reply: Reply)
      requires h.st == St() && thread in h.held && h.held[thread] == Held(request, p, true)
      modifies this
      ensures Stored(h, now, thread, code, fault) == Hall(St().(clock := now), h.held - {thread})
      ensures St() == Save(Coded(old(St()), now, Held(request, p, true), code), now, fault)
      ensures reply == Reported(fault, CodeIssued(code))
    {
      codes := codes[code := CodeFor(p, now)];
      hist := hist.(used := hist.used + {code}, approvals := hist.approvals[code := Approval(request, p)]);
      var ok := Persist(now, fault);
      reply := if ok then CodeIssued(code) else Failed(ServerError);
    }

    /** The three in a row, as they go when nothing is served in between. */
    method CompleteAuthorization(now: Time, request: Id, approve: bool, secretOk: bool, limited: bool, code: Id, fault: Fault)
      returns (reply: Reply)
      modifies this
      ensures Outcome(St(), reply) == Complete(old(St()), now, request, approve, secretOk, limited, code, fault)
    {
      var p := TakeRequest(now, request, Hall(St(), map[]), 0);
      if p == None { return Failed(InvalidRequest); }
      ghost var x := Held(request, p.value, false);
      ghost var popped := St();
      var denied := DecideRequest(now, request, p.value, approve, secretOk, limited, Hall(popped, map[0 := x]), 0);
      if denied.Some? { return denied.value; }
      assert Coded(Touched(popped, p.value.clientId, now), now, x.(accepted := true), code) == Approved(popped, now, request, p.value, code);
      reply := StoreCode(now, request, p.value, code, fault, Hall(St(), map[0 := x.(accepted := true)]), 0);
    }

    // -------------------------------------------------------------------- tokens

    method IssueTokens(now: Time, ghost origin: Origin, clientId: Id, resource: Resource, scopes: set<Scope>,
                       newAccess: Id, newRefresh: Id, fault: Fault) returns (reply: Reply)
      requires origin.clientId == clientId && origin.resource == resource && origin.scopes == scopes
      modifies this
      ensures Outcome(St(), reply) == Issue(old(St()), now, origin, newAccess, newRefresh, fault)
    {
      access := access[newAccess := Token(clientId, resource, scopes, now + ACCESS_TTL, false)];
      refresh := refresh[newRefresh := Token(clientId, resource, scopes, now + REFRESH_TTL, false)];
      hist := hist.(used := hist.used + {newAccess, newRefresh},
                    lineage := hist.lineage[newRefresh := origin],
                    twin := hist.twin[newAccess := newRefresh]);
      var ok := Persist(now, fault);
      reply := if ok then Tokens(newAccess, newRefresh, scopes) else Failed(ServerError);
    }

    method ExchangeAuthorizationCode(now: Time, form: CodeForm, newAccess: Id, newRefresh: Id, fault: Fault) returns (reply: Reply)
      modifies this
      ensures Outcome(St(), reply) == ExchangeCode(old(St()), now, form, newAccess, newRefresh, fault)
    {
      if form.code !in codes { return Failed(InvalidGrant); }
      var record := codes[form.code];
      codes := codes - {form.code};
      if now > record.expiresAt { return Failed(InvalidGrant); }
      if record.clientId != form.clientId { return Failed(InvalidGrant); }
      if form.clientId !in clients { return Failed(UnauthorizedClient); }
      if record.redirectUri != form.redirectUri { return Failed(InvalidGrant); }
      if form.resource != record.resource || form.resource != Relay { return Failed(InvalidTarget); }
      if record.challengeMethod != MethodS256 { return Failed(InvalidGrant); }
      if form.verifier == None || S256(form.verifier.value) != record.challenge { return Failed(InvalidGrant); }
      TouchClient(form.clientId, now);
      hist := hist.(exchanges := hist.exchanges[form.code :=
        Exchange(form.verifier.value, form.clientId, form.redirectUri, form.resource, newRefresh)]);
      reply := IssueTokens(now, Origin(form.code, None, 0, form.clientId, record.resource, record.scopes),
                           form.clientId, record.resource, record.scopes, newAccess, newRefresh, fault);
    }

    method ExchangeRefreshToken(now: Time, form: RefreshForm, newAccess: Id, newRefresh: Id, fault: Fault) returns (reply: Reply)
      modifies this
      ensures Outcome(St(), reply) == RefreshTokens(old(St()), now, form, newAccess, newRefresh, fault)
    {
      if form.token !in refresh || refresh[form.token].revoked || now > refresh[form.token].expiresAt {
        return Failed(InvalidGrant);
      }
      var record := refresh[form.token];
      if record.clientId != form.clientId { return Failed(InvalidGrant); }
      if form.resource.Some? && form.resource.value != record.resource { return Failed(InvalidTarget); }
      if form.resource.Some? && form.resource.value != Relay { return Failed(InvalidTarget); }
      refresh := refresh[form.token := record.(revoked := true)];
      var scopes := record.scopes;
      if form.scope != Absent {
        var requested := ParseScopes(form.scope);
        if requested == None || !(requested.value <= record.scopes) { return Failed(InvalidScope); }
        scopes := requested.value;
      }
      TouchClient(form.clientId, now);
      reply := IssueTokens(now, Rotated(hist, form.token, form.clientId, record.resource, scopes),
                           form.clientId, record.resource, scopes, newAccess, newRefresh, fault);
    }

    method RevokeToken(now: Time, token: Id, hint: Hint, fault: Fault) returns (reply: Reply)
      modifies this
      ensures Outcome(St(), reply) == Revoke(old(St()), now, token, hint, fault)
    {
      if hint in {NoHint, AccessHint} && token in access {
        access := access[token := access[token].(revoked := true)];
      } else if hint in {NoHint, RefreshHint} && token in refresh {
        refresh := refresh[token := refresh[token].(revoked := true)];
      } else {
        if token in access { access := access[token := access[token].(revoked := true)]; }
        if token in refresh { refresh := refresh[token := refresh[token].(revoked := true)]; }
      }
      var ok := Persist(now, fault);
      reply := if ok then Done else Failed(ServerError);
    }

    method ValidateBearer(now: Time, token: Option<Id>, required: set<Scope>) returns (reply: Reply)
      ensures reply == Validate(St(), now, token, required)
    {
      if token == None { return Failed(InvalidToken); }
      var needed := if required == {} then SUPPORTED else required;
      if token.value !in access || access[token.value].revoked { return Failed(InvalidToken); }
      var record := access[token.value];
      if now > record.expiresAt { return Failed(InvalidToken); }
      if record.resource != Relay { return Failed(InvalidToken); }
      if !(needed <= record.scopes) { return Failed(InsufficientScope); }
      reply := Accepted(record);
    }

    // ---------------------------------------------------------------------- start

    /** Start from the file: the state a restart of the service begins with. */
    method Start(now: Time, fault: Fault) returns (ghost gone: set<Id>)
      modifies this
      ensures St() == Restart(old(St()), now, gone, fault)
      ensures Load(Dump(old(disk))).Some? ==> CleanedAway(Loaded(old(St()), Load(Dump(old(disk))).value), now, 0, gone)
    {
      gone := {};
      var d := Load(Dump(disk));
      if d == None {
        clients, codes, access, refresh, pending, up := map[], map[], map[], map[], map[], false;
        return;
      }
      LoadGivesWellFormed(Dump(disk));
      clients, codes, access, refresh, pending, up := d.value.clients, map[], map[], d.value.refresh, map[], true;
      var evicted := CleanupInactiveClients(now, 0);
      gone := evicted;
      if evicted == {} { return; }
      var ok := Persist(now, fault);
      if !ok {
        clients, codes, access, refresh, pending, up := map[], map[], map[], map[], map[], false;
      }
    }
  }
}
