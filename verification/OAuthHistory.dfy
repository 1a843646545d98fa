/**
 Who earns what: the one step that can approve a request, exchange a code or rotate a token,
 and what it must have been shown; what is once in the history stays there.
 */
module OAuthHistory {

  import opened Options
  import opened OAuth
  import opened OAuthStore
  import opened OAuthRuns
  import opened OAuthRegistered
  import opened OAuthProvenance

  /** The second history keeps every entry of the first. */
  ghost predicate Extends(h: History, later: History) {
    && h.used <= later.used
    && (forall c :: c in h.approvals ==> c in later.approvals && later.approvals[c] == h.approvals[c])
    && (forall c :: c in h.exchanges ==> c in later.exchanges && later.exchanges[c] == h.exchanges[c])
    && (forall r :: r in h.lineage ==> r in later.lineage && later.lineage[r] == h.lineage[r])
    && (forall a :: a in h.twin ==> a in later.twin && later.twin[a] == h.twin[a])
  }

  /** Only the owner's approval of an open request, with the right secret and unthrottled, adds an
      approval, and it records that request as it was. */
  lemma {:induction false} CompleteHistory(st: State, now: Time, request: Id, approve: bool, secretOk: bool, limited: bool, code: Id, fault: Fault)
    ensures var next := Complete(st, now, request, approve, secretOk, limited, code, fault).st.hist;
            || next == st.hist
            || (&& approve && secretOk && !limited && request in st.pending && now <= st.pending[request].expiresAt
                && next == st.hist.(used := st.hist.used + {code},
                                    approvals := st.hist.approvals[code := Approval(request, st.pending[request])]))
  {
  }

  /** Only showing an unexpired code with its verifier, client, redirect and resource adds an
      exchange, and the code is gone after any attempt. */
  lemma {:induction false} ExchangeHistory(st: State, now: Time, form: CodeForm, access: Id, refresh: Id, fault: Fault)
    ensures form.code !in ExchangeCode(st, now, form, access, refresh, fault).st.codes
    ensures var next := ExchangeCode(st, now, form, access, refresh, fault).st.hist;
            || next == st.hist
            || (&& form.code in st.codes && now <= st.codes[form.code].expiresAt
                && form.verifier.Some? && S256(form.verifier.value) == st.codes[form.code].challenge
                && form.clientId == st.codes[form.code].clientId && form.clientId in st.clients
                && form.redirectUri == st.codes[form.code].redirectUri
                && form.resource == st.codes[form.code].resource == Relay
                && next == st.hist.(
                     used := st.hist.used + {access, refresh},
                     exchanges := st.hist.exchanges[form.code :=
                       Exchange(form.verifier.value, form.clientId, form.redirectUri, form.resource, refresh)],
                     lineage := st.hist.lineage[refresh :=
                       Origin(form.code, None, 0, form.clientId, form.resource, st.codes[form.code].scopes)],
                     twin := st.hist.twin[access := refresh]))
  {
  }

  /** Only an unrevoked, unexpired token shown by its own client is rotated, and it is revoked by
      that, also when the request is then refused for its scopes or cannot be saved. */
  lemma {:induction false} RotateHistory(st: State, now: Time, form: RefreshForm, access: Id, refresh: Id, fault: Fault)
    requires refresh !in st.refresh
    ensures var next := RefreshTokens(st, now, form, access, refresh, fault);
            || next.st == st
            || (&& form.token in st.refresh && !st.refresh[form.token].revoked && now <= st.refresh[form.token].expiresAt
                && form.clientId == st.refresh[form.token].clientId
                && (form.token in next.st.refresh ==> next.st.refresh[form.token].revoked)
                && (next.reply == Failed(InvalidScope) ==> next.st.disk == st.disk)
                && (next.st.hist == st.hist
                    || exists scopes :: scopes <= st.refresh[form.token].scopes
                         && next.st.hist == st.hist.(
                              used := st.hist.used + {access, refresh},
                              lineage := st.hist.lineage[refresh :=
                                Rotated(st.hist, form.token, form.clientId, st.refresh[form.token].resource, scopes)],
                              twin := st.hist.twin[access := refresh])))
  {
    if RefreshError(st, now, form) == None {
      var scopes := RotatedScopes(st.refresh[form.token].scopes, form.scope);
      if scopes.Some? {
        assert scopes.value <= st.refresh[form.token].scopes;
        assert RefreshTokens(st, now, form, access, refresh, fault).st.hist == st.hist.(
          used := st.hist.used + {access, refresh},
          lineage := st.hist.lineage[refresh :=
            Rotated(st.hist, form.token, form.clientId, st.refresh[form.token].resource, scopes.value)],
          twin := st.hist.twin[access := refresh]);
      }
    }
  }

  lemma {:induction false} QuietExtends(st: State, next: State)
    requires Quiet(st, next)
    ensures Extends(st.hist, next.hist)
  {
  }

  lemma {:induction false} RevokeHistory(st: State, now: Time, token: Id, hint: Hint, fault: Fault)
    ensures Revoke(st, now, token, hint, fault).st.hist == st.hist
  {
  }

  lemma {:induction false} RestartHistory(st: State, now: Time, gone: set<Id>, fault: Fault)
    ensures Restart(st, now, gone, fault).hist == st.hist
  {
  }

  lemma {:induction false} CompleteExtends(st: State, now: Time, request: Id, approve: bool, secretOk: bool, limited: bool, code: Id, fault: Fault)
    requires NamesUsed(st) && code !in st.hist.used
    ensures Extends(st.hist, Complete(st, now, request, approve, secretOk, limited, code, fault).st.hist)
  {
    CompleteHistory(st, now, request, approve, secretOk, limited, code, fault);
  }

  lemma {:induction false} ExchangeExtends(st: State, now: Time, form: CodeForm, access: Id, refresh: Id, fault: Fault)
    requires NamesUsed(st) && KeysKnown(st) && access !in st.hist.used && refresh !in st.hist.used
    ensures Extends(st.hist, ExchangeCode(st, now, form, access, refresh, fault).st.hist)
  {
    ExchangeHistory(st, now, form, access, refresh, fault);
  }

  lemma {:induction false} RotateExtends(st: State, now: Time, form: RefreshForm, access: Id, refresh: Id, fault: Fault)
    requires NamesUsed(st) && KeysKnown(st) && access !in st.hist.used && refresh !in st.hist.used
    ensures Extends(st.hist, RefreshTokens(st, now, form, access, refresh, fault).st.hist)
  {
    RotateHistory(st, now, form, access, refresh, fault);
  }

  /** What a reachable state's history says, it says in every later state. */
  lemma {:induction false} StepExtends(st: State, now: Time, act: Act)
    requires Sound(st) && Legal(st, now, act)
    ensures Extends(st.hist, Step(st, now, act).hist)
  {
    match act
    case DoRegister(limited, body, gone, id, fault) =>
      RegisterIsQuiet(st, now, limited, body, gone, id, fault);
      QuietExtends(st, Register(st, now, limited, body, gone, id, fault).st);
    case DoBegin(limited, q, id) =>
      BeginIsQuiet(st, now, limited, q, id);
      QuietExtends(st, Begin(st, now, limited, q, id).st);
    case DoComplete(request, approve, secretOk, limited, code, fault) =>
      CompleteExtends(st, now, request, approve, secretOk, limited, code, fault);
    case DoExchange(form, access, refresh, fault) => ExchangeExtends(st, now, form, access, refresh, fault);
    case DoRefresh(form, access, refresh, fault) => RotateExtends(st, now, form, access, refresh, fault);
    case DoRevoke(token, hint, fault) => RevokeHistory(st, now, token, hint, fault);
    case DoRestart(gone, fault) => RestartHistory(st, now, gone, fault);
  }
}
