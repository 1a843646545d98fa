/**
 Whole runs of the authorization server: any sequence of requests, failed saves and restarts,
 with a clock that does not go back and names that are never guessed twice.
 */
module OAuthRuns {

  import opened Options
  import opened OAuth
  import opened OAuthStore

  datatype Act =
    | DoRegister(limited: bool, body: Registration, gone: set<Id>, id: Id, fault: Fault)
    | DoBegin(limited: bool, q: AuthorizeRequest, id: Id)
    | DoComplete(request: Id, approve: bool, secretOk: bool, limited: bool, code: Id, fault: Fault)
    | DoExchange(form: CodeForm, access: Id, refresh: Id, fault: Fault)
    | DoRefresh(rotate: RefreshForm, access: Id, refresh: Id, fault: Fault)
    | DoRevoke(token: Id, hint: Hint, fault: Fault)
    | DoRestart(gone: set<Id>, fault: Fault)

  /** A service that could not start, or has not started yet. */
  function Down(st: State): State {
    st.(clients := map[], codes := map[], access := map[], refresh := map[], pending := map[], up := false)
  }

  /** The service just after its constructor has read the disk: codes, access tokens and pending
      requests are gone. */
  function Loaded(st: State, d: Disk): State {
    st.(clients := d.clients, codes := map[], access := map[], refresh := d.refresh, pending := map[], up := true)
  }

  /** Starting over from the file; if idle clients were cleaned away, the rest is saved at once. */
  function Restart(st: State, now: Time, gone: set<Id>, fault: Fault): State {
    match Load(Dump(st.disk))
    case None => Down(st)
    case Some(d) =>
      var cleaned := RemoveClients(Loaded(st, d), gone);
      if gone == {} then cleaned
      else if fault == Saved then Save(cleaned, now, fault)
      else Down(Save(cleaned, now, fault))
  }

  ghost predicate Legal(st: State, now: Time, act: Act) {
    && 0.0 < now && st.clock <= now
    && (!act.DoRestart? ==> st.up)
    && match act {
      case DoRegister(limited, body, gone, id, fault) =>
        id !in st.hist.used && id !in st.clients && (!limited ==> CleanedAway(st, now, 1, gone))
      case DoBegin(limited, q, id) => id !in st.hist.used
      case DoComplete(request, approve, secretOk, limited, code, fault) => code !in st.hist.used
      case DoExchange(form, access, refresh, fault) =>
        access !in st.hist.used && refresh !in st.hist.used && access != refresh
      case DoRefresh(form, access, refresh, fault) =>
        access !in st.hist.used && refresh !in st.hist.used && access != refresh
      case DoRevoke(token, hint, fault) => true
      case DoRestart(gone, fault) =>
        Load(Dump(st.disk)).Some? ==> CleanedAway(Loaded(st, Load(Dump(st.disk)).value), now, 0, gone)
    }
  }

  ghost function Perform(st: State, now: Time, act: Act): Outcome {
    match act
    case DoRegister(limited, body, gone, id, fault) => Register(st, now, limited, body, gone, id, fault)
    case DoBegin(limited, q, id) => Begin(st, now, limited, q, id)
    case DoComplete(request, approve, secretOk, limited, code, fault) =>
      Complete(st, now, request, approve, secretOk, limited, code, fault)
    case DoExchange(form, access, refresh, fault) => ExchangeCode(st, now, form, access, refresh, fault)
    case DoRefresh(form, access, refresh, fault) => RefreshTokens(st, now, form, access, refresh, fault)
    case DoRevoke(token, hint, fault) => Revoke(st, now, token, hint, fault)
    case DoRestart(gone, fault) => Outcome(Restart(st, now, gone, fault), Done)
  }

  ghost function Step(st: State, now: Time, act: Act): State {
    Perform(st, now, act).st.(clock := now)
  }

  /** Before the first start: no file, no history. */
  function Opening(): State {
    State(map[], map[], map[], map[], map[], Disk(map[], map[]), History({}, map[], map[], map[], map[]), false, 0.0)
  }

  datatype Tick = Tick(now: Time, act: Act)

  ghost predicate Run(st: State, ticks: seq<Tick>)
    decreases |ticks|
  {
    ticks == [] || (Legal(st, ticks[0].now, ticks[0].act) && Run(Step(st, ticks[0].now, ticks[0].act), ticks[1..]))
  }

  ghost function End(st: State, ticks: seq<Tick>): State
    decreases |ticks|
  {
    if ticks == [] then st else End(Step(st, ticks[0].now, ticks[0].act), ticks[1..])
  }

  ghost predicate Reachable(st: State) {
    exists ticks :: Run(Opening(), ticks) && End(Opening(), ticks) == st
  }

  // ---------------------------------------------- what is saved can be read back

  ghost predicate Readable(st: State) {
    AllWellFormed(st.clients) && AllWellFormed(st.disk.clients)
  }

  lemma {:induction false} RestartReads(st: State)
    requires Readable(st)
    ensures Load(Dump(st.disk)) == Some(st.disk)
  {
    LoadUndoesDump(st.disk);
  }

  /** The ways a restart from a readable file can end. */
  lemma {:induction false} RestartCases(st: State, now: Time, gone: set<Id>, fault: Fault)
    requires Readable(st)
    ensures var cleaned := RemoveClients(Loaded(st, st.disk), gone);
            || Restart(st, now, gone, fault) == cleaned
            || Restart(st, now, gone, fault) == Save(cleaned, now, fault)
            || Restart(st, now, gone, fault) == Down(Save(cleaned, now, fault))
  {
    RestartReads(st);
  }

  lemma {:induction false} RestartIs(st: State, now: Time, gone: set<Id>, fault: Fault)
    requires Readable(st)
    ensures var cleaned := RemoveClients(Loaded(st, st.disk), gone);
            Restart(st, now, gone, fault)
            == if gone == {} then cleaned else if fault == Saved then Save(cleaned, now, fault) else Down(Save(cleaned, now, fault))
  {
    RestartReads(st);
  }

  lemma {:induction false} SaveReadable(st: State, now: Time, fault: Fault)
    requires AllWellFormed(st.clients) && AllWellFormed(st.disk.clients)
    ensures Readable(Save(st, now, fault))
  {
  }

  lemma {:induction false} RegisterReadable(st: State, now: Time, limited: bool, body: Registration, gone: set<Id>, id: Id, fault: Fault)
    requires Readable(st) && now > 0.0
    ensures Readable(Register(st, now, limited, body, gone, id, fault).st)
  {
    var st1 := RemoveClients(st, gone);
    assert AllWellFormed(WithClient(st1, body, id, now).clients);
    SaveReadable(WithClient(st1, body, id, now), now, fault);
  }

  lemma {:induction false} TouchWellFormed(clients: map<Id, Client>, c: Id, now: Time)
    requires AllWellFormed(clients) && now > 0.0
    ensures AllWellFormed(Touch(clients, c, now))
  {
  }

  lemma {:induction false} CompleteReadable(st: State, now: Time, request: Id, approve: bool, secretOk: bool, limited: bool, code: Id, fault: Fault)
    requires Readable(st) && now > 0.0
    ensures Readable(Complete(st, now, request, approve, secretOk, limited, code, fault).st)
  {
    if request in st.pending { TouchWellFormed(st.clients, st.pending[request].clientId, now); }
  }

  lemma {:induction false} ExchangeReadable(st: State, now: Time, form: CodeForm, access: Id, refresh: Id, fault: Fault)
    requires Readable(st) && now > 0.0
    ensures Readable(ExchangeCode(st, now, form, access, refresh, fault).st)
  {
    TouchWellFormed(st.clients, form.clientId, now);
  }

  lemma {:induction false} RefreshReadable(st: State, now: Time, form: RefreshForm, access: Id, refresh: Id, fault: Fault)
    requires Readable(st) && now > 0.0
    ensures Readable(RefreshTokens(st, now, form, access, refresh, fault).st)
  {
    TouchWellFormed(st.clients, form.clientId, now);
  }

  lemma {:induction false} RevokeReadable(st: State, now: Time, token: Id, hint: Hint, fault: Fault)
    requires Readable(st)
    ensures Readable(Revoke(st, now, token, hint, fault).st)
  {
  }

  lemma {:induction false} RestartReadable(st: State, now: Time, gone: set<Id>, fault: Fault)
    requires Readable(st)
    ensures Readable(Restart(st, now, gone, fault))
  {
    RestartReads(st);
    SaveReadable(RemoveClients(Loaded(st, st.disk), gone), now, fault);
  }

  lemma {:induction false} StepStaysReadable(st: State, now: Time, act: Act)
    requires Readable(st) && 0.0 < now
    ensures Readable(Step(st, now, act))
  {
    match act
    case DoRegister(limited, body, gone, id, fault) => RegisterReadable(st, now, limited, body, gone, id, fault);
    case DoBegin(limited, q, id) =>
    case DoComplete(request, approve, secretOk, limited, code, fault) =>
      CompleteReadable(st, now, request, approve, secretOk, limited, code, fault);
    case DoExchange(form, access, refresh, fault) => ExchangeReadable(st, now, form, access, refresh, fault);
    case DoRefresh(form, access, refresh, fault) => RefreshReadable(st, now, form, access, refresh, fault);
    case DoRevoke(token, hint, fault) => RevokeReadable(st, now, token, hint, fault);
    case DoRestart(gone, fault) => RestartReadable(st, now, gone, fault);
  }

  lemma {:induction false} RunStaysReadable(st: State, ticks: seq<Tick>)
    requires Readable(st) && Run(st, ticks)
    ensures Readable(End(st, ticks))
    decreases |ticks|
  {
    if ticks != [] {
      StepStaysReadable(st, ticks[0].now, ticks[0].act);
      RunStaysReadable(Step(st, ticks[0].now, ticks[0].act), ticks[1..]);
    }
  }

  /** In every reachable state a restart reads back exactly the clients and refresh tokens that
      were last saved, so the service always finds its file good. */
  lemma {:induction false} RestartNeverLosesState(st: State)
    requires Reachable(st)
    ensures Load(Dump(st.disk)) == Some(st.disk)
    ensures Load(Dump(Disk(st.clients, st.refresh))) == Some(Disk(st.clients, st.refresh))
  {
    var ticks :| Run(Opening(), ticks) && End(Opening(), ticks) == st;
    RunStaysReadable(Opening(), ticks);
    LoadUndoesDump(st.disk);
    LoadUndoesDump(Disk(st.clients, st.refresh));
  }

  // -------------------------------------------------------------- runs, put together

  lemma {:induction false} RunGoesOn(st: State, ticks: seq<Tick>, now: Time, act: Act)
    requires Run(st, ticks) && Legal(End(st, ticks), now, act)
    ensures Run(st, ticks + [Tick(now, act)]) && End(st, ticks + [Tick(now, act)]) == Step(End(st, ticks), now, act)
    decreases |ticks|
  {
    if ticks == [] {
      assert ticks + [Tick(now, act)] == [Tick(now, act)];
      assert [Tick(now, act)][1..] == [];
    } else {
      assert (ticks + [Tick(now, act)])[1..] == ticks[1..] + [Tick(now, act)];
      RunGoesOn(Step(st, ticks[0].now, ticks[0].act), ticks[1..], now, act);
    }
  }

  lemma {:induction false} ReachableGoesOn(st: State, now: Time, act: Act)
    requires Reachable(st) && Legal(st, now, act)
    ensures Reachable(Step(st, now, act))
  {
    var ticks :| Run(Opening(), ticks) && End(Opening(), ticks) == st;
    RunGoesOn(Opening(), ticks, now, act);
  }

  lemma {:induction false} ReachableIsReadable(st: State)
    requires Reachable(st)
    ensures Readable(st)
  {
    var ticks :| Run(Opening(), ticks) && End(Opening(), ticks) == st;
    RunStaysReadable(Opening(), ticks);
  }

  lemma {:induction false} ClockGoesOn(st: State, ticks: seq<Tick>)
    requires Run(st, ticks)
    ensures st.clock <= End(st, ticks).clock
    decreases |ticks|
  {
    if ticks != [] { ClockGoesOn(Step(st, ticks[0].now, ticks[0].act), ticks[1..]); }
  }
}
