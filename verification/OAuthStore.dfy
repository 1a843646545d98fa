/**
 Durable state: how the service's clients and refresh tokens are written and read back
 (relay/oauth.py), and the file they are kept in (relay/oauth_state.py), replaced by way of a
 temporary file through a sequence of steps any of which may fail.
 */
module OAuthStore {

  import opened Options
  import opened OAuth

  const STATE_VERSION: int := 1

  /** A client record as stored: any field may be missing. */
  datatype RawClient = RawClient(
    id: Option<Id>, redirectUris: Option<seq<Uri>>, name: Option<string>, authMethod: Option<AuthMethod>,
    grantTypes: Option<seq<Grant>>, responseTypes: Option<seq<ResponseType>>, issuedAt: Option<int>, lastUsedAt: Option<Time>)

  datatype RawToken = RawToken(
    token: Option<Id>, clientId: Option<Id>, resource: Option<Resource>, scopes: Option<set<Scope>>,
    expiresAt: Option<Time>, revoked: Option<bool>)

  /** The root object of the file: a version, the two tables, and whether it names a credential. */
  datatype Payload = Payload(
    version: Option<int>, credentials: bool, clients: Option<map<Id, RawClient>>, refresh: Option<map<Id, RawToken>>)

  // ---------------------------------------------------------------- writing

  function DumpClient(c: Client): RawClient {
    RawClient(Some(c.id), Some(c.redirectUris), c.name, Some(c.authMethod), Some(c.grantTypes), Some(c.responseTypes),
              Some(c.issuedAt), Some(c.lastUsedAt))
  }

  function DumpToken(id: Id, t: Token): RawToken {
    RawToken(Some(id), Some(t.clientId), Some(t.resource), Some(t.scopes), Some(t.expiresAt), Some(t.revoked))
  }

  function Dump(d: Disk): Payload {
    Payload(Some(STATE_VERSION), false, Some(map c | c in d.clients :: DumpClient(d.clients[c])),
            Some(map t | t in d.refresh :: DumpToken(t, d.refresh[t])))
  }

  // ---------------------------------------------------------------- reading

  /** A missing or empty list reads as the default. */
  function ListOr<T(==)>(o: Option<seq<T>>, default: seq<T>): seq<T> {
    if o == None || o.value == [] then default else o.value
  }

  /** A last use that is missing or zero reads as the issue time. */
  function LastUse(raw: RawClient): Time
    requires raw.issuedAt.Some?
  {
    if raw.lastUsedAt == None || raw.lastUsedAt.value == 0.0 then raw.issuedAt.value as real else raw.lastUsedAt.value
  }

  function LoadClient(key: Id, raw: RawClient): Option<Client> {
    if raw.id == None || raw.redirectUris == None || raw.issuedAt == None || raw.id.value != key then None
    else
      Some(Client(raw.id.value, raw.redirectUris.value, raw.name, OrElse(raw.authMethod, NoAuth),
                  ListOr(raw.grantTypes, [AuthorizationCode, RefreshGrant]),
                  ListOr(raw.responseTypes, [CodeResponse]), raw.issuedAt.value, LastUse(raw)))
  }

  function LoadToken(key: Id, raw: RawToken): Option<Token> {
    if raw.token == None || raw.clientId == None || raw.resource == None || raw.expiresAt == None || raw.token.value != key
    then None
    else
      Some(Token(raw.clientId.value, raw.resource.value, OrElse(raw.scopes, {}), raw.expiresAt.value,
                 OrElse(raw.revoked, false)))
  }

  /** The state read back, or nothing when the service must refuse to start. */
  function Load(p: Payload): Option<Disk> {
    if p.version != Some(STATE_VERSION) || p.credentials || p.clients == None || p.refresh == None then None
    else
      var cs, ts := p.clients.value, p.refresh.value;
      if (exists c :: c in cs && LoadClient(c, cs[c]) == None) || (exists t :: t in ts && LoadToken(t, ts[t]) == None)
      then None
      else
        Some(Disk(map c | c in cs && LoadClient(c, cs[c]).Some? :: LoadClient(c, cs[c]).value,
                  map t | t in ts && LoadToken(t, ts[t]).Some? :: LoadToken(t, ts[t]).value))
  }

  // ------------------------------------------------------------ what reading refuses

  /** A client record that can be read: under its own id, with redirects and an issue time. */
  ghost predicate ReadableClient(key: Id, raw: RawClient) {
    raw.id == Some(key) && raw.redirectUris != None && raw.issuedAt != None
  }

  /** A token record that can be read: under its own name, with its client, resource and term. */
  ghost predicate ReadableToken(key: Id, raw: RawToken) {
    raw.token == Some(key) && raw.clientId != None && raw.resource != None && raw.expiresAt != None
  }

  /** What a record reads as, if it can be read. */
  lemma {:induction false} RecordsRead(key: Id, raw: RawClient, rawToken: RawToken)
    ensures LoadClient(key, raw).Some? <==> ReadableClient(key, raw)
    ensures ReadableClient(key, raw) ==>
              var c := LoadClient(key, raw).value;
              && c.id == key && c.redirectUris == raw.redirectUris.value && c.name == raw.name && c.issuedAt == raw.issuedAt.value
              && c.authMethod == (if raw.authMethod.Some? then raw.authMethod.value else NoAuth)
              && (raw.grantTypes.Some? && raw.grantTypes.value != [] ==> c.grantTypes == raw.grantTypes.value)
              && (raw.grantTypes in {None, Some([])} ==> c.grantTypes == [AuthorizationCode, RefreshGrant])
              && (raw.responseTypes.Some? && raw.responseTypes.value != [] ==> c.responseTypes == raw.responseTypes.value)
              && (raw.responseTypes in {None, Some([])} ==> c.responseTypes == [CodeResponse])
              && (raw.lastUsedAt.Some? && raw.lastUsedAt.value != 0.0 ==> c.lastUsedAt == raw.lastUsedAt.value)
              && (raw.lastUsedAt in {None, Some(0.0)} ==> c.lastUsedAt == raw.issuedAt.value as real)
    ensures LoadToken(key, rawToken).Some? <==> ReadableToken(key, rawToken)
    ensures ReadableToken(key, rawToken) ==>
              LoadToken(key, rawToken) == Some(Token(rawToken.clientId.value, rawToken.resource.value,
                if rawToken.scopes.Some? then rawToken.scopes.value else {}, rawToken.expiresAt.value,
                rawToken.revoked.Some? && rawToken.revoked.value))
  {
  }

  /** A file is read exactly if it is of this version, names no credential, has both tables, and every
      record in them can be read; then nothing is left out. */
  lemma {:induction false} LoadMeans(p: Payload)
    ensures Load(p).Some? <==>
              && p.version == Some(1) && !p.credentials && p.clients.Some? && p.refresh.Some?
              && (forall c :: c in p.clients.value ==> ReadableClient(c, p.clients.value[c]))
              && (forall t :: t in p.refresh.value ==> ReadableToken(t, p.refresh.value[t]))
    ensures Load(p).Some? ==> Load(p).value.clients.Keys == p.clients.value.Keys && Load(p).value.refresh.Keys == p.refresh.value.Keys
  {
    if p.clients.Some? && p.refresh.Some? {
      var blank, blankToken := RawClient(None, None, None, None, None, None, None, None), RawToken(None, None, None, None, None, None);
      forall c | c in p.clients.value ensures LoadClient(c, p.clients.value[c]) == None <==> !ReadableClient(c, p.clients.value[c]) {
        RecordsRead(c, p.clients.value[c], blankToken);
      }
      forall t | t in p.refresh.value ensures LoadToken(t, p.refresh.value[t]) == None <==> !ReadableToken(t, p.refresh.value[t]) {
        RecordsRead(t, blank, p.refresh.value[t]);
      }
    }
  }

  // ------------------------------------------------------------- the round trip

  /** The clients the load defaults leave alone: each is stored under its own id, its lists are
      not empty, and its last use is not zero unless it was issued at time zero. */
  predicate WellFormed(key: Id, c: Client) {
    && c.id == key && c.grantTypes != [] && c.responseTypes != []
    && (c.lastUsedAt == 0.0 ==> c.issuedAt == 0)
  }

  predicate AllWellFormed(clients: map<Id, Client>) {
    forall c :: c in clients ==> WellFormed(c, clients[c])
  }

  lemma {:induction false} ClientRoundTrip(key: Id, c: Client)
    ensures LoadClient(key, DumpClient(c)) == Some(c) <==> WellFormed(key, c)
  {
    var raw := DumpClient(c);
    if c.id == key {
      var back := LoadClient(key, raw).value;
      assert back.grantTypes == c.grantTypes <==> c.grantTypes != [];
      assert back.responseTypes == c.responseTypes <==> c.responseTypes != [];
    }
  }

  /** Loading gives back exactly what was saved if and only if every client is well formed. */
  lemma {:induction false} LoadUndoesDump(d: Disk)
    ensures Load(Dump(d)) == Some(d) <==> AllWellFormed(d.clients)
  {
    var p := Dump(d);
    forall c | c in d.clients ensures LoadClient(c, p.clients.value[c]) == Some(d.clients[c]) <==> WellFormed(c, d.clients[c]) {
      ClientRoundTrip(c, d.clients[c]);
    }
    if AllWellFormed(d.clients) {
      var back := Load(p).value;
      assert back.clients == d.clients;
      assert back.refresh == d.refresh;
    } else {
      var c :| c in d.clients && !WellFormed(c, d.clients[c]);
      assert LoadClient(c, p.clients.value[c]) != Some(d.clients[c]);
    }
  }

  /** Whatever is read back is well formed, so what a run saves later can be read again. */
  lemma {:induction false} LoadGivesWellFormed(p: Payload)
    ensures Load(p).Some? ==> AllWellFormed(Load(p).value.clients)
  {
  }

  // ------------------------------------------------------------------ the file

  datatype File =
    | Missing
    | Undecodable
    | Holding(payload: Payload)

  /** The steps of a save, in order. */
  datatype SaveStep =
    | CheckDirectory | MakeTemp | WriteTemp | SyncTemp | CloseTemp | ModeTemp | Replace
    | OpenDirectory | SyncDirectory | ModeFile | CheckMode

  /** Whether a step comes before the file is replaced, so that its failure keeps the old file. */
  predicate KeepsOldFile(s: SaveStep) {
    s in {CheckDirectory, MakeTemp, WriteTemp, SyncTemp, CloseTemp, ModeTemp, Replace}
  }

  function FaultAt(breaks: Option<SaveStep>): Fault {
    if breaks == None then Saved else if KeepsOldFile(breaks.value) then FailedBefore else FailedAfter
  }

  lemma {:induction false} EveryStep(breaks: Option<SaveStep>)
    ensures breaks == None || (breaks.Some? && KeepsOldFile(breaks.value))
         || breaks in {Some(OpenDirectory), Some(SyncDirectory), Some(ModeFile), Some(CheckMode)}
  {
    if breaks.Some? && !KeepsOldFile(breaks.value) {
      var s := breaks.value;
      assert s.OpenDirectory? || s.SyncDirectory? || s.ModeFile? || s.CheckMode?;
    }
  }

  class DurableStore {
    var file: File
    var temp: Option<File>
    var descriptorOpen: bool

    constructor (file: File)
      ensures this.file == file && temp == None && !descriptorOpen
    {
      this.file, temp, descriptorOpen := file, None, false;
    }

    /** Replace the file by one holding the payload.  Whichever step breaks, the file is the old
        one or the new one and never a mixture, no descriptor stays open, and the temporary file
        is gone unless removing it fails too. */
    method Save(payload: Payload, breaks: Option<SaveStep>, unlinkFails: bool) returns (ok: bool)
      requires temp == None && !descriptorOpen
      modifies this
      ensures payload.version != Some(STATE_VERSION) || payload.credentials ==> !ok && file == old(file) && temp == None
      ensures payload.version == Some(STATE_VERSION) && !payload.credentials ==>
                && (ok <==> FaultAt(breaks) == Saved)
                && file == (if FaultAt(breaks) == FailedBefore then old(file) else Holding(payload))
      ensures !descriptorOpen && (temp.Some? ==> unlinkFails && !ok)
    {
      ok := false;
      if breaks == Some(CheckDirectory) { return; }
      if payload.version != Some(STATE_VERSION) || payload.credentials { return; }
      ok := Attempt(payload, breaks);
      descriptorOpen := false;
      if temp.Some? && !unlinkFails { temp := None; }
    }

    /** The guarded part of a save; what it leaves open or behind is cleaned up afterwards. */
    method Attempt(payload: Payload, breaks: Option<SaveStep>) returns (ok: bool)
      requires temp == None && !descriptorOpen && breaks != Some(CheckDirectory)
      modifies this
      ensures ok <==> breaks == None
      ensures file == if FaultAt(breaks) == FailedBefore then old(file) else Holding(payload)
      ensures ok ==> temp == None
    {
      ok := false;
      EveryStep(breaks);
      if breaks == Some(MakeTemp) { return; }
      temp, descriptorOpen := Some(Undecodable), true;
      if breaks == Some(WriteTemp) { return; }
      temp := Some(Holding(payload));
      if breaks == Some(SyncTemp) || breaks == Some(CloseTemp) { return; }
      descriptorOpen := false;
      if breaks == Some(ModeTemp) || breaks == Some(Replace) { return; }
      file, temp := temp.value, None;
      if breaks == Some(OpenDirectory) || breaks == Some(SyncDirectory) { return; }
      if breaks == Some(ModeFile) || breaks == Some(CheckMode) { return; }
      ok := true;
    }

    /** Reading the file: a missing one is an empty state, a damaged one is refused. */
    method LoadFile(modeTooOpen: bool) returns (d: Option<Disk>)
      ensures file.Missing? ==> d == Some(Disk(map[], map[]))
      ensures !file.Missing? ==> d == if modeTooOpen || file.Undecodable? then None else Load(file.payload)
    {
      if file.Missing? { return Some(Disk(map[], map[])); }
      if modeTooOpen || file.Undecodable? { return None; }
      d := Load(file.payload);
    }
  }
}
