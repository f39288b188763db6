// Servers and the connection test (src/backend/services/servers.service.ts).
module ServersService {
  import opened Json
  import opened Crypto
  import opened Store
  import opened Database
  import opened Repositories
  import opened Services
  import opened Sync
  import Whm

  datatype ServerInput = ServerInput(name: string, hostname: string, port: int, verifySsl: bool, notes: Option<string>)

  function NewServer(t: string, input: ServerInput, at: Time): ServerRow {
    ServerRow(t, input.name, input.hostname, input.port, input.verifySsl, input.notes, INACTIVE, None, None, at, None)
  }

  ghost predicate ServerCreated(s: Store, s': Store, t: string, input: ServerInput, id: Id, at: Time) {
    id !in s.servers && s' == s.(servers := s.servers[id := NewServer(t, input, at)])
  }

  lemma CreateOutcome(s: Store, secrets: SecretTable, t: string, input: ServerInput, id: Id, at: Time)
    requires id !in s.servers
    ensures var call := InsertServer(t, id, input.name, input.hostname, input.port, input.verifySsl, input.notes, at);
            && Remember(secrets, call, Answer(s, call)) == secrets
            && if NameTaken(s, t, input.name, id) then Answer(s, call) == UniqueViolation && Apply(s, call) == s
               else Answer(s, call) == Created(id) && ServerCreated(s, Apply(s, call), t, input, id, at)
    ensures var call := InsertServer(t, id, input.name, input.hostname, input.port, input.verifySsl, input.notes, at);
            Quiet(s, Apply(s, call))
  {
  }

  method Create(db: Database, sink: AuditSink, t: string, input: ServerInput, at: Time) returns (r: Result<Id>)
    requires db.Valid()
    modifies db, sink
    ensures db.Valid() && Evolves(old(db.store), db.store) && Quiet(old(db.store), db.store) &&
            db.secrets == old(db.secrets)
    ensures r.Success? <==> !NameTaken(old(db.store), t, input.name, old(db.nextId))
    ensures r.Success? ==>
              && ServerCreated(old(db.store), db.store, t, input, r.value, at)
              && sink.records == old(sink.records) + [AuditRecord(t, "server.create", r.value, true)]
    ensures r.Failure? ==>
              && db.store == old(db.store) && sink.records == old(sink.records)
              && r.error == (if NamedLive(db.store, t, input.name, {}) then Conflict else UniqueKeyViolated)
  {
    EvolvesReflexive(db.store);
    NextIdFresh(db);
    QuietReflexive(db.store);
    hide Quiet, Inv, SeenOwned, Evolves, IdsBelow, ServerCreated, Apply, Answer, Remember;
    var existing := FindServerByName(db, t, input.name);
    if existing.Some? { return Failure(Conflict); }
    var id := db.NewId();
    CreateOutcome(db.store, db.secrets, t, input, id, at);
    var reply :=
        db.Execute(InsertServer(t, id, input.name, input.hostname, input.port, input.verifySsl, input.notes, at));
    if reply == UniqueViolation { return Failure(UniqueKeyViolated); }
    sink.Record(AuditRecord(t, "server.create", id, true));
    r := Success(id);
  }

  // The row after an update: identity and status kept, the given fields replaced.
  ghost predicate ServerUpdated(s: Store, s': Store, id: Id, patch: ServerPatch) {
    && id in s.servers && id in s'.servers
    && var row, row' := s.servers[id], s'.servers[id];
       && s' == s.(servers := s.servers[id := row'])
       && row' == row.(name := row'.name, hostname := row'.hostname, port := row'.port, verifySsl := row'.verifySsl,
                       notes := row'.notes)
       && row'.name == (if patch.name.Some? then patch.name.value else row.name)
       && row'.hostname == (if patch.hostname.Some? then patch.hostname.value else row.hostname)
       && row'.port == (if patch.port.Some? then patch.port.value else row.port)
       && row'.verifySsl == (if patch.verifySsl.Some? then patch.verifySsl.value else row.verifySsl)
       && row'.notes == (if patch.notes.Some? then patch.notes else row.notes)
  }

  predicate Renames(s: Store, t: string, id: Id, patch: ServerPatch) {
    patch.name.Some? && NameTaken(s, t, patch.name.value, id)
  }

  lemma UpdateOutcome(s: Store, secrets: SecretTable, t: string, id: Id, patch: ServerPatch)
    ensures var call := Call.UpdateServer(t, id, patch);
            && Remember(secrets, call, Answer(s, call)) == secrets
            && if !LiveServer(s, t, id) then Answer(s, call) == Count(0) && Apply(s, call) == s
               else if Renames(s, t, id, patch) then Answer(s, call) == UniqueViolation && Apply(s, call) == s
               else
                 && Answer(s, call) == Count(1)
                 && ServerUpdated(s, Apply(s, call), id, patch) && LiveServer(Apply(s, call), t, id)
    ensures Quiet(s, Apply(s, Call.UpdateServer(t, id, patch)))
  {
  }

  // `clash && clash.id !== id`, for a name that is not empty.
  predicate Clashes(s: Store, t: string, id: Id, patch: ServerPatch) {
    patch.name.Some? && patch.name.value != "" && NamedLive(s, t, patch.name.value, {id})
  }

  method Update(db: Database, sink: AuditSink, t: string, id: Id, patch: ServerPatch) returns (r: Result<ServerRow>)
    requires db.Valid()
    modifies db, sink
    ensures db.Valid() && Evolves(old(db.store), db.store) && Quiet(old(db.store), db.store) &&
            db.secrets == old(db.secrets)
    ensures r.Success? <==> LiveServer(old(db.store), t, id) && !Renames(old(db.store), t, id, patch)
    ensures r.Success? ==>
              && ServerUpdated(old(db.store), db.store, id, patch)
              && id in db.store.servers && r.value == db.store.servers[id]
              && sink.records == old(sink.records) + [AuditRecord(t, "server.update", id, true)]
    ensures r.Failure? ==>
              && db.store == old(db.store) && sink.records == old(sink.records)
              && r.error == (if Clashes(db.store, t, id, patch) then Conflict
                             else if LiveServer(db.store, t, id) then UniqueKeyViolated
                             else NotFound("Server"))
  {
    EvolvesReflexive(db.store);
    QuietReflexive(db.store);
    hide Quiet, Inv, SeenOwned, Evolves, IdsBelow, ServerUpdated, Apply, Answer, Remember;
    if patch.name.Some? && patch.name.value != "" {
      var clash := FindServerByName(db, t, patch.name.value);
      if clash.Some? && clash.value != id { return Failure(Conflict); }
    }
    UpdateOutcome(db.store, db.secrets, t, id, patch);
    var reply := db.Execute(UpdateServer(t, id, patch));
    if reply == UniqueViolation { return Failure(UniqueKeyViolated); }
    if reply == Count(0) { return Failure(NotFound("Server")); }
    var row := FindServer(db, t, id);
    sink.Record(AuditRecord(t, "server.update", id, true));
    r := Success(row.value);
  }

  function WithoutServer(s: Store, id: Id, at: Time): Store
    requires id in s.servers
  {
    s.(servers := s.servers[id := s.servers[id].(deletedAt := Some(at))])
  }

  lemma DeleteOutcome(s: Store, secrets: SecretTable, t: string, id: Id, at: Time)
    ensures var call := DeleteServer(t, id, at);
            && Remember(secrets, call, Answer(s, call)) == secrets
            && if LiveServer(s, t, id) then Answer(s, call) == Count(1) && Apply(s, call) == WithoutServer(s, id, at)
               else Answer(s, call) == Count(0) && Apply(s, call) == s
    ensures Quiet(s, Apply(s, DeleteServer(t, id, at)))
  {
  }

  // Tokens and accounts of a removed server stay as they are.
  method Remove(db: Database, sink: AuditSink, t: string, id: Id, at: Time) returns (r: Result<()>)
    requires db.Valid()
    modifies db, sink
    ensures db.Valid() && Evolves(old(db.store), db.store) && Quiet(old(db.store), db.store) &&
            db.secrets == old(db.secrets)
    ensures r.Success? <==> LiveServer(old(db.store), t, id)
    ensures r.Success? ==>
              && db.store == WithoutServer(old(db.store), id, at)
              && sink.records == old(sink.records) + [AuditRecord(t, "server.delete", id, true)]
    ensures r.Failure? ==>
              db.store == old(db.store) && sink.records == old(sink.records) && r.error == NotFound("Server")
  {
    QuietReflexive(db.store);
    hide Quiet, Inv, SeenOwned, Evolves, IdsBelow, Apply, Answer, Remember, WithoutServer;
    DeleteOutcome(db.store, db.secrets, t, id, at);
    var reply := db.Execute(DeleteServer(t, id, at));
    if reply == Count(0) { return Failure(NotFound("Server")); }
    sink.Record(AuditRecord(t, "server.delete", id, true));
    r := Success(());
  }

  // ----- The connection test -----

  datatype TestResult = TestResult(ok: bool, status: ServerStatus, whmVersion: Option<string>, message: string,
          checkedAt: Time)

  function CryptoMessage(e: CryptoError): string {
    match e
    case UnknownKeyId => "Secret was encrypted with an unknown key id."
    case Malformed => "Malformed encrypted secret."
    case IntegrityFailed => "Failed to decrypt secret (integrity check failed)."
    case KeyInvalid => "Encryption key must be 32 bytes."
  }

  function Connected(version: Option<string>, at: Time): TestResult {
    TestResult(true, ACTIVE, version,
               if version.Some? && version.value != "" then "Connected to WHM " + version.value + "."
               else "Connection successful.", at)
  }

  function NotConnected(message: string, at: Time): TestResult {
    TestResult(false, UNREACHABLE, None, message, at)
  }

  // The try block up to its write, and the catch.
  function Attempted(c: Service, probe: Creds -> Whm.CallResult, message: Whm.ExtError -> string,
          server: ServerRow, row: TokenRow, at: Time): TestResult
  {
    match Decrypt(c, row.tokenEnc, row.keyId)
    case Err(e) => NotConnected(CryptoMessage(e), at)
    case Ok(secret) =>
      match Whm.Version(probe(CredsOf(server, row, secret)))
      case Replied(version) => Connected(version, at)
      case Refused(error) => NotConnected(message(error), at)
      case Crashed => NotConnected("Connection failed.", at)
  }

  // What a test makes of the secret last written for the token, and of WHM's answer to it.
  function Probed(c: Service, probe: Creds -> Whm.CallResult, message: Whm.ExtError -> string, server: ServerRow,
          row: TokenRow, w: Secret, at: Time): TestResult
  {
    match Opened(c, w)
    case Err(e) => NotConnected(CryptoMessage(e), at)
    case Ok(secret) =>
      match Whm.Version(probe(CredsOf(server, row, secret)))
      case Replied(version) => Connected(version, at)
      case Refused(error) => NotConnected(message(error), at)
      case Crashed => NotConnected("Connection failed.", at)
  }

  // The store after a test that got as far as the token.
  ghost predicate Tested(s: Store, s': Store, id: Id, token: Id, at: Time, result: TestResult) {
    && id in s.servers && token in s.tokens
    && (result == Connected(result.whmVersion, at) || result == NotConnected(result.message, at))
    && s' == if result.ok then WithStatus(WithUse(s, token, at), id, ACTIVE, None, at)
             else WithStatus(s, id, UNREACHABLE, Some(result.message), at)
  }

  method TestConnection(db: Database, sink: AuditSink, c: Service, probe: Creds -> Whm.CallResult,
          message: Whm.ExtError -> string, choose: set<Id> -> Id, t: string, id: Id, at: Time)
    returns (r: Result<TestResult>)
    requires db.Valid() && Chooses(choose) && c.prim == db.prim
    modifies db, sink
    ensures db.Valid() && Evolves(old(db.store), db.store) && db.secrets == old(db.secrets)
    ensures r.Success? <==> LiveServer(old(db.store), t, id) && ActiveTokens(old(db.store).tokens, t, id, WHM) != {}
    ensures r.Success? ==>
              && (exists token ::
                    && token in ActiveTokens(old(db.store).tokens, t, id, WHM) && token in db.secrets
                    && r.value ==
                       Probed(c, probe, message, old(db.store).servers[id], old(db.store).tokens[token],
                              db.secrets[token], at)
                    && Tested(old(db.store), db.store, id, token, at, r.value))
              && sink.records == old(sink.records) + [AuditRecord(t, "server.test_connection", id, r.value.ok)]
    ensures r.Failure? ==>
              && db.store == old(db.store) && sink.records == old(sink.records)
              && r.error == (if LiveServer(db.store, t, id) then NoActiveToken else NotFound("Server"))
  {
    EvolvesReflexive(db.store);
    hide Inv, SeenOwned, Evolves, IdsBelow, Decrypt, Chooses, Attempted, Probed, Tested, Opened, Local;
    var server := FindServer(db, t, id);
    if server == None { return Failure(NotFound("Server")); }
    var found := FindActiveToken(db, t, id, WHM, choose);
    if found == None { return Failure(NoActiveToken); }
    var token := found.value;
    var row := db.store.tokens[token];
    var result := Attempted(c, probe, message, server.value, row, at);
    CurrentSecret(db, c, token);
    AttemptTested(c, db.store, probe, message, id, token, db.secrets[token], at);
    if result.ok { MarkTokenUsed(db, t, token, at); }
    ghost var used := db.store;
    var stored := SetServerStatus(db, t, id, result.status, if result.ok then None else Some(result.message), at);
    EvolvesTransitive(old(db.store), used, db.store);
    sink.Record(AuditRecord(t, "server.test_connection", id, result.ok));
    r := Success(result);
  }

  lemma AttemptTested(c: Service, s: Store, probe: Creds -> Whm.CallResult, message: Whm.ExtError -> string, id: Id,
          token: Id, w: Secret, at: Time)
    requires id in s.servers && token in s.tokens &&
             Decrypt(c, s.tokens[token].tokenEnc, s.tokens[token].keyId) == Opened(c, w)
    ensures var result := Attempted(c, probe, message, s.servers[id], s.tokens[token], at);
      && result == Probed(c, probe, message, s.servers[id], s.tokens[token], w, at)
      && result.status == (if result.ok then ACTIVE else UNREACHABLE)
      && (result.ok ==> Tested(s, WithStatus(WithUse(s, token, at), id, ACTIVE, None, at), id, token, at, result))
      && (!result.ok ==> Tested(s, WithStatus(s, id, UNREACHABLE, Some(result.message), at), id, token, at, result))
  {
    hide Decrypt, Opened;
  }
}
