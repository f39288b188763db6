// Tokens of a server (src/backend/services/tokens.service.ts).
module TokensService {
  import opened Json
  import opened Crypto
  import opened Store
  import opened Database
  import opened Repositories
  import opened Services

  datatype TokenInput = TokenInput(labelName: string, scope: TokenScope, whmUser: string, cpanelUser: Option<string>,
          secret: Secret)

  // The tokens and the plaintext store before and after creating a token: one new row, hiding the given secret.
  ghost predicate TokenCreated(s: Store, s': Store, secrets: SecretTable, secrets': SecretTable,
          t: string, serverId: Id, input: TokenInput, id: Id)
  {
    && id !in s.tokens && id in s'.tokens
    && (var row := s'.tokens[id];
        && s' == s.(tokens := s.tokens[id := row])
        && row.tenantId == t && row.serverId == serverId && row.labelName == input.labelName
        && row.scope == input.scope && row.whmUser == input.whmUser && row.cpanelUser == input.cpanelUser
        && row.isActive && row.lastUsedAt == None && row.deletedAt == None
        && Hides(row, input.secret))
    && secrets' == secrets[id := input.secret]
  }

  function Insertion(t: string, serverId: Id, input: TokenInput, id: Id): Call {
    InsertToken(t, id, serverId, input.labelName, input.scope, input.whmUser, input.cpanelUser, input.secret)
  }

  lemma InsertionOutcome(s: Store, secrets: SecretTable, t: string, serverId: Id, input: TokenInput, id: Id)
    requires Sealable(input.secret) && id !in s.tokens && serverId in s.servers
    ensures var call := Insertion(t, serverId, input, id);
            if LabelTaken(s, t, serverId, input.labelName, id) then
              Answer(s, call) == UniqueViolation && Apply(s, call) == s &&
                Remember(secrets, call, UniqueViolation) == secrets
            else
              Answer(s, call) == Created(id) &&
              TokenCreated(s, Apply(s, call), secrets, Remember(secrets, call, Created(id)), t, serverId, input, id)
    ensures Quiet(s, Apply(s, Insertion(t, serverId, input, id)))
  {
  }

  lemma LiveIsTaken(s: Store, t: string, serverId: Id, labelName: string, id: Id)
    requires id !in s.tokens && LabelledLive(s, t, serverId, labelName)
    ensures LabelTaken(s, t, serverId, labelName, id)
  {
  }

  // tokens.repository `create`.
  method Insert(db: Database, t: string, serverId: Id, input: TokenInput) returns (r: Result<Id>)
    requires db.Valid() && (t, serverId) in db.seen && Fits(db.prim, input.secret)
    modifies db
    ensures db.Valid() && Evolves(old(db.store), db.store) && Quiet(old(db.store), db.store)
    ensures if LabelTaken(old(db.store), t, serverId, input.labelName, old(db.nextId)) then
              r == Failure(UniqueKeyViolated) && db.store == old(db.store) && db.secrets == old(db.secrets)
            else
              r.Success? &&
                TokenCreated(old(db.store), db.store, old(db.secrets), db.secrets, t, serverId, input, r.value)
  {
    NextIdFresh(db);
    ServerExists(db, t, serverId);
    hide Quiet, Inv, SeenOwned, Evolves, IdsBelow, TokenCreated, Apply, Answer, Remember, Sealable, LabelTaken, Local,
         Fits;
    var id := db.NewId();
    InsertionOutcome(db.store, db.secrets, t, serverId, input, id);
    var reply := db.Execute(Insertion(t, serverId, input, id));
    r := if reply == UniqueViolation then Failure(UniqueKeyViolated) else Success(id);
  }

  lemma ServerExists(db: Database, t: string, serverId: Id)
    requires db.Valid() && (t, serverId) in db.seen
    ensures serverId in db.store.servers
  {
  }

  // The service looks for a live clash; a deleted token keeps its label in the table all the same.
  method Create(db: Database, sink: AuditSink, t: string, serverId: Id, input: TokenInput) returns (r: Result<Id>)
    requires db.Valid() && Fits(db.prim, input.secret)
    modifies db, sink
    ensures db.Valid() && Evolves(old(db.store), db.store) && Quiet(old(db.store), db.store)
    ensures r.Success? <==>
              LiveServer(old(db.store), t, serverId) &&
              !LabelTaken(old(db.store), t, serverId, input.labelName, old(db.nextId))
    ensures r.Success? ==>
              && TokenCreated(old(db.store), db.store, old(db.secrets), db.secrets, t, serverId, input, r.value)
              && sink.records == old(sink.records) + [AuditRecord(t, "token.create", r.value, true)]
    ensures r.Failure? ==>
              && db.store == old(db.store) && db.secrets == old(db.secrets) && sink.records == old(sink.records)
              && r.error == (if !LiveServer(db.store, t, serverId) then NotFound("Server")
                             else if LabelledLive(db.store, t, serverId, input.labelName) then Conflict
                             else UniqueKeyViolated)
  {
    EvolvesReflexive(db.store);
    NextIdFresh(db);
    QuietReflexive(db.store);
    hide Quiet, Inv, SeenOwned, Evolves, IdsBelow, TokenCreated, Apply, Answer, Remember, Sealable, LabelTaken,
         LabelledLive, Local, Fits;
    var server := FindServer(db, t, serverId);
    if server == None { return Failure(NotFound("Server")); }
    var clash := FindTokenByLabel(db, t, serverId, input.labelName);
    if clash {
      LiveIsTaken(db.store, t, serverId, input.labelName, db.nextId);
      return Failure(Conflict);
    }
    r := Insert(db, t, serverId, input);
    if r.Success? { sink.Record(AuditRecord(t, "token.create", r.value, true)); }
  }

  // The token row and the plaintext store before and after an update: identity kept, the given fields replaced, and
  // the secret rotated if one is given.
  ghost predicate TokenUpdated(s: Store, s': Store, secrets: SecretTable, secrets': SecretTable,
          id: Id, patch: TokenPatch)
  {
    && id in s.tokens && id in s'.tokens
    && (var row, row' := s.tokens[id], s'.tokens[id];
        && s' == s.(tokens := s.tokens[id := row'])
        && row' == row.(labelName := row'.labelName, isActive := row'.isActive,
                        tokenEnc := row'.tokenEnc, keyId := row'.keyId, lastFour := row'.lastFour)
        && row'.labelName == (if patch.labelName.Some? then patch.labelName.value else row.labelName)
        && row'.isActive == (if patch.isActive.Some? then patch.isActive.value else row.isActive)
        && (if patch.secret.Some? then Hides(row', patch.secret.value)
            else row'.tokenEnc == row.tokenEnc && row'.keyId == row.keyId && row'.lastFour == row.lastFour))
    && secrets' == if patch.secret.Some? then secrets[id := patch.secret.value] else secrets
  }

  predicate Relabels(s: Store, t: string, id: Id, patch: TokenPatch) {
    id in s.tokens && patch.labelName.Some? && LabelTaken(s, t, s.tokens[id].serverId, patch.labelName.value, id)
  }

  lemma UpdateOutcome(s: Store, secrets: SecretTable, t: string, id: Id, patch: TokenPatch)
    requires (patch.secret.Some? ==> Sealable(patch.secret.value)) && LiveToken(s, t, id)
    ensures var call := Call.UpdateToken(t, id, patch);
            if Relabels(s, t, id, patch) then
              Answer(s, call) == UniqueViolation && Apply(s, call) == s &&
                Remember(secrets, call, UniqueViolation) == secrets
            else
              Answer(s, call) == Count(1) && LiveToken(Apply(s, call), t, id) &&
              TokenUpdated(s, Apply(s, call), secrets, Remember(secrets, call, Count(1)), id, patch)
    ensures Quiet(s, Apply(s, Call.UpdateToken(t, id, patch)))
  {
  }

  // tokens.repository `update`.
  method UpdateRow(db: Database, t: string, id: Id, patch: TokenPatch) returns (r: Result<TokenRow>)
    requires db.Valid() && (patch.secret.Some? ==> Fits(db.prim, patch.secret.value)) && LiveToken(db.store, t, id)
    modifies db`store, db`seen, db`secrets
    ensures db.Valid() && Evolves(old(db.store), db.store) && Quiet(old(db.store), db.store)
    ensures if Relabels(old(db.store), t, id, patch) then
              r == Failure(UniqueKeyViolated) && db.store == old(db.store) && db.secrets == old(db.secrets)
            else
              && r.Success? && id in db.store.tokens && r.value == db.store.tokens[id]
              && TokenUpdated(old(db.store), db.store, old(db.secrets), db.secrets, id, patch)
  {
    hide Quiet, Inv, SeenOwned, Evolves, IdsBelow, TokenUpdated, Apply, Answer, Remember, Sealable, Relabels, Local;
    UpdateOutcome(db.store, db.secrets, t, id, patch);
    var reply := db.Execute(UpdateToken(t, id, patch));
    if reply == UniqueViolation { return Failure(UniqueKeyViolated); }
    var row := FindToken(db, t, id);
    r := Success(row.value);
  }

  // No clash is looked for: only the table constraint keeps labels apart.
  method Update(db: Database, sink: AuditSink, t: string, id: Id, patch: TokenPatch) returns (r: Result<TokenRow>)
    requires db.Valid() && (patch.secret.Some? ==> Fits(db.prim, patch.secret.value))
    modifies db, sink
    ensures db.Valid() && Evolves(old(db.store), db.store) && Quiet(old(db.store), db.store)
    ensures r.Success? <==> LiveToken(old(db.store), t, id) && !Relabels(old(db.store), t, id, patch)
    ensures r.Success? ==>
              && TokenUpdated(old(db.store), db.store, old(db.secrets), db.secrets, id, patch)
              && id in db.store.tokens && r.value == db.store.tokens[id]
              && sink.records == old(sink.records) + [AuditRecord(t, "token.update", id, true)]
    ensures r.Failure? ==>
              && db.store == old(db.store) && db.secrets == old(db.secrets) && sink.records == old(sink.records)
              && r.error == (if LiveToken(db.store, t, id) then UniqueKeyViolated else NotFound("Token"))
  {
    EvolvesReflexive(db.store);
    QuietReflexive(db.store);
    hide Quiet, Inv, SeenOwned, Evolves, IdsBelow, TokenUpdated, Apply, Answer, Remember, Sealable, Relabels, Local,
         Fits;
    var existing := FindToken(db, t, id);
    if existing == None { return Failure(NotFound("Token")); }
    r := UpdateRow(db, t, id, patch);
    if r.Success? { sink.Record(AuditRecord(t, "token.update", id, true)); }
  }

  function WithoutToken(s: Store, id: Id, at: Time): Store
    requires id in s.tokens
  {
    s.(tokens := s.tokens[id := s.tokens[id].(deletedAt := Some(at), isActive := false)])
  }

  lemma DeleteOutcome(s: Store, secrets: SecretTable, t: string, id: Id, at: Time)
    ensures var call := DeleteToken(t, id, at);
            && Remember(secrets, call, Answer(s, call)) == secrets
            && if LiveToken(s, t, id) then Answer(s, call) == Count(1) && Apply(s, call) == WithoutToken(s, id, at)
               else Answer(s, call) == Count(0) && Apply(s, call) == s
    ensures Quiet(s, Apply(s, DeleteToken(t, id, at)))
  {
  }

  // tokens.repository `softDelete`.
  method SoftDelete(db: Database, t: string, id: Id, at: Time) returns (ok: bool)
    requires db.Valid()
    modifies db`store, db`seen, db`secrets
    ensures db.Valid() && Evolves(old(db.store), db.store) && Quiet(old(db.store), db.store) &&
            db.secrets == old(db.secrets)
    ensures ok <==> LiveToken(old(db.store), t, id)
    ensures db.store == if ok then WithoutToken(old(db.store), id, at) else old(db.store)
  {
    hide Quiet, Inv, SeenOwned, Evolves, IdsBelow, Apply, Answer, Remember, WithoutToken, Local;
    DeleteOutcome(db.store, db.secrets, t, id, at);
    var reply := db.Execute(DeleteToken(t, id, at));
    ok := reply != Count(0);
  }

  method Remove(db: Database, sink: AuditSink, t: string, id: Id, at: Time) returns (r: Result<()>)
    requires db.Valid()
    modifies db, sink
    ensures db.Valid() && Evolves(old(db.store), db.store) && Quiet(old(db.store), db.store) &&
            db.secrets == old(db.secrets)
    ensures r.Success? <==> LiveToken(old(db.store), t, id)
    ensures r.Success? ==>
              && db.store == WithoutToken(old(db.store), id, at)
              && sink.records == old(sink.records) + [AuditRecord(t, "token.delete", id, true)]
    ensures r.Failure? ==>
              db.store == old(db.store) && sink.records == old(sink.records) && r.error == NotFound("Token")
  {
    hide Quiet, Inv, SeenOwned, Evolves, IdsBelow, WithoutToken, Local;
    var ok := SoftDelete(db, t, id, at);
    if !ok { return Failure(NotFound("Token")); }
    sink.Record(AuditRecord(t, "token.delete", id, true));
    r := Success(());
  }
}
