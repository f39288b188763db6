// Operating on one account: the credentials of its server (src/backend/services/account-whm-context.ts) and the refresh
// of its cache entry (src/backend/services/accounts.service.ts).
module AccountsService {
  import opened Json
  import opened Crypto
  import opened Store
  import opened WhmAccounts
  import opened Database
  import opened Repositories
  import opened AccountCache
  import opened Services
  import opened Sync
  import Whm

  // These credentials name the tenant's live server and hold the current secret of one of its active WHM tokens, as
  // the reading service opens it.
  ghost predicate Connects(c: Service, s: Store, secrets: SecretTable, t: string, serverId: Id, creds: Creds, token: Id)
  {
    && LiveServer(s, t, serverId)
    && token in ActiveTokens(s.tokens, t, serverId, WHM) && token in secrets
    && Opened(c, secrets[token]).Ok?
    && creds.hostname == s.servers[serverId].hostname && creds.port == s.servers[serverId].port
    && creds.verifySsl == s.servers[serverId].verifySsl
    && creds.user == s.tokens[token].whmUser && creds.token == Opened(c, secrets[token]).value
  }

  // Whether and how the server's WHM can be reached, told from the secrets last written and not from their ciphertexts.
  ghost function Access(c: Service, s: Store, secrets: SecretTable, choose: set<Id> -> Id, t: string,
          serverId: Id): Result<(Creds, Id)>
    requires s.tokens.Keys == secrets.Keys
  {
    if !LiveServer(s, t, serverId) then Failure(NotFound("Server"))
    else match ActiveToken(s.tokens, t, serverId, WHM, choose)
      case None => Failure(NoActiveToken)
      case Some(i) =>
        match Opened(c, secrets[i])
        case Err(e) => Failure(Undecryptable(e))
        case Ok(secret) => Success((CredsOf(s.servers[serverId], s.tokens[i], secret), i))
  }

  // Access is to the live server itself, by the current secret of one of its live active WHM tokens; it is refused
  // exactly without such a server, without such a token, or if the service does not open the chosen token's secret.
  lemma AccessConnects(c: Service, s: Store, secrets: SecretTable, choose: set<Id> -> Id, t: string, serverId: Id)
    requires s.tokens.Keys == secrets.Keys && Chooses(choose)
    ensures var r := Access(c, s, secrets, choose, t, serverId);
      && (r.Success? ==> Connects(c, s, secrets, t, serverId, r.value.0, r.value.1))
      && (r == Failure(NotFound("Server")) <==> !LiveServer(s, t, serverId))
      && (r == Failure(NoActiveToken) <==> LiveServer(s, t, serverId) && ActiveTokens(s.tokens, t, serverId, WHM) == {})
      && (forall e :: r == Failure(Undecryptable(e)) <==>
            LiveServer(s, t, serverId) && exists i ::
              ActiveToken(s.tokens, t, serverId, WHM, choose) == Some(i) && Opened(c, secrets[i]) == Err(e))
      && (r.Success? <==> LiveServer(s, t, serverId) && exists i ::
            ActiveToken(s.tokens, t, serverId, WHM, choose) == Some(i) && Opened(c, secrets[i]).Ok?)
  {
    hide Opened;
  }

  method Credentials(db: Database, c: Service, choose: set<Id> -> Id, t: string, serverId: Id)
    returns (r: Result<(Creds, Id)>)
    requires db.Valid() && Chooses(choose) && c.prim == db.prim
    modifies db`store, db`seen, db`secrets
    ensures db.Valid() && db.store == old(db.store) && db.secrets == old(db.secrets)
    ensures db.store.tokens.Keys == db.secrets.Keys && r == Access(c, db.store, db.secrets, choose, t, serverId)
    ensures r.Success? ==> (t, serverId) in db.seen && LiveToken(db.store, t, r.value.1)
  {
    SecretsThere(db);
    hide Inv, SeenOwned, Evolves, IdsBelow, Decrypt, Chooses, Opened, Local;
    var server := FindServer(db, t, serverId);
    if server == None { return Failure(NotFound("Server")); }
    var token := FindActiveToken(db, t, serverId, WHM, choose);
    if token == None { return Failure(NoActiveToken); }
    var row := db.store.tokens[token.value];
    CurrentSecret(db, c, token.value);
    var secret := Decrypt(c, row.tokenEnc, row.keyId);
    match secret
    case Err(e) => r := Failure(Undecryptable(e));
    case Ok(plaintext) => r := Success((CredsOf(server.value, row, plaintext), token.value));
  }

  lemma SecretsThere(db: Database)
    requires db.Valid()
    ensures db.store.tokens.Keys == db.secrets.Keys
  {
  }

  datatype Resolved = Resolved(creds: Creds, account: AccountRow)

  method Resolve(db: Database, c: Service, choose: set<Id> -> Id, t: string, accountId: Id)
    returns (r: Result<Resolved>)
    requires db.Valid() && Chooses(choose) && c.prim == db.prim
    modifies db`store, db`seen, db`secrets
    ensures db.Valid() && db.store == old(db.store) && db.secrets == old(db.secrets) &&
            db.store.tokens.Keys == db.secrets.Keys
    ensures !LiveAccount(db.store, t, accountId) ==> r == Failure(NotFound("Account"))
    ensures LiveAccount(db.store, t, accountId) ==>
              var account := db.store.accounts[accountId];
              match Access(c, db.store, db.secrets, choose, t, account.serverId)
              case Failure(e) => r == Failure(e)
              case Success(access) =>
                r == Success(Resolved(access.0, account)) &&
                  Connects(c, db.store, db.secrets, t, account.serverId, access.0, access.1)
  {
    SecretsThere(db);
    hide Inv, SeenOwned, Evolves, IdsBelow, Decrypt, Connects, Access, Opened, Local;
    var account := FindAccount(db, t, accountId);
    if account == None { return Failure(NotFound("Account")); }
    AccessConnects(c, db.store, db.secrets, choose, t, account.value.serverId);
    var found := Credentials(db, c, choose, t, account.value.serverId);
    match found
    case Failure(e) => r := Failure(e);
    case Success(pair) => r := Success(Resolved(pair.0, account.value));
  }

  // What WHM answers about the account decides a refresh that got as far as asking.
  function Summary(reply: Whm.Reply<Option<Json>>): (r: Result<Parsed>)
    ensures r.Success? <==> reply.Replied? && reply.value.Some? && reply.value.value != Null
  {
    match reply
    case Refused(error) => Failure(WhmFailed(error))
    case Crashed => Failure(Crashed)
    case Replied(None) => Failure(NotFound("Account on server"))
    case Replied(Some(raw)) =>
      match Parse(raw)
      case None => Failure(Crashed)
      case Some(parsed) => Success(parsed)
  }

  // The store before and after a refresh: the cache entry of the user the summary names, and the token's stamp.
  ghost predicate Refreshed(s: Store, s': Store, t: string, serverId: Id, parsed: Parsed, token: Id, at: Time, id: Id) {
    && s'.servers == s.servers
    && token in s.tokens && s'.tokens == s.tokens[token := s.tokens[token].(lastUsedAt := Some(at))]
    && CacheSet(s.accounts, s'.accounts, t, serverId, parsed, at)
    && id in s'.accounts && Stored(s'.accounts[id], t, serverId, parsed, at)
  }

  method Refresh(db: Database, sink: AuditSink, c: Service, lookup: (Creds, string) -> Whm.CallResult,
          choose: set<Id> -> Id, t: string, accountId: Id, at: Time)
    returns (r: Result<Id>)
    requires db.Valid() && Chooses(choose) && c.prim == db.prim
    modifies db, sink
    ensures db.Valid() && Evolves(old(db.store), db.store) && db.secrets == old(db.secrets)
    ensures old(db.store).tokens.Keys == db.secrets.Keys
    ensures !LiveAccount(old(db.store), t, accountId) ==> r == Failure(NotFound("Account"))
    ensures r.Failure? ==> db.store == old(db.store) && sink.records == old(sink.records)
    ensures r.Success? ==> sink.records == old(sink.records) + [AuditRecord(t, "account.refresh", accountId, true)]
    ensures LiveAccount(old(db.store), t, accountId) ==>
              var account := old(db.store).accounts[accountId];
              match Access(c, old(db.store), db.secrets, choose, t, account.serverId)
              case Failure(e) => r == Failure(e)
              case Success(access) =>
                match Summary(Whm.FirstAccount(lookup(access.0, account.cpanelUser)))
                case Failure(e) => r == Failure(e)
                case Success(parsed) =>
                  r.Success? && Refreshed(old(db.store), db.store, t, account.serverId, parsed, access.1, at, r.value)
  {
    EvolvesReflexive(db.store);
    SecretsThere(db);
    hide Inv, SeenOwned, Evolves, IdsBelow, Decrypt, Chooses, CacheSet, Stored, Summary, Access, Opened, Local;
    var account := FindAccount(db, t, accountId);
    if account == None { return Failure(NotFound("Account")); }
    var serverId := account.value.serverId;
    var found := Credentials(db, c, choose, t, serverId);
    if found.Failure? { return Failure(found.error); }
    var creds, token := found.value.0, found.value.1;
    var summary := Summary(Whm.FirstAccount(lookup(creds, account.value.cpanelUser)));
    if summary.Failure? { return Failure(summary.error); }
    var id := UpsertOne(db, t, serverId, summary.value, at);
    ghost var merged := db.store;
    MarkTokenUsed(db, t, token, at);
    EvolvesTransitive(old(db.store), merged, db.store);
    sink.Record(AuditRecord(t, "account.refresh", accountId, true));
    r := Success(id);
  }

  // A refresh returns the requested row exactly when WHM names the account by the same user; otherwise it is another
  // entry of the cache that was written, and the requested one keeps its fields.
  lemma RefreshedExactly(s: Store, s': Store, t: string, accountId: Id, parsed: Parsed, token: Id, at: Time, id: Id)
    requires LiveAccount(s, t, accountId) && Evolves(s, s')
    requires Refreshed(s, s', t, s.accounts[accountId].serverId, parsed, token, at, id)
    ensures id == accountId <==> parsed.cpanelUser == s.accounts[accountId].cpanelUser
    ensures id != accountId ==> s'.accounts[accountId] == s.accounts[accountId]
  {
    hide Cache;
    assert AccountEvolves(s.accounts[accountId], s'.accounts[accountId]);
  }

  lemma NamelessParses(reply: Whm.CallResult)
    requires reply == Whm.Data(Obj([Entry("acct", Arr([Obj([])]))]))
    ensures var summary := Summary(Whm.FirstAccount(reply)); summary.Success? && summary.value.cpanelUser == "unknown"
  {
    var raw := Obj([]);
    assert Property([Entry("acct", Arr([raw]))], "acct") == Some(Arr([raw]));
    assert Whm.FirstAccount(reply) == Whm.Replied(Some(raw));
  }

  // Such a reply, concretely: a record without a name is kept as the account `unknown`, whatever account was asked for.
  lemma NamelessReply(s: Store, s': Store, t: string, accountId: Id, reply: Whm.CallResult, token: Id, at: Time, id: Id)
    requires reply == Whm.Data(Obj([Entry("acct", Arr([Obj([])]))]))
    requires LiveAccount(s, t, accountId) && s.accounts[accountId].cpanelUser != "unknown" && Evolves(s, s')
    requires Summary(Whm.FirstAccount(reply)).Success? ==>
               Refreshed(s, s', t, s.accounts[accountId].serverId, Summary(Whm.FirstAccount(reply)).value, token, at,
                         id)
    ensures id in s'.accounts && s'.accounts[id].cpanelUser == "unknown" && id != accountId
    ensures accountId in s'.accounts && s'.accounts[accountId] == s.accounts[accountId]
  {
    NamelessParses(reply);
    hide Whm.FirstAccount, Summary, CacheSet;
    RefreshedExactly(s, s', t, accountId, Summary(Whm.FirstAccount(reply)).value, token, at, id);
    assert AccountEvolves(s.accounts[accountId], s'.accounts[accountId]);
  }
}
