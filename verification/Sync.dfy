// Syncing a tenant's servers into the account cache (src/backend/services/hosting-sync.service.ts).
module Sync {
  import opened Json
  import opened Crypto
  import opened Store
  import opened WhmAccounts
  import opened Database
  import opened Repositories
  import opened AccountCache
  import Whm

  datatype Creds = Creds(hostname: string, port: int, user: string, token: string, verifySsl: bool)

  // The surroundings of a run: the database's choice among matching tokens, what each server's WHM makes of given
  // credentials, the text of its errors, and the time at which each server is synced.
  datatype Env = Env(choose: set<Id> -> Id, whm: (Id, Creds) -> Whm.CallResult, message: Whm.ExtError -> string,
          at: Id -> Time)

  datatype Decision =
    | NoServer
    | NoToken
    | CannotDecrypt(cause: CryptoError)
    | Unreachable(message: string)
    | Reached(token: Id, accounts: seq<Parsed>)

  function CredsOf(server: ServerRow, token: TokenRow, secret: string): Creds {
    Creds(server.hostname, server.port, token.whmUser, secret, server.verifySsl)
  }

  // Only an ExtensionError has a message of its own.
  function Judge(env: Env, reply: Whm.Reply<seq<Json>>, token: Id): (d: Decision)
    ensures d.Unreachable? || (d.Reached? && d.token == token)
  {
    match reply
    case Refused(error) => Unreachable(env.message(error))
    case Crashed => Unreachable("Sync failed.")
    case Replied(rows) =>
      match ParseAll(rows)
      case None => Unreachable("Sync failed.")
      case Some(accounts) => Reached(token, accounts)
  }

  // How syncing one server goes, from the state before it.
  function Decide(c: Service, env: Env, s: Store, t: string, serverId: Id): Decision {
    if !LiveServer(s, t, serverId) then NoServer
    else match ActiveToken(s.tokens, t, serverId, WHM, env.choose)
      case None => NoToken
      case Some(i) =>
        match Decrypt(c, s.tokens[i].tokenEnc, s.tokens[i].keyId)
        case Err(e) => CannotDecrypt(e)
        case Ok(secret) =>
          Judge(env, Whm.Accounts(env.whm(serverId, CredsOf(s.servers[serverId], s.tokens[i], secret))), i)
  }

  function ServerAfter(row: ServerRow, d: Decision, at: Time): ServerRow {
    match d
    case Unreachable(message) => row.(status := UNREACHABLE, lastError := Some(message), lastCheckedAt := Some(at))
    case Reached(_, _) => row.(status := ACTIVE, lastError := None, lastCheckedAt := Some(at))
    case _ => row
  }

  function CacheAfter(cache: map<string, Fields>, d: Decision): map<string, Fields> {
    if d.Reached? then Upserted(cache, d.accounts) else cache
  }

  function AuditsOf(t: string, serverId: Id, d: Decision): seq<AuditRecord> {
    match d
    case NoServer => []
    case CannotDecrypt(_) => []
    case Reached(_, _) => [AuditRecord(t, "account.sync", serverId, true)]
    case _ => [AuditRecord(t, "account.sync", serverId, false)]
  }

  // What syncing one server with this decision does to the store.
  ghost predicate ServerSynced(s: Store, s': Store, t: string, serverId: Id, d: Decision, at: Time) {
    match d
    case Reached(token, accounts) =>
      && serverId in s.servers && token in s.tokens
      && s'.servers == s.servers[serverId := ServerAfter(s.servers[serverId], d, at)]
      && s'.tokens == s.tokens[token := s.tokens[token].(lastUsedAt := Some(at))]
      && CacheMerged(s.accounts, s'.accounts, t, serverId, accounts, at)
    case Unreachable(message) =>
      && serverId in s.servers
      && s'.servers == s.servers[serverId := ServerAfter(s.servers[serverId], d, at)]
      && s'.tokens == s.tokens && s'.accounts == s.accounts
    case _ => s' == s
  }

  // The try block after WHM answered, and its catch: merge the accounts, stamp the token, mark the server.
  method Record(db: Database, t: string, serverId: Id, d: Decision, at: Time)
    requires db.Valid() && (t, serverId) in db.seen
    requires LiveServer(db.store, t, serverId) && (d.Unreachable? || (d.Reached? && LiveToken(db.store, t, d.token)))
    modifies db
    ensures db.Valid() && Evolves(old(db.store), db.store) && db.secrets == old(db.secrets)
    ensures ServerSynced(old(db.store), db.store, t, serverId, d, at)
  {
    hide Inv, SeenOwned, Evolves, IdsBelow, CacheMerged;
    if d.Reached? {
      var n := UpsertMany(db, t, serverId, d.accounts, at);
      ghost var merged := db.store;
      MarkTokenUsed(db, t, d.token, at);
      ghost var used := db.store;
      var row := SetServerStatus(db, t, serverId, ACTIVE, None, at);
      EvolvesTransitive(old(db.store), merged, used);
      EvolvesTransitive(old(db.store), used, db.store);
    } else {
      var row := SetServerStatus(db, t, serverId, UNREACHABLE, Some(d.message), at);
    }
  }

  // The lookups, the decryption and the WHM call.
  method Contact(db: Database, c: Service, env: Env, t: string, serverId: Id) returns (d: Decision)
    requires db.Valid() && Chooses(env.choose)
    modifies db`store, db`seen, db`secrets
    ensures db.Valid() && db.store == old(db.store) && db.secrets == old(db.secrets)
    ensures d == Decide(c, env, db.store, t, serverId)
    ensures d.Unreachable? || d.Reached? ==> LiveServer(db.store, t, serverId) && (t, serverId) in db.seen
    ensures d.Reached? ==> LiveToken(db.store, t, d.token)
  {
    hide Inv, SeenOwned, Evolves, IdsBelow, Decrypt;
    var server := FindServer(db, t, serverId);
    if server == None { return NoServer; }
    var token := FindActiveToken(db, t, serverId, WHM, env.choose);
    if token == None { return NoToken; }
    var row := db.store.tokens[token.value];
    var secret := Decrypt(c, row.tokenEnc, row.keyId);
    if secret.Err? { return CannotDecrypt(secret.error); }
    d := Judge(env, Whm.Accounts(env.whm(serverId, CredsOf(server.value, row, secret.value))), token.value);
  }

  lemma NothingSynced(s: Store, t: string, serverId: Id, d: Decision, at: Time)
    requires !d.Unreachable? && !d.Reached?
    ensures ServerSynced(s, s, t, serverId, d, at)
  {
  }

  method SyncRow(db: Database, c: Service, env: Env, t: string, serverId: Id) returns (d: Decision)
    requires db.Valid() && Chooses(env.choose)
    modifies db
    ensures db.Valid() && Evolves(old(db.store), db.store) && db.secrets == old(db.secrets)
    ensures d == Decide(c, env, old(db.store), t, serverId)
    ensures ServerSynced(old(db.store), db.store, t, serverId, d, env.at(serverId))
  {
    EvolvesReflexive(db.store);
    hide Inv, SeenOwned, Evolves, IdsBelow, Decide, ServerSynced, Chooses, LiveServer, LiveToken, Local;
    d := Contact(db, c, env, t, serverId);
    if d.Unreachable? || d.Reached? {
      Record(db, t, serverId, d, env.at(serverId));
    } else {
      NothingSynced(db.store, t, serverId, d, env.at(serverId));
    }
  }

  method Report(sink: AuditSink, t: string, serverId: Id, d: Decision)
    modifies sink
    ensures sink.records == old(sink.records) + AuditsOf(t, serverId, d)
  {
    if !d.NoServer? && !d.CannotDecrypt? {
      sink.Record(AuditRecord(t, "account.sync", serverId, d.Reached?));
    }
  }

  method SyncServer(db: Database, sink: AuditSink, c: Service, env: Env, t: string, serverId: Id) returns (d: Decision)
    requires db.Valid() && Chooses(env.choose)
    modifies db, sink
    ensures db.Valid() && Evolves(old(db.store), db.store) && db.secrets == old(db.secrets)
    ensures d == Decide(c, env, old(db.store), t, serverId)
    ensures ServerSynced(old(db.store), db.store, t, serverId, d, env.at(serverId))
    ensures sink.records == old(sink.records) + AuditsOf(t, serverId, d)
    ensures d.Reached? ==> sink.records == old(sink.records) + [AuditRecord(t, "account.sync", serverId, true)]
    ensures d.NoToken? || d.Unreachable? ==>
              sink.records == old(sink.records) + [AuditRecord(t, "account.sync", serverId, false)]
    ensures d.NoServer? || d.CannotDecrypt? ==> sink.records == old(sink.records)
  {
    hide Inv, SeenOwned, Evolves, IdsBelow, Decide, ServerSynced, Chooses, Local;
    d := SyncRow(db, c, env, t, serverId);
    Report(sink, t, serverId, d);
  }

  // ----- A whole tenant -----

  // A page that `list` may return: distinct live servers, at most `take` of them.
  ghost predicate Listing(s: Store, t: string, rows: seq<Id>, take: nat) {
    && |rows| <= take
    && Distinct(rows)
    && (forall i :: 0 <= i < |rows| ==> LiveServer(s, t, rows[i]))
  }

  ghost predicate ServersSet(a: ServerTable, b: ServerTable, serverId: Id, d: Decision, at: Time) {
    b == (if serverId in a then a[serverId := ServerAfter(a[serverId], d, at)] else a)
  }

  ghost predicate TokensSet(a: TokenTable, b: TokenTable, d: Decision, at: Time) {
    b == (if d.Reached? && d.token in a then a[d.token := a[d.token].(lastUsedAt := Some(at))] else a)
  }

  ghost predicate CacheSynced(a: AccountTable, b: AccountTable, t: string, serverId: Id, d: Decision, at: Time) {
    && AccountKeysUnique(a) && AccountKeysUnique(b) && AccountsLive(b)
    && Cache(b, t, serverId) == CacheAfter(Cache(a, t, serverId), d)
    && RowsOnly(a, b, t, serverId, if d.Reached? then Users(d.accounts) else {}, at)
  }

  lemma CacheUntouched(a: AccountTable, t: string, serverId: Id, d: Decision, at: Time)
    requires Sound(a) && !d.Reached?
    ensures CacheSynced(a, a, t, serverId, d, at)
  {
  }

  lemma CacheImported(a: AccountTable, b: AccountTable, t: string, serverId: Id, token: Id,
          accounts: seq<Parsed>, at: Time)
    requires CacheMerged(a, b, t, serverId, accounts, at)
    ensures CacheSynced(a, b, t, serverId, Reached(token, accounts), at)
  {
  }

  lemma SyncedCache(s: Store, s': Store, t: string, serverId: Id, d: Decision, at: Time)
    requires Sound(s.accounts) && ServerSynced(s, s', t, serverId, d, at)
    ensures CacheSynced(s.accounts, s'.accounts, t, serverId, d, at)
  {
    if d.Reached? {
      CacheImported(s.accounts, s'.accounts, t, serverId, d.token, d.accounts, at);
    } else {
      CacheUntouched(s.accounts, t, serverId, d, at);
    }
  }

  lemma SyncedRows(s: Store, s': Store, t: string, serverId: Id, d: Decision, at: Time)
    requires ServerSynced(s, s', t, serverId, d, at)
    ensures ServersSet(s.servers, s'.servers, serverId, d, at) && TokensSet(s.tokens, s'.tokens, d, at)
  {
    match d
    case Reached(_, _) =>
    case Unreachable(_) =>
    case _ => if serverId in s.servers { assert s.servers[serverId := s.servers[serverId]] == s.servers; }
  }

  function TokenAfter(row: TokenRow, i: Id, rows: seq<Id>, decisions: Id -> Decision, at: Id -> Time): TokenRow {
    var d := decisions(row.serverId);
    if row.serverId in rows && d.Reached? && d.token == i then row.(lastUsedAt := Some(at(row.serverId))) else row
  }

  ghost predicate ServersListed(a: ServerTable, b: ServerTable, rows: seq<Id>, decisions: Id -> Decision,
          at: Id -> Time)
  {
    && a.Keys == b.Keys
    && forall id :: id in a ==> b[id] == if id in rows then ServerAfter(a[id], decisions(id), at(id)) else a[id]
  }

  ghost predicate TokensListed(a: TokenTable, b: TokenTable, rows: seq<Id>, decisions: Id -> Decision, at: Id -> Time) {
    a.Keys == b.Keys && forall i :: i in a ==> b[i] == TokenAfter(a[i], i, rows, decisions, at)
  }

  ghost predicate CachesListed(a: AccountTable, b: AccountTable, t: string, rows: seq<Id>, decisions: Id -> Decision) {
    && AccountKeysUnique(a) && AccountKeysUnique(b) && AccountsLive(b)
    && (forall id :: id in rows ==> Cache(b, t, id) == CacheAfter(Cache(a, t, id), decisions(id)))
    && OnlyListed(a, b, t, rows)
  }

  // The effect of a tenant sync under the decisions taken in the state before it: every listed server ends as if
  // synced alone.
  ghost predicate TenantSynced(s: Store, s': Store, t: string, rows: seq<Id>, decisions: Id -> Decision,
          at: Id -> Time)
  {
    && ServersListed(s.servers, s'.servers, rows, decisions, at)
    && TokensListed(s.tokens, s'.tokens, rows, decisions, at)
    && CachesListed(s.accounts, s'.accounts, t, rows, decisions)
  }

  ghost predicate OnlyListed(a: AccountTable, b: AccountTable, t: string, rows: seq<Id>) {
    && (forall i :: i in a ==> i in b && AccountEvolves(a[i], b[i]))
    && (forall i :: i in b && !(b[i].tenantId == t && b[i].serverId in rows) ==> i in a && b[i] == a[i])
  }

  // A decision reads nothing but the server's own row and tokens.
  lemma DecideLocal(c: Service, env: Env, a: Store, b: Store, t: string, serverId: Id)
    requires serverId in a.servers && serverId in b.servers && a.servers[serverId] == b.servers[serverId]
    requires a.tokens.Keys == b.tokens.Keys
    requires forall i :: i in a.tokens && (a.tokens[i].serverId == serverId || b.tokens[i].serverId == serverId) ==>
               a.tokens[i] == b.tokens[i]
    ensures Decide(c, env, a, t, serverId) == Decide(c, env, b, t, serverId)
  {
    assert ActiveTokens(a.tokens, t, serverId, WHM) == ActiveTokens(b.tokens, t, serverId, WHM);
  }

  lemma UnlistedUndecided(c: Service, env: Env, s: Store, a: Store, t: string, rows: seq<Id>,
          decisions: Id -> Decision, serverId: Id)
    requires TenantSynced(s, a, t, rows, decisions, env.at) && serverId !in rows && serverId in s.servers
    ensures Decide(c, env, a, t, serverId) == Decide(c, env, s, t, serverId)
  {
    forall i | i in a.tokens && (a.tokens[i].serverId == serverId || s.tokens[i].serverId == serverId)
      ensures a.tokens[i] == s.tokens[i]
    {
      assert a.tokens[i] == TokenAfter(s.tokens[i], i, rows, decisions, env.at);
    }
    DecideLocal(c, env, a, s, t, serverId);
  }

  lemma OneMoreServer(s: ServerTable, a: ServerTable, b: ServerTable, rows: seq<Id>, decisions: Id -> Decision,
          at: Id -> Time, serverId: Id)
    requires ServersListed(s, a, rows, decisions, at) && serverId !in rows && serverId in s
    requires ServersSet(a, b, serverId, decisions(serverId), at(serverId))
    ensures ServersListed(s, b, rows + [serverId], decisions, at)
  {
  }

  lemma OneMoreToken(s: TokenTable, a: TokenTable, b: TokenTable, rows: seq<Id>, decisions: Id -> Decision,
          at: Id -> Time, serverId: Id)
    requires TokensListed(s, a, rows, decisions, at) && serverId !in rows
    requires TokensSet(a, b, decisions(serverId), at(serverId))
    requires decisions(serverId).Reached? ==>
               decisions(serverId).token in s && s[decisions(serverId).token].serverId == serverId
    ensures TokensListed(s, b, rows + [serverId], decisions, at)
  {
  }

  lemma OtherCacheKept(a: AccountTable, b: AccountTable, t: string, serverId: Id, users: set<string>, at: Time, id: Id)
    requires AccountKeysUnique(a) && AccountKeysUnique(b) && RowsOnly(a, b, t, serverId, users, at) && id != serverId
    ensures Cache(a, t, id) == Cache(b, t, id)
  {
    forall i | i in a && CachedAt(a[i], t, id) ensures i in b && a[i] == b[i] {
      assert AccountEvolves(a[i], b[i]);
    }
    CacheFrame(a, b, t, id);
  }

  lemma UnlistedCacheKept(s: AccountTable, a: AccountTable, t: string, rows: seq<Id>, id: Id)
    requires AccountKeysUnique(s) && AccountKeysUnique(a) && OnlyListed(s, a, t, rows) && id !in rows
    ensures Cache(s, t, id) == Cache(a, t, id)
  {
    forall i | i in s && CachedAt(s[i], t, id) ensures i in a && s[i] == a[i] {
      assert AccountEvolves(s[i], a[i]);
    }
    CacheFrame(s, a, t, id);
  }

  lemma OneMoreRows(a: AccountTable, b: AccountTable, d: AccountTable, t: string, rows: seq<Id>, serverId: Id,
          users: set<string>, at: Time)
    requires OnlyListed(a, b, t, rows) && RowsOnly(b, d, t, serverId, users, at)
    ensures OnlyListed(a, d, t, rows + [serverId])
  {
    forall i | i in a ensures i in d && AccountEvolves(a[i], d[i]) {
      assert AccountEvolves(a[i], b[i]) && AccountEvolves(b[i], d[i]);
    }
  }

  lemma OneMoreCacheAt(s: AccountTable, a: AccountTable, b: AccountTable, t: string, rows: seq<Id>,
          decisions: Id -> Decision, serverId: Id, users: set<string>, at: Time, id: Id)
    requires AccountKeysUnique(s) && AccountKeysUnique(a) && AccountKeysUnique(b)
    requires serverId !in rows && OnlyListed(s, a, t, rows) && RowsOnly(a, b, t, serverId, users, at)
    requires id in rows ==> Cache(a, t, id) == CacheAfter(Cache(s, t, id), decisions(id))
    requires Cache(b, t, serverId) == CacheAfter(Cache(a, t, serverId), decisions(serverId))
    requires id in rows || id == serverId
    ensures Cache(b, t, id) == CacheAfter(Cache(s, t, id), decisions(id))
  {
    if id == serverId {
      UnlistedCacheKept(s, a, t, rows, serverId);
    } else {
      OtherCacheKept(a, b, t, serverId, users, at, id);
    }
  }

  lemma OneMoreCache(s: AccountTable, a: AccountTable, b: AccountTable, t: string, rows: seq<Id>,
          decisions: Id -> Decision, serverId: Id, at: Time)
    requires CachesListed(s, a, t, rows, decisions) && serverId !in rows
    requires CacheSynced(a, b, t, serverId, decisions(serverId), at)
    ensures CachesListed(s, b, t, rows + [serverId], decisions)
  {
    hide AccountKeysUnique, AccountsLive, RowsOnly, OnlyListed, Cache, CacheAfter, Users;
    var d := decisions(serverId);
    var users := if d.Reached? then Users(d.accounts) else {};
    OneMoreRows(s, a, b, t, rows, serverId, users, at);
    forall id | id in rows + [serverId] ensures Cache(b, t, id) == CacheAfter(Cache(s, t, id), decisions(id)) {
      OneMoreCacheAt(s, a, b, t, rows, decisions, serverId, users, at, id);
    }
  }

  lemma SyncOneMore(s: Store, a: Store, b: Store, t: string, rows: seq<Id>, decisions: Id -> Decision,
          at: Id -> Time, serverId: Id)
    requires Sound(a.accounts) && TenantSynced(s, a, t, rows, decisions, at) && serverId !in rows &&
             serverId in s.servers
    requires ServerSynced(a, b, t, serverId, decisions(serverId), at(serverId))
    requires decisions(serverId).Reached? ==>
               decisions(serverId).token in s.tokens && s.tokens[decisions(serverId).token].serverId == serverId
    ensures TenantSynced(s, b, t, rows + [serverId], decisions, at)
  {
    SyncedRows(a, b, t, serverId, decisions(serverId), at(serverId));
    SyncedCache(a, b, t, serverId, decisions(serverId), at(serverId));
    OneMoreServer(s.servers, a.servers, b.servers, rows, decisions, at, serverId);
    OneMoreToken(s.tokens, a.tokens, b.tokens, rows, decisions, at, serverId);
    OneMoreCache(s.accounts, a.accounts, b.accounts, t, rows, decisions, serverId, at(serverId));
  }

  lemma DecisionToken(c: Service, env: Env, s: Store, t: string, serverId: Id)
    ensures var d := Decide(c, env, s, t, serverId);
            d.Reached? ==> d.token in s.tokens && s.tokens[d.token].serverId == serverId
  {
  }

  function Decisions(c: Service, env: Env, s: Store, t: string): Id -> Decision {
    (id: Id) => Decide(c, env, s, t, id)
  }

  // The servers were synced one after the other, with these decisions.
  ghost predicate InTurn(c: Service, env: Env, s: Store, s': Store, t: string, rows: seq<Id>, ds: seq<Decision>)
    requires |rows| == |ds|
    decreases |rows|
  {
    if rows == [] then s' == s
    else
      var n := |rows| - 1;
      exists mid :: InTurn(c, env, s, mid, t, rows[..n], ds[..n]) && Sound(mid.accounts) &&
        ds[n] == Decide(c, env, mid, t, rows[n]) && ServerSynced(mid, s', t, rows[n], ds[n], env.at(rows[n]))
  }

  lemma NothingListed(s: Store, t: string, decisions: Id -> Decision, at: Id -> Time)
    requires Sound(s.accounts)
    ensures TenantSynced(s, s, t, [], decisions, at)
  {
  }

  lemma OneMoreInTurn(c: Service, env: Env, s: Store, mid: Store, s': Store, t: string, rows: seq<Id>,
          serverId: Id, d: Decision)
    requires Sound(mid.accounts) && TenantSynced(s, mid, t, rows, Decisions(c, env, s, t), env.at)
    requires serverId !in rows && serverId in s.servers
    requires d == Decide(c, env, mid, t, serverId) && ServerSynced(mid, s', t, serverId, d, env.at(serverId))
    ensures TenantSynced(s, s', t, rows + [serverId], Decisions(c, env, s, t), env.at)
    ensures d == Decide(c, env, s, t, serverId)
  {
    UnlistedUndecided(c, env, s, mid, t, rows, Decisions(c, env, s, t), serverId);
    DecisionToken(c, env, s, t, serverId);
    SyncOneMore(s, mid, s', t, rows, Decisions(c, env, s, t), env.at, serverId);
  }

  ghost predicate Distinct(rows: seq<Id>) {
    forall i, j :: 0 <= i < j < |rows| ==> rows[i] != rows[j]
  }

  // Syncing servers in turn is syncing each from the state before the first.
  lemma {:induction false} InTurnAlone(c: Service, env: Env, s: Store, s': Store, t: string, rows: seq<Id>,
          ds: seq<Decision>)
    requires |rows| == |ds| && InTurn(c, env, s, s', t, rows, ds) && Sound(s.accounts)
    requires Distinct(rows) && forall i :: 0 <= i < |rows| ==> rows[i] in s.servers
    ensures TenantSynced(s, s', t, rows, Decisions(c, env, s, t), env.at)
    ensures forall i :: 0 <= i < |rows| ==> ds[i] == Decide(c, env, s, t, rows[i])
    decreases |rows|
  {
    hide TenantSynced, ServerSynced, Decide, Sound;
    if rows == [] {
      NothingListed(s, t, Decisions(c, env, s, t), env.at);
    } else {
      var n := |rows| - 1;
      var init, last := rows[..n], rows[n];
      var mid :| InTurn(c, env, s, mid, t, init, ds[..n]) && Sound(mid.accounts) &&
        ds[n] == Decide(c, env, mid, t, last) && ServerSynced(mid, s', t, last, ds[n], env.at(last));
      InTurnAlone(c, env, s, mid, t, init, ds[..n]);
      OneMoreInTurn(c, env, s, mid, s', t, init, last, ds[n]);
      PrefixPlus(rows, n);
    }
  }

  function Outcomes(rows: seq<Id>, decisions: Id -> Decision): (ds: seq<Decision>)
    ensures |ds| == |rows|
  {
    seq(|rows|, i requires 0 <= i < |rows| => decisions(rows[i]))
  }

  // The number of accounts a sync reports for a server.
  function CountOf(d: Decision): nat {
    if d.Reached? then |d.accounts| else 0
  }

  function Imported(ds: seq<Decision>): nat {
    if ds == [] then 0
    else Imported(ds[..|ds| - 1]) + CountOf(ds[|ds| - 1])
  }

  function Failed(ds: seq<Decision>): nat {
    if ds == [] then 0 else Failed(ds[..|ds| - 1]) + if ds[|ds| - 1].Reached? then 0 else 1
  }

  function Trail(t: string, rows: seq<Id>, ds: seq<Decision>): seq<AuditRecord>
    requires |rows| == |ds|
  {
    if rows == [] then []
    else Trail(t, rows[..|rows| - 1], ds[..|ds| - 1]) + AuditsOf(t, rows[|rows| - 1], ds[|ds| - 1])
  }

  datatype Summary = Summary(servers: nat, accounts: nat, failedServers: nat)

  // What holds after the first k servers: the store, the summary so far and the audit records.
  ghost predicate Underway(c: Service, env: Env, s: Store, s': Store, t: string, rows: seq<Id>,
          ds: seq<Decision>, accounts: int, failed: int, heard: seq<AuditRecord>, records: seq<AuditRecord>)
  {
    && |ds| <= |rows| && InTurn(c, env, s, s', t, rows[..|ds|], ds)
    && records == heard + Trail(t, rows[..|ds|], ds)
    && accounts == Imported(ds) && failed == Failed(ds)
  }

  lemma NothingUnderway(c: Service, env: Env, s: Store, t: string, rows: seq<Id>, heard: seq<AuditRecord>)
    ensures Underway(c, env, s, s, t, rows, [], 0, 0, heard, heard)
  {
    assert heard == heard + [];
  }

  lemma Finished(c: Service, env: Env, s: Store, s': Store, t: string, rows: seq<Id>, ds: seq<Decision>,
          accounts: int, failed: int, heard: seq<AuditRecord>, records: seq<AuditRecord>)
    requires Underway(c, env, s, s', t, rows, ds, accounts, failed, heard, records) && |ds| == |rows|
    ensures InTurn(c, env, s, s', t, rows, ds) && records == heard + Trail(t, rows, ds)
    ensures accounts == Imported(ds) && failed == Failed(ds)
  {
    PrefixPlus(rows, |rows|);
  }

  lemma OneMoreUnderway(c: Service, env: Env, s: Store, mid: Store, s': Store, t: string, rows: seq<Id>,
          ds: seq<Decision>, accounts: int, failed: int, heard: seq<AuditRecord>, records: seq<AuditRecord>,
          d: Decision)
    requires Underway(c, env, s, mid, t, rows, ds, accounts, failed, heard, records) && |ds| < |rows| &&
             Sound(mid.accounts)
    requires d == Decide(c, env, mid, t, rows[|ds|]) && ServerSynced(mid, s', t, rows[|ds|], d, env.at(rows[|ds|]))
    ensures Underway(c, env, s, s', t, rows, ds + [d], accounts + CountOf(d), failed + (if d.Reached? then 0 else 1),
                     heard,
                     records + AuditsOf(t, rows[|ds|], d))
  {
    hide ServerSynced, Sound, Decide, AuditsOf, CountOf;
    var n := |ds|;
    var now, nowDone := rows[..n + 1], ds + [d];
    assert now[..n] == rows[..n] && nowDone[..n] == ds && now[n] == rows[n] && nowDone[n] == d;
    assert rows[..n + 1] == rows[..|ds + [d]|];
  }

  method SyncInTurn(db: Database, sink: AuditSink, c: Service, env: Env, t: string, rows: seq<Id>)
    returns (summary: Summary, ghost ds: seq<Decision>)
    requires db.Valid() && Chooses(env.choose)
    modifies db, sink
    ensures db.Valid() && Evolves(old(db.store), db.store) && db.secrets == old(db.secrets)
    ensures |ds| == |rows| && InTurn(c, env, old(db.store), db.store, t, rows, ds)
    ensures sink.records == old(sink.records) + Trail(t, rows, ds)
    ensures summary == Summary(|rows|, Imported(ds), Failed(ds))
  {
    var accounts, failedServers := 0, 0;
    ds := [];
    EvolvesReflexive(db.store);
    NothingUnderway(c, env, db.store, t, rows, sink.records);
    hide Inv, SeenOwned, Evolves, IdsBelow, Decide, Sound, ServerSynced, Underway, AuditsOf, CountOf, Chooses;
    for k := 0 to |rows|
      invariant db.Valid() && Evolves(old(db.store), db.store) && db.secrets == old(db.secrets)
      invariant |ds| == k
      invariant Underway(c, env, old(db.store), db.store, t, rows, ds, accounts, failedServers, old(sink.records),
                         sink.records)
    {
      ghost var mid, records := db.store, sink.records;
      ValidSound(db);
      var d := SyncServer(db, sink, c, env, t, rows[k]);
      EvolvesTransitive(old(db.store), mid, db.store);
      OneMoreUnderway(c, env, old(db.store), mid, db.store, t, rows, ds, accounts, failedServers, old(sink.records),
                      records, d);
      accounts, failedServers := accounts + CountOf(d), failedServers + if d.Reached? then 0 else 1;
      ds := ds + [d];
    }
    Finished(c, env, old(db.store), db.store, t, rows, ds, accounts, failedServers, old(sink.records), sink.records);
    summary := Summary(|rows|, accounts, failedServers);
  }

  lemma ListedInTurn(c: Service, env: Env, s: Store, s': Store, t: string, rows: seq<Id>, ds: seq<Decision>)
    requires |rows| == |ds| && InTurn(c, env, s, s', t, rows, ds) && Sound(s.accounts) && Listing(s, t, rows, 1000)
    ensures TenantSynced(s, s', t, rows, Decisions(c, env, s, t), env.at) &&
            ds == Outcomes(rows, Decisions(c, env, s, t))
  {
    hide InTurn, TenantSynced, Sound, Decide;
    InTurnAlone(c, env, s, s', t, rows, ds);
  }

  predicate Latest(m: ServerTable, ids: set<Id>, id: Id)
    requires ids <= m.Keys
  {
    id in ids && forall j :: j in ids ==> m[j].createdAt <= m[id].createdAt
  }

  lemma {:induction false} LatestExists(m: ServerTable, ids: set<Id>) returns (id: Id)
    requires ids <= m.Keys && ids != {}
    ensures Latest(m, ids, id)
    decreases |ids|
  {
    id :| id in ids;
    if ids != {id} {
      var other := LatestExists(m, ids - {id});
      if m[other].createdAt > m[id].createdAt { id := other; }
    }
  }

  // The newest of these rows, newest first, and all of them if there are no more than asked for. Which of two rows
  // created at the same time comes first is the database's choice.
  ghost predicate Newest(m: ServerTable, rows: seq<Id>, take: nat) {
    && |rows| <= take && Distinct(rows) && (forall i :: 0 <= i < |rows| ==> rows[i] in m)
    && (|rows| == take || forall id :: id in m ==> id in rows)
    && (forall i, j :: 0 <= i < j < |rows| ==> m[rows[i]].createdAt >= m[rows[j]].createdAt)
    && (forall id, i :: id in m && id !in rows && 0 <= i < |rows| ==> m[id].createdAt <= m[rows[i]].createdAt)
  }

  // The rows picked so far come before all that are left.
  ghost predicate Picked(m: ServerTable, rows: seq<Id>, left: set<Id>) {
    && Distinct(rows) && left <= m.Keys
    && (forall i :: 0 <= i < |rows| ==> rows[i] in m && rows[i] !in left)
    && (forall id :: id in m ==> id in rows || id in left)
    && (forall i, j :: 0 <= i < j < |rows| ==> m[rows[i]].createdAt >= m[rows[j]].createdAt)
    && (forall id, i :: id in left && 0 <= i < |rows| ==> m[id].createdAt <= m[rows[i]].createdAt)
  }

  lemma PickLatest(m: ServerTable, rows: seq<Id>, left: set<Id>, id: Id)
    requires Picked(m, rows, left) && Latest(m, left, id)
    ensures Picked(m, rows + [id], left - {id})
  {
  }

  method TakeNewest(m: ServerTable, take: nat) returns (rows: seq<Id>)
    ensures Newest(m, rows, take)
  {
    rows := [];
    var left := m.Keys;
    while left != {} && |rows| < take
      invariant |rows| <= take && left <= m.Keys && Picked(m, rows, left)
      decreases take - |rows|
    {
      ghost var latest := LatestExists(m, left);
      var id :| Latest(m, left, id);
      PickLatest(m, rows, left, id);
      hide Picked;
      rows, left := rows + [id], left - {id};
    }
  }

  method ListServers(db: Database, t: string, take: nat) returns (rows: seq<Id>)
    requires db.Valid()
    modifies db`store, db`seen, db`secrets
    ensures db.Valid() && db.store == old(db.store) && db.secrets == old(db.secrets)
    ensures Newest(FindServers(db.store, t, (_, _) => true), rows, take)
  {
    hide Inv, SeenOwned, Evolves, IdsBelow, FindServers, Newest;
    var reply := db.Execute(ReadServers(t, (_, _) => true));
    rows := TakeNewest(reply.servers, take);
  }

  lemma NewestListed(s: Store, t: string, rows: seq<Id>, take: nat)
    requires Newest(FindServers(s, t, (_, _) => true), rows, take)
    ensures Listing(s, t, rows, take)
  {
  }

  method SyncTenant(db: Database, sink: AuditSink, c: Service, env: Env, t: string)
    returns (rows: seq<Id>, summary: Summary)
    requires db.Valid() && Chooses(env.choose)
    modifies db, sink
    ensures db.Valid() && Evolves(old(db.store), db.store) && db.secrets == old(db.secrets)
    ensures Newest(FindServers(old(db.store), t, (_, _) => true), rows, 1000)
    ensures TenantSynced(old(db.store), db.store, t, rows, Decisions(c, env, old(db.store), t), env.at)
    ensures var ds := Outcomes(rows, Decisions(c, env, old(db.store), t));
            sink.records == old(sink.records) + Trail(t, rows, ds) &&
              summary == Summary(|rows|, Imported(ds), Failed(ds))
  {
    ValidSound(db);
    hide Inv, SeenOwned, Evolves, IdsBelow, Decide, TenantSynced, InTurn, Sound, Listing, Newest, FindServers, Outcomes,
         Trail, Imported, Failed, Chooses;
    rows := ListServers(db, t, 1000);
    NewestListed(old(db.store), t, rows, 1000);
    ghost var ds;
    summary, ds := SyncInTurn(db, sink, c, env, t, rows);
    ListedInTurn(c, env, old(db.store), db.store, t, rows, ds);
  }
}
