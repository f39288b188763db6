// What the services ask of WHM, and what its reply decides, told from the rows and from the JSON.
module WhmAsked {
  import opened Json
  import opened Crypto
  import opened Store
  import opened WhmAccounts
  import opened Database
  import opened Repositories
  import opened AccountCache
  import opened Services
  import opened Sync
  import opened WhmAnswers
  import ServersService
  import AccountsService
  import SyncLaws
  import Whm

  // The server's own address, and the token's own user and secret.
  predicate CredsFor(creds: Creds, server: ServerRow, token: TokenRow, secret: string) {
    && creds.hostname == server.hostname && creds.port == server.port && creds.verifySsl == server.verifySsl
    && creds.user == token.whmUser && creds.token == secret
  }

  // ----- The sync -----

  // The decision that a reply calls for.
  ghost predicate Decided(message: Whm.ExtError -> string, reply: Whm.CallResult, token: Id, d: Decision) {
    match reply
    case Failed(error) => d == Unreachable(message(error))
    case TypeError => d == Unreachable("Sync failed.")
    case Data(data) =>
      exists rows :: Listed(data, rows) &&
        if Null in rows then d == Unreachable("Sync failed.")
        else
          && d.Reached? && d.token == token && |d.accounts| == |rows|
          && forall k :: 0 <= k < |rows| ==> Recorded(rows[k], d.accounts[k])
  }

  lemma ParsedRecorded(rows: seq<Json>)
    ensures ParseAll(rows).Some? <==> Null !in rows
    ensures ParseAll(rows).Some? ==> forall k :: 0 <= k < |rows| ==> Recorded(rows[k], ParseAll(rows).value[k])
  {
    if ParseAll(rows).Some? {
      forall k | 0 <= k < |rows| ensures Recorded(rows[k], ParseAll(rows).value[k]) {
        ParsesExactly(rows[k], ParseAll(rows).value[k]);
      }
    }
  }

  lemma JudgedRightly(env: Env, reply: Whm.CallResult, token: Id)
    ensures Decided(env.message, reply, token, Judge(env, Whm.Accounts(reply), token))
  {
    AccountsExactly(reply);
    hide Whm.Accounts, Listed, ParseAll, Recorded;
    if reply.Data? {
      var rows :| Listed(reply.value, rows) && Whm.Accounts(reply) == Whm.Replied(rows);
      ParsedRecorded(rows);
    }
  }

  // A sync asks the server's WHM with exactly these five fields: the reply to them calls for the decision, and no other
  // reply matters.
  lemma SyncAsks(c: Service, env: Env, s: Store, secrets: SecretTable, t: string, serverId: Id, i: Id, creds: Creds)
    requires SecretsKept(s, secrets) && Lawful(c.prim) && Local(c.prim, secrets)
    requires LiveServer(s, t, serverId) && ActiveToken(s.tokens, t, serverId, WHM, env.choose) == Some(i) &&
             i in secrets
    requires Opened(c, secrets[i]).Ok? && CredsFor(creds, s.servers[serverId], s.tokens[i], Opened(c, secrets[i]).value)
    ensures Decided(env.message, env.whm(serverId, creds), i, Decide(c, env, s, t, serverId))
    ensures forall other: (Id, Creds) -> Whm.CallResult :: other(serverId, creds) == env.whm(serverId, creds) ==>
              Decide(c, env.(whm := other), s, t, serverId) == Decide(c, env, s, t, serverId)
  {
    hide Decrypt, Opened, Hides, Judge, Lawful, Decide, SecretsKept, Decided;
    assert creds == CredsOf(s.servers[serverId], s.tokens[i], Opened(c, secrets[i]).value);
    SyncLaws.WithCurrentSecret(c, env, s, secrets, t, serverId);
    JudgedRightly(env, env.whm(serverId, creds), i);
    forall other: (Id, Creds) -> Whm.CallResult | other(serverId, creds) == env.whm(serverId, creds)
      ensures Decide(c, env.(whm := other), s, t, serverId) == Decide(c, env, s, t, serverId)
    {
      SyncLaws.WithCurrentSecret(c, env.(whm := other), s, secrets, t, serverId);
      SameJudge(env, other, Whm.Accounts(env.whm(serverId, creds)), i);
    }
  }

  lemma SameJudge(env: Env, other: (Id, Creds) -> Whm.CallResult, reply: Whm.Reply<seq<Json>>, token: Id)
    ensures Judge(env.(whm := other), reply, token) == Judge(env, reply, token)
  {
  }

  lemma RecordedParse(rows: seq<Json>, accounts: seq<Parsed>)
    requires Null !in rows && |accounts| == |rows| && forall k :: 0 <= k < |rows| ==> Recorded(rows[k], accounts[k])
    ensures ParseAll(rows) == Some(accounts)
  {
    forall k | 0 <= k < |rows| ensures Parse(rows[k]) == Some(accounts[k]) {
      assert rows[k] in rows;
      ParsesExactly(rows[k], accounts[k]);
    }
    hide Parse, Recorded;
    var all := ParseAll(rows);
    assert all.Some? && forall k :: 0 <= k < |rows| ==> all.value[k] == accounts[k];
    assert all.value == accounts;
  }

  // After a sync that WHM answered with these records, the cache entry of every account they name is what is kept of
  // the last of its records; the entries of the others are as before.
  lemma SyncKeeps(s: Store, s': Store, t: string, serverId: Id, d: Decision, at: Time, message: Whm.ExtError -> string,
          reply: Whm.CallResult, token: Id, rows: seq<Json>, user: string)
    requires Decided(message, reply, token, d) && reply.Data? && Listed(reply.value, rows) && Null !in rows
    requires Sound(s.accounts) && ServerSynced(s, s', t, serverId, d, at)
    ensures Sound(s'.accounts)
    ensures var before, after := Cache(s.accounts, t, serverId), Cache(s'.accounts, t, serverId);
      if exists k :: 0 <= k < |rows| && Names(rows[k], user) then
        user in after &&
        exists k ::
          && 0 <= k < |rows| && Recorded(rows[k], Parsed(user, after[user]))
          && forall l :: k < l < |rows| ==> !Names(rows[l], user)
      else (user in after <==> user in before) && (user in before ==> after[user] == before[user])
  {
    var rows' :| Listed(reply.value, rows') &&
      if Null in rows' then d == Unreachable("Sync failed.")
      else
        && d.Reached? && d.token == token && |d.accounts| == |rows'|
        && forall k :: 0 <= k < |rows'| ==> Recorded(rows'[k], d.accounts[k]);
    ListedOnce(reply.value, rows, rows');
    RecordedParse(rows, d.accounts);
    hide Listed, Recorded, Names, Cache, Decided;
    LastRecordKept(s.accounts, s'.accounts, t, serverId, rows, d.accounts, at, user);
  }

  // ----- The connection test -----

  // The result that a reply calls for.
  ghost predicate Told(message: Whm.ExtError -> string, reply: Whm.CallResult, at: Time, r: ServersService.TestResult) {
    r.checkedAt == at &&
    match reply
    case Data(data) =>
      && r.ok && r.status == ACTIVE
      && (forall version :: r.whmVersion == Some(version) <==> Has(data, "version", Str(version)))
      && r.message == if r.whmVersion.Some? &&
         r.whmVersion.value != "" then "Connected to WHM " + r.whmVersion.value + "."
                      else "Connection successful."
    case Failed(error) => !r.ok && r.status == UNREACHABLE && r.whmVersion == None && r.message == message(error)
    case TypeError => !r.ok && r.status == UNREACHABLE && r.whmVersion == None && r.message == "Connection failed."
  }

  ghost predicate Unopened(e: CryptoError, at: Time, r: ServersService.TestResult) {
    && r.checkedAt == at && !r.ok && r.status == UNREACHABLE && r.whmVersion == None
    && (e == UnknownKeyId ==> r.message == "Secret was encrypted with an unknown key id.")
    && (e == Malformed ==> r.message == "Malformed encrypted secret.")
    && (e == IntegrityFailed ==> r.message == "Failed to decrypt secret (integrity check failed).")
  }

  // A connection test asks with these fields too, and reports what the reply to them calls for.
  lemma TestAsks(c: Service, probe: Creds -> Whm.CallResult, message: Whm.ExtError -> string, server: ServerRow,
          row: TokenRow, w: Secret, at: Time, creds: Creds)
    requires Opened(c, w).Ok? ==> CredsFor(creds, server, row, Opened(c, w).value)
    ensures var r := ServersService.Probed(c, probe, message, server, row, w, at);
      match Opened(c, w)
      case Err(e) => Unopened(e, at, r)
      case Ok(_) =>
        && Told(message, probe(creds), at, r)
        && forall other: Creds -> Whm.CallResult :: other(creds) == probe(creds) ==>
             ServersService.Probed(c, other, message, server, row, w, at) == r
  {
    hide Opened, Whm.Version, Has;
    if Opened(c, w).Ok? {
      assert creds == CredsOf(server, row, Opened(c, w).value);
      VersionExactly(probe(creds));
    }
  }

  // ----- Operating on one account -----

  // What a summary comes to that gets this reply.
  ghost predicate Summarised(reply: Whm.CallResult, r: Result<Parsed>) {
    match reply
    case Failed(error) => r == Failure(WhmFailed(error))
    case TypeError => r == Failure(Crashed)
    case Data(data) =>
      exists rows :: Listed(data, rows) &&
        if rows == [] || rows[0] == Null then r == Failure(NotFound("Account on server"))
        else r.Success? && Recorded(rows[0], r.value)
  }

  lemma SummaryExactly(reply: Whm.CallResult)
    ensures Summarised(reply, AccountsService.Summary(Whm.FirstAccount(reply)))
  {
    AccountsExactly(reply);
    hide Whm.Accounts, Listed, Parse, Recorded;
    if reply.Data? {
      var rows :| Listed(reply.value, rows) && Whm.Accounts(reply) == Whm.Replied(rows);
      if rows != [] && rows[0] != Null {
        NotNullParses(rows[0]);
        ParsesExactly(rows[0], Parse(rows[0]).value);
      }
    }
  }

  lemma NotNullParses(raw: Json)
    requires raw != Null
    ensures Parse(raw).Some?
  {
  }

  // What a service on an account is given to ask with.
  lemma AccessAsks(c: Service, s: Store, secrets: SecretTable, choose: set<Id> -> Id, t: string, serverId: Id)
    requires s.tokens.Keys == secrets.Keys && Chooses(choose)
    ensures var r := AccountsService.Access(c, s, secrets, choose, t, serverId);
      r.Success? ==>
        && LiveServer(s, t, serverId) && r.value.1 in ActiveTokens(s.tokens, t, serverId, WHM)
        && Opened(c, secrets[r.value.1]).Ok?
        && CredsFor(r.value.0, s.servers[serverId], s.tokens[r.value.1], Opened(c, secrets[r.value.1]).value)
  {
    AccountsService.AccessConnects(c, s, secrets, choose, t, serverId);
    hide Opened, AccountsService.Access;
  }

  // The row a refresh leaves is what is kept of the first record in WHM's reply.
  lemma RefreshKeeps(s: Store, s': Store, t: string, serverId: Id, reply: Whm.CallResult, parsed: Parsed, token: Id,
          at: Time, id: Id)
    requires AccountsService.Summary(Whm.FirstAccount(reply)) == Success(parsed)
    requires AccountsService.Refreshed(s, s', t, serverId, parsed, token, at, id)
    ensures id in s'.accounts && reply.Data?
    ensures var row := s'.accounts[id];
      && row.tenantId == t && row.serverId == serverId && row.lastSyncedAt == at
      && exists rows :: Listed(reply.value, rows) && rows != [] && Recorded(rows[0], Parsed(row.cpanelUser, row.fields))
  {
    SummaryExactly(reply);
    hide Whm.FirstAccount, AccountsService.Summary, Listed, Recorded, CacheSet;
    var row := s'.accounts[id];
    assert parsed == Parsed(row.cpanelUser, row.fields);
  }
}
