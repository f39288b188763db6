// The services as sequences of repository calls, any number of them under way at once and taking turns call by call
// (src/backend/services/).
module Plans {
  import opened Json
  import opened Crypto
  import opened Store
  import opened WhmAccounts
  import opened Services
  import opened Sync
  import TokensService
  import ServersService
  import AccountsService
  import Whm

  // What a service does next: it is over, or it makes a call, which may use a freshly generated id, and goes on with
  // the answer.
  datatype Plan = End(result: Result<()>) | Ask(call: Id -> Call, next: Reply -> Plan)

  function Done(): Plan { End(Success(())) }

  function Fails(error: ServiceError): Plan { End(Failure(error)) }

  // Nothing is left to do but to report.
  function Finish(): Result<()> -> Plan { (r: Result<()>) => End(r) }

  function FindServer(t: string, id: Id): Call { ReadServers(t, (i, _) => i == id) }

  function FindToken(t: string, id: Id): Call { ReadTokens(t, (i, _) => i == id) }

  function FindAccount(t: string, id: Id): Call { ReadAccounts(t, (i, _) => i == id) }

  predicate HasServer(r: Reply, id: Id) { r.Servers? && id in r.servers }

  predicate HasToken(r: Reply, id: Id) { r.Tokens? && id in r.tokens }

  predicate HasAccount(r: Reply, id: Id) { r.Accounts? && id in r.accounts }

  // ----- Tokens -----

  function CreateToken(t: string, serverId: Id, input: TokensService.TokenInput): Plan {
    Ask(_ => FindServer(t, serverId), (found: Reply) =>
      if HasServer(found, serverId) then CheckLabel(t, serverId, input) else Fails(NotFound("Server")))
  }

  function Labelled(t: string, serverId: Id, labelName: string): Call {
    ReadTokens(t, (_, row: TokenRow) => row.serverId == serverId && row.labelName == labelName)
  }

  function CheckLabel(t: string, serverId: Id, input: TokensService.TokenInput): Plan {
    Ask(_ => Labelled(t, serverId, input.labelName), (clash: Reply) =>
      if clash.Tokens? && clash.tokens != map[] then Fails(Conflict) else InsertNow(t, serverId, input))
  }

  function InsertNow(t: string, serverId: Id, input: TokensService.TokenInput): Plan {
    Ask((id: Id) => TokensService.Insertion(t, serverId, input, id), (done: Reply) =>
      if done.Created? then Done() else Fails(UniqueKeyViolated))
  }

  function UpdateToken(t: string, id: Id, patch: TokenPatch): Plan {
    Ask(_ => FindToken(t, id), (found: Reply) =>
      if HasToken(found, id) then PatchToken(t, id, patch) else Fails(NotFound("Token")))
  }

  function PatchToken(t: string, id: Id, patch: TokenPatch): Plan {
    Ask(_ => Call.UpdateToken(t, id, patch), (done: Reply) =>
      if done == UniqueViolation then Fails(UniqueKeyViolated)
      else if done != Count(1) then Fails(NotFound("Token"))
      else
        Ask(_ => FindToken(t, id), (found: Reply) =>
          if HasToken(found, id) then Done() else Fails(NotFound("Token"))))
  }

  function RemoveToken(t: string, id: Id, at: Time): Plan {
    Ask(_ => DeleteToken(t, id, at), (done: Reply) => if done == Count(1) then Done() else Fails(NotFound("Token")))
  }

  // ----- Servers -----

  function NamedServers(t: string, name: string): Call {
    ReadServers(t, (_, row: ServerRow) => row.name == name)
  }

  function CreateServer(t: string, input: ServersService.ServerInput, at: Time): Plan {
    Ask(_ => NamedServers(t, input.name), (clash: Reply) =>
      if clash.Servers? && clash.servers != map[] then Fails(Conflict)
      else
        Ask((id: Id) => InsertServer(t, id, input.name, input.hostname, input.port, input.verifySsl, input.notes, at),
            (done: Reply) => if done.Created? then Done() else Fails(UniqueKeyViolated)))
  }

  function Rename(t: string, id: Id, patch: ServerPatch): Plan {
    Ask(_ => Call.UpdateServer(t, id, patch), (done: Reply) =>
      if done == UniqueViolation then Fails(UniqueKeyViolated)
      else if done != Count(1) then Fails(NotFound("Server"))
      else
        Ask(_ => FindServer(t, id), (found: Reply) =>
          if HasServer(found, id) then Done() else Fails(NotFound("Server"))))
  }

  function UpdateServer(choose: set<Id> -> Id, t: string, id: Id, patch: ServerPatch): Plan {
    if patch.name.Some? && patch.name.value != "" then
      Ask(_ => NamedServers(t, patch.name.value), (clash: Reply) =>
        if clash.Servers? && clash.servers != map[] && choose(clash.servers.Keys) != id then Fails(Conflict)
        else Rename(t, id, patch))
    else Rename(t, id, patch)
  }

  function RemoveServer(t: string, id: Id, at: Time): Plan {
    Ask(_ => DeleteServer(t, id, at), (done: Reply) => if done == Count(1) then Done() else Fails(NotFound("Server")))
  }

  function SetServerStatus(t: string, id: Id, status: ServerStatus, lastError: Option<string>, at: Time,
          onward: Plan): Plan
  {
    Ask(_ => SetStatus(t, id, status, lastError, at), (done: Reply) =>
      if done == Count(0) then onward else Ask(_ => FindServer(t, id), _ => onward))
  }

  // ----- A server's WHM -----

  // The live active WHM tokens of a server, of which `findFirst` returns one.
  function ActiveWhmTokens(t: string, serverId: Id): Call {
    ReadTokens(t, (_, row: TokenRow) => row.serverId == serverId && row.scope == WHM && row.isActive)
  }

  // The lookups that the services on a server's WHM begin with: what follows them gets the server, the id of the token
  // and its row, and what follows their failure gets the error.
  function WithServerAndToken(choose: set<Id> -> Id, t: string, serverId: Id, go: (ServerRow, Id, TokenRow) -> Plan,
          onward: Result<()> -> Plan): Plan
  {
    Ask(_ => FindServer(t, serverId), (found: Reply) =>
      if HasServer(found, serverId) then WithToken(choose, t, serverId, found.servers[serverId], go, onward)
      else onward(Failure(NotFound("Server"))))
  }

  function WithToken(choose: set<Id> -> Id, t: string, serverId: Id, server: ServerRow,
          go: (ServerRow, Id, TokenRow) -> Plan, onward: Result<()> -> Plan): Plan
  {
    Ask(_ => ActiveWhmTokens(t, serverId), (tokens: Reply) =>
      if tokens.Tokens? && choose(tokens.tokens.Keys) in tokens.tokens
      then go(server, choose(tokens.tokens.Keys), tokens.tokens[choose(tokens.tokens.Keys)])
      else onward(Failure(NoActiveToken)))
  }

  function Stamp(t: string, token: Id, at: Time, onward: Plan): Plan {
    Ask(_ => MarkUsed(t, token, at), _ => onward)
  }

  // ----- The connection test -----

  function Report(t: string, id: Id, token: Id, result: ServersService.TestResult, at: Time): Plan {
    if result.ok then Stamp(t, token, at, SetServerStatus(t, id, ACTIVE, None, at, Done()))
    else SetServerStatus(t, id, UNREACHABLE, Some(result.message), at, Done())
  }

  function Probe(c: Service, probe: Creds -> Whm.CallResult, message: Whm.ExtError -> string, t: string, id: Id,
          at: Time)
    : (ServerRow, Id, TokenRow) -> Plan
  {
    (server: ServerRow, token: Id, row: TokenRow) =>
      Report(t, id, token, ServersService.Attempted(c, probe, message, server, row, at), at)
  }

  function TestConnection(c: Service, probe: Creds -> Whm.CallResult, message: Whm.ExtError -> string,
          choose: set<Id> -> Id, t: string, id: Id, at: Time): Plan
  {
    WithServerAndToken(choose, t, id, Probe(c, probe, message, t, id, at), Finish())
  }

  // ----- The sync -----

  function FindByUser(t: string, serverId: Id, user: string): Call {
    ReadAccounts(t, (_, row: AccountRow) => row.serverId == serverId && row.cpanelUser == user)
  }

  // `upsertOne`, and what follows it, or follows its failure on the unique key.
  function Upsert(choose: set<Id> -> Id, t: string, serverId: Id, account: Parsed, at: Time, onward: Plan,
          failed: Plan): Plan
  {
    Ask(_ => FindByUser(t, serverId, account.cpanelUser), (found: Reply) =>
      if found.Accounts? && choose(found.accounts.Keys) in found.accounts
      then Overwrite(t, choose(found.accounts.Keys), account, at, onward)
      else InsertUser(t, serverId, account, at, onward, failed))
  }

  function Overwrite(t: string, id: Id, account: Parsed, at: Time, onward: Plan): Plan {
    Ask(_ => UpdateAccount(t, id, account.fields, at), _ => Ask(_ => FindAccount(t, id), _ => onward))
  }

  function InsertUser(t: string, serverId: Id, account: Parsed, at: Time, onward: Plan, failed: Plan): Plan {
    Ask((id: Id) => InsertAccount(t, id, serverId, account.cpanelUser, account.fields, at), (done: Reply) =>
      if done.Created? then onward else failed)
  }

  // `upsertMany` from account number i on.
  function Import(choose: set<Id> -> Id, t: string, serverId: Id, accounts: seq<Parsed>, i: nat, at: Time, onward: Plan,
          failed: Plan): Plan
    requires i <= |accounts|
    decreases |accounts| - i
  {
    if i == |accounts| then onward
    else Upsert(choose, t, serverId, accounts[i], at, Import(choose, t, serverId, accounts, i + 1, at, onward, failed),
                failed)
  }

  // The try block's writes after the import, and its catch.
  function Reachable(env: Env, t: string, serverId: Id, token: Id, onward: Result<()> -> Plan): Plan {
    Stamp(t, token, env.at(serverId), SetServerStatus(t, serverId, ACTIVE, None, env.at(serverId), onward(Success(()))))
  }

  function Caught(env: Env, t: string, serverId: Id, message: string, error: ServiceError,
          onward: Result<()> -> Plan): Plan
  {
    SetServerStatus(t, serverId, UNREACHABLE, Some(message), env.at(serverId), onward(Failure(error)))
  }

  function Record(env: Env, t: string, serverId: Id, d: Decision, onward: Result<()> -> Plan): Plan
    requires d.Reached? || d.Unreachable?
  {
    match d
    case Reached(token, accounts) =>
      Import(env.choose, t, serverId, accounts, 0, env.at(serverId), Reachable(env, t, serverId, token, onward),
             Caught(env, t, serverId, "Sync failed.", UniqueKeyViolated, onward))
    case Unreachable(message) => Caught(env, t, serverId, message, SyncFailed(message), onward)
  }

  // What a sync makes of WHM's list.
  function Heard(env: Env, serverId: Id, server: ServerRow, token: Id, row: TokenRow, secret: string): (d: Decision)
    ensures d.Unreachable? || (d.Reached? && d.token == token)
  {
    Judge(env, Whm.Accounts(env.whm(serverId, CredsOf(server, row, secret))), token)
  }

  function Pull(c: Service, env: Env, t: string, serverId: Id, onward: Result<()> -> Plan)
    : (ServerRow, Id, TokenRow) -> Plan
  {
    (server: ServerRow, token: Id, row: TokenRow) =>
      match Decrypt(c, row.tokenEnc, row.keyId)
      case Err(e) => onward(Failure(Undecryptable(e)))
      case Ok(secret) => Record(env, t, serverId, Heard(env, serverId, server, token, row, secret), onward)
  }

  function SyncThen(c: Service, env: Env, t: string, serverId: Id, onward: Result<()> -> Plan): Plan {
    WithServerAndToken(env.choose, t, serverId, Pull(c, env, t, serverId, onward), onward)
  }

  function SyncServer(c: Service, env: Env, t: string, serverId: Id): Plan {
    SyncThen(c, env, t, serverId, Finish())
  }

  function Latests(m: ServerTable, ids: set<Id>): set<Id>
    requires ids <= m.Keys
  {
    set id | id in ids && Latest(m, ids, id)
  }

  // The newest of these rows, newest first; `choose` settles ties.
  function NewestFirst(choose: set<Id> -> Id, m: ServerTable, left: set<Id>, take: nat): seq<Id>
    requires left <= m.Keys
    decreases take
  {
    var latest := Latests(m, left);
    if take == 0 || latest == {} || choose(latest) !in latest then []
    else [choose(latest)] + NewestFirst(choose, m, left - {choose(latest)}, take - 1)
  }

  // A tenant's sync goes on with the next server whatever became of the one before.
  function SyncEach(c: Service, env: Env, t: string, rows: seq<Id>, i: nat): Plan
    requires i <= |rows|
    decreases |rows| - i, 1
  {
    if i == |rows| then Done() else SyncThen(c, env, t, rows[i], NextServer(c, env, t, rows, i + 1))
  }

  function NextServer(c: Service, env: Env, t: string, rows: seq<Id>, i: nat): Result<()> -> Plan
    requires i <= |rows|
    decreases |rows| - i, 2
  {
    (_: Result<()>) => SyncEach(c, env, t, rows, i)
  }

  function SyncTenant(c: Service, env: Env, t: string): Plan {
    Ask(_ => ReadServers(t, (_, _) => true), (listed: Reply) =>
      if listed.Servers? then SyncEach(c, env, t, NewestFirst(env.choose, listed.servers, listed.servers.Keys, 1000), 0)
      else Done())
  }

  // ----- Operating on one account -----

  function Summarised(c: Service, lookup: (Creds, string) -> Whm.CallResult, choose: set<Id> -> Id, t: string,
          account: AccountRow, at: Time): (ServerRow, Id, TokenRow) -> Plan
  {
    (server: ServerRow, token: Id, row: TokenRow) =>
      match Decrypt(c, row.tokenEnc, row.keyId)
      case Err(e) => Fails(Undecryptable(e))
      case Ok(secret) =>
        match AccountsService.Summary(Whm.FirstAccount(lookup(CredsOf(server, row, secret), account.cpanelUser)))
        case Failure(e) => Fails(e)
        case Success(parsed) =>
          Upsert(choose, t, account.serverId, parsed, at, Stamp(t, token, at, Done()), Fails(UniqueKeyViolated))
  }

  function Refresh(c: Service, lookup: (Creds, string) -> Whm.CallResult, choose: set<Id> -> Id, t: string,
          accountId: Id, at: Time): Plan
  {
    Ask(_ => FindAccount(t, accountId), (found: Reply) =>
      if HasAccount(found, accountId) then RefreshFound(c, lookup, choose, t, found.accounts[accountId], at)
      else Fails(NotFound("Account")))
  }

  function RefreshFound(c: Service, lookup: (Creds, string) -> Whm.CallResult, choose: set<Id> -> Id, t: string,
          account: AccountRow, at: Time): Plan
  {
    WithServerAndToken(choose, t, account.serverId, Summarised(c, lookup, choose, t, account, at), Finish())
  }

  function Opens(c: Service): (ServerRow, Id, TokenRow) -> Plan {
    (_: ServerRow, _: Id, row: TokenRow) =>
      match Decrypt(c, row.tokenEnc, row.keyId)
      case Err(e) => Fails(Undecryptable(e))
      case Ok(_) => Done()
  }

  function Resolve(c: Service, choose: set<Id> -> Id, t: string, accountId: Id): Plan {
    Ask(_ => FindAccount(t, accountId), (found: Reply) =>
      if HasAccount(found, accountId)
      then WithServerAndToken(choose, t, found.accounts[accountId].serverId, Opens(c), Finish())
      else Fails(NotFound("Account")))
  }
}
