// The requests, and what handling one comes to: the result and the state it leaves, from the state it finds
// (src/backend/services/).
module Requests {
  import opened Json
  import opened Crypto
  import opened Store
  import opened WhmAccounts
  import opened Database
  import opened Repositories
  import opened AccountCache
  import opened Services
  import opened Sync
  import TokensService
  import ServersService
  import AccountsService
  import Whm

  // A request with what the surroundings contribute while it is handled: the encryption service built for it, WHM's
  // answers, and the clock.
  datatype Request =
    | CreateServer(t: string, input: ServersService.ServerInput)
    | UpdateServer(t: string, id: Id, serverPatch: ServerPatch)
    | RemoveServer(t: string, id: Id)
    | TestConnection(t: string, id: Id, c: Service, probe: Creds -> Whm.CallResult)
    | CreateToken(t: string, id: Id, tokenInput: TokensService.TokenInput)
    | UpdateToken(t: string, id: Id, tokenPatch: TokenPatch)
    | RemoveToken(t: string, id: Id)
    | SyncTenant(t: string, c: Service, whm: (Id, Creds) -> Whm.CallResult, clock: Id -> Time)
    | SyncServer(t: string, id: Id, c: Service, whm: (Id, Creds) -> Whm.CallResult)
    | Refresh(t: string, id: Id, c: Service, lookup: (Creds, string) -> Whm.CallResult)
    | Resolve(t: string, id: Id, c: Service)

  datatype Setting = Setting(choose: set<Id> -> Id, message: Whm.ExtError -> string)

  // Every service runs on the process's own cipher, and encrypts with IVs of the right length.
  ghost predicate Admissible(prim: Primitives, request: Request) {
    match request
    case CreateToken(_, _, input) => Fits(prim, input.secret)
    case UpdateToken(_, _, patch) => patch.secret.Some? ==> Fits(prim, patch.secret.value)
    case TestConnection(_, _, c, _) => c.prim == prim
    case SyncTenant(_, c, _, _) => c.prim == prim
    case SyncServer(_, _, c, _) => c.prim == prim
    case Refresh(_, _, c, _) => c.prim == prim
    case Resolve(_, _, c) => c.prim == prim
    case _ => true
  }

  // A request with what the surroundings contribute to it, and the time at which its service reads the clock.
  datatype Ticket = Ticket(setting: Setting, request: Request, at: Time)

  function EnvOf(ticket: Ticket): Env
    requires ticket.request.SyncServer? || ticket.request.SyncTenant?
  {
    Env(ticket.setting.choose, ticket.request.whm, ticket.setting.message,
        if ticket.request.SyncTenant? then ticket.request.clock else (_ => ticket.at))
  }

  // ----- What handling comes to -----

  // A result without its value.
  function Reported<T>(r: Result<T>): Result<()> {
    match r
    case Success(_) => Success(())
    case Failure(e) => Failure(e)
  }

  // Some row of the tenant, live or deleted, bears the name.
  predicate NameHeld(s: Store, t: string, name: string) {
    exists i :: i in s.servers && s.servers[i].tenantId == t && s.servers[i].name == name
  }

  predicate LabelHeld(s: Store, t: string, serverId: Id, labelName: string) {
    exists i :: i in s.tokens && s.tokens[i].tenantId == t && s.tokens[i].serverId == serverId &&
      s.tokens[i].labelName == labelName
  }

  // Some other row of the tenant, live or deleted, bears the new name.
  predicate OtherNamed(s: Store, t: string, id: Id, patch: ServerPatch) {
    patch.name.Some? &&
    exists i :: i in s.servers && i != id && s.servers[i].tenantId == t && s.servers[i].name == patch.name.value
  }

  predicate OtherLabelled(s: Store, t: string, id: Id, patch: TokenPatch) {
    patch.labelName.Some? && id in s.tokens &&
    exists i :: i in s.tokens && i != id && s.tokens[i].tenantId == t &&
      s.tokens[i].serverId == s.tokens[id].serverId &&
      s.tokens[i].labelName == patch.labelName.value
  }

  lemma RenamesExactly(s: Store, t: string, id: Id, patch: ServerPatch)
    ensures ServersService.Renames(s, t, id, patch) <==> OtherNamed(s, t, id, patch)
  {
  }

  lemma RelabelsExactly(s: Store, t: string, id: Id, patch: TokenPatch)
    ensures TokensService.Relabels(s, t, id, patch) <==> OtherLabelled(s, t, id, patch)
  {
  }

  ghost predicate CreatesServer(s: Store, s': Store, t: string, input: ServersService.ServerInput, at: Time,
          r: Result<()>)
  {
    if NamedLive(s, t, input.name, {}) then r == Failure(Conflict) && s' == s
    else if NameHeld(s, t, input.name) then r == Failure(UniqueKeyViolated) && s' == s
    else r == Success(()) && exists id :: ServersService.ServerCreated(s, s', t, input, id, at)
  }

  ghost predicate UpdatesServer(s: Store, s': Store, t: string, id: Id, patch: ServerPatch, r: Result<()>) {
    if ServersService.Clashes(s, t, id, patch) then r == Failure(Conflict) && s' == s
    else if !LiveServer(s, t, id) then r == Failure(NotFound("Server")) && s' == s
    else if OtherNamed(s, t, id, patch) then r == Failure(UniqueKeyViolated) && s' == s
    else r == Success(()) && ServersService.ServerUpdated(s, s', id, patch)
  }

  ghost predicate RemovesServer(s: Store, s': Store, t: string, id: Id, at: Time, r: Result<()>) {
    if LiveServer(s, t, id) then r == Success(()) && s' == ServersService.WithoutServer(s, id, at)
    else r == Failure(NotFound("Server")) && s' == s
  }

  ghost predicate CreatesToken(s: Store, secrets: SecretTable, s': Store, t: string, serverId: Id,
          input: TokensService.TokenInput, r: Result<()>)
  {
    if !LiveServer(s, t, serverId) then r == Failure(NotFound("Server")) && s' == s
    else if LabelledLive(s, t, serverId, input.labelName) then r == Failure(Conflict) && s' == s
    else if LabelHeld(s, t, serverId, input.labelName) then r == Failure(UniqueKeyViolated) && s' == s
    else
      && r == Success(())
      && exists id :: TokenAdded(s, secrets, s', t, serverId, input, id)
  }

  ghost predicate TokenAdded(s: Store, secrets: SecretTable, s': Store, t: string, serverId: Id,
          input: TokensService.TokenInput, id: Id)
  {
    TokensService.TokenCreated(s, s', secrets, secrets[id := input.secret], t, serverId, input, id)
  }

  function Rotated(secrets: SecretTable, id: Id, patch: TokenPatch): SecretTable {
    if patch.secret.Some? then secrets[id := patch.secret.value] else secrets
  }

  ghost predicate UpdatesToken(s: Store, secrets: SecretTable, s': Store, t: string, id: Id, patch: TokenPatch,
          r: Result<()>)
  {
    if !LiveToken(s, t, id) then r == Failure(NotFound("Token")) && s' == s
    else if OtherLabelled(s, t, id, patch) then r == Failure(UniqueKeyViolated) && s' == s
    else r == Success(()) && TokensService.TokenUpdated(s, s', secrets, Rotated(secrets, id, patch), id, patch)
  }

  ghost predicate RemovesToken(s: Store, s': Store, t: string, id: Id, at: Time, r: Result<()>) {
    if LiveToken(s, t, id) then r == Success(()) && s' == TokensService.WithoutToken(s, id, at)
    else r == Failure(NotFound("Token")) && s' == s
  }

  // Which of several tokens is used is the database's choice.
  ghost predicate Tests(s: Store, secrets: SecretTable, s': Store, t: string, id: Id, c: Service,
          probe: Creds -> Whm.CallResult, message: Whm.ExtError -> string, at: Time, r: Result<()>)
  {
    if !LiveServer(s, t, id) then r == Failure(NotFound("Server")) && s' == s
    else if ActiveTokens(s.tokens, t, id, WHM) == {} then r == Failure(NoActiveToken) && s' == s
    else
      && r == Success(())
      && exists i :: i in ActiveTokens(s.tokens, t, id, WHM) && i in secrets &&
           ServersService.Tested(s, s', id, i, at,
                                 ServersService.Probed(c, probe, message, s.servers[id], s.tokens[i], secrets[i], at))
  }

  // What a sync returns or throws.
  function SyncReport(d: Decision): Result<()> {
    match d
    case NoServer => Failure(NotFound("Server"))
    case NoToken => Failure(NoActiveToken)
    case CannotDecrypt(e) => Failure(Undecryptable(e))
    case Unreachable(message) => Failure(SyncFailed(message))
    case Reached(_, _) => Success(())
  }

  ghost predicate SyncsServer(s: Store, s': Store, t: string, id: Id, c: Service, env: Env, r: Result<()>) {
    var d := Decide(c, env, s, t, id);
    r == SyncReport(d) && ServerSynced(s, s', t, id, d, env.at(id))
  }

  ghost predicate SyncsTenant(s: Store, s': Store, t: string, c: Service, env: Env, r: Result<()>) {
    r == Success(()) && exists rows ::
      Newest(FindServers(s, t, (_, _) => true), rows, 1000) &&
        TenantSynced(s, s', t, rows, Decisions(c, env, s, t), env.at)
  }

  // What a refresh does that gets this summary.
  ghost predicate SummaryWritten(s: Store, s': Store, t: string, serverId: Id, summary: Result<Parsed>, token: Id,
          at: Time, r: Result<()>)
  {
    match summary
    case Failure(e) => r == Failure(e) && s' == s
    case Success(parsed) =>
      && r.Success? && s'.servers == s.servers
      && token in s.tokens && s'.tokens == s.tokens[token := s.tokens[token].(lastUsedAt := Some(at))]
      && CacheSet(s.accounts, s'.accounts, t, serverId, parsed, at)
  }

  ghost predicate Refreshes(s: Store, secrets: SecretTable, s': Store, t: string, accountId: Id, c: Service,
          lookup: (Creds, string) -> Whm.CallResult, choose: set<Id> -> Id, at: Time, r: Result<()>)
    requires s.tokens.Keys == secrets.Keys
  {
    if !LiveAccount(s, t, accountId) then r == Failure(NotFound("Account")) && s' == s
    else
      var account := s.accounts[accountId];
      match AccountsService.Access(c, s, secrets, choose, t, account.serverId)
      case Failure(e) => r == Failure(e) && s' == s
      case Success(access) =>
        var summary := AccountsService.Summary(Whm.FirstAccount(lookup(access.0, account.cpanelUser)));
        SummaryWritten(s, s', t, account.serverId, summary, access.1, at, r)
  }

  ghost predicate Resolves(s: Store, secrets: SecretTable, s': Store, t: string, accountId: Id, c: Service,
          choose: set<Id> -> Id, r: Result<()>)
    requires s.tokens.Keys == secrets.Keys
  {
    s' == s &&
    r == if !LiveAccount(s, t, accountId) then Failure(NotFound("Account"))
         else Reported(AccountsService.Access(c, s, secrets, choose, t, s.accounts[accountId].serverId))
  }

  lemma NameHeldBy(s: Store, t: string, name: string, own: Id)
    requires own !in s.servers
    ensures NameHeld(s, t, name) <==> NameTaken(s, t, name, own)
  {
  }

  lemma LabelHeldBy(s: Store, t: string, serverId: Id, labelName: string, own: Id)
    requires own !in s.tokens
    ensures LabelHeld(s, t, serverId, labelName) <==> LabelTaken(s, t, serverId, labelName, own)
  {
  }

  lemma LiveNameHeld(s: Store, t: string, name: string)
    ensures NamedLive(s, t, name, {}) ==> NameHeld(s, t, name)
  {
  }

  lemma LiveLabelHeld(s: Store, t: string, serverId: Id, labelName: string)
    ensures LabelledLive(s, t, serverId, labelName) ==> LabelHeld(s, t, serverId, labelName)
  {
  }

  lemma ClashRenames(s: Store, t: string, id: Id, patch: ServerPatch)
    ensures ServersService.Clashes(s, t, id, patch) ==> ServersService.Renames(s, t, id, patch)
  {
  }

  // The request, handled by itself, has this result and leaves this state.
  ghost predicate Handled(ticket: Ticket, s: Store, secrets: SecretTable, s': Store, r: Result<()>)
    requires s.tokens.Keys == secrets.Keys
  {
    var choose, message, at := ticket.setting.choose, ticket.setting.message, ticket.at;
    match ticket.request
    case CreateServer(t, input) => CreatesServer(s, s', t, input, at, r)
    case UpdateServer(t, id, patch) => UpdatesServer(s, s', t, id, patch, r)
    case RemoveServer(t, id) => RemovesServer(s, s', t, id, at, r)
    case TestConnection(t, id, c, probe) => Tests(s, secrets, s', t, id, c, probe, message, at, r)
    case CreateToken(t, id, input) => CreatesToken(s, secrets, s', t, id, input, r)
    case UpdateToken(t, id, patch) => UpdatesToken(s, secrets, s', t, id, patch, r)
    case RemoveToken(t, id) => RemovesToken(s, s', t, id, at, r)
    case SyncTenant(t, c, _, _) => SyncsTenant(s, s', t, c, EnvOf(ticket), r)
    case SyncServer(t, id, c, _) => SyncsServer(s, s', t, id, c, EnvOf(ticket), r)
    case Refresh(t, id, c, lookup) => Refreshes(s, secrets, s', t, id, c, lookup, choose, at, r)
    case Resolve(t, id, c) => Resolves(s, secrets, s', t, id, c, choose, r)
  }
}
