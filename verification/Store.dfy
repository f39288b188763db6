// The three tables (prisma/extension.prisma) and the repository calls on them. One call is one atomic step: a
// database round trip together with the synchronous code leading up to it.
module Store {
  import opened Json
  import opened Crypto
  import Redact

  type Id = nat
  type Time = int

  datatype ServerStatus = ACTIVE | INACTIVE | UNREACHABLE

  datatype TokenScope = WHM | CPANEL

  datatype ServerRow = ServerRow(
    tenantId: string, name: string, hostname: string, port: int, verifySsl: bool, notes: Option<string>,
    status: ServerStatus, lastCheckedAt: Option<Time>, lastError: Option<string>,
    createdAt: Time, deletedAt: Option<Time>)

  datatype TokenRow = TokenRow(
    tenantId: string, serverId: Id, labelName: string, scope: TokenScope, whmUser: string, cpanelUser: Option<string>,
    tokenEnc: string, keyId: string, lastFour: string,
    isActive: bool, lastUsedAt: Option<Time>, deletedAt: Option<Time>)

  datatype Fields = Fields(domain: Option<string>, plan: Option<string>, suspended: bool, raw: Json)

  datatype AccountRow = AccountRow(
    tenantId: string, serverId: Id, cpanelUser: string, fields: Fields,
    lastSyncedAt: Time, deletedAt: Option<Time>)

  type ServerTable = map<Id, ServerRow>
  type TokenTable = map<Id, TokenRow>
  type AccountTable = map<Id, AccountRow>

  // The secret last written for each token.
  type SecretTable = map<Id, Secret>

  datatype Store = Store(servers: ServerTable, tokens: TokenTable, accounts: AccountTable)

  datatype ServerPatch = ServerPatch(
    name: Option<string>, hostname: Option<string>, port: Option<int>, verifySsl: Option<bool>, notes: Option<string>)

  datatype TokenPatch = TokenPatch(labelName: Option<string>, isActive: Option<bool>, secret: Option<Secret>)

  // A `where` clause is any predicate; the tenant and `deletedAt: null` are always added to it.
  datatype Call =
    | ReadServers(tenantId: string, whereServer: (Id, ServerRow) -> bool)
    | ReadTokens(tenantId: string, whereToken: (Id, TokenRow) -> bool)
    | ReadAccounts(tenantId: string, whereAccount: (Id, AccountRow) -> bool)
    | InsertServer(
        tenantId: string, id: Id, name: string, hostname: string, port: int, verifySsl: bool, notes: Option<string>,
          at: Time)
    | UpdateServer(tenantId: string, id: Id, serverPatch: ServerPatch)
    | SetStatus(tenantId: string, id: Id, status: ServerStatus, lastError: Option<string>, at: Time)
    | DeleteServer(tenantId: string, id: Id, at: Time)
    | InsertToken(
        tenantId: string, id: Id, serverId: Id, labelName: string, scope: TokenScope, whmUser: string,
        cpanelUser: Option<string>, secret: Secret)
    | UpdateToken(tenantId: string, id: Id, tokenPatch: TokenPatch)
    | DeleteToken(tenantId: string, id: Id, at: Time)
    | MarkUsed(tenantId: string, id: Id, at: Time)
    | InsertAccount(tenantId: string, id: Id, serverId: Id, user: string, fields: Fields, at: Time)
    | UpdateAccount(tenantId: string, id: Id, fields: Fields, at: Time)

  datatype Reply =
    | Servers(servers: ServerTable)
    | Tokens(tokens: TokenTable)
    | Accounts(accounts: AccountTable)
    | Created(id: Id)
    | Count(n: nat)
    | UniqueViolation
    | ForeignKeyViolation

  // ----- Live rows of a tenant -----

  predicate LiveServer(s: Store, t: string, id: Id) {
    id in s.servers && s.servers[id].tenantId == t && s.servers[id].deletedAt == None
  }

  predicate LiveToken(s: Store, t: string, id: Id) {
    id in s.tokens && s.tokens[id].tenantId == t && s.tokens[id].deletedAt == None
  }

  predicate LiveAccount(s: Store, t: string, id: Id) {
    id in s.accounts && s.accounts[id].tenantId == t && s.accounts[id].deletedAt == None
  }

  function FindServers(s: Store, t: string, where: (Id, ServerRow) -> bool): ServerTable {
    map id | id in s.servers && LiveServer(s, t, id) && where(id, s.servers[id]) :: s.servers[id]
  }

  function FindTokens(s: Store, t: string, where: (Id, TokenRow) -> bool): TokenTable {
    map id | id in s.tokens && LiveToken(s, t, id) && where(id, s.tokens[id]) :: s.tokens[id]
  }

  function FindAccounts(s: Store, t: string, where: (Id, AccountRow) -> bool): AccountTable {
    map id | id in s.accounts && LiveAccount(s, t, id) && where(id, s.accounts[id]) :: s.accounts[id]
  }

  // ----- The unique keys, which deleted rows keep occupying -----

  predicate NameTaken(s: Store, t: string, name: string, self: Id) {
    exists id :: id in s.servers && id != self && s.servers[id].tenantId == t && s.servers[id].name == name
  }

  predicate LabelTaken(s: Store, t: string, serverId: Id, labelName: string, self: Id) {
    exists id :: id in s.tokens && id != self && s.tokens[id].tenantId == t &&
      s.tokens[id].serverId == serverId && s.tokens[id].labelName == labelName
  }

  predicate UserTaken(s: Store, t: string, serverId: Id, user: string) {
    exists id :: id in s.accounts && s.accounts[id].tenantId == t &&
      s.accounts[id].serverId == serverId && s.accounts[id].cpanelUser == user
  }

  // ----- One call -----

  function Or<T>(o: Option<T>, otherwise: T): T { if o.Some? then o.value else otherwise }

  function PatchedServer(row: ServerRow, p: ServerPatch): ServerRow {
    row.(name := Or(p.name, row.name), hostname := Or(p.hostname, row.hostname), port := Or(p.port, row.port),
         verifySsl := Or(p.verifySsl, row.verifySsl), notes := if p.notes.Some? then p.notes else row.notes)
  }

  function WithSecret(row: TokenRow, secret: Secret): TokenRow {
    var e := Encrypt(secret.writer, secret.plaintext, secret.iv);
    row.(tokenEnc := e.ciphertext, keyId := e.keyId, lastFour := Redact.LastFour(secret.plaintext))
  }

  function PatchedToken(row: TokenRow, p: TokenPatch): TokenRow {
    var relabelled := row.(labelName := Or(p.labelName, row.labelName), isActive := Or(p.isActive, row.isActive));
    if p.secret.Some? then WithSecret(relabelled, p.secret.value) else relabelled
  }

  // What the database answers.
  function Answer(s: Store, call: Call): Reply {
    match call
    case ReadServers(t, where) => Servers(FindServers(s, t, where))
    case ReadTokens(t, where) => Tokens(FindTokens(s, t, where))
    case ReadAccounts(t, where) => Accounts(FindAccounts(s, t, where))
    case InsertServer(t, id, name, _, _, _, _, _) =>
      if NameTaken(s, t, name, id) then UniqueViolation else Created(id)
    case UpdateServer(t, id, p) =>
      if !LiveServer(s, t, id) then Count(0)
      else if p.name.Some? && NameTaken(s, t, p.name.value, id) then UniqueViolation
      else Count(1)
    case SetStatus(t, id, _, _, _) => if LiveServer(s, t, id) then Count(1) else Count(0)
    case DeleteServer(t, id, _) => if LiveServer(s, t, id) then Count(1) else Count(0)
    case InsertToken(t, id, serverId, labelName, _, _, _, _) =>
      if LabelTaken(s, t, serverId, labelName, id) then UniqueViolation
      else if serverId !in s.servers then ForeignKeyViolation
      else Created(id)
    case UpdateToken(t, id, p) =>
      if !LiveToken(s, t, id) then Count(0)
      else if p.labelName.Some? && LabelTaken(s, t, s.tokens[id].serverId, p.labelName.value, id) then UniqueViolation
      else Count(1)
    case DeleteToken(t, id, _) => if LiveToken(s, t, id) then Count(1) else Count(0)
    case MarkUsed(t, id, _) => if LiveToken(s, t, id) then Count(1) else Count(0)
    case InsertAccount(t, id, serverId, user, _, _) =>
      if UserTaken(s, t, serverId, user) then UniqueViolation
      else if serverId !in s.servers then ForeignKeyViolation
      else Created(id)
    case UpdateAccount(t, id, _, _) => if LiveAccount(s, t, id) then Count(1) else Count(0)
  }

  predicate Writes(s: Store, call: Call) {
    Answer(s, call).Created? || Answer(s, call) == Count(1)
  }

  function ServersAfter(s: Store, call: Call): ServerTable {
    if !Writes(s, call) then s.servers
    else match call
      case InsertServer(t, id, name, hostname, port, verifySsl, notes, at) =>
        s.servers[id := ServerRow(t, name, hostname, port, verifySsl, notes, INACTIVE, None, None, at, None)]
      case UpdateServer(_, id, p) => s.servers[id := PatchedServer(s.servers[id], p)]
      case SetStatus(_, id, status, lastError, at) =>
        s.servers[id := s.servers[id].(status := status, lastError := lastError, lastCheckedAt := Some(at))]
      case DeleteServer(_, id, at) => s.servers[id := s.servers[id].(deletedAt := Some(at))]
      case _ => s.servers
  }

  function NewToken(call: Call): TokenRow
    requires call.InsertToken?
  {
    WithSecret(TokenRow(call.tenantId, call.serverId, call.labelName, call.scope, call.whmUser, call.cpanelUser,
                           "", "", "", true, None, None), call.secret)
  }

  function TokensAfter(s: Store, call: Call): TokenTable {
    if !Writes(s, call) then s.tokens
    else match call
      case InsertToken(_, id, _, _, _, _, _, _) => s.tokens[id := NewToken(call)]
      case UpdateToken(_, id, p) => s.tokens[id := PatchedToken(s.tokens[id], p)]
      case DeleteToken(_, id, at) => s.tokens[id := s.tokens[id].(deletedAt := Some(at), isActive := false)]
      case MarkUsed(_, id, at) => s.tokens[id := s.tokens[id].(lastUsedAt := Some(at))]
      case _ => s.tokens
  }

  function AccountsAfter(s: Store, call: Call): AccountTable {
    if !Writes(s, call) then s.accounts
    else match call
      case InsertAccount(t, id, serverId, user, fields, at) =>
        s.accounts[id := AccountRow(t, serverId, user, fields, at, None)]
      case UpdateAccount(_, id, fields, at) =>
        s.accounts[id := s.accounts[id].(fields := fields, lastSyncedAt := at)]
      case _ => s.accounts
  }

  function Apply(s: Store, call: Call): Store {
    Store(ServersAfter(s, call), TokensAfter(s, call), AccountsAfter(s, call))
  }

  // ----- What the callers keep to -----

  // Rows a tenant has been shown: the services name a server in an insert only after looking it up.
  function Noticed(call: Call, reply: Reply): set<(string, Id)> {
    if reply.Servers? then set id | id in reply.servers :: (call.tenantId, id) else {}
  }

  predicate Sealable(secret: Secret) {
    |secret.iv| == IV_BYTES
  }

  // Fresh ids, looked-up servers, usable secrets (the request schemas ask for at least 8 characters), and the two
  // forms in which the services set a status.
  predicate Proper(s: Store, seen: set<(string, Id)>, call: Call) {
    match call
    case InsertServer(_, id, _, _, _, _, _, _) => id !in s.servers
    case InsertToken(t, id, serverId, _, _, _, _, secret) =>
      id !in s.tokens && (t, serverId) in seen && Sealable(secret)
    case InsertAccount(t, id, serverId, _, _, _) => id !in s.accounts && (t, serverId) in seen
    case UpdateToken(_, _, p) => p.secret.Some? ==> Sealable(p.secret.value)
    case SetStatus(_, _, status, lastError, _) =>
      (status == ACTIVE && lastError == None) || (status == UNREACHABLE && lastError.Some?)
    case _ => true
  }

  // ----- Invariant -----

  ghost predicate Owns(s: Store, t: string, serverId: Id) {
    serverId in s.servers && s.servers[serverId].tenantId == t
  }

  ghost predicate AccountKeysUnique(m: AccountTable) {
    forall i, j :: i in m && j in m && i != j ==>
      m[i].tenantId != m[j].tenantId || m[i].serverId != m[j].serverId || m[i].cpanelUser != m[j].cpanelUser
  }

  ghost predicate ServerKeysUnique(s: Store) {
    forall i, j :: i in s.servers && j in s.servers && i != j ==>
      s.servers[i].tenantId != s.servers[j].tenantId || s.servers[i].name != s.servers[j].name
  }

  ghost predicate TokenKeysUnique(s: Store) {
    forall i, j :: i in s.tokens && j in s.tokens && i != j ==>
      s.tokens[i].tenantId != s.tokens[j].tenantId || s.tokens[i].serverId != s.tokens[j].serverId ||
        s.tokens[i].labelName != s.tokens[j].labelName
  }

  ghost predicate KeysUnique(s: Store) {
    ServerKeysUnique(s) && TokenKeysUnique(s) && AccountKeysUnique(s.accounts)
  }

  // Nothing soft-deletes an account.
  ghost predicate AccountsLive(m: AccountTable) {
    forall i :: i in m ==> m[i].deletedAt == None
  }

  // Tokens and accounts reference a server of their own tenant.
  ghost predicate TokensOwned(servers: ServerTable, m: TokenTable) {
    forall i :: i in m ==> m[i].serverId in servers && servers[m[i].serverId].tenantId == m[i].tenantId
  }

  ghost predicate AccountsOwned(servers: ServerTable, m: AccountTable) {
    forall i :: i in m ==> m[i].serverId in servers && servers[m[i].serverId].tenantId == m[i].tenantId
  }

  ghost predicate ReferencesOwned(s: Store) {
    TokensOwned(s.servers, s.tokens) && AccountsOwned(s.servers, s.accounts)
  }

  predicate StatusCoherent(row: ServerRow) {
    (row.status == INACTIVE <==> row.lastCheckedAt == None) && (row.status == UNREACHABLE <==> row.lastError.Some?)
  }

  // The row holds the envelope of exactly this secret, and its hint.
  predicate Hides(row: TokenRow, w: Secret) {
    && |w.iv| == IV_BYTES
    && row.tokenEnc == Encrypt(w.writer, w.plaintext, w.iv).ciphertext && row.keyId == w.writer.keyId
    && row.lastFour == Redact.LastFour(w.plaintext)
  }

  // `secrets` is the plaintext store: the secret last written for each token.
  ghost predicate SecretsKept(s: Store, secrets: SecretTable) {
    s.tokens.Keys == secrets.Keys && forall i :: i in s.tokens ==> Hides(s.tokens[i], secrets[i])
  }

  ghost predicate Inv(s: Store, secrets: SecretTable) {
    && KeysUnique(s)
    && AccountsLive(s.accounts)
    && ReferencesOwned(s)
    && (forall i :: i in s.servers ==> StatusCoherent(s.servers[i]))
    && SecretsKept(s, secrets)
  }

  function Remember(secrets: SecretTable, call: Call, reply: Reply): SecretTable {
    if call.InsertToken? && reply.Created? then secrets[call.id := call.secret]
    else if call.UpdateToken? && call.tokenPatch.secret.Some? && reply == Count(1)
      then secrets[call.id := call.tokenPatch.secret.value]
    else secrets
  }

  // ----- What never changes back -----

  predicate ServerEvolves(a: ServerRow, b: ServerRow) {
    && a.tenantId == b.tenantId && a.createdAt == b.createdAt
    && (a.deletedAt.Some? ==> a == b)
    && (a.lastCheckedAt.Some? ==> b.lastCheckedAt.Some?)
  }

  predicate TokenEvolves(a: TokenRow, b: TokenRow) {
    && a.tenantId == b.tenantId && a.serverId == b.serverId
    && a.scope == b.scope && a.whmUser == b.whmUser && a.cpanelUser == b.cpanelUser
    && (a.deletedAt.Some? ==> a == b)
    && (a.lastUsedAt.Some? ==> b.lastUsedAt.Some?)
  }

  predicate AccountEvolves(a: AccountRow, b: AccountRow) {
    && a.tenantId == b.tenantId && a.serverId == b.serverId && a.cpanelUser == b.cpanelUser
    && a.deletedAt == b.deletedAt && (a.deletedAt.Some? ==> a == b)
  }

  ghost predicate Evolves(s: Store, s': Store) {
    && (forall i :: i in s.servers ==> i in s'.servers && ServerEvolves(s.servers[i], s'.servers[i]))
    && (forall i :: i in s.tokens ==> i in s'.tokens && TokenEvolves(s.tokens[i], s'.tokens[i]))
    && (forall i :: i in s.accounts ==> i in s'.accounts && AccountEvolves(s.accounts[i], s'.accounts[i]))
  }

  lemma ServersEvolve(s: Store, seen: set<(string, Id)>, call: Call)
    requires Proper(s, seen, call)
    ensures forall i :: i in s.servers ==>
              i in ServersAfter(s, call) && ServerEvolves(s.servers[i], ServersAfter(s, call)[i])
  {
  }

  lemma TokensEvolve(s: Store, seen: set<(string, Id)>, call: Call)
    requires Proper(s, seen, call)
    ensures forall i :: i in s.tokens ==>
              i in TokensAfter(s, call) && TokenEvolves(s.tokens[i], TokensAfter(s, call)[i])
  {
  }

  lemma AccountsEvolve(s: Store, seen: set<(string, Id)>, call: Call)
    requires Proper(s, seen, call)
    ensures forall i :: i in s.accounts ==>
              i in AccountsAfter(s, call) && AccountEvolves(s.accounts[i], AccountsAfter(s, call)[i])
  {
  }

  lemma ApplyEvolves(s: Store, seen: set<(string, Id)>, call: Call)
    requires Proper(s, seen, call)
    ensures Evolves(s, Apply(s, call))
  {
    ServersEvolve(s, seen, call);
    TokensEvolve(s, seen, call);
    AccountsEvolve(s, seen, call);
  }

  lemma EvolvesReflexive(s: Store)
    ensures Evolves(s, s)
  {
  }

  lemma EvolvesTransitive(a: Store, b: Store, d: Store)
    requires Evolves(a, b) && Evolves(b, d)
    ensures Evolves(a, d)
  {
    forall i | i in a.servers ensures i in d.servers && ServerEvolves(a.servers[i], d.servers[i]) {
      assert ServerEvolves(a.servers[i], b.servers[i]) && ServerEvolves(b.servers[i], d.servers[i]);
    }
    forall i | i in a.tokens ensures i in d.tokens && TokenEvolves(a.tokens[i], d.tokens[i]) {
      assert TokenEvolves(a.tokens[i], b.tokens[i]) && TokenEvolves(b.tokens[i], d.tokens[i]);
    }
    forall i | i in a.accounts ensures i in d.accounts && AccountEvolves(a.accounts[i], d.accounts[i]) {
      assert AccountEvolves(a.accounts[i], b.accounts[i]) && AccountEvolves(b.accounts[i], d.accounts[i]);
    }
  }

  ghost predicate SeenOwned(s: Store, seen: set<(string, Id)>) {
    forall p :: p in seen ==> Owns(s, p.0, p.1)
  }

  lemma ApplyKeepsServerKeys(s: Store, call: Call)
    requires ServerKeysUnique(s)
    ensures ServerKeysUnique(Apply(s, call))
  {
    hide LabelTaken, UserTaken, FindServers, FindTokens, FindAccounts, TokensAfter, AccountsAfter;
  }

  lemma ApplyKeepsTokenKeys(s: Store, call: Call)
    requires TokenKeysUnique(s)
    ensures TokenKeysUnique(Apply(s, call))
  {
    hide NameTaken, UserTaken, FindServers, FindTokens, FindAccounts, ServersAfter, AccountsAfter, Encrypt;
  }

  lemma ApplyKeepsAccountKeys(s: Store, call: Call)
    requires AccountKeysUnique(s.accounts) && AccountsLive(s.accounts)
    ensures AccountKeysUnique(AccountsAfter(s, call)) && AccountsLive(AccountsAfter(s, call))
  {
  }

  lemma ApplyKeepsTokensOwned(s: Store, seen: set<(string, Id)>, call: Call)
    requires TokensOwned(s.servers, s.tokens) && SeenOwned(s, seen) && Proper(s, seen, call)
    ensures TokensOwned(s.servers, TokensAfter(s, call))
  {
    hide Sealable;
  }

  lemma ApplyKeepsAccountsOwned(s: Store, seen: set<(string, Id)>, call: Call)
    requires AccountsOwned(s.servers, s.accounts) && SeenOwned(s, seen) && Proper(s, seen, call)
    ensures AccountsOwned(s.servers, AccountsAfter(s, call))
  {
    hide Sealable;
  }

  lemma ApplyKeepsSeen(s: Store, s': Store, seen: set<(string, Id)>, call: Call)
    requires SeenOwned(s, seen) && forall i :: i in s.servers ==>
               i in s'.servers && s'.servers[i].tenantId == s.servers[i].tenantId
    ensures SeenOwned(s', seen + Noticed(call, Answer(s, call)))
  {
  }

  lemma ApplyKeepsReferences(s: Store, seen: set<(string, Id)>, call: Call)
    requires ReferencesOwned(s) && SeenOwned(s, seen) && Proper(s, seen, call)
    ensures ReferencesOwned(Apply(s, call)) && SeenOwned(Apply(s, call), seen + Noticed(call, Answer(s, call)))
  {
    hide ServersAfter, TokensAfter, AccountsAfter, SeenOwned, Proper, Noticed, Answer;
    ServersEvolve(s, seen, call);
    ApplyKeepsSeen(s, Apply(s, call), seen, call);
    ApplyKeepsTokensOwned(s, seen, call);
    ApplyKeepsAccountsOwned(s, seen, call);
  }

  lemma ApplyKeepsStatus(s: Store, seen: set<(string, Id)>, call: Call)
    requires (forall i :: i in s.servers ==> StatusCoherent(s.servers[i])) && Proper(s, seen, call)
    ensures forall i :: i in ServersAfter(s, call) ==> StatusCoherent(ServersAfter(s, call)[i])
  {
  }

  lemma PatchHides(row: TokenRow, p: TokenPatch, w: Secret)
    requires (p.secret.Some? ==> Sealable(p.secret.value)) && Hides(row, w)
    ensures Hides(PatchedToken(row, p), if p.secret.Some? then p.secret.value else w)
  {
  }

  // Without a new secret a write leaves the three columns that hide one alone.
  lemma OtherWritesHide(s: Store, call: Call, i: Id, w: Secret)
    requires i in s.tokens && Hides(s.tokens[i], w)
    requires !call.InsertToken? && (call.UpdateToken? ==> call.tokenPatch.secret == None)
    ensures i in TokensAfter(s, call) && Hides(TokensAfter(s, call)[i], w)
  {
    hide Encrypt;
  }

  lemma InsertKeepsSecrets(s: Store, secrets: SecretTable, call: Call)
    requires SecretsKept(s, secrets) && call.InsertToken? && Sealable(call.secret)
    ensures SecretsKept(Apply(s, call), Remember(secrets, call, Answer(s, call)))
  {
    assert Hides(NewToken(call), call.secret);
    hide Encrypt, Sealable, NewToken, Hides, LabelTaken;
  }

  lemma UpdateKeepsSecrets(s: Store, secrets: SecretTable, call: Call)
    requires SecretsKept(s, secrets) && call.UpdateToken? && call.tokenPatch.secret.Some? &&
             Sealable(call.tokenPatch.secret.value)
    ensures SecretsKept(Apply(s, call), Remember(secrets, call, Answer(s, call)))
  {
    if call.id in s.tokens { PatchHides(s.tokens[call.id], call.tokenPatch, secrets[call.id]); }
    hide Encrypt, Sealable, PatchedToken, Hides, LabelTaken;
  }

  lemma OtherCallsKeepSecrets(s: Store, secrets: SecretTable, call: Call)
    requires SecretsKept(s, secrets) && !call.InsertToken? && (call.UpdateToken? ==> call.tokenPatch.secret == None)
    ensures SecretsKept(Apply(s, call), Remember(secrets, call, Answer(s, call)))
  {
    hide Hides, Writes, Answer, PatchedToken;
    forall i | i in s.tokens ensures i in TokensAfter(s, call) && Hides(TokensAfter(s, call)[i], secrets[i]) {
      OtherWritesHide(s, call, i, secrets[i]);
    }
    OtherCallsKeepIds(s, call);
    hide TokensAfter;
  }

  lemma OtherCallsKeepIds(s: Store, call: Call)
    requires !call.InsertToken?
    ensures TokensAfter(s, call).Keys == s.tokens.Keys
  {
    if Writes(s, call) { WritesToken(s, call); }
    hide Writes, PatchedToken;
  }

  lemma WritesToken(s: Store, call: Call)
    requires Writes(s, call)
    ensures call.UpdateToken? || call.DeleteToken? || call.MarkUsed? ==> call.id in s.tokens
  {
  }

  lemma ApplyKeepsSecrets(s: Store, secrets: SecretTable, seen: set<(string, Id)>, call: Call)
    requires SecretsKept(s, secrets) && Proper(s, seen, call)
    ensures SecretsKept(Apply(s, call), Remember(secrets, call, Answer(s, call)))
  {
    hide SecretsKept, Apply, Answer, Remember;
    if call.InsertToken? {
      InsertKeepsSecrets(s, secrets, call);
    } else if call.UpdateToken? && call.tokenPatch.secret.Some? {
      UpdateKeepsSecrets(s, secrets, call);
    } else {
      OtherCallsKeepSecrets(s, secrets, call);
    }
  }

  // Reading a stored token yields what its service makes of the secret last written for it.
  lemma StoredOpensAs(c: Service, row: TokenRow, w: Secret)
    requires Lawful(c.prim) && w.writer.prim == c.prim && Hides(row, w)
    ensures Decrypt(c, row.tokenEnc, row.keyId) == Opened(c, w)
  {
    OpensAs(c, w);
  }

  lemma ApplyKeepsInv(s: Store, secrets: SecretTable, seen: set<(string, Id)>, call: Call)
    requires Inv(s, secrets) && SeenOwned(s, seen) && Proper(s, seen, call)
    ensures Inv(Apply(s, call), Remember(secrets, call, Answer(s, call)))
    ensures SeenOwned(Apply(s, call), seen + Noticed(call, Answer(s, call)))
    ensures Evolves(s, Apply(s, call))
  {
    ApplyKeepsServerKeys(s, call);
    ApplyKeepsTokenKeys(s, call);
    ApplyKeepsAccountKeys(s, call);
    ApplyKeepsReferences(s, seen, call);
    ApplyKeepsStatus(s, seen, call);
    ApplyKeepsSecrets(s, secrets, seen, call);
    ApplyEvolves(s, seen, call);
  }
}
