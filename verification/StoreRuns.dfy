// Runs: any interleaving of repository calls by any tenants, one call at a time.
module StoreRuns {
  import opened Json
  import opened Store

  ghost predicate ProperRun(s: Store, seen: set<(string, Id)>, run: seq<Call>)
    decreases |run|
  {
    run == [] ||
    (Proper(s, seen, run[0]) &&
     ProperRun(Apply(s, run[0]), seen + Noticed(run[0], Answer(s, run[0])), run[1..]))
  }

  function After(s: Store, run: seq<Call>): Store
    decreases |run|
  {
    if run == [] then s else After(Apply(s, run[0]), run[1..])
  }

  // The plaintext store after the run, kept beside the real one.
  function Remembered(s: Store, secrets: SecretTable, run: seq<Call>): SecretTable
    decreases |run|
  {
    if run == [] then secrets
    else Remembered(Apply(s, run[0]), Remember(secrets, run[0], Answer(s, run[0])), run[1..])
  }

  // Unique keys, references within the tenant, coherent statuses, and every token hiding the secret last written for
  // it survive every run; rows never vanish, keep their identity, and a soft-deleted row never changes again.
  lemma {:induction false} RunKeepsInv(s: Store, secrets: SecretTable, seen: set<(string, Id)>,
          run: seq<Call>)
    requires Inv(s, secrets) && SeenOwned(s, seen) && ProperRun(s, seen, run)
    ensures Inv(After(s, run), Remembered(s, secrets, run))
    ensures Evolves(s, After(s, run))
    decreases |run|
  {
    EvolvesReflexive(s);
    hide Inv, Apply, Answer, Evolves, Remember, Noticed, SeenOwned, Proper;
    if run != [] {
      var s', reply := Apply(s, run[0]), Answer(s, run[0]);
      ApplyKeepsInv(s, secrets, seen, run[0]);
      RunKeepsInv(s', Remember(secrets, run[0], reply), seen + Noticed(run[0], reply), run[1..]);
      EvolvesTransitive(s, s', After(s, run));
    }
  }

  lemma {:induction false} RunEvolves(s: Store, seen: set<(string, Id)>, run: seq<Call>)
    requires ProperRun(s, seen, run)
    ensures Evolves(s, After(s, run))
    decreases |run|
  {
    EvolvesReflexive(s);
    hide Apply, Answer, Evolves, Noticed, Proper;
    if run != [] {
      var s', reply := Apply(s, run[0]), Answer(s, run[0]);
      ApplyEvolves(s, seen, run[0]);
      RunEvolves(s', seen + Noticed(run[0], reply), run[1..]);
      EvolvesTransitive(s, s', After(s, run));
    }
  }

  // ----- Deleted rows -----

  // A deleted server is never found again, by anyone, and never written again.
  lemma NeverFoundAgain(s: Store, seen: set<(string, Id)>, run: seq<Call>, id: Id, t: string,
          where: (Id, ServerRow) -> bool)
    requires ProperRun(s, seen, run) && id in s.servers && s.servers[id].deletedAt.Some?
    ensures var s' := After(s, run);
            && id in s'.servers && s'.servers[id] == s.servers[id] && !LiveServer(s', t, id)
            && id !in Answer(s', ReadServers(t, where)).servers
  {
    RunEvolves(s, seen, run);
    assert ServerEvolves(s.servers[id], After(s, run).servers[id]);
  }

  // Nor does its name come free: creating a server of that name fails in the table for ever after.
  lemma NameLost(s: Store, seen: set<(string, Id)>, run: seq<Call>, id: Id, call: Call)
    requires ProperRun(s, seen, run) && id in s.servers && s.servers[id].deletedAt.Some?
    requires call.InsertServer? && call.id != id && call.tenantId == s.servers[id].tenantId &&
             call.name == s.servers[id].name
    ensures Answer(After(s, run), call) == UniqueViolation
  {
    NeverFoundAgain(s, seen, run, id, call.tenantId, (_, _) => true);
  }

  // The same holds for the label of a deleted token.
  lemma LabelLost(s: Store, seen: set<(string, Id)>, run: seq<Call>, id: Id, call: Call)
    requires ProperRun(s, seen, run) && id in s.tokens && s.tokens[id].deletedAt.Some?
    requires call.InsertToken? && call.id != id && call.tenantId == s.tokens[id].tenantId
    requires call.serverId == s.tokens[id].serverId && call.labelName == s.tokens[id].labelName
    ensures Answer(After(s, run), call) == UniqueViolation
  {
    RunEvolves(s, seen, run);
    assert TokenEvolves(s.tokens[id], After(s, run).tokens[id]);
  }

  // A server that was checked once is never INACTIVE again.
  lemma NeverInactiveAgain(s: Store, secrets: SecretTable, seen: set<(string, Id)>, run: seq<Call>, id: Id)
    requires Inv(s, secrets) && SeenOwned(s, seen) && ProperRun(s, seen, run)
    requires id in s.servers && s.servers[id].status != INACTIVE
    ensures var s' := After(s, run); id in s'.servers && s'.servers[id].status != INACTIVE
  {
    assert StatusCoherent(s.servers[id]);
    RunKeepsInv(s, secrets, seen, run);
    var s' := After(s, run);
    assert ServerEvolves(s.servers[id], s'.servers[id]) && StatusCoherent(s'.servers[id]);
  }

  // The services look for a clash among live rows only, and not at all when a token is relabelled. An unchecked
  // relabelling would keep the keys unique exactly when no other row, live or deleted, has the label.
  lemma RelabelKeepsKeysExactly(s: Store, id: Id, labelName: string)
    requires TokenKeysUnique(s) && id in s.tokens
    ensures TokenKeysUnique(s.(tokens := s.tokens[id := s.tokens[id].(labelName := labelName)]))
            <==> !LabelTaken(s, s.tokens[id].tenantId, s.tokens[id].serverId, labelName, id)
  {
    var s' := s.(tokens := s.tokens[id := s.tokens[id].(labelName := labelName)]);
    if LabelTaken(s, s.tokens[id].tenantId, s.tokens[id].serverId, labelName, id) {
      var other :| other in s.tokens && other != id && s.tokens[other].tenantId == s.tokens[id].tenantId &&
        s.tokens[other].serverId == s.tokens[id].serverId && s.tokens[other].labelName == labelName;
      assert s'.tokens[other].labelName == s'.tokens[id].labelName;
    }
  }

  // ----- A lookup and the insert that follows it -----

  // Some call of the run inserts an account of this user on this server.
  ghost predicate InsertsUser(s: Store, run: seq<Call>, t: string, serverId: Id, user: string)
    decreases |run|
  {
    run != [] &&
    ((run[0].InsertAccount? && run[0].tenantId == t && run[0].serverId == serverId && run[0].user == user &&
      Answer(s, run[0]).Created?) ||
     InsertsUser(Apply(s, run[0]), run[1..], t, serverId, user))
  }

  lemma UserTakenNext(s: Store, seen: set<(string, Id)>, call: Call, t: string, serverId: Id, user: string)
    requires Proper(s, seen, call)
    ensures UserTaken(Apply(s, call), t, serverId, user) <==>
            || UserTaken(s, t, serverId, user)
            || (call.InsertAccount? && call.tenantId == t && call.serverId == serverId && call.user == user &&
                Answer(s, call).Created?)
  {
    AccountsEvolve(s, seen, call);
    var m, m' := s.accounts, AccountsAfter(s, call);
    if i :| i in m && m[i].tenantId == t && m[i].serverId == serverId && m[i].cpanelUser == user {
      assert AccountEvolves(m[i], m'[i]);
    }
    if call.InsertAccount? && Answer(s, call).Created? { assert call.id in m'; }
  }

  lemma {:induction false} UserTakenAfter(s: Store, seen: set<(string, Id)>, run: seq<Call>, t: string, serverId: Id,
          user: string)
    requires ProperRun(s, seen, run)
    ensures UserTaken(After(s, run), t, serverId, user) <==>
              UserTaken(s, t, serverId, user) || InsertsUser(s, run, t, serverId, user)
    decreases |run|
  {
    if run != [] {
      UserTakenNext(s, seen, run[0], t, serverId, user);
      hide Apply, Answer, Noticed, Proper, UserTaken;
      UserTakenAfter(Apply(s, run[0]), seen + Noticed(run[0], Answer(s, run[0])), run[1..], t, serverId, user);
    }
  }

  // An account is looked up and not found; what happens before it is inserted makes the insert violate the unique key
  // exactly when it contains an insert of the same account, as of another sync or refresh of the server.
  lemma RaceExactly(s: Store, seen: set<(string, Id)>, run: seq<Call>, call: Call)
    requires ProperRun(s, seen, run) && AccountsLive(s.accounts) && call.InsertAccount?
    requires FindAccounts(s, call.tenantId, (_, row: AccountRow) => row.serverId == call.serverId &&
                          row.cpanelUser == call.user) == map[]
    ensures Answer(After(s, run), call) == UniqueViolation <==>
              InsertsUser(s, run, call.tenantId, call.serverId, call.user)
  {
    var found :=
        FindAccounts(s, call.tenantId, (_, row: AccountRow) => row.serverId == call.serverId &&
                     row.cpanelUser == call.user);
    assert !UserTaken(s, call.tenantId, call.serverId, call.user) by {
      forall i | i in s.accounts && s.accounts[i].tenantId == call.tenantId && s.accounts[i].serverId == call.serverId
        ensures s.accounts[i].cpanelUser != call.user
      {
        assert i !in found;
      }
    }
    UserTakenAfter(s, seen, run, call.tenantId, call.serverId, call.user);
    hide After, InsertsUser, UserTaken;
  }

  // ----- Independence of tenants -----

  ghost predicate SameServers(t: string, a: ServerTable, b: ServerTable) {
    forall id :: (id in a && a[id].tenantId == t) || (id in b && b[id].tenantId == t) ==>
      id in a && id in b && a[id] == b[id]
  }

  ghost predicate SameTokens(t: string, a: TokenTable, b: TokenTable) {
    forall id :: (id in a && a[id].tenantId == t) || (id in b && b[id].tenantId == t) ==>
      id in a && id in b && a[id] == b[id]
  }

  ghost predicate SameAccounts(t: string, a: AccountTable, b: AccountTable) {
    forall id :: (id in a && a[id].tenantId == t) || (id in b && b[id].tenantId == t) ==>
      id in a && id in b && a[id] == b[id]
  }

  // Tenant t has the same rows in both stores.
  ghost predicate SameFor(t: string, a: Store, b: Store) {
    SameServers(t, a.servers, b.servers) && SameTokens(t, a.tokens, b.tokens) && SameAccounts(t, a.accounts, b.accounts)
  }

  ghost predicate IdsWithin(small: Store, big: Store) {
    && small.servers.Keys <= big.servers.Keys
    && small.tokens.Keys <= big.tokens.Keys
    && small.accounts.Keys <= big.accounts.Keys
  }

  function Only(run: seq<Call>, t: string): seq<Call> {
    if run == [] then []
    else (if run[0].tenantId == t then [run[0]] else []) + Only(run[1..], t)
  }

  // Everything tenant t is told during the run.
  function RepliesTo(s: Store, run: seq<Call>, t: string): seq<Reply>
    decreases |run|
  {
    if run == [] then []
    else
      (if run[0].tenantId == t then [Answer(s, run[0])] else []) +
      RepliesTo(Apply(s, run[0]), run[1..], t)
  }

  lemma OthersServers(a: Store, seen: set<(string, Id)>, call: Call, t: string)
    requires Proper(a, seen, call) && call.tenantId != t
    ensures SameServers(t, ServersAfter(a, call), a.servers)
  {
    if Writes(a, call) { WritesAddress(a, call); }
    hide Writes, Sealable;
  }

  lemma OthersTokens(a: Store, seen: set<(string, Id)>, call: Call, t: string)
    requires Proper(a, seen, call) && call.tenantId != t
    ensures SameTokens(t, TokensAfter(a, call), a.tokens)
  {
    if Writes(a, call) { WritesAddress(a, call); }
    hide Writes, Sealable;
  }

  lemma OthersAccounts(a: Store, seen: set<(string, Id)>, call: Call, t: string)
    requires Proper(a, seen, call) && call.tenantId != t
    ensures SameAccounts(t, AccountsAfter(a, call), a.accounts)
  {
    if Writes(a, call) { WritesAddress(a, call); }
    hide Writes, Sealable;
  }

  lemma OthersCall(a: Store, b: Store, seen: set<(string, Id)>, call: Call, t: string)
    requires SameFor(t, a, b) && IdsWithin(b, a) && Proper(a, seen, call) && call.tenantId != t
    ensures SameFor(t, Apply(a, call), b) && IdsWithin(b, Apply(a, call))
  {
    hide ServersAfter, TokensAfter, AccountsAfter, Proper, ServerEvolves, TokenEvolves, AccountEvolves;
    OthersServers(a, seen, call, t);
    OthersTokens(a, seen, call, t);
    OthersAccounts(a, seen, call, t);
    ApplyEvolves(a, seen, call);
  }

  lemma SameAnswers(t: string, a: Store, b: Store, call: Call)
    requires SameFor(t, a, b) && call.tenantId == t
    ensures call.ReadServers? ==> FindServers(a, t, call.whereServer) == FindServers(b, t, call.whereServer)
    ensures call.ReadTokens? ==> FindTokens(a, t, call.whereToken) == FindTokens(b, t, call.whereToken)
    ensures call.ReadAccounts? ==> FindAccounts(a, t, call.whereAccount) == FindAccounts(b, t, call.whereAccount)
  {
  }

  lemma SameNameTaken(t: string, a: Store, b: Store, name: string, self: Id)
    requires SameServers(t, a.servers, b.servers)
    ensures NameTaken(a, t, name, self) <==> NameTaken(b, t, name, self)
  {
  }

  lemma SameLabelTaken(t: string, a: Store, b: Store, serverId: Id, labelName: string, self: Id)
    requires SameTokens(t, a.tokens, b.tokens)
    ensures LabelTaken(a, t, serverId, labelName, self) <==> LabelTaken(b, t, serverId, labelName, self)
  {
  }

  lemma SameUserTaken(t: string, a: Store, b: Store, serverId: Id, user: string)
    requires SameAccounts(t, a.accounts, b.accounts)
    ensures UserTaken(a, t, serverId, user) <==> UserTaken(b, t, serverId, user)
  {
  }

  ghost predicate Alike(a: Store, b: Store, call: Call, t: string) {
    && Answer(a, call) == Answer(b, call)
    && SameFor(t, Apply(a, call), Apply(b, call))
    && IdsWithin(Apply(b, call), Apply(a, call))
  }

  lemma OwnServerAnswer(a: Store, b: Store, call: Call, t: string)
    requires SameServers(t, a.servers, b.servers) && call.tenantId == t
    requires call.InsertServer? || call.UpdateServer? || call.SetStatus? || call.DeleteServer?
    ensures Answer(a, call) == Answer(b, call)
  {
    match call
    case InsertServer(_, id, name, _, _, _, _, _) => SameNameTaken(t, a, b, name, id);
    case UpdateServer(_, id, p) => if p.name.Some? { SameNameTaken(t, a, b, p.name.value, id); }
    case _ =>
  }

  lemma OwnTokenAnswer(a: Store, b: Store, call: Call, t: string)
    requires SameFor(t, a, b) && call.tenantId == t
    requires call.InsertToken? || call.UpdateToken? || call.DeleteToken? || call.MarkUsed?
    requires call.InsertToken? ==> Owns(a, t, call.serverId)
    ensures Answer(a, call) == Answer(b, call)
  {
    match call
    case InsertToken(_, id, serverId, labelName, _, _, _, _) => SameLabelTaken(t, a, b, serverId, labelName, id);
    case UpdateToken(_, id, p) =>
      if p.labelName.Some? && LiveToken(a, t, id) {
        SameLabelTaken(t, a, b, a.tokens[id].serverId, p.labelName.value, id);
      }
    case _ =>
  }

  lemma OwnAccountAnswer(a: Store, b: Store, call: Call, t: string)
    requires SameFor(t, a, b) && call.tenantId == t
    requires call.InsertAccount? || call.UpdateAccount?
    requires call.InsertAccount? ==> Owns(a, t, call.serverId)
    ensures Answer(a, call) == Answer(b, call)
  {
    match call
    case InsertAccount(_, id, serverId, user, _, _) => SameUserTaken(t, a, b, serverId, user);
    case _ =>
  }

  // The row a write addresses is the tenant's own, hence the same in both stores.
  predicate Addresses(s: Store, call: Call) {
    match call
    case UpdateServer(t, id, _) => LiveServer(s, t, id)
    case SetStatus(t, id, _, _, _) => LiveServer(s, t, id)
    case DeleteServer(t, id, _) => LiveServer(s, t, id)
    case UpdateToken(t, id, _) => LiveToken(s, t, id)
    case DeleteToken(t, id, _) => LiveToken(s, t, id)
    case MarkUsed(t, id, _) => LiveToken(s, t, id)
    case UpdateAccount(t, id, _, _) => LiveAccount(s, t, id)
    case _ => true
  }

  lemma WritesAddress(s: Store, call: Call)
    requires Writes(s, call)
    ensures Addresses(s, call)
  {
  }

  lemma OwnServers(a: Store, b: Store, call: Call, t: string)
    requires SameServers(t, a.servers, b.servers) && b.servers.Keys <= a.servers.Keys && call.tenantId == t
    requires Writes(a, call) <==> Writes(b, call)
    requires Writes(a, call) ==> Addresses(a, call)
    ensures SameServers(t, ServersAfter(a, call), ServersAfter(b, call))
    ensures ServersAfter(b, call).Keys <= ServersAfter(a, call).Keys
  {
    hide Writes;
  }

  lemma OwnTokens(a: Store, b: Store, call: Call, t: string)
    requires SameTokens(t, a.tokens, b.tokens) && b.tokens.Keys <= a.tokens.Keys && call.tenantId == t
    requires Writes(a, call) <==> Writes(b, call)
    requires Writes(a, call) ==> Addresses(a, call)
    ensures SameTokens(t, TokensAfter(a, call), TokensAfter(b, call))
    ensures TokensAfter(b, call).Keys <= TokensAfter(a, call).Keys
  {
    hide Writes;
  }

  lemma OwnAccounts(a: Store, b: Store, call: Call, t: string)
    requires SameAccounts(t, a.accounts, b.accounts) && b.accounts.Keys <= a.accounts.Keys && call.tenantId == t
    requires Writes(a, call) <==> Writes(b, call)
    requires Writes(a, call) ==> Addresses(a, call)
    ensures SameAccounts(t, AccountsAfter(a, call), AccountsAfter(b, call))
    ensures AccountsAfter(b, call).Keys <= AccountsAfter(a, call).Keys
  {
    hide Writes;
  }

  lemma OwnCall(a: Store, b: Store, seen: set<(string, Id)>, call: Call, t: string)
    requires SameFor(t, a, b) && IdsWithin(b, a) && SeenOwned(a, seen) && Proper(a, seen, call) && call.tenantId == t
    ensures Alike(a, b, call, t)
  {
    hide Answer, ServersAfter, TokensAfter, AccountsAfter, SameServers, SameTokens, SameAccounts, Proper, Addresses,
         SeenOwned;
    OwnAnswer(a, b, seen, call, t);
    if Writes(a, call) { WritesAddress(a, call); }
    OwnServers(a, b, call, t);
    OwnTokens(a, b, call, t);
    OwnAccounts(a, b, call, t);
  }

  lemma OwnAnswer(a: Store, b: Store, seen: set<(string, Id)>, call: Call, t: string)
    requires SameFor(t, a, b) && SeenOwned(a, seen) && Proper(a, seen, call) && call.tenantId == t
    ensures Answer(a, call) == Answer(b, call)
  {
    hide FindServers, FindTokens, FindAccounts, NameTaken, LabelTaken, UserTaken, Sealable;
    if call.ReadServers? || call.ReadTokens? || call.ReadAccounts? {
      SameAnswers(t, a, b, call);
    } else if call.InsertAccount? || call.UpdateAccount? {
      assert call.InsertAccount? ==> (t, call.serverId) in seen;
      OwnAccountAnswer(a, b, call, t);
    } else if call.InsertToken? || call.UpdateToken? || call.DeleteToken? || call.MarkUsed? {
      assert call.InsertToken? ==> (t, call.serverId) in seen;
      OwnTokenAnswer(a, b, call, t);
    } else {
      OwnServerAnswer(a, b, call, t);
    }
  }

  lemma {:induction false} Unwinding(a: Store, b: Store, seen: set<(string, Id)>, run: seq<Call>, t: string)
    requires SameFor(t, a, b) && IdsWithin(b, a) && SeenOwned(a, seen) && ReferencesOwned(a) && ProperRun(a, seen, run)
    ensures SameFor(t, After(a, run), After(b, Only(run, t)))
    ensures RepliesTo(a, run, t) == RepliesTo(b, Only(run, t), t)
    decreases |run|
  {
    if run != [] {
      var call := run[0];
      var a', reply := Apply(a, call), Answer(a, call);
      ApplyKeepsReferences(a, seen, call);
      if call.tenantId == t {
        OwnCall(a, b, seen, call, t);
        Unwinding(a', Apply(b, call), seen + Noticed(call, reply), run[1..], t);
        assert Only(run, t) == [call] + Only(run[1..], t);
        assert Only(run, t)[1..] == Only(run[1..], t);
      } else {
        OthersCall(a, b, seen, call, t);
        Unwinding(a', b, seen + Noticed(call, reply), run[1..], t);
        assert Only(run, t) == Only(run[1..], t);
      }
    }
  }

  // Deleting every other tenant's calls from an interleaved run changes neither a row of tenant t nor anything t is
  // told.
  lemma TenantsIndependent(s: Store, run: seq<Call>, t: string)
    requires ReferencesOwned(s) && ProperRun(s, {}, run)
    ensures SameFor(t, After(s, run), After(s, Only(run, t)))
    ensures RepliesTo(s, run, t) == RepliesTo(s, Only(run, t), t)
  {
    Unwinding(s, s, {}, run, t);
  }

  // Looking the server up first is what this rests on. The foreign key ranges over all tenants' servers, so the
  // answer to a token insert is independent of the other tenants exactly when the tenant owns the server it names.
  lemma InsertIndependentExactly(a: Store, call: Call)
    requires call.InsertToken? && ReferencesOwned(a)
    ensures (forall b :: SameFor(call.tenantId, a, b) ==> Answer(b, call) == Answer(a, call))
            <==> Owns(a, call.tenantId, call.serverId)
  {
    var t, id := call.tenantId, call.serverId;
    if Owns(a, t, id) {
      forall b | SameFor(t, a, b) ensures Answer(b, call) == Answer(a, call) {
        SameLabelTaken(t, a, b, id, call.labelName, call.id);
      }
    } else {
      assert !LabelTaken(a, t, id, call.labelName, call.id);
      var b := if id in a.servers then a.(servers := a.servers - {id})
               else
                 var row := ServerRow(t + "x", "", "", 0, true, None, INACTIVE, None, None, 0, None);
                 a.(servers := a.servers[id := row]);
      assert SameFor(t, a, b);
      SameLabelTaken(t, a, b, id, call.labelName, call.id);
      assert Answer(b, call) != Answer(a, call);
    }
  }
}
