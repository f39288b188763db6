// Whole runs of the services: any sequence of requests by any tenants, one after the other.
module ServiceRuns {
  import opened Json
  import opened Crypto
  import opened Store
  import opened Database
  import opened Repositories
  import opened AccountCache
  import opened Services
  import opened Attestation
  import opened Sync
  import opened Requests
  import TokensService
  import ServersService
  import AccountsService
  import Whm

  // ----- ACTIVE servers between requests -----

  // No stamp lies in the future, and every ACTIVE server has its witness.
  ghost predicate Attested(s: Store, now: Time) {
    && (forall i :: i in s.tokens && s.tokens[i].lastUsedAt.Some? ==> s.tokens[i].lastUsedAt.value <= now)
    && AllAttested(s)
  }

  lemma QuietAttests(s: Store, s': Store, now: Time, at: Time)
    requires Attested(s, now) && Quiet(s, s') && now <= at
    ensures Attested(s', at)
  {
    forall id | id in s'.servers ensures AttestedBy(s'.tokens, id, s'.servers[id]) {
      if s'.servers[id].status == ACTIVE {
        assert AttestedBy(s.tokens, id, s.servers[id]);
        var i :| Witness(s.tokens, id, s.servers[id], i);
        assert Witness(s'.tokens, id, s'.servers[id], i);
      }
    }
  }

  // A stamp at the current time never takes a witness away.
  lemma UseAttests(s: Store, s': Store, now: Time, token: Id, at: Time)
    requires Attested(s, now) && now <= at && token in s.tokens
    requires s'.servers == s.servers && s'.tokens == s.tokens[token := s.tokens[token].(lastUsedAt := Some(at))]
    ensures Attested(s', at)
  {
    forall id | id in s'.servers ensures AttestedBy(s'.tokens, id, s'.servers[id]) {
      if s'.servers[id].status == ACTIVE {
        assert AttestedBy(s.tokens, id, s.servers[id]);
        var i :| Witness(s.tokens, id, s.servers[id], i);
        assert Witness(s'.tokens, id, s'.servers[id], i) by {
          if i == token { assert s.tokens[i].lastUsedAt.value <= now; }
        }
      }
    }
  }

  lemma StatusAttests(s: Store, s': Store, now: Time, id: Id, row: ServerRow)
    requires Attested(s, now) && s'.tokens == s.tokens && s'.servers == s.servers[id := row]
    requires AttestedBy(s.tokens, id, row)
    ensures Attested(s', now)
  {
  }

  lemma Later(s: Store, now: Time, at: Time)
    requires Attested(s, now) && now <= at
    ensures Attested(s, at)
  {
  }

  lemma ReachedAttests(s: Store, s': Store, id: Id, row: ServerRow, token: Id, now: Time, at: Time)
    requires Attested(s, now) && now <= at && token in s.tokens && s.tokens[token].serverId == id
    requires row.lastCheckedAt == Some(at)
    requires s'.servers == s.servers[id := row] &&
             s'.tokens == s.tokens[token := s.tokens[token].(lastUsedAt := Some(at))]
    ensures Attested(s', at)
  {
    hide Attested;
    var used := Store(s.servers, s'.tokens, s.accounts);
    UseAttests(s, used, now, token, at);
    assert Witness(used.tokens, id, row, token);
    StatusAttests(used, s', at, id, row);
  }

  lemma SyncAttests(s: Store, s': Store, t: string, id: Id, d: Decision, now: Time, at: Time)
    requires Attested(s, now) && now <= at && ServerSynced(s, s', t, id, d, at)
    requires d.Reached? ==> d.token in s.tokens && s.tokens[d.token].serverId == id
    ensures Attested(s', at)
  {
    Later(s, now, at);
    hide Attested, CacheMerged, AttestedBy;
    if d.Reached? {
      ReachedAttests(s, s', id, ServerAfter(s.servers[id], d, at), d.token, now, at);
    } else if d.Unreachable? {
      FailedAttests(s, s', id, ServerAfter(s.servers[id], d, at), at);
    }
  }

  lemma FailedAttests(s: Store, s': Store, id: Id, row: ServerRow, now: Time)
    requires Attested(s, now) && row.status == UNREACHABLE && s'.servers == s.servers[id := row] &&
             s'.tokens == s.tokens
    ensures Attested(s', now)
  {
    StatusAttests(s, s', now, id, row);
  }

  lemma TestAttests(s: Store, s': Store, t: string, id: Id, token: Id, now: Time, at: Time,
          result: ServersService.TestResult)
    requires Attested(s, now) && now <= at && token in ActiveTokens(s.tokens, t, id, WHM)
    requires ServersService.Tested(s, s', id, token, at, result)
    ensures Attested(s', at)
  {
    Later(s, now, at);
    hide Attested;
    if result.ok {
      ReachedAttests(s, s', id, s'.servers[id], token, now, at);
    } else {
      FailedAttests(s, s', id, s'.servers[id], at);
    }
  }

  lemma ListedAttested(c: Service, env: Env, s: Store, s': Store, t: string, rows: seq<Id>, now: Time, at: Time, id: Id)
    requires TenantSynced(s, s', t, rows, Decisions(c, env, s, t), env.at)
    requires id in s.servers && AttestedBy(s.tokens, id, s.servers[id])
    ensures AttestedBy(s'.tokens, id, s'.servers[id])
  {
    var decisions := Decisions(c, env, s, t);
    var d := decisions(id);
    assert s'.servers[id] == if id in rows then ServerAfter(s.servers[id], d, env.at(id)) else s.servers[id];
    if s'.servers[id].status == ACTIVE {
      if id in rows && d.Reached? {
        DecisionToken(c, env, s, t, id);
        assert s'.tokens[d.token] == TokenAfter(s.tokens[d.token], d.token, rows, decisions, env.at);
        assert Witness(s'.tokens, id, s'.servers[id], d.token);
      } else {
        var i :| Witness(s.tokens, id, s.servers[id], i);
        assert s'.tokens[i] == TokenAfter(s.tokens[i], i, rows, decisions, env.at);
        assert Witness(s'.tokens, id, s'.servers[id], i);
      }
    }
  }

  lemma TenantAttests(c: Service, env: Env, s: Store, s': Store, t: string, rows: seq<Id>, now: Time, at: Time)
    requires Attested(s, now) && now <= at && forall id :: env.at(id) <= at
    requires TenantSynced(s, s', t, rows, Decisions(c, env, s, t), env.at)
    ensures Attested(s', at)
  {
    forall id | id in s'.servers ensures AttestedBy(s'.tokens, id, s'.servers[id]) {
      ListedAttested(c, env, s, s', t, rows, now, at, id);
    }
    forall i | i in s'.tokens && s'.tokens[i].lastUsedAt.Some? ensures s'.tokens[i].lastUsedAt.value <= at {
      assert s'.tokens[i] == TokenAfter(s.tokens[i], i, rows, Decisions(c, env, s, t), env.at);
    }
  }

  // ----- What a request keeps of that -----

  predicate ClockBy(request: Request, id: Id, at: Time) {
    request.SyncTenant? ==> request.clock(id) <= at
  }

  lemma CreatesServerQuiet(s: Store, s': Store, t: string, input: ServersService.ServerInput, at: Time, r: Result<()>)
    requires CreatesServer(s, s', t, input, at, r)
    ensures Quiet(s, s')
  {
    hide NamedLive, NameHeld;
  }

  lemma UpdatesServerQuiet(s: Store, s': Store, t: string, id: Id, patch: ServerPatch, r: Result<()>)
    requires UpdatesServer(s, s', t, id, patch, r)
    ensures Quiet(s, s')
  {
    hide ServersService.Clashes, OtherNamed;
  }

  lemma CreatesTokenQuiet(s: Store, secrets: SecretTable, s': Store, t: string, id: Id, input: TokensService.TokenInput,
          r: Result<()>)
    requires CreatesToken(s, secrets, s', t, id, input, r)
    ensures Quiet(s, s')
  {
    hide LabelledLive, LabelHeld, Hides;
  }

  lemma UpdatesTokenQuiet(s: Store, secrets: SecretTable, s': Store, t: string, id: Id, patch: TokenPatch,
          r: Result<()>)
    requires UpdatesToken(s, secrets, s', t, id, patch, r)
    ensures Quiet(s, s')
  {
    hide OtherLabelled, Hides;
  }

  lemma RemovalsQuiet(s: Store, s': Store, t: string, id: Id, at: Time, r: Result<()>)
    requires RemovesServer(s, s', t, id, at, r) || RemovesToken(s, s', t, id, at, r)
    ensures Quiet(s, s')
  {
  }

  // The requests that check no server and use no token.
  lemma HandledQuiet(ticket: Ticket, s: Store, secrets: SecretTable, s': Store, r: Result<()>)
    requires s.tokens.Keys == secrets.Keys && Handled(ticket, s, secrets, s', r)
    requires var q := ticket.request;
      q.CreateServer? || q.UpdateServer? || q.RemoveServer? || q.CreateToken? || q.UpdateToken? || q.RemoveToken?
    ensures Quiet(s, s')
  {
    hide CreatesServer, UpdatesServer, RemovesServer, CreatesToken, UpdatesToken, RemovesToken, Quiet;
    match ticket.request
    case CreateServer(t, input) => CreatesServerQuiet(s, s', t, input, ticket.at, r);
    case UpdateServer(t, id, patch) => UpdatesServerQuiet(s, s', t, id, patch, r);
    case RemoveServer(t, id) => RemovalsQuiet(s, s', t, id, ticket.at, r);
    case CreateToken(t, id, input) => CreatesTokenQuiet(s, secrets, s', t, id, input, r);
    case UpdateToken(t, id, patch) => UpdatesTokenQuiet(s, secrets, s', t, id, patch, r);
    case RemoveToken(t, id) => RemovalsQuiet(s, s', t, id, ticket.at, r);
    case _ =>
  }

  lemma TestKeeps(s: Store, secrets: SecretTable, s': Store, t: string, id: Id, c: Service,
          probe: Creds -> Whm.CallResult, message: Whm.ExtError -> string, now: Time, at: Time, r: Result<()>)
    requires Attested(s, now) && now <= at && Tests(s, secrets, s', t, id, c, probe, message, at, r)
    ensures Attested(s', at)
  {
    Later(s, now, at);
    hide Attested, ServersService.Probed, ServersService.Tested, ActiveTokens;
    if r.Success? {
      var i :| i in ActiveTokens(s.tokens, t, id, WHM) && i in secrets &&
        ServersService.Tested(s, s', id, i, at,
                              ServersService.Probed(c, probe, message, s.servers[id], s.tokens[i], secrets[i], at));
      TestAttests(s, s', t, id, i, now, at,
                  ServersService.Probed(c, probe, message, s.servers[id], s.tokens[i], secrets[i], at));
    }
  }

  lemma RefreshAttests(s: Store, secrets: SecretTable, s': Store, t: string, id: Id, c: Service,
          lookup: (Creds, string) -> Whm.CallResult, choose: set<Id> -> Id, now: Time, at: Time, r: Result<()>)
    requires s.tokens.Keys == secrets.Keys
    requires Attested(s, now) && now <= at && Refreshes(s, secrets, s', t, id, c, lookup, choose, at, r)
    ensures Attested(s', at)
  {
    Later(s, now, at);
    hide Attested, CacheSet, AccountsService.Access, AccountsService.Summary;
    if s' != s {
      var token := AccountsService.Access(c, s, secrets, choose, t, s.accounts[id].serverId).value.1;
      UseAttests(s, s', now, token, at);
    }
  }

  lemma SyncKeeps(s: Store, s': Store, t: string, id: Id, c: Service, env: Env, now: Time, r: Result<()>)
    requires Attested(s, now) && now <= env.at(id) && SyncsServer(s, s', t, id, c, env, r)
    ensures Attested(s', env.at(id))
  {
    hide Attested, Decide, ServerSynced;
    DecisionToken(c, env, s, t, id);
    SyncAttests(s, s', t, id, Decide(c, env, s, t, id), now, env.at(id));
  }

  lemma TenantKeeps(s: Store, s': Store, t: string, c: Service, env: Env, now: Time, at: Time, r: Result<()>)
    requires Attested(s, now) && now <= at && (forall id :: env.at(id) <= at) && SyncsTenant(s, s', t, c, env, r)
    ensures Attested(s', at)
  {
    hide Attested, TenantSynced, Newest, FindServers;
    var rows :| Newest(FindServers(s, t, (_, _) => true), rows, 1000) &&
        TenantSynced(s, s', t, rows, Decisions(c, env, s, t), env.at);
    TenantAttests(c, env, s, s', t, rows, now, at);
  }

  // Handled when no stamp lies in the future, no request takes an ACTIVE server's witness away.
  lemma HandledAttests(ticket: Ticket, s: Store, secrets: SecretTable, s': Store, r: Result<()>, now: Time)
    requires s.tokens.Keys == secrets.Keys && Handled(ticket, s, secrets, s', r)
    requires Attested(s, now) && now <= ticket.at && forall id :: ClockBy(ticket.request, id, ticket.at)
    ensures Attested(s', ticket.at)
  {
    var at := ticket.at;
    Later(s, now, at);
    hide Attested, Quiet, SyncsServer, SyncsTenant, Tests, Refreshes;
    hide CreatesServer, UpdatesServer, RemovesServer, CreatesToken, UpdatesToken, RemovesToken;
    match ticket.request
    case TestConnection(t, id, c, probe) =>
      TestKeeps(s, secrets, s', t, id, c, probe, ticket.setting.message, now, at, r);
    case SyncServer(t, id, c, _) => SyncKeeps(s, s', t, id, c, EnvOf(ticket), now, r);
    case SyncTenant(t, c, _, _) =>
      forall id ensures EnvOf(ticket).at(id) <= at { assert ClockBy(ticket.request, id, at); }
      TenantKeeps(s, s', t, c, EnvOf(ticket), now, at, r);
    case Refresh(t, id, c, lookup) =>
      RefreshAttests(s, secrets, s', t, id, c, lookup, ticket.setting.choose, now, at, r);
    case Resolve(_, _, _) =>
    case _ =>
      HandledQuiet(ticket, s, secrets, s', r);
      QuietAttests(s, s', now, at);
  }

  // ----- Handling requests -----

  method HandleCreateServer(db: Database, sink: AuditSink, t: string, input: ServersService.ServerInput, at: Time)
    returns (r: Result<()>)
    requires db.Valid()
    modifies db, sink
    ensures db.Valid() && Evolves(old(db.store), db.store)
    ensures CreatesServer(old(db.store), db.store, t, input, at, r)
  {
    NextIdFresh(db);
    hide Inv, SeenOwned, Evolves, IdsBelow, Quiet, NameHeld, NameTaken, NamedLive, Local, ServersService.ServerCreated;
    NameHeldBy(db.store, t, input.name, db.nextId);
    LiveNameHeld(db.store, t, input.name);
    var created := ServersService.Create(db, sink, t, input, at);
    r := Reported(created);
  }

  method HandleUpdateServer(db: Database, sink: AuditSink, t: string, id: Id, patch: ServerPatch)
    returns (r: Result<()>)
    requires db.Valid()
    modifies db, sink
    ensures db.Valid() && Evolves(old(db.store), db.store)
    ensures UpdatesServer(old(db.store), db.store, t, id, patch, r)
  {
    hide Inv, SeenOwned, Evolves, IdsBelow, Quiet, Local;
    hide ServersService.ServerUpdated, ServersService.Clashes, ServersService.Renames, OtherNamed;
    ClashRenames(db.store, t, id, patch);
    RenamesExactly(db.store, t, id, patch);
    var updated := ServersService.Update(db, sink, t, id, patch);
    r := Reported(updated);
  }

  method HandleRemoveServer(db: Database, sink: AuditSink, t: string, id: Id, at: Time) returns (r: Result<()>)
    requires db.Valid()
    modifies db, sink
    ensures db.Valid() && Evolves(old(db.store), db.store)
    ensures RemovesServer(old(db.store), db.store, t, id, at, r)
  {
    hide Inv, SeenOwned, Evolves, IdsBelow, Quiet, Local, ServersService.WithoutServer;
    var removed := ServersService.Remove(db, sink, t, id, at);
    r := Reported(removed);
  }

  lemma SecretAdded(s: Store, s': Store, secrets: SecretTable, secrets': SecretTable, t: string, serverId: Id,
          input: TokensService.TokenInput, id: Id)
    requires TokensService.TokenCreated(s, s', secrets, secrets', t, serverId, input, id)
    ensures TokenAdded(s, secrets, s', t, serverId, input, id)
  {
  }

  method HandleCreateToken(db: Database, sink: AuditSink, t: string, id: Id, input: TokensService.TokenInput)
    returns (r: Result<()>)
    requires db.Valid() && Fits(db.prim, input.secret)
    modifies db, sink
    ensures db.Valid() && Evolves(old(db.store), db.store)
    ensures CreatesToken(old(db.store), old(db.secrets), db.store, t, id, input, r)
  {
    NextIdFresh(db);
    ghost var s, secrets := db.store, db.secrets;
    hide Inv, SeenOwned, Evolves, IdsBelow, Quiet, Fits, LabelHeld, LabelTaken, LabelledLive, Local, TokenAdded;
    hide TokensService.TokenCreated;
    LabelHeldBy(db.store, t, id, input.labelName, db.nextId);
    LiveLabelHeld(db.store, t, id, input.labelName);
    var created := TokensService.Create(db, sink, t, id, input);
    r := Reported(created);
    if created.Success? { SecretAdded(s, db.store, secrets, db.secrets, t, id, input, created.value); }
  }

  lemma SecretRotated(s: Store, s': Store, secrets: SecretTable, secrets': SecretTable, id: Id, patch: TokenPatch)
    requires TokensService.TokenUpdated(s, s', secrets, secrets', id, patch)
    ensures TokensService.TokenUpdated(s, s', secrets, Rotated(secrets, id, patch), id, patch)
  {
  }

  method HandleUpdateToken(db: Database, sink: AuditSink, t: string, id: Id, patch: TokenPatch) returns (r: Result<()>)
    requires db.Valid() && (patch.secret.Some? ==> Fits(db.prim, patch.secret.value))
    modifies db, sink
    ensures db.Valid() && Evolves(old(db.store), db.store)
    ensures UpdatesToken(old(db.store), old(db.secrets), db.store, t, id, patch, r)
  {
    ghost var s, secrets := db.store, db.secrets;
    hide Inv, SeenOwned, Evolves, IdsBelow, Quiet, Fits, Local, TokensService.Relabels, TokensService.TokenUpdated;
    hide OtherLabelled;
    RelabelsExactly(db.store, t, id, patch);
    var updated := TokensService.Update(db, sink, t, id, patch);
    r := Reported(updated);
    if updated.Success? { SecretRotated(s, db.store, secrets, db.secrets, id, patch); }
  }

  method HandleRemoveToken(db: Database, sink: AuditSink, t: string, id: Id, at: Time) returns (r: Result<()>)
    requires db.Valid()
    modifies db, sink
    ensures db.Valid() && Evolves(old(db.store), db.store)
    ensures RemovesToken(old(db.store), db.store, t, id, at, r)
  {
    hide Inv, SeenOwned, Evolves, IdsBelow, Quiet, Local, TokensService.WithoutToken;
    var removed := TokensService.Remove(db, sink, t, id, at);
    r := Reported(removed);
  }

  method HandleTest(db: Database, sink: AuditSink, setting: Setting, t: string, id: Id, c: Service,
          probe: Creds -> Whm.CallResult, at: Time)
    returns (r: Result<()>)
    requires db.Valid() && Chooses(setting.choose) && c.prim == db.prim
    modifies db, sink
    ensures db.Valid() && Evolves(old(db.store), db.store)
    ensures Tests(old(db.store), old(db.secrets), db.store, t, id, c, probe, setting.message, at, r)
  {
    hide Inv, SeenOwned, Evolves, IdsBelow, Chooses, ActiveTokens, ServersService.Tested, ServersService.Probed, Local;
    var tested := ServersService.TestConnection(db, sink, c, probe, setting.message, setting.choose, t, id, at);
    r := Reported(tested);
  }

  method HandleSyncServer(db: Database, sink: AuditSink, t: string, id: Id, c: Service, env: Env)
    returns (r: Result<()>)
    requires db.Valid() && Chooses(env.choose)
    modifies db, sink
    ensures db.Valid() && Evolves(old(db.store), db.store)
    ensures SyncsServer(old(db.store), db.store, t, id, c, env, r)
  {
    hide Inv, SeenOwned, Evolves, IdsBelow, Chooses, ServerSynced, Decide, AuditsOf, Local;
    var d := Sync.SyncServer(db, sink, c, env, t, id);
    r := SyncReport(d);
  }

  method HandleSyncTenant(db: Database, sink: AuditSink, t: string, c: Service, env: Env) returns (r: Result<()>)
    requires db.Valid() && Chooses(env.choose)
    modifies db, sink
    ensures db.Valid() && Evolves(old(db.store), db.store)
    ensures SyncsTenant(old(db.store), db.store, t, c, env, r)
  {
    hide Inv, SeenOwned, Evolves, IdsBelow, Chooses, TenantSynced, Decide, Trail, Imported, Failed, Newest, FindServers;
    hide AuditsOf, Local;
    var rows, summary := Sync.SyncTenant(db, sink, c, env, t);
    r := Success(());
  }

  method HandleRefresh(db: Database, sink: AuditSink, t: string, id: Id, c: Service,
          lookup: (Creds, string) -> Whm.CallResult, choose: set<Id> -> Id, at: Time)
    returns (r: Result<()>)
    requires db.Valid() && Chooses(choose) && c.prim == db.prim
    modifies db, sink
    ensures db.Valid() && Evolves(old(db.store), db.store) && old(db.store).tokens.Keys == old(db.secrets).Keys
    ensures Refreshes(old(db.store), old(db.secrets), db.store, t, id, c, lookup, choose, at, r)
  {
    hide Inv, SeenOwned, Evolves, IdsBelow, Chooses, CacheSet, Stored, Local;
    hide AccountsService.Summary, AccountsService.Access;
    var written := AccountsService.Refresh(db, sink, c, lookup, choose, t, id, at);
    r := Reported(written);
  }

  method HandleResolve(db: Database, t: string, id: Id, c: Service, choose: set<Id> -> Id) returns (r: Result<()>)
    requires db.Valid() && Chooses(choose) && c.prim == db.prim
    modifies db`store, db`seen, db`secrets
    ensures db.Valid() && db.store == old(db.store) && old(db.store).tokens.Keys == old(db.secrets).Keys
    ensures Resolves(old(db.store), old(db.secrets), db.store, t, id, c, choose, r)
  {
    hide Inv, SeenOwned, Evolves, IdsBelow, Chooses, Local, AccountsService.Access, AccountsService.Connects;
    var resolved := AccountsService.Resolve(db, c, choose, t, id);
    r := Reported(resolved);
  }

  // Whatever the request, it is handled as it should be by itself.
  method Handle(db: Database, sink: AuditSink, ticket: Ticket) returns (r: Result<()>)
    requires db.Valid() && Chooses(ticket.setting.choose) && Admissible(db.prim, ticket.request)
    modifies db, sink
    ensures db.Valid() && Evolves(old(db.store), db.store)
    ensures old(db.store).tokens.Keys == old(db.secrets).Keys
    ensures Handled(ticket, old(db.store), old(db.secrets), db.store, r)
  {
    EvolvesReflexive(db.store);
    AccountsService.SecretsThere(db);
    hide Inv, SeenOwned, Evolves, IdsBelow, Chooses, Fits, Local;
    hide Tests, SyncsServer, SyncsTenant, Refreshes, Resolves, CreatesServer, UpdatesServer, CreatesToken, UpdatesToken;
    hide RemovesServer, RemovesToken;
    var setting, at := ticket.setting, ticket.at;
    match ticket.request {
      case CreateServer(t, input) => r := HandleCreateServer(db, sink, t, input, at);
      case UpdateServer(t, id, patch) => r := HandleUpdateServer(db, sink, t, id, patch);
      case RemoveServer(t, id) => r := HandleRemoveServer(db, sink, t, id, at);
      case TestConnection(t, id, c, probe) => r := HandleTest(db, sink, setting, t, id, c, probe, at);
      case CreateToken(t, id, input) => r := HandleCreateToken(db, sink, t, id, input);
      case UpdateToken(t, id, patch) => r := HandleUpdateToken(db, sink, t, id, patch);
      case RemoveToken(t, id) => r := HandleRemoveToken(db, sink, t, id, at);
      case SyncTenant(t, c, _, _) => r := HandleSyncTenant(db, sink, t, c, EnvOf(ticket));
      case SyncServer(t, id, c, _) => r := HandleSyncServer(db, sink, t, id, c, EnvOf(ticket));
      case Refresh(t, id, c, lookup) => r := HandleRefresh(db, sink, t, id, c, lookup, setting.choose, at);
      case Resolve(t, id, c) => r := HandleResolve(db, t, id, c, setting.choose);
    }
  }

  function Last(times: seq<Time>, start: Time): Time {
    if times == [] then start else times[|times| - 1]
  }

  // The clock never steps back, neither between requests nor within one.
  ghost predicate InOrder(requests: seq<Request>, times: seq<Time>, start: Time)
    requires |requests| == |times|
  {
    forall k :: 0 <= k < |times| ==>
      Last(times[..k], start) <= times[k] && forall id :: ClockBy(requests[k], id, times[k])
  }

  // The states passed, and the secrets kept beside them: each request is handled in the state the one before left.
  ghost predicate Served(setting: Setting, requests: seq<Request>, times: seq<Time>, states: seq<Store>,
          tables: seq<SecretTable>, results: seq<Result<()>>)
  {
    && |states| == |tables| == |results| + 1 && |results| <= |requests| == |times|
    && forall k :: 0 <= k < |results| ==>
         && states[k].tokens.Keys == tables[k].Keys
         && Handled(Ticket(setting, requests[k], times[k]), states[k], tables[k], states[k + 1], results[k])
  }

  lemma NothingServed(setting: Setting, requests: seq<Request>, times: seq<Time>, s: Store, secrets: SecretTable)
    requires |requests| == |times|
    ensures Served(setting, requests, times, [s], [secrets], [])
  {
  }

  lemma OneMoreServed(setting: Setting, requests: seq<Request>, times: seq<Time>, states: seq<Store>,
          tables: seq<SecretTable>, results: seq<Result<()>>, s: Store, secrets: SecretTable, r: Result<()>)
    requires Served(setting, requests, times, states, tables, results) && |results| < |requests|
    requires var n := |results|;
      && states[n].tokens.Keys == tables[n].Keys
      && Handled(Ticket(setting, requests[n], times[n]), states[n], tables[n], s, r)
    ensures Served(setting, requests, times, states + [s], tables + [secrets], results + [r])
  {
    hide Handled;
    var states', tables', results' := states + [s], tables + [secrets], results + [r];
    forall k | 0 <= k < |results'|
      ensures states'[k].tokens.Keys == tables'[k].Keys
      ensures Handled(Ticket(setting, requests[k], times[k]), states'[k], tables'[k], states'[k + 1], results'[k])
    {
      assert states'[k] == states[k] && tables'[k] == tables[k];
      assert k < |results| ==> states'[k + 1] == states[k + 1] && results'[k] == results[k];
    }
  }

  lemma {:induction false} ServedAttests(setting: Setting, requests: seq<Request>, times: seq<Time>, states: seq<Store>,
          tables: seq<SecretTable>, results: seq<Result<()>>, start: Time, n: nat)
    requires Served(setting, requests, times, states, tables, results) && n <= |results|
    requires Attested(states[0], start) && InOrder(requests, times, start)
    ensures Attested(states[n], Last(times[..n], start))
    decreases n
  {
    hide Attested, Handled;
    if n > 0 {
      var k := n - 1;
      ServedAttests(setting, requests, times, states, tables, results, start, k);
      assert times[..n][k] == times[k];
      HandledAttests(Ticket(setting, requests[k], times[k]), states[k], tables[k], states[k + 1], results[k],
                     Last(times[..k], start));
    }
  }

  // Whatever the requests of whichever tenants, under whichever keys and clocks: each is handled as it should be by
  // itself, the invariant of the store and the evolution of every row survive; and if the clock never steps back, so do
  // the witnesses of ACTIVE servers.
  method Serve(db: Database, sink: AuditSink, setting: Setting, requests: seq<Request>, times: seq<Time>,
          ghost start: Time)
    returns (results: seq<Result<()>>, ghost states: seq<Store>, ghost tables: seq<SecretTable>)
    requires db.Valid() && Chooses(setting.choose) && |requests| == |times|
    requires forall k :: 0 <= k < |requests| ==> Admissible(db.prim, requests[k])
    modifies db, sink
    ensures db.Valid() && Evolves(old(db.store), db.store)
    ensures |results| == |requests| && Served(setting, requests, times, states, tables, results)
    ensures states[0] == old(db.store) && tables[0] == old(db.secrets)
    ensures states[|requests|] == db.store && tables[|requests|] == db.secrets
    ensures Attested(old(db.store), start) && InOrder(requests, times, start) ==> Attested(db.store, Last(times, start))
  {
    results, states, tables := Answered(db, sink, setting, requests, times);
    hide Inv, SeenOwned, Evolves, IdsBelow, Attested, Chooses, Admissible, Handled, Local, InOrder;
    assert times[..|times|] == times;
    if Attested(old(db.store), start) && InOrder(requests, times, start) {
      ServedAttests(setting, requests, times, states, tables, results, start, |requests|);
    }
  }

  method Answered(db: Database, sink: AuditSink, setting: Setting, requests: seq<Request>, times: seq<Time>)
    returns (results: seq<Result<()>>, ghost states: seq<Store>, ghost tables: seq<SecretTable>)
    requires db.Valid() && Chooses(setting.choose) && |requests| == |times|
    requires forall k :: 0 <= k < |requests| ==> Admissible(db.prim, requests[k])
    modifies db, sink
    ensures db.Valid() && Evolves(old(db.store), db.store)
    ensures |results| == |requests| && |states| == |tables| == |requests| + 1
    ensures Served(setting, requests, times, states, tables, results)
    ensures states[0] == old(db.store) && tables[0] == old(db.secrets)
    ensures states[|requests|] == db.store && tables[|requests|] == db.secrets
  {
    EvolvesReflexive(db.store);
    NothingServed(setting, requests, times, db.store, db.secrets);
    hide Inv, SeenOwned, Evolves, IdsBelow, Chooses, Admissible, Handled, Local, Served;
    results, states, tables := [], [db.store], [db.secrets];
    for k := 0 to |requests|
      invariant db.Valid() && Evolves(old(db.store), db.store)
      invariant |results| == k && |states| == |tables| == k + 1
      invariant Served(setting, requests, times, states, tables, results)
      invariant states[0] == old(db.store) && tables[0] == old(db.secrets)
      invariant states[k] == db.store && tables[k] == db.secrets
    {
      ghost var before := db.store;
      var r := Handle(db, sink, Ticket(setting, requests[k], times[k]));
      OneMoreServed(setting, requests, times, states, tables, results, db.store, db.secrets, r);
      results, states, tables := results + [r], states + [db.store], tables + [db.secrets];
      EvolvesTransitive(old(db.store), before, db.store);
    }
  }

  lemma StaysRemoved(s: Store, s': Store, t: string, id: Id)
    requires Evolves(s, s') && id in s.servers && s.servers[id].deletedAt.Some?
    ensures !LiveServer(s', t, id)
  {
    assert ServerEvolves(s.servers[id], s'.servers[id]);
  }

  lemma AccountStays(s: Store, s': Store, t: string, accountId: Id)
    requires Evolves(s, s') && LiveAccount(s, t, accountId)
    ensures LiveAccount(s', t, accountId) && s'.accounts[accountId].serverId == s.accounts[accountId].serverId
  {
    assert AccountEvolves(s.accounts[accountId], s'.accounts[accountId]);
  }

  // Without the server every operation that needs it fails, its accounts' included.
  method AllFail(db: Database, sink: AuditSink, t: string, id: Id, accountId: Id, c: Service, env: Env,
          input: TokensService.TokenInput, probe: Creds -> Whm.CallResult, lookup: (Creds, string) -> Whm.CallResult,
          at: Time)
    returns (created: Result<Id>, tested: Result<ServersService.TestResult>, synced: Decision,
          resolved: Result<AccountsService.Resolved>, refreshed: Result<Id>)
    requires db.Valid() && Chooses(env.choose) && c.prim == db.prim && Fits(db.prim, input.secret) &&
             !LiveServer(db.store, t, id)
    modifies db, sink
    ensures created == Failure(NotFound("Server")) && tested == Failure(NotFound("Server")) && synced == NoServer
    ensures LiveAccount(old(db.store), t, accountId) && old(db.store).accounts[accountId].serverId == id ==>
              resolved == Failure(NotFound("Server")) && refreshed == Failure(NotFound("Server"))
  {
    hide Inv, SeenOwned, Evolves, IdsBelow, Chooses, Fits, Local, Opened, AccountsService.Connects;
    created := TokensService.Create(db, sink, t, id, input);
    tested := ServersService.TestConnection(db, sink, c, probe, env.message, env.choose, t, id, at);
    synced := Sync.SyncServer(db, sink, c, env, t, id);
    resolved := AccountsService.Resolve(db, c, env.choose, t, accountId);
    refreshed := AccountsService.Refresh(db, sink, c, lookup, env.choose, t, accountId, at);
  }

  // A server once removed is gone for good: all that still fails after whatever was requested by whomever in between.
  method RemovedForGood(db: Database, sink: AuditSink, setting: Setting, requests: seq<Request>, times: seq<Time>,
          t: string, id: Id, accountId: Id, c: Service, env: Env, input: TokensService.TokenInput,
          probe: Creds -> Whm.CallResult, lookup: (Creds, string) -> Whm.CallResult, at: Time)
    returns (created: Result<Id>, tested: Result<ServersService.TestResult>, synced: Decision,
          resolved: Result<AccountsService.Resolved>, refreshed: Result<Id>)
    requires db.Valid() && Chooses(setting.choose) && Chooses(env.choose) && c.prim == db.prim &&
             Fits(db.prim, input.secret)
    requires |requests| == |times| && forall k :: 0 <= k < |requests| ==> Admissible(db.prim, requests[k])
    requires id in db.store.servers && db.store.servers[id].deletedAt.Some?
    modifies db, sink
    ensures created == Failure(NotFound("Server")) && tested == Failure(NotFound("Server")) && synced == NoServer
    ensures LiveAccount(old(db.store), t, accountId) && old(db.store).accounts[accountId].serverId == id ==>
              resolved == Failure(NotFound("Server")) && refreshed == Failure(NotFound("Server"))
  {
    ghost var s := db.store;
    hide Inv, SeenOwned, Evolves, IdsBelow, Attested, Chooses, Admissible, Fits, InOrder, Local;
    hide Served;
    var results, states, tables := Serve(db, sink, setting, requests, times, at);
    StaysRemoved(s, db.store, t, id);
    if LiveAccount(s, t, accountId) { AccountStays(s, db.store, t, accountId); }
    created, tested, synced, resolved, refreshed :=
        AllFail(db, sink, t, id, accountId, c, env, input, probe, lookup, at);
  }
}
