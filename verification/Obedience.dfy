// Whatever a service is answered, the calls it makes are those the store's theorems are about: its plan is obedient.
module Obedience {
  import opened Json
  import opened Crypto
  import opened Store
  import opened WhmAccounts
  import opened Services
  import opened Sync
  import opened Plans
  import opened Requests
  import TokensService
  import ServersService
  import AccountsService
  import Whm

  // The servers an answer shows.
  function Shown(r: Reply): set<Id> {
    if r.Servers? then r.servers.Keys else {}
  }

  // A call of tenant t is in order if an insert uses the id generated for it and names a server t was shown, if a
  // secret comes with a proper IV, and if a status is set in one of the two forms.
  ghost predicate InOrder(call: Call, id: Id, t: string, shown: set<Id>) {
    && call.tenantId == t
    && match call
       case InsertServer(_, own, _, _, _, _, _, _) => own == id
       case InsertToken(_, own, serverId, _, _, _, _, secret) => own == id && serverId in shown && Sealable(secret)
       case InsertAccount(_, own, serverId, _, _, _) => own == id && serverId in shown
       case UpdateToken(_, _, p) => p.secret.Some? ==> Sealable(p.secret.value)
       case SetStatus(_, _, status, lastError, _) =>
         (status == ACTIVE && lastError == None) || (status == UNREACHABLE && lastError.Some?)
       case _ => true
  }

  ghost predicate ObedientFor(p: Plan, t: string, shown: set<Id>, steps: nat)
    decreases steps
  {
    steps == 0 || p.End? ||
    ((forall id: Id :: InOrder(p.call(id), id, t, shown)) &&
     (forall r: Reply :: ObedientFor(p.next(r), t, shown + Shown(r), steps - 1)))
  }

  ghost predicate Obedient(p: Plan, t: string, shown: set<Id>) {
    forall steps: nat :: ObedientFor(p, t, shown, steps)
  }

  lemma ObedientNow(p: Plan, t: string, shown: set<Id>, id: Id, r: Reply)
    requires Obedient(p, t, shown) && p.Ask?
    ensures InOrder(p.call(id), id, t, shown) && Obedient(p.next(r), t, shown + Shown(r))
  {
    assert ObedientFor(p, t, shown, 1);
    forall steps: nat ensures ObedientFor(p.next(r), t, shown + Shown(r), steps) {
      assert ObedientFor(p, t, shown, steps + 1);
    }
  }

  lemma AskObedient(p: Plan, t: string, shown: set<Id>)
    requires p.Ask? && forall id: Id :: InOrder(p.call(id), id, t, shown)
    requires forall r: Reply :: Obedient(p.next(r), t, shown + Shown(r))
    ensures Obedient(p, t, shown)
  {
    forall steps: nat ensures ObedientFor(p, t, shown, steps) {
      if steps > 0 {
        forall r: Reply ensures ObedientFor(p.next(r), t, shown + Shown(r), steps - 1) {
          assert Obedient(p.next(r), t, shown + Shown(r));
        }
      }
    }
  }

  lemma EndObedient(p: Plan, t: string, shown: set<Id>)
    requires p.End?
    ensures Obedient(p, t, shown)
  {
  }

  lemma {:induction false} ObedientMonotone(p: Plan, t: string, shown: set<Id>, more: set<Id>, steps: nat)
    requires ObedientFor(p, t, shown, steps) && shown <= more
    ensures ObedientFor(p, t, more, steps)
    decreases steps
  {
    if steps > 0 && p.Ask? {
      forall id: Id ensures InOrder(p.call(id), id, t, more) { assert InOrder(p.call(id), id, t, shown); }
      forall r: Reply ensures ObedientFor(p.next(r), t, more + Shown(r), steps - 1) {
        ObedientMonotone(p.next(r), t, shown + Shown(r), more + Shown(r), steps - 1);
      }
    }
  }

  lemma StillObedient(p: Plan, t: string, shown: set<Id>, more: set<Id>)
    requires Obedient(p, t, shown) && shown <= more
    ensures Obedient(p, t, more)
  {
    forall steps: nat ensures ObedientFor(p, t, more, steps) { ObedientMonotone(p, t, shown, more, steps); }
  }

  // A plan that makes a call and is over.
  lemma LastCall(p: Plan, t: string, shown: set<Id>)
    requires p.Ask? && (forall id: Id :: InOrder(p.call(id), id, t, shown)) && forall r: Reply :: p.next(r).End?
    ensures Obedient(p, t, shown)
  {
    forall r: Reply ensures Obedient(p.next(r), t, shown + Shown(r)) { EndObedient(p.next(r), t, shown + Shown(r)); }
    AskObedient(p, t, shown);
  }

  // A plan that makes a call, and then is over or makes another and is over.
  lemma LastCalls(p: Plan, t: string, shown: set<Id>)
    requires p.Ask? && forall id: Id :: InOrder(p.call(id), id, t, shown)
    requires forall r: Reply :: p.next(r).Ask? ==>
               (forall id: Id :: InOrder(p.next(r).call(id), id, t, shown + Shown(r))) && forall r': Reply ::
                 p.next(r).next(r').End?
    ensures Obedient(p, t, shown)
  {
    forall r: Reply ensures Obedient(p.next(r), t, shown + Shown(r)) {
      if p.next(r).Ask? {
        LastCall(p.next(r), t, shown + Shown(r));
      } else {
        EndObedient(p.next(r), t, shown + Shown(r));
      }
    }
    AskObedient(p, t, shown);
  }

  // ----- Tokens and servers -----

  lemma CheckLabelObedient(t: string, serverId: Id, input: TokensService.TokenInput, shown: set<Id>)
    requires Sealable(input.secret) && serverId in shown
    ensures Obedient(CheckLabel(t, serverId, input), t, shown)
  {
    LastCalls(CheckLabel(t, serverId, input), t, shown);
  }

  lemma CreateTokenObedient(t: string, serverId: Id, input: TokensService.TokenInput)
    requires Sealable(input.secret)
    ensures Obedient(Plans.CreateToken(t, serverId, input), t, {})
  {
    var p := Plans.CreateToken(t, serverId, input);
    forall found: Reply ensures Obedient(p.next(found), t, {} + Shown(found)) {
      if HasServer(found, serverId) {
        CheckLabelObedient(t, serverId, input, {} + Shown(found));
      } else {
        EndObedient(p.next(found), t, {} + Shown(found));
      }
    }
    AskObedient(p, t, {});
  }

  lemma UpdateTokenObedient(t: string, id: Id, patch: TokenPatch)
    requires patch.secret.Some? ==> Sealable(patch.secret.value)
    ensures Obedient(Plans.UpdateToken(t, id, patch), t, {})
  {
    var p := Plans.UpdateToken(t, id, patch);
    forall found: Reply ensures Obedient(p.next(found), t, {} + Shown(found)) {
      if HasToken(found, id) {
        LastCalls(PatchToken(t, id, patch), t, {} + Shown(found));
      } else {
        EndObedient(p.next(found), t, {} + Shown(found));
      }
    }
    AskObedient(p, t, {});
  }

  lemma CreateServerObedient(t: string, input: ServersService.ServerInput, at: Time)
    ensures Obedient(Plans.CreateServer(t, input, at), t, {})
  {
    LastCalls(Plans.CreateServer(t, input, at), t, {});
  }

  lemma RenameObedient(t: string, id: Id, patch: ServerPatch, shown: set<Id>)
    ensures Obedient(Rename(t, id, patch), t, shown)
  {
    LastCalls(Rename(t, id, patch), t, shown);
  }

  lemma UpdateServerObedient(choose: set<Id> -> Id, t: string, id: Id, patch: ServerPatch)
    ensures Obedient(Plans.UpdateServer(choose, t, id, patch), t, {})
  {
    var p := Plans.UpdateServer(choose, t, id, patch);
    if patch.name.Some? && patch.name.value != "" {
      forall clash: Reply ensures Obedient(p.next(clash), t, {} + Shown(clash)) {
        EndObedient(Fails(Conflict), t, {} + Shown(clash));
        RenameObedient(t, id, patch, {} + Shown(clash));
      }
      AskObedient(p, t, {});
    } else {
      RenameObedient(t, id, patch, {});
    }
  }

  lemma RemovalsObedient(t: string, id: Id, at: Time)
    ensures Obedient(Plans.RemoveServer(t, id, at), t, {}) && Obedient(Plans.RemoveToken(t, id, at), t, {})
  {
    LastCall(Plans.RemoveServer(t, id, at), t, {});
    LastCall(Plans.RemoveToken(t, id, at), t, {});
  }

  // ----- A server's WHM -----

  lemma SetStatusObedient(t: string, id: Id, status: ServerStatus, lastError: Option<string>, at: Time, onward: Plan,
          shown: set<Id>)
    requires (status == ACTIVE && lastError == None) || (status == UNREACHABLE && lastError.Some?)
    requires Obedient(onward, t, shown)
    ensures Obedient(Plans.SetServerStatus(t, id, status, lastError, at, onward), t, shown)
  {
    var p := Plans.SetServerStatus(t, id, status, lastError, at, onward);
    forall done: Reply ensures Obedient(p.next(done), t, shown + Shown(done)) {
      StillObedient(onward, t, shown, shown + Shown(done));
      if done != Count(0) {
        var q := p.next(done);
        forall r: Reply ensures Obedient(q.next(r), t, shown + Shown(done) + Shown(r)) {
          StillObedient(onward, t, shown, shown + Shown(done) + Shown(r));
        }
        AskObedient(q, t, shown + Shown(done));
      }
    }
    AskObedient(p, t, shown);
  }

  // Whatever a service reports, what follows is obedient.
  ghost predicate GoesOn(onward: Result<()> -> Plan, t: string, shown: set<Id>) {
    forall r: Result<()> :: Obedient(onward(r), t, shown)
  }

  lemma FinishGoesOn(t: string, shown: set<Id>)
    ensures GoesOn(Finish(), t, shown)
  {
    forall r: Result<()> ensures Obedient(Finish()(r), t, shown) { EndObedient(Finish()(r), t, shown); }
  }

  lemma WithTokenObedient(choose: set<Id> -> Id, t: string, serverId: Id, server: ServerRow,
          go: (ServerRow, Id, TokenRow) -> Plan, onward: Result<()> -> Plan, shown: set<Id>)
    requires forall token, row, more: set<Id> :: shown <= more ==> Obedient(go(server, token, row), t, more)
    requires GoesOn(onward, t, shown)
    ensures Obedient(WithToken(choose, t, serverId, server, go, onward), t, shown)
  {
    var p := WithToken(choose, t, serverId, server, go, onward);
    forall tokens: Reply ensures Obedient(p.next(tokens), t, shown + Shown(tokens)) {
      StillObedient(onward(Failure(NoActiveToken)), t, shown, shown + Shown(tokens));
    }
    AskObedient(p, t, shown);
  }

  lemma LookupsObedient(choose: set<Id> -> Id, t: string, serverId: Id, go: (ServerRow, Id, TokenRow) -> Plan,
          onward: Result<()> -> Plan, shown: set<Id>)
    requires forall server, token, row, more: set<Id> ::
               shown <= more && serverId in more ==> Obedient(go(server, token, row), t, more)
    requires GoesOn(onward, t, shown)
    ensures Obedient(WithServerAndToken(choose, t, serverId, go, onward), t, shown)
  {
    var p := WithServerAndToken(choose, t, serverId, go, onward);
    forall found: Reply ensures Obedient(p.next(found), t, shown + Shown(found)) {
      forall r: Result<()> ensures Obedient(onward(r), t, shown + Shown(found)) {
        StillObedient(onward(r), t, shown, shown + Shown(found));
      }
      if HasServer(found, serverId) {
        WithTokenObedient(choose, t, serverId, found.servers[serverId], go, onward, shown + Shown(found));
      }
    }
    AskObedient(p, t, shown);
  }

  lemma StampObedient(t: string, token: Id, at: Time, onward: Plan, shown: set<Id>)
    requires Obedient(onward, t, shown)
    ensures Obedient(Stamp(t, token, at, onward), t, shown)
  {
    var p := Stamp(t, token, at, onward);
    forall r: Reply ensures Obedient(p.next(r), t, shown + Shown(r)) {
      StillObedient(onward, t, shown, shown + Shown(r));
    }
    AskObedient(p, t, shown);
  }

  lemma TestConnectionObedient(c: Service, probe: Creds -> Whm.CallResult, message: Whm.ExtError -> string,
          choose: set<Id> -> Id, t: string, id: Id, at: Time)
    ensures Obedient(Plans.TestConnection(c, probe, message, choose, t, id, at), t, {})
  {
    var go := Probe(c, probe, message, t, id, at);
    forall server, token, row, more: set<Id> ensures Obedient(go(server, token, row), t, more) {
      var result := ServersService.Attempted(c, probe, message, server, row, at);
      EndObedient(Plans.Done(), t, more);
      SetStatusObedient(t, id, ACTIVE, None, at, Plans.Done(), more);
      StampObedient(t, token, at, Plans.SetServerStatus(t, id, ACTIVE, None, at, Plans.Done()), more);
      SetStatusObedient(t, id, UNREACHABLE, Some(result.message), at, Plans.Done(), more);
    }
    FinishGoesOn(t, {});
    LookupsObedient(choose, t, id, go, Finish(), {});
  }

  // ----- The sync -----

  lemma OverwriteObedient(t: string, id: Id, account: Parsed, at: Time, onward: Plan, shown: set<Id>)
    requires Obedient(onward, t, shown)
    ensures Obedient(Overwrite(t, id, account, at, onward), t, shown)
  {
    var p := Overwrite(t, id, account, at, onward);
    forall done: Reply ensures Obedient(p.next(done), t, shown + Shown(done)) {
      var q := p.next(done);
      forall r: Reply ensures Obedient(q.next(r), t, shown + Shown(done) + Shown(r)) {
        StillObedient(onward, t, shown, shown + Shown(done) + Shown(r));
      }
      AskObedient(q, t, shown + Shown(done));
    }
    AskObedient(p, t, shown);
  }

  lemma InsertUserObedient(t: string, serverId: Id, account: Parsed, at: Time, onward: Plan, failed: Plan,
          shown: set<Id>)
    requires serverId in shown && Obedient(onward, t, shown) && Obedient(failed, t, shown)
    ensures Obedient(InsertUser(t, serverId, account, at, onward, failed), t, shown)
  {
    var p := InsertUser(t, serverId, account, at, onward, failed);
    forall done: Reply ensures Obedient(p.next(done), t, shown + Shown(done)) {
      StillObedient(onward, t, shown, shown + Shown(done));
      StillObedient(failed, t, shown, shown + Shown(done));
    }
    AskObedient(p, t, shown);
  }

  lemma UpsertObedient(choose: set<Id> -> Id, t: string, serverId: Id, account: Parsed, at: Time, onward: Plan,
          failed: Plan, shown: set<Id>)
    requires serverId in shown && Obedient(onward, t, shown) && Obedient(failed, t, shown)
    ensures Obedient(Upsert(choose, t, serverId, account, at, onward, failed), t, shown)
  {
    var p := Upsert(choose, t, serverId, account, at, onward, failed);
    forall found: Reply ensures Obedient(p.next(found), t, shown + Shown(found)) {
      StillObedient(onward, t, shown, shown + Shown(found));
      StillObedient(failed, t, shown, shown + Shown(found));
      if found.Accounts? {
        OverwriteObedient(t, choose(found.accounts.Keys), account, at, onward, shown + Shown(found));
      }
      InsertUserObedient(t, serverId, account, at, onward, failed, shown + Shown(found));
    }
    AskObedient(p, t, shown);
  }

  lemma {:induction false} ImportObedient(choose: set<Id> -> Id, t: string, serverId: Id, accounts: seq<Parsed>, i: nat,
          at: Time, onward: Plan, failed: Plan, shown: set<Id>)
    requires i <= |accounts| && serverId in shown && Obedient(onward, t, shown) && Obedient(failed, t, shown)
    ensures Obedient(Import(choose, t, serverId, accounts, i, at, onward, failed), t, shown)
    decreases |accounts| - i
  {
    if i < |accounts| {
      var rest := Import(choose, t, serverId, accounts, i + 1, at, onward, failed);
      ImportObedient(choose, t, serverId, accounts, i + 1, at, onward, failed, shown);
      UpsertObedient(choose, t, serverId, accounts[i], at, rest, failed, shown);
    }
  }

  lemma RecordObedient(env: Env, t: string, serverId: Id, d: Decision, onward: Result<()> -> Plan, shown: set<Id>)
    requires (d.Reached? || d.Unreachable?) && serverId in shown && GoesOn(onward, t, shown)
    ensures Obedient(Plans.Record(env, t, serverId, d, onward), t, shown)
  {
    var at := env.at(serverId);
    match d
    case Reached(token, accounts) =>
      SetStatusObedient(t, serverId, ACTIVE, None, at, onward(Success(())), shown);
      StampObedient(t, token, at, Plans.SetServerStatus(t, serverId, ACTIVE, None, at, onward(Success(()))), shown);
      SetStatusObedient(t, serverId, UNREACHABLE, Some("Sync failed."), at, onward(Failure(UniqueKeyViolated)), shown);
      ImportObedient(env.choose, t, serverId, accounts, 0, at, Reachable(env, t, serverId, token, onward),
                     Caught(env, t, serverId, "Sync failed.", UniqueKeyViolated, onward), shown);
    case Unreachable(message) =>
      SetStatusObedient(t, serverId, UNREACHABLE, Some(message), at, onward(Failure(SyncFailed(message))), shown);
  }

  lemma SyncThenObedient(c: Service, env: Env, t: string, serverId: Id, onward: Result<()> -> Plan, shown: set<Id>)
    requires GoesOn(onward, t, shown)
    ensures Obedient(SyncThen(c, env, t, serverId, onward), t, shown)
  {
    var go := Pull(c, env, t, serverId, onward);
    forall server, token, row, more: set<Id> | shown <= more && serverId in more
      ensures Obedient(go(server, token, row), t, more)
    {
      forall r: Result<()> ensures Obedient(onward(r), t, more) { StillObedient(onward(r), t, shown, more); }
      match Decrypt(c, row.tokenEnc, row.keyId)
      case Err(_) =>
      case Ok(secret) =>
        RecordObedient(env, t, serverId, Heard(env, serverId, server, token, row, secret), onward, more);
    }
    LookupsObedient(env.choose, t, serverId, go, onward, shown);
  }

  lemma {:induction false} SyncEachObedient(c: Service, env: Env, t: string, rows: seq<Id>, i: nat, shown: set<Id>)
    requires i <= |rows|
    ensures Obedient(SyncEach(c, env, t, rows, i), t, shown)
    decreases |rows| - i
  {
    if i == |rows| {
      EndObedient(SyncEach(c, env, t, rows, i), t, shown);
    } else {
      SyncEachObedient(c, env, t, rows, i + 1, shown);
      assert GoesOn(NextServer(c, env, t, rows, i + 1), t, shown);
      SyncThenObedient(c, env, t, rows[i], NextServer(c, env, t, rows, i + 1), shown);
    }
  }

  lemma SyncTenantObedient(c: Service, env: Env, t: string)
    ensures Obedient(Plans.SyncTenant(c, env, t), t, {})
  {
    var p := Plans.SyncTenant(c, env, t);
    forall listed: Reply ensures Obedient(p.next(listed), t, {} + Shown(listed)) {
      EndObedient(Plans.Done(), t, {} + Shown(listed));
      if listed.Servers? {
        SyncEachObedient(c, env, t, NewestFirst(env.choose, listed.servers, listed.servers.Keys, 1000), 0,
                         {} + Shown(listed));
      }
    }
    AskObedient(p, t, {});
  }

  // ----- Operating on one account -----

  lemma SummarisedObedient(c: Service, lookup: (Creds, string) -> Whm.CallResult, choose: set<Id> -> Id, t: string,
          account: AccountRow, at: Time, shown: set<Id>)
    ensures Obedient(RefreshFound(c, lookup, choose, t, account, at), t, shown)
  {
    var go := Summarised(c, lookup, choose, t, account, at);
    forall server, token, row, more: set<Id> | account.serverId in more
      ensures Obedient(go(server, token, row), t, more) {
      match Decrypt(c, row.tokenEnc, row.keyId)
      case Err(e) => EndObedient(Fails(Undecryptable(e)), t, more);
      case Ok(secret) =>
        match AccountsService.Summary(Whm.FirstAccount(lookup(CredsOf(server, row, secret), account.cpanelUser)))
        case Failure(e) => EndObedient(Fails(e), t, more);
        case Success(parsed) =>
          EndObedient(Plans.Done(), t, more);
          EndObedient(Fails(UniqueKeyViolated), t, more);
          StampObedient(t, token, at, Plans.Done(), more);
          UpsertObedient(choose, t, account.serverId, parsed, at, Stamp(t, token, at, Plans.Done()),
                         Fails(UniqueKeyViolated), more);
    }
    FinishGoesOn(t, shown);
    LookupsObedient(choose, t, account.serverId, go, Finish(), shown);
  }

  lemma RefreshObedient(c: Service, lookup: (Creds, string) -> Whm.CallResult, choose: set<Id> -> Id, t: string,
          accountId: Id, at: Time)
    ensures Obedient(Plans.Refresh(c, lookup, choose, t, accountId, at), t, {})
  {
    var p := Plans.Refresh(c, lookup, choose, t, accountId, at);
    forall found: Reply ensures Obedient(p.next(found), t, {} + Shown(found)) {
      if HasAccount(found, accountId) {
        SummarisedObedient(c, lookup, choose, t, found.accounts[accountId], at, {} + Shown(found));
      } else {
        EndObedient(p.next(found), t, {} + Shown(found));
      }
    }
    AskObedient(p, t, {});
  }

  lemma ResolveObedient(c: Service, choose: set<Id> -> Id, t: string, accountId: Id)
    ensures Obedient(Plans.Resolve(c, choose, t, accountId), t, {})
  {
    var p := Plans.Resolve(c, choose, t, accountId);
    forall found: Reply ensures Obedient(p.next(found), t, {} + Shown(found)) {
      if HasAccount(found, accountId) {
        forall server, token, row, more: set<Id> ensures Obedient(Opens(c)(server, token, row), t, more) {
          EndObedient(Opens(c)(server, token, row), t, more);
        }
        FinishGoesOn(t, {} + Shown(found));
        LookupsObedient(choose, t, found.accounts[accountId].serverId, Opens(c), Finish(), {} + Shown(found));
      } else {
        EndObedient(p.next(found), t, {} + Shown(found));
      }
    }
    AskObedient(p, t, {});
  }

  // ----- Requests -----

  // The plan of the service that handles the request.
  function PlanOf(ticket: Ticket): Plan {
    var choose, message, at := ticket.setting.choose, ticket.setting.message, ticket.at;
    match ticket.request
    case CreateServer(t, input) => Plans.CreateServer(t, input, at)
    case UpdateServer(t, id, patch) => Plans.UpdateServer(choose, t, id, patch)
    case RemoveServer(t, id) => Plans.RemoveServer(t, id, at)
    case TestConnection(t, id, c, probe) => Plans.TestConnection(c, probe, message, choose, t, id, at)
    case CreateToken(t, id, input) => Plans.CreateToken(t, id, input)
    case UpdateToken(t, id, patch) => Plans.UpdateToken(t, id, patch)
    case RemoveToken(t, id) => Plans.RemoveToken(t, id, at)
    case SyncTenant(t, c, _, _) => Plans.SyncTenant(c, EnvOf(ticket), t)
    case SyncServer(t, id, c, _) => Plans.SyncServer(c, EnvOf(ticket), t, id)
    case Refresh(t, id, c, lookup) => Plans.Refresh(c, lookup, choose, t, id, at)
    case Resolve(t, id, c) => Plans.Resolve(c, choose, t, id)
  }

  lemma PlansObedient(prim: Primitives, ticket: Ticket)
    requires Admissible(prim, ticket.request)
    ensures Obedient(PlanOf(ticket), ticket.request.t, {})
  {
    hide Obedient;
    var choose, message, at := ticket.setting.choose, ticket.setting.message, ticket.at;
    match ticket.request
    case CreateServer(t, input) => CreateServerObedient(t, input, at);
    case UpdateServer(t, id, patch) => UpdateServerObedient(choose, t, id, patch);
    case RemoveServer(t, id) => RemovalsObedient(t, id, at);
    case TestConnection(t, id, c, probe) => TestConnectionObedient(c, probe, message, choose, t, id, at);
    case CreateToken(t, id, input) => CreateTokenObedient(t, id, input);
    case UpdateToken(t, id, patch) => UpdateTokenObedient(t, id, patch);
    case RemoveToken(t, id) => RemovalsObedient(t, id, at);
    case SyncTenant(t, c, _, _) => SyncTenantObedient(c, EnvOf(ticket), t);
    case SyncServer(t, id, c, _) =>
      FinishGoesOn(t, {});
      SyncThenObedient(c, EnvOf(ticket), t, id, Finish(), {});
    case Refresh(t, id, c, lookup) => RefreshObedient(c, lookup, choose, t, id, at);
    case Resolve(t, id, c) => ResolveObedient(c, choose, t, id);
  }
}
