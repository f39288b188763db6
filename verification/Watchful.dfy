// Syncs and refreshes insert an account only right after a lookup that found none, and report a violated unique key
// exactly if an insert of theirs was refused (src/backend/repositories/accounts.repository.ts:71-104).
module Watchful {
  import opened Json
  import opened Crypto
  import opened Store
  import opened WhmAccounts
  import opened Repositories
  import opened Services
  import opened Sync
  import opened Plans
  import AccountsService
  import Whm

  // A job's last call and the answer to it.
  type Last = Option<(Call, Reply)>

  // The account to be inserted was looked up just before, and not found.
  ghost predicate LookedUp(last: Last, insert: Call)
    requires insert.InsertAccount?
  {
    && last.Some? && last.value.0 == FindByUser(insert.tenantId, insert.serverId, insert.user)
    && (last.value.1.Accounts? ==> last.value.1.accounts == map[])
  }

  predicate Refuses(call: Call, r: Reply) { call.InsertAccount? && !r.Created? }

  // The plans that insert accounts. A tenant's sync keeps its servers' failures to itself; a refresh marks no server.
  datatype Kind = SyncOne | SyncMany | RefreshOne

  predicate Strict(kind: Kind) { !kind.SyncMany? }

  predicate Refused(last: Last) { last.Some? && Refuses(last.value.0, last.value.1) }

  // It marks the server UNREACHABLE.
  predicate Marks(call: Call, serverId: Id) {
    call.SetStatus? && call.id == serverId && call.status == UNREACHABLE && call.lastError == Some("Sync failed.")
  }

  ghost predicate MarksNow(p: Plan, serverId: Id) {
    p.Ask? && forall id: Id :: Marks(p.call(id), serverId)
  }

  // `refused`: an insert was refused before. Only a strict plan reports that, and it reports it whenever it happens;
  // and right after it happens, a sync marks the server.
  ghost predicate WatchesFor(p: Plan, last: Last, refused: bool, kind: Kind, steps: nat)
    decreases steps
  {
    steps == 0 ||
    ((Refused(last) && !kind.RefreshOne? ==> MarksNow(p, last.value.0.serverId)) &&
     match p
     case End(result) => Strict(kind) ==> (result == Failure(UniqueKeyViolated) <==> refused)
     case Ask(call, next) =>
       && (forall id: Id :: call(id).InsertAccount? ==> LookedUp(last, call(id)))
       && forall id: Id, r: Reply ::
            WatchesFor(next(r), Some((call(id), r)), refused || Refuses(call(id), r), kind, steps - 1))
  }

  ghost predicate Watches(p: Plan, last: Last, refused: bool, kind: Kind) {
    forall steps: nat :: WatchesFor(p, last, refused, kind, steps)
  }

  // It does not begin with an insert.
  ghost predicate Careful(p: Plan, refused: bool, kind: Kind) {
    forall last: Last :: !Refused(last) ==> Watches(p, last, refused, kind)
  }

  lemma WatchesNow(p: Plan, last: Last, refused: bool, kind: Kind, id: Id, r: Reply)
    requires Watches(p, last, refused, kind) && p.Ask?
    ensures p.call(id).InsertAccount? ==> LookedUp(last, p.call(id))
    ensures Refused(last) && !kind.RefreshOne? ==> Marks(p.call(id), last.value.0.serverId)
    ensures Watches(p.next(r), Some((p.call(id), r)), refused || Refuses(p.call(id), r), kind)
  {
    assert WatchesFor(p, last, refused, kind, 1);
    var q, now, more := p.next(r), Some((p.call(id), r)), refused || Refuses(p.call(id), r);
    forall steps: nat ensures WatchesFor(q, now, more, kind, steps) {
      assert WatchesFor(p, last, refused, kind, steps + 1);
    }
  }

  lemma WatchesAtEnd(p: Plan, last: Last, refused: bool, kind: Kind)
    requires Watches(p, last, refused, kind) && p.End? && Strict(kind)
    ensures p.result == Failure(UniqueKeyViolated) <==> refused
  {
    assert WatchesFor(p, last, refused, kind, 1);
  }

  lemma AskWatches(p: Plan, last: Last, refused: bool, kind: Kind)
    requires p.Ask? && !Refused(last) && forall id: Id :: p.call(id).InsertAccount? ==> LookedUp(last, p.call(id))
    requires forall id: Id, r: Reply ::
               Watches(p.next(r), Some((p.call(id), r)), refused || Refuses(p.call(id), r), kind)
    ensures Watches(p, last, refused, kind)
  {
    forall steps: nat ensures WatchesFor(p, last, refused, kind, steps) {
      if steps > 0 {
        forall id: Id, r: Reply
          ensures WatchesFor(p.next(r), Some((p.call(id), r)), refused || Refuses(p.call(id), r), kind, steps - 1)
        {
          assert Watches(p.next(r), Some((p.call(id), r)), refused || Refuses(p.call(id), r), kind);
        }
      }
    }
  }

  // A call that inserts no account.
  lemma AskCareful(p: Plan, refused: bool, kind: Kind)
    requires p.Ask? && forall id: Id :: !p.call(id).InsertAccount?
    requires forall id: Id, r: Reply :: Watches(p.next(r), Some((p.call(id), r)), refused, kind)
    ensures Careful(p, refused, kind)
  {
    forall last: Last | !Refused(last) ensures Watches(p, last, refused, kind) {
      hide Watches;
      AskWatches(p, last, refused, kind);
    }
  }

  lemma EndCareful(p: Plan, refused: bool, kind: Kind)
    requires p.End? && (Strict(kind) ==> (p.result == Failure(UniqueKeyViolated) <==> refused))
    ensures Careful(p, refused, kind)
  {
  }

  // What follows is careful, given that the report is right.
  ghost predicate Reports(onward: Result<()> -> Plan, kind: Kind) {
    forall r: Result<()>, refused: bool ::
      (Strict(kind) ==> (r == Failure(UniqueKeyViolated) <==> refused)) ==> Careful(onward(r), refused, kind)
  }

  lemma FinishReports(kind: Kind)
    requires Strict(kind)
    ensures Reports(Finish(), kind)
  {
    forall r: Result<()>, refused: bool | r == Failure(UniqueKeyViolated) <==> refused
      ensures Careful(Finish()(r), refused, kind)
    {
      EndCareful(Finish()(r), refused, kind);
    }
  }

  // What follows a refused insert marks the server, if a sync's.
  ghost predicate Catches(failed: Plan, serverId: Id, kind: Kind) {
    Careful(failed, true, kind) && (!kind.RefreshOne? ==> MarksNow(failed, serverId))
  }

  lemma CatchesWatches(failed: Plan, last: Last, kind: Kind)
    requires Refused(last) && Catches(failed, last.value.0.serverId, kind)
    ensures Watches(failed, last, true, kind)
  {
    assert Watches(failed, None, true, kind);
    forall steps: nat ensures WatchesFor(failed, last, true, kind, steps) {
      assert WatchesFor(failed, None, true, kind, steps);
      assert WatchesFor(failed, None, true, kind, 1);
    }
  }

  // ----- The plans -----

  lemma StampCareful(t: string, token: Id, at: Time, onward: Plan, refused: bool, kind: Kind)
    requires Careful(onward, refused, kind)
    ensures Careful(Stamp(t, token, at, onward), refused, kind)
  {
    AskCareful(Stamp(t, token, at, onward), refused, kind);
  }

  lemma SetStatusCareful(t: string, id: Id, status: ServerStatus, lastError: Option<string>, at: Time, onward: Plan,
          refused: bool, kind: Kind)
    requires Careful(onward, refused, kind)
    ensures Careful(Plans.SetServerStatus(t, id, status, lastError, at, onward), refused, kind)
  {
    var p := Plans.SetServerStatus(t, id, status, lastError, at, onward);
    forall done: Reply ensures Careful(p.next(done), refused, kind) {
      if done != Count(0) { AskCareful(p.next(done), refused, kind); }
    }
    AskCareful(p, refused, kind);
  }

  lemma OverwriteCareful(t: string, id: Id, account: Parsed, at: Time, onward: Plan, refused: bool, kind: Kind)
    requires Careful(onward, refused, kind)
    ensures Careful(Overwrite(t, id, account, at, onward), refused, kind)
  {
    var p := Overwrite(t, id, account, at, onward);
    forall done: Reply ensures Careful(p.next(done), refused, kind) { AskCareful(p.next(done), refused, kind); }
    AskCareful(p, refused, kind);
  }

  lemma InsertUserWatches(t: string, serverId: Id, account: Parsed, at: Time, onward: Plan, failed: Plan, last: Last,
          refused: bool, kind: Kind)
    requires Careful(onward, refused, kind) && Catches(failed, serverId, kind)
    requires last.Some? && last.value.0 == FindByUser(t, serverId, account.cpanelUser)
    requires last.value.1.Accounts? ==> last.value.1.accounts == map[]
    ensures Watches(InsertUser(t, serverId, account, at, onward, failed), last, refused, kind)
  {
    var p := InsertUser(t, serverId, account, at, onward, failed);
    hide Watches;
    forall id: Id, r: Reply ensures Watches(p.next(r), Some((p.call(id), r)), refused || Refuses(p.call(id), r), kind) {
      if !r.Created? {
        hide Careful, Catches;
        CatchesWatches(failed, Some((p.call(id), r)), kind);
      }
    }
    assert forall id: Id :: p.call(id).InsertAccount? && LookedUp(last, p.call(id));
    AskWatches(p, last, refused, kind);
  }

  lemma NothingChosen(choose: set<Id> -> Id, m: AccountTable)
    requires Chooses(choose) && choose(m.Keys) !in m
    ensures m == map[]
  {
    assert m.Keys == {};
  }

  lemma UpsertCareful(choose: set<Id> -> Id, t: string, serverId: Id, account: Parsed, at: Time, onward: Plan,
          failed: Plan, refused: bool, kind: Kind)
    requires Chooses(choose) && Careful(onward, refused, kind) && Catches(failed, serverId, kind)
    ensures Careful(Upsert(choose, t, serverId, account, at, onward, failed), refused, kind)
  {
    var p := Upsert(choose, t, serverId, account, at, onward, failed);
    forall id: Id, found: Reply ensures Watches(p.next(found), Some((p.call(id), found)), refused, kind) {
      if found.Accounts? && choose(found.accounts.Keys) in found.accounts {
        OverwriteCareful(t, choose(found.accounts.Keys), account, at, onward, refused, kind);
      } else {
        if found.Accounts? { NothingChosen(choose, found.accounts); }
        InsertUserWatches(t, serverId, account, at, onward, failed, Some((p.call(id), found)), refused, kind);
      }
    }
    AskCareful(p, refused, kind);
  }

  lemma {:induction false} ImportCareful(choose: set<Id> -> Id, t: string, serverId: Id, accounts: seq<Parsed>, i: nat,
          at: Time, onward: Plan, failed: Plan, refused: bool, kind: Kind)
    requires i <= |accounts| && Chooses(choose) && Careful(onward, refused, kind) && Catches(failed, serverId, kind)
    ensures Careful(Import(choose, t, serverId, accounts, i, at, onward, failed), refused, kind)
    decreases |accounts| - i
  {
    if i < |accounts| {
      var rest := Import(choose, t, serverId, accounts, i + 1, at, onward, failed);
      ImportCareful(choose, t, serverId, accounts, i + 1, at, onward, failed, refused, kind);
      hide Careful, Chooses, Catches;
      UpsertCareful(choose, t, serverId, accounts[i], at, rest, failed, refused, kind);
    }
  }

  lemma LookupsCareful(choose: set<Id> -> Id, t: string, serverId: Id, go: (ServerRow, Id, TokenRow) -> Plan,
          onward: Result<()> -> Plan, refused: bool, kind: Kind)
    requires forall server, token, row :: Careful(go(server, token, row), refused, kind)
    requires Reports(onward, kind) && (Strict(kind) ==> !refused)
    ensures Careful(WithServerAndToken(choose, t, serverId, go, onward), refused, kind)
  {
    var p := WithServerAndToken(choose, t, serverId, go, onward);
    assert Careful(onward(Failure(NotFound("Server"))), refused, kind);
    assert Careful(onward(Failure(NoActiveToken)), refused, kind);
    forall found: Reply ensures Careful(p.next(found), refused, kind) {
      if HasServer(found, serverId) {
        var q := p.next(found);
        forall tokens: Reply ensures Careful(q.next(tokens), refused, kind) { hide Careful, Reports; }
        AskCareful(q, refused, kind);
      }
    }
    AskCareful(p, refused, kind);
  }

  lemma RecordCareful(env: Env, t: string, serverId: Id, d: Decision, onward: Result<()> -> Plan, refused: bool,
          kind: Kind)
    requires (d.Reached? || d.Unreachable?) && Chooses(env.choose) && Reports(onward, kind) &&
             (Strict(kind) ==> !refused)
    ensures Careful(Plans.Record(env, t, serverId, d, onward), refused, kind)
  {
    var at := env.at(serverId);
    match d
    case Reached(token, accounts) =>
      var done, failed := onward(Success(())), onward(Failure(UniqueKeyViolated));
      assert Careful(done, refused, kind) && Careful(failed, true, kind);
      hide Careful, Reports, Chooses;
      SetStatusCareful(t, serverId, ACTIVE, None, at, done, refused, kind);
      StampCareful(t, token, at, Plans.SetServerStatus(t, serverId, ACTIVE, None, at, done), refused, kind);
      SetStatusCareful(t, serverId, UNREACHABLE, Some("Sync failed."), at, failed, true, kind);
      assert Catches(Caught(env, t, serverId, "Sync failed.", UniqueKeyViolated, onward), serverId, kind);
      hide Catches;
      ImportCareful(env.choose, t, serverId, accounts, 0, at, Reachable(env, t, serverId, token, onward),
                    Caught(env, t, serverId, "Sync failed.", UniqueKeyViolated, onward), refused, kind);
    case Unreachable(message) =>
      assert Careful(onward(Failure(SyncFailed(message))), refused, kind);
      SetStatusCareful(t, serverId, UNREACHABLE, Some(message), at, onward(Failure(SyncFailed(message))), refused,
                       kind);
  }

  lemma SyncThenCareful(c: Service, env: Env, t: string, serverId: Id, onward: Result<()> -> Plan, refused: bool,
          kind: Kind)
    requires Chooses(env.choose) && Reports(onward, kind) && (Strict(kind) ==> !refused)
    ensures Careful(SyncThen(c, env, t, serverId, onward), refused, kind)
  {
    var go := Pull(c, env, t, serverId, onward);
    forall server, token, row ensures Careful(go(server, token, row), refused, kind) {
      match Decrypt(c, row.tokenEnc, row.keyId)
      case Err(e) => assert Careful(onward(Failure(Undecryptable(e))), refused, kind);
      case Ok(secret) =>
        RecordCareful(env, t, serverId, Heard(env, serverId, server, token, row, secret), onward, refused, kind);
    }
    hide Careful, Reports;
    LookupsCareful(env.choose, t, serverId, go, onward, refused, kind);
  }

  lemma {:induction false} SyncEachCareful(c: Service, env: Env, t: string, rows: seq<Id>, i: nat, refused: bool)
    requires i <= |rows| && Chooses(env.choose)
    ensures Careful(SyncEach(c, env, t, rows, i), refused, SyncMany)
    decreases |rows| - i
  {
    if i == |rows| {
      EndCareful(Plans.Done(), refused, SyncMany);
    } else {
      var rest := SyncEach(c, env, t, rows, i + 1);
      forall more: bool ensures Careful(rest, more, SyncMany) { SyncEachCareful(c, env, t, rows, i + 1, more); }
      var onward := NextServer(c, env, t, rows, i + 1);
      assert Reports(onward, SyncMany) by {
        hide Careful;
        forall r: Result<()>, more: bool ensures Careful(onward(r), more, SyncMany) {
          assert onward(r) == rest;
        }
      }
      hide Careful, Reports, Chooses;
      SyncThenCareful(c, env, t, rows[i], onward, refused, SyncMany);
    }
  }

  lemma SyncTenantCareful(c: Service, env: Env, t: string)
    requires Chooses(env.choose)
    ensures Careful(Plans.SyncTenant(c, env, t), false, SyncMany)
  {
    var p := Plans.SyncTenant(c, env, t);
    forall listed: Reply ensures Careful(p.next(listed), false, SyncMany) {
      EndCareful(Plans.Done(), false, SyncMany);
      if listed.Servers? {
        SyncEachCareful(c, env, t, NewestFirst(env.choose, listed.servers, listed.servers.Keys, 1000), 0, false);
      }
    }
    AskCareful(p, false, SyncMany);
  }

  lemma RefreshFoundCareful(c: Service, lookup: (Creds, string) -> Whm.CallResult, choose: set<Id> -> Id, t: string,
          account: AccountRow, at: Time)
    requires Chooses(choose)
    ensures Careful(RefreshFound(c, lookup, choose, t, account, at), false, RefreshOne)
  {
    var go := Summarised(c, lookup, choose, t, account, at);
    forall server, token, row ensures Careful(go(server, token, row), false, RefreshOne) {
      hide Careful;
      match Decrypt(c, row.tokenEnc, row.keyId)
      case Err(e) => EndCareful(Fails(Undecryptable(e)), false, RefreshOne);
      case Ok(secret) =>
        match AccountsService.Summary(Whm.FirstAccount(lookup(CredsOf(server, row, secret), account.cpanelUser)))
        case Failure(e) => EndCareful(Fails(e), false, RefreshOne);
        case Success(parsed) =>
          EndCareful(Plans.Done(), false, RefreshOne);
          EndCareful(Fails(UniqueKeyViolated), true, RefreshOne);
          StampCareful(t, token, at, Plans.Done(), false, RefreshOne);
          UpsertCareful(choose, t, account.serverId, parsed, at, Stamp(t, token, at, Plans.Done()),
                        Fails(UniqueKeyViolated),
                        false, RefreshOne);
    }
    FinishReports(RefreshOne);
    LookupsCareful(choose, t, account.serverId, go, Finish(), false, RefreshOne);
  }

  lemma RefreshCareful(c: Service, lookup: (Creds, string) -> Whm.CallResult, choose: set<Id> -> Id, t: string,
          accountId: Id, at: Time)
    requires Chooses(choose)
    ensures Careful(Plans.Refresh(c, lookup, choose, t, accountId, at), false, RefreshOne)
  {
    var p := Plans.Refresh(c, lookup, choose, t, accountId, at);
    forall found: Reply ensures Careful(p.next(found), false, RefreshOne) {
      if HasAccount(found, accountId) {
        RefreshFoundCareful(c, lookup, choose, t, found.accounts[accountId], at);
      } else {
        EndCareful(Fails(NotFound("Account")), false, RefreshOne);
      }
    }
    AskCareful(p, false, RefreshOne);
  }
}
