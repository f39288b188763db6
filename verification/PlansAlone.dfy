// Syncs whose calls nobody interrupts do what the methods that sync a server and a tenant do
// (src/backend/services/hosting-sync.service.ts).
module PlansAlone {
  import opened Json
  import opened Crypto
  import opened Store
  import opened WhmAccounts
  import opened Database
  import opened Repositories
  import opened AccountCache
  import opened Services
  import opened Sync
  import opened Requests
  import opened Plans

  datatype Progress = Progress(plan: Plan, store: Store, nextId: Id)

  function Step(g: Progress): Progress
    requires g.plan.Ask?
  {
    var call := g.plan.call(g.nextId);
    Progress(g.plan.next(Answer(g.store, call)), Apply(g.store, call), g.nextId + 1)
  }

  function Steps(g: Progress, n: nat): Progress
    decreases n
  {
    if n == 0 || g.plan.End? then g else Steps(Step(g), n - 1)
  }

  ghost predicate Reaches(g: Progress, h: Progress) {
    exists n: nat :: Steps(g, n) == h
  }

  lemma Here(g: Progress)
    ensures Reaches(g, g)
  {
    assert Steps(g, 0) == g;
  }

  lemma Onward(g: Progress, h: Progress)
    requires g.plan.Ask? && Reaches(Step(g), h)
    ensures Reaches(g, h)
  {
    var n: nat :| Steps(Step(g), n) == h;
    assert Steps(g, n + 1) == h;
  }

  lemma {:induction false} StepsAdd(g: Progress, m: nat, n: nat)
    ensures Steps(Steps(g, m), n) == Steps(g, m + n)
    decreases m
  {
    if m > 0 && g.plan.Ask? {
      StepsAdd(Step(g), m - 1, n);
    }
  }

  lemma ReachesOn(g: Progress, h: Progress, k: Progress)
    requires Reaches(g, h) && Reaches(h, k)
    ensures Reaches(g, k)
  {
    var m: nat :| Steps(g, m) == h;
    var n: nat :| Steps(h, n) == k;
    StepsAdd(g, m, n);
    assert Steps(g, m + n) == k;
  }

  lemma FoundByUser(s: Store, t: string, serverId: Id, user: string)
    ensures forall i :: i in Answer(s, FindByUser(t, serverId, user)).accounts <==> Keyed(s, t, serverId, user, i)
  {
  }

  // After an upsert the plan goes on, and the cache has one entry set.
  ghost predicate Upserts(g: Progress, h: Progress, t: string, serverId: Id, account: Parsed, at: Time, onward: Plan) {
    && h.plan == onward && h.store.servers == g.store.servers && h.store.tokens == g.store.tokens &&
       IdsBelow(h.store, h.nextId)
    && CacheSet(g.store.accounts, h.store.accounts, t, serverId, account, at)
  }

  lemma LookupAlone(g: Progress, choose: set<Id> -> Id, t: string, serverId: Id, account: Parsed, at: Time,
          onward: Plan, failed: Plan)
    requires g.plan == Upsert(choose, t, serverId, account, at, onward, failed)
    ensures Step(g).store == g.store && Step(g).nextId == g.nextId + 1
    ensures Step(g).plan == g.plan.next(Answer(g.store, FindByUser(t, serverId, account.cpanelUser)))
  {
  }

  // Both writes leave the other tables alone.
  lemma WriteAlone(s: Store, t: string, serverId: Id, account: Parsed, at: Time, call: Call, nextId: Id)
    requires call.InsertAccount? || call.UpdateAccount?
    requires IdsBelow(s, nextId) && (call.InsertAccount? ==> call.id == nextId)
    requires CacheSet(s.accounts, AccountsAfter(s, call), t, serverId, account, at)
    ensures Apply(s, call).servers == s.servers && Apply(s, call).tokens == s.tokens &&
            IdsBelow(Apply(s, call), nextId + 1)
    ensures CacheSet(s.accounts, Apply(s, call).accounts, t, serverId, account, at)
  {
    hide CacheSet;
    AccountCallOnly(s, call);
    ApplyKeepsIds(s, call, nextId + 1);
  }

  lemma UpdatesAlone(g: Progress, choose: set<Id> -> Id, t: string, serverId: Id, account: Parsed, at: Time,
          onward: Plan, failed: Plan, id: Id)
    returns (h: Progress)
    requires g.plan == Upsert(choose, t, serverId, account, at, onward, failed) && Sound(g.store.accounts) &&
             IdsBelow(g.store, g.nextId)
    requires Keyed(g.store, t, serverId, account.cpanelUser, id)
    requires id == choose(Answer(g.store, FindByUser(t, serverId, account.cpanelUser)).accounts.Keys)
    ensures Reaches(g, h) && Upserts(g, h, t, serverId, account, at, onward)
  {
    var call := UpdateAccount(t, id, account.fields, at);
    FoundByUser(g.store, t, serverId, account.cpanelUser);
    LookupAlone(g, choose, t, serverId, account, at, onward, failed);
    var g1 := Step(g);
    UpdateSetsCache(g.store, t, serverId, account, id, at);
    WriteAlone(g.store, t, serverId, account, at, call, g.nextId);
    WriteAlone(g.store, t, serverId, account, at, call, g1.nextId);
    hide Apply, CacheSet, Keyed, Sound, IdsBelow;
    assert g1.plan.Ask? && g1.plan.call(g1.nextId) == call;
    var g2 := Step(g1);
    assert g2.plan.Ask? && g2.store == Apply(g.store, call);
    ReadAlone(g2, t, id);
    h := Step(g2);
    assert h.plan == onward;
    hide Step, Answer;
    Here(h);
    Onward(g2, h);
    Onward(g1, h);
    Onward(g, h);
    BelowMore(h.store, g1.nextId + 1, h.nextId);
  }

  lemma BelowMore(s: Store, bound: nat, more: nat)
    requires IdsBelow(s, bound) && bound <= more
    ensures IdsBelow(s, more)
  {
  }

  lemma ReadAlone(g: Progress, t: string, id: Id)
    requires g.plan.Ask? && g.plan.call(g.nextId).ReadAccounts?
    ensures Step(g).store == g.store
  {
  }

  lemma InsertNext(g: Progress, choose: set<Id> -> Id, t: string, serverId: Id, account: Parsed, at: Time, onward: Plan,
          failed: Plan)
    requires g.plan == Upsert(choose, t, serverId, account, at, onward, failed)
    requires Answer(g.store, FindByUser(t, serverId, account.cpanelUser)).accounts == map[]
    requires Answer(g.store, InsertAccount(t, g.nextId + 1, serverId, account.cpanelUser, account.fields, at)).Created?
    ensures g.plan.Ask?
    ensures var g1 := Step(g);
      && g1.plan.Ask? && Step(g1).plan == onward && Step(g1).nextId == g.nextId + 2
      && Step(g1).store ==
         Apply(g.store, InsertAccount(t, g.nextId + 1, serverId, account.cpanelUser, account.fields, at))
  {
    LookupAlone(g, choose, t, serverId, account, at, onward, failed);
    hide Answer, Apply;
    var g1 := Step(g);
    assert g1.plan == InsertUser(t, serverId, account, at, onward, failed);
    assert g1.plan.call(g1.nextId) == InsertAccount(t, g.nextId + 1, serverId, account.cpanelUser, account.fields, at);
  }

  lemma NothingFound(s: Store, t: string, serverId: Id, user: string)
    requires forall i :: !Keyed(s, t, serverId, user, i)
    ensures Answer(s, FindByUser(t, serverId, user)).Accounts?
    ensures Answer(s, FindByUser(t, serverId, user)).accounts == map[]
  {
    FoundByUser(s, t, serverId, user);
    hide Keyed;
  }

  lemma NotBelow(s: Store, id: Id)
    requires IdsBelow(s, id)
    ensures id !in s.accounts
  {
  }

  lemma InsertWrites(s: Store, t: string, serverId: Id, account: Parsed, at: Time, id: Id, call: Call)
    requires Sound(s.accounts) && IdsBelow(s, id) && serverId in s.servers
    requires forall i :: !Keyed(s, t, serverId, account.cpanelUser, i)
    requires call == InsertAccount(t, id, serverId, account.cpanelUser, account.fields, at)
    ensures Answer(s, call).Created? && Apply(s, call).servers == s.servers && Apply(s, call).tokens == s.tokens
    ensures IdsBelow(Apply(s, call), id + 1) && CacheSet(s.accounts, Apply(s, call).accounts, t, serverId, account, at)
  {
    NotBelow(s, id);
    hide Apply, CacheSet, Keyed, IdsBelow, AccountsAfter, UserTaken, Answer, Stored;
    InsertSucceeds(s, t, serverId, account.cpanelUser, account.fields, id, at);
    InsertSetsCache(s, t, serverId, account, id, at);
    WriteAlone(s, t, serverId, account, at, call, id);
  }

  lemma InsertsAlone(g: Progress, choose: set<Id> -> Id, t: string, serverId: Id, account: Parsed, at: Time,
          onward: Plan, failed: Plan)
    returns (h: Progress)
    requires g.plan == Upsert(choose, t, serverId, account, at, onward, failed) && Sound(g.store.accounts) &&
             IdsBelow(g.store, g.nextId)
    requires serverId in g.store.servers && forall i :: !Keyed(g.store, t, serverId, account.cpanelUser, i)
    ensures Reaches(g, h) && Upserts(g, h, t, serverId, account, at, onward)
  {
    var id := g.nextId + 1;
    hide Apply, Answer, CacheSet, Keyed, IdsBelow, Step, Upsert, AccountsAfter, Sound;
    NothingFound(g.store, t, serverId, account.cpanelUser);
    BelowMore(g.store, g.nextId, id);
    InsertWrites(g.store, t, serverId, account, at, id,
                 InsertAccount(t, id, serverId, account.cpanelUser, account.fields, at));
    InsertNext(g, choose, t, serverId, account, at, onward, failed);
    h := Step(Step(g));
    Here(h);
    Onward(Step(g), h);
    Onward(g, h);
  }

  lemma UpsertAlone(g: Progress, choose: set<Id> -> Id, t: string, serverId: Id, account: Parsed, at: Time,
          onward: Plan, failed: Plan)
    returns (h: Progress)
    requires g.plan == Upsert(choose, t, serverId, account, at, onward, failed) && Sound(g.store.accounts) &&
             IdsBelow(g.store, g.nextId)
    requires serverId in g.store.servers && Chooses(choose)
    ensures Reaches(g, h) && Upserts(g, h, t, serverId, account, at, onward)
  {
    FoundByUser(g.store, t, serverId, account.cpanelUser);
    var ids := Answer(g.store, FindByUser(t, serverId, account.cpanelUser)).accounts.Keys;
    hide Upsert, Upserts, Reaches, Sound, IdsBelow, Keyed;
    if ids == {} {
      h := InsertsAlone(g, choose, t, serverId, account, at, onward, failed);
    } else {
      assert choose(ids) in ids;
      h := UpdatesAlone(g, choose, t, serverId, account, at, onward, failed, choose(ids));
    }
  }

  // After an import the plan goes on, and the cache has the list folded in.
  ghost predicate Imports(m: AccountTable, g: Progress, h: Progress, t: string, serverId: Id, accounts: seq<Parsed>,
          at: Time, onward: Plan)
  {
    && h.plan == onward && h.store.servers == g.store.servers && h.store.tokens == g.store.tokens &&
       IdsBelow(h.store, h.nextId)
    && CacheMerged(m, h.store.accounts, t, serverId, accounts, at)
  }

  lemma {:induction false} ImportAlone(m: AccountTable, g: Progress, choose: set<Id> -> Id, t: string, serverId: Id,
          accounts: seq<Parsed>, i: nat, at: Time, onward: Plan, failed: Plan)
    returns (h: Progress)
    requires i <= |accounts| && g.plan == Import(choose, t, serverId, accounts, i, at, onward, failed) &&
             IdsBelow(g.store, g.nextId)
    requires CacheMerged(m, g.store.accounts, t, serverId, accounts[..i], at) && serverId in g.store.servers &&
             Chooses(choose)
    ensures Reaches(g, h) && Imports(m, g, h, t, serverId, accounts, at, onward)
    decreases |accounts| - i
  {
    PrefixPlus(accounts, i);
    assert Sound(g.store.accounts);
    hide CacheMerged, Upsert, IdsBelow, Sound, Reaches;
    if i == |accounts| {
      h := g;
      PrefixPlus(accounts, |accounts|);
      Here(g);
    } else {
      var rest := Import(choose, t, serverId, accounts, i + 1, at, onward, failed);
      var g1 := UpsertAlone(g, choose, t, serverId, accounts[i], at, rest, failed);
      MergeOneMore(m, g.store.accounts, g1.store.accounts, t, serverId, accounts[..i], accounts[i], at);
      hide CacheSet, Import;
      h := ImportAlone(m, g1, choose, t, serverId, accounts, i + 1, at, onward, failed);
      ReachesOn(g, g1, h);
    }
  }

  lemma StatusAlone(g: Progress, t: string, id: Id, status: ServerStatus, lastError: Option<string>, at: Time,
          onward: Plan)
    returns (h: Progress)
    requires g.plan == Plans.SetServerStatus(t, id, status, lastError, at, onward) && LiveServer(g.store, t, id)
    requires IdsBelow(g.store, g.nextId)
    ensures Reaches(g, h) && h.plan == onward && h.store == WithStatus(g.store, id, status, lastError, at)
    ensures IdsBelow(h.store, h.nextId)
  {
    var g1 := Step(g);
    assert g1.store == WithStatus(g.store, id, status, lastError, at);
    assert g1.plan.Ask?;
    h := Step(g1);
    assert h.store == g1.store && h.plan == onward;
    hide Step;
    Here(h);
    Onward(g1, h);
    Onward(g, h);
  }

  lemma StampAlone(g: Progress, t: string, token: Id, at: Time, onward: Plan) returns (h: Progress)
    requires g.plan == Stamp(t, token, at, onward) && LiveToken(g.store, t, token) && IdsBelow(g.store, g.nextId)
    ensures Reaches(g, h) && h.plan == onward && h.store == WithUse(g.store, token, at) && IdsBelow(h.store, h.nextId)
  {
    h := Step(g);
    hide Step;
    Here(h);
    Onward(g, h);
  }

  // A sync with this decision is done: the server is synced, and the plan goes on with a report that fits.
  ghost predicate Settled(s: Store, h: Progress, t: string, serverId: Id, d: Decision, at: Time,
          onward: Result<()> -> Plan, r: Result<()>)
  {
    && h.plan == onward(r) && r == SyncReport(d)
    && ServerSynced(s, h.store, t, serverId, d, at) && IdsBelow(h.store, h.nextId)
  }

  lemma ReachedSynced(s: Store, s1: Store, t: string, serverId: Id, token: Id, accounts: seq<Parsed>, at: Time)
    requires serverId in s.servers && token in s.tokens && s1.servers == s.servers && s1.tokens == s.tokens
    requires CacheMerged(s.accounts, s1.accounts, t, serverId, accounts, at)
    ensures ServerSynced(s, WithStatus(WithUse(s1, token, at), serverId, ACTIVE, None, at), t, serverId,
                         Reached(token, accounts), at)
  {
    hide CacheMerged;
  }

  lemma ReachedAlone(g: Progress, env: Env, t: string, serverId: Id, token: Id, accounts: seq<Parsed>,
          onward: Result<()> -> Plan)
    returns (h: Progress)
    requires g.plan == Plans.Record(env, t, serverId, Reached(token, accounts), onward)
    requires Sound(g.store.accounts) && IdsBelow(g.store, g.nextId) && Chooses(env.choose)
    requires LiveServer(g.store, t, serverId) && LiveToken(g.store, t, token)
    ensures Reaches(g, h)
    ensures Settled(g.store, h, t, serverId, Reached(token, accounts), env.at(serverId), onward, Success(()))
  {
    var at := env.at(serverId);
    var done := Plans.SetServerStatus(t, serverId, ACTIVE, None, at, onward(Success(())));
    NothingMerged(g.store.accounts, t, serverId, at);
    assert accounts[..0] == [];
    hide CacheMerged, Import, Reaches, IdsBelow, Sound, Stamp, Plans.SetServerStatus, Chooses, ServerSynced;
    var g1 := ImportAlone(g.store.accounts, g, env.choose, t, serverId, accounts, 0, at, Stamp(t, token, at, done),
                          Caught(env, t, serverId, "Sync failed.", UniqueKeyViolated, onward));
    var g2 := StampAlone(g1, t, token, at, done);
    h := StatusAlone(g2, t, serverId, ACTIVE, None, at, onward(Success(())));
    ReachedSynced(g.store, g1.store, t, serverId, token, accounts, at);
    ReachesOn(g, g1, g2);
    ReachesOn(g, g2, h);
  }

  lemma RecordAlone(g: Progress, env: Env, t: string, serverId: Id, d: Decision, onward: Result<()> -> Plan)
    returns (h: Progress, r: Result<()>)
    requires (d.Reached? || d.Unreachable?) && g.plan == Plans.Record(env, t, serverId, d, onward)
    requires Sound(g.store.accounts) && IdsBelow(g.store, g.nextId) && Chooses(env.choose)
    requires LiveServer(g.store, t, serverId) && (d.Reached? ==> LiveToken(g.store, t, d.token))
    ensures Reaches(g, h) && Settled(g.store, h, t, serverId, d, env.at(serverId), onward, r)
  {
    hide Sound, IdsBelow, Chooses, CacheMerged, Import, Reaches, Stamp, Plans.SetServerStatus;
    match d
    case Reached(token, accounts) =>
      hide Settled;
      r := Success(());
      h := ReachedAlone(g, env, t, serverId, token, accounts, onward);
    case Unreachable(message) =>
      r := Failure(SyncFailed(message));
      h := StatusAlone(g, t, serverId, UNREACHABLE, Some(message), env.at(serverId), onward(r));
  }

  lemma WhmTokensAnswer(s: Store, t: string, serverId: Id)
    ensures Answer(s, ActiveWhmTokens(t, serverId)).Tokens?
    ensures Answer(s, ActiveWhmTokens(t, serverId)).tokens.Keys == ActiveTokens(s.tokens, t, serverId, WHM)
    ensures forall i :: i in ActiveTokens(s.tokens, t, serverId, WHM) ==>
              Answer(s, ActiveWhmTokens(t, serverId)).tokens[i] == s.tokens[i]
    ensures Apply(s, ActiveWhmTokens(t, serverId)) == s
  {
  }

  lemma ServerAnswer(s: Store, t: string, serverId: Id)
    ensures HasServer(Answer(s, Plans.FindServer(t, serverId)), serverId) <==> LiveServer(s, t, serverId)
    ensures LiveServer(s, t, serverId) ==>
              Answer(s, Plans.FindServer(t, serverId)).servers[serverId] == s.servers[serverId]
    ensures Apply(s, Plans.FindServer(t, serverId)) == s
  {
  }

  predicate Chosen(env: Env, ids: set<Id>) { env.choose(ids) in ids }

  lemma Onward2(g: Progress, g1: Progress, g2: Progress)
    requires g.plan.Ask? && g1 == Step(g) && g1.plan.Ask? && g2 == Step(g1)
    ensures Reaches(g, g2)
  {
    Here(g2);
    Onward(g1, g2);
    Onward(g, g2);
  }

  lemma SyncThenAlone(g: Progress, c: Service, env: Env, t: string, serverId: Id, onward: Result<()> -> Plan)
    returns (h: Progress, r: Result<()>)
    requires g.plan == SyncThen(c, env, t, serverId, onward)
    requires Sound(g.store.accounts) && IdsBelow(g.store, g.nextId) && Chooses(env.choose)
    ensures Reaches(g, h)
    ensures Settled(g.store, h, t, serverId, Decide(c, env, g.store, t, serverId), env.at(serverId), onward, r)
  {
    var s := g.store;
    var g1 := Step(g);
    ServerAnswer(s, t, serverId);
    WhmTokensAnswer(s, t, serverId);
    hide Answer, Apply, ActiveTokens;
    assert g1.store == s;
    if !LiveServer(s, t, serverId) {
      h, r := g1, Failure(NotFound("Server"));
      Here(h);
      Onward(g, h);
    } else {
      var g2 := Step(g1);
      var ids := ActiveTokens(s.tokens, t, serverId, WHM);
      assert g2.store == s;
      Onward2(g, g1, g2);
      if Chosen(env, ids) {
        var i := env.choose(ids);
        assert g2.plan == Pull(c, env, t, serverId, onward)(s.servers[serverId], i, s.tokens[i]);
        h, r := PullAlone(g2, c, env, t, serverId, i, onward);
      } else {
        h, r := g2, Failure(NoActiveToken);
        Here(h);
      }
      ReachesOn(g, g2, h);
    }
  }

  lemma PullAlone(g: Progress, c: Service, env: Env, t: string, serverId: Id, i: Id, onward: Result<()> -> Plan)
    returns (h: Progress, r: Result<()>)
    requires LiveServer(g.store, t, serverId) && ActiveToken(g.store.tokens, t, serverId, WHM, env.choose) == Some(i)
    requires g.plan == Pull(c, env, t, serverId, onward)(g.store.servers[serverId], i, g.store.tokens[i])
    requires Sound(g.store.accounts) && IdsBelow(g.store, g.nextId) && Chooses(env.choose)
    ensures Reaches(g, h)
    ensures Settled(g.store, h, t, serverId, Decide(c, env, g.store, t, serverId), env.at(serverId), onward, r)
  {
    var server, row := g.store.servers[serverId], g.store.tokens[i];
    match Decrypt(c, row.tokenEnc, row.keyId)
    case Err(e) =>
      h, r := g, Failure(Undecryptable(e));
      Here(g);
    case Ok(secret) =>
      var d := Heard(env, serverId, server, i, row, secret);
      assert d == Decide(c, env, g.store, t, serverId);
      hide Decide, Heard, Sound, IdsBelow, Chooses, Plans.Record, Settled;
      h, r := RecordAlone(g, env, t, serverId, d, onward);
  }

  // The plan of a sync, run without interruption, ends in the state that the sync is specified to end in.
  lemma SyncAlone(c: Service, env: Env, s: Store, nextId: Id, t: string, serverId: Id) returns (h: Progress)
    requires Sound(s.accounts) && IdsBelow(s, nextId) && Chooses(env.choose)
    ensures Reaches(Progress(Plans.SyncServer(c, env, t, serverId), s, nextId), h) && h.plan.End?
    ensures h.plan.result == SyncReport(Decide(c, env, s, t, serverId))
    ensures ServerSynced(s, h.store, t, serverId, Decide(c, env, s, t, serverId), env.at(serverId))
  {
    hide Sound, IdsBelow, Chooses, SyncThen, Reaches, Decide, ServerSynced;
    var r;
    h, r := SyncThenAlone(Progress(Plans.SyncServer(c, env, t, serverId), s, nextId), c, env, t, serverId, Finish());
  }

  // ----- The sync of a tenant -----

  lemma PickedNewest(m: ServerTable, rows: seq<Id>, left: set<Id>, take: nat)
    requires Picked(m, rows, left) && |rows| <= take && (left == {} || |rows| == take)
    ensures Newest(m, rows, take)
  {
  }

  lemma SomeLatest(m: ServerTable, left: set<Id>)
    requires left <= m.Keys && left != {}
    ensures Latests(m, left) != {}
  {
    var id := LatestExists(m, left);
    assert id in Latests(m, left);
  }

  lemma PicksNext(choose: set<Id> -> Id, m: ServerTable, rows: seq<Id>, left: set<Id>)
    requires Chooses(choose) && left <= m.Keys && Picked(m, rows, left)
    ensures left != {} <==> Latests(m, left) != {}
    ensures left != {} ==>
              var id := choose(Latests(m, left)); id in Latests(m, left) && Picked(m, rows + [id], left - {id})
  {
    if left != {} {
      SomeLatest(m, left);
      hide Picked, Latest;
      assert choose(Latests(m, left)) in Latests(m, left);
      PickLatest(m, rows, left, choose(Latests(m, left)));
    }
  }

  lemma {:induction false} NewestAfter(choose: set<Id> -> Id, m: ServerTable, rows: seq<Id>, left: set<Id>, take: nat)
    requires Chooses(choose) && left <= m.Keys && Picked(m, rows, left)
    ensures Newest(m, rows + NewestFirst(choose, m, left, take), |rows| + take)
    decreases take
  {
    hide Picked, Newest, Latest, Latests, Chooses;
    PicksNext(choose, m, rows, left);
    if take > 0 && left != {} {
      var id := choose(Latests(m, left));
      var rest := NewestFirst(choose, m, left - {id}, take - 1);
      NewestAfter(choose, m, rows + [id], left - {id}, take - 1);
      assert rows + ([id] + rest) == rows + [id] + rest;
    } else {
      PickedNewest(m, rows, left, |rows| + take);
      assert rows + [] == rows;
    }
  }

  lemma OneMoreSynced(c: Service, env: Env, s: Store, mid: Store, s': Store, t: string, rows: seq<Id>, i: nat,
          ds: seq<Decision>, d: Decision)
    requires |ds| == i < |rows| && InTurn(c, env, s, mid, t, rows[..i], ds) && Sound(mid.accounts)
    requires d == Decide(c, env, mid, t, rows[i]) && ServerSynced(mid, s', t, rows[i], d, env.at(rows[i]))
    ensures InTurn(c, env, s, s', t, rows[..i + 1], ds + [d])
  {
    hide ServerSynced, Sound, Decide;
    var now, nowDone := rows[..i + 1], ds + [d];
    assert now[..i] == rows[..i] && nowDone[..i] == ds && now[i] == rows[i] && nowDone[i] == d;
  }

  lemma StaysSound(s: Store, s': Store, t: string, serverId: Id, d: Decision, at: Time)
    requires Sound(s.accounts) && ServerSynced(s, s', t, serverId, d, at)
    ensures Sound(s'.accounts)
  {
    SyncedCache(s, s', t, serverId, d, at);
  }

  lemma {:induction false} EachAlone(s: Store, g: Progress, c: Service, env: Env, t: string, rows: seq<Id>, i: nat,
          ds: seq<Decision>)
    returns (h: Progress, all: seq<Decision>)
    requires |ds| == i <= |rows| && g.plan == SyncEach(c, env, t, rows, i) &&
             InTurn(c, env, s, g.store, t, rows[..i], ds)
    requires Sound(g.store.accounts) && IdsBelow(g.store, g.nextId) && Chooses(env.choose)
    ensures Reaches(g, h) && h.plan == Plans.Done() && |all| == |rows| && InTurn(c, env, s, h.store, t, rows, all)
    decreases |rows| - i
  {
    hide Sound, IdsBelow, Chooses, SyncThen, Reaches, Decide, ServerSynced, InTurn;
    if i == |rows| {
      h, all := g, ds;
      assert rows[..i] == rows;
      Here(g);
    } else {
      var d := Decide(c, env, g.store, t, rows[i]);
      var g1, r := SyncThenAlone(g, c, env, t, rows[i], NextServer(c, env, t, rows, i + 1));
      OneMoreSynced(c, env, s, g.store, g1.store, t, rows, i, ds, d);
      StaysSound(g.store, g1.store, t, rows[i], d, env.at(rows[i]));
      h, all := EachAlone(s, g1, c, env, t, rows, i + 1, ds + [d]);
      ReachesOn(g, g1, h);
    }
  }

  lemma ListsFirst(g: Progress, c: Service, env: Env, t: string)
    requires g.plan == Plans.SyncTenant(c, env, t)
    ensures var m := FindServers(g.store, t, (_, _) => true);
      && Step(g).store == g.store && Step(g).nextId == g.nextId + 1
      && Step(g).plan == SyncEach(c, env, t, NewestFirst(env.choose, m, m.Keys, 1000), 0)
  {
    hide FindServers, NewestFirst, SyncEach;
  }

  lemma NewestAmong(choose: set<Id> -> Id, m: ServerTable)
    requires Chooses(choose)
    ensures Newest(m, NewestFirst(choose, m, m.Keys, 1000), 1000)
  {
    hide NewestFirst, Newest, Chooses;
    NewestAfter(choose, m, [], m.Keys, 1000);
    assert [] + NewestFirst(choose, m, m.Keys, 1000) == NewestFirst(choose, m, m.Keys, 1000);
  }

  // So does the plan of a tenant's sync: the newest servers end as they do when each is synced from the first state.
  lemma TenantSyncAlone(c: Service, env: Env, s: Store, nextId: Id, t: string) returns (h: Progress, rows: seq<Id>)
    requires Sound(s.accounts) && IdsBelow(s, nextId) && Chooses(env.choose)
    ensures Reaches(Progress(Plans.SyncTenant(c, env, t), s, nextId), h) && h.plan == Plans.Done()
    ensures Newest(FindServers(s, t, (_, _) => true), rows, 1000)
    ensures TenantSynced(s, h.store, t, rows, Decisions(c, env, s, t), env.at)
  {
    var g := Progress(Plans.SyncTenant(c, env, t), s, nextId);
    var g1 := Step(g);
    var m := FindServers(s, t, (_, _) => true);
    rows := NewestFirst(env.choose, m, m.Keys, 1000);
    hide Step, Sound, IdsBelow, Chooses, Reaches, Decide, ServerSynced, FindServers, NewestFirst, Newest, TenantSynced,
         SyncEach;
    ListsFirst(g, c, env, t);
    NewestAmong(env.choose, m);
    BelowMore(s, nextId, g1.nextId);
    assert InTurn(c, env, s, s, t, rows[..0], []);
    var ds;
    h, ds := EachAlone(s, g1, c, env, t, rows, 0, []);
    Onward(g, h);
    NewestListed(s, t, rows, 1000);
    ListedInTurn(c, env, s, h.store, t, rows, ds);
  }
}
