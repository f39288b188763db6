// The account cache and the repository methods that write it (src/backend/repositories/accounts.repository.ts).
module AccountCache {
  import opened Json
  import opened Store
  import opened WhmAccounts
  import opened Database

  predicate CachedAt(row: AccountRow, t: string, serverId: Id) {
    row.tenantId == t && row.serverId == serverId
  }

  // What the cache of a server says, by account name.
  ghost function Cache(m: AccountTable, t: string, serverId: Id): map<string, Fields>
    requires AccountKeysUnique(m)
  {
    map i | i in m && CachedAt(m[i], t, serverId) :: m[i].cpanelUser := m[i].fields
  }

  // Last write wins.
  function Upserted(cache: map<string, Fields>, accounts: seq<Parsed>): map<string, Fields> {
    if accounts == [] then cache
    else
      var last := accounts[|accounts| - 1];
      Upserted(cache, accounts[..|accounts| - 1])[last.cpanelUser := last.fields]
  }

  function Users(accounts: seq<Parsed>): set<string> {
    set a | a in accounts :: a.cpanelUser
  }

  // Only cache rows of this server changed: those of the named users, stamped `at`.
  ghost predicate RowsOnly(a: AccountTable, b: AccountTable, t: string, serverId: Id, users: set<string>, at: Time) {
    && (forall i :: i in a ==> i in b && AccountEvolves(a[i], b[i]))
    && (forall i :: i in b ==>
          (i in a && b[i] == a[i]) ||
          (CachedAt(b[i], t, serverId) && b[i].cpanelUser in users && b[i].lastSyncedAt == at))
  }

  predicate Keyed(s: Store, t: string, serverId: Id, user: string, i: Id) {
    i in s.accounts && LiveAccount(s, t, i) && s.accounts[i].serverId == serverId && s.accounts[i].cpanelUser == user
  }

  method FindAccount(db: Database, t: string, id: Id) returns (row: Option<AccountRow>)
    requires db.Valid()
    modifies db`store, db`seen, db`secrets
    ensures db.Valid() && db.store == old(db.store) && db.secrets == old(db.secrets) && old(db.seen) <= db.seen
    ensures row.Some? <==> LiveAccount(db.store, t, id)
    ensures row.Some? ==> row.value == db.store.accounts[id]
  {
    hide Inv, SeenOwned, Evolves, IdsBelow;
    var reply := db.Execute(ReadAccounts(t, (i, _) => i == id));
    row := if id in reply.accounts then Some(reply.accounts[id]) else None;
  }

  method FindAccountByUser(db: Database, t: string, serverId: Id, user: string) returns (found: Option<Id>)
    requires db.Valid()
    modifies db`store, db`seen, db`secrets
    ensures db.Valid() && db.store == old(db.store) && db.secrets == old(db.secrets) && old(db.seen) <= db.seen
    ensures found.Some? ==> Keyed(db.store, t, serverId, user, found.value)
    ensures found == None ==> forall i :: !Keyed(db.store, t, serverId, user, i)
  {
    hide Inv, SeenOwned, Evolves, IdsBelow;
    var reply :=
        db.Execute(ReadAccounts(t, (_, row: AccountRow) => row.serverId == serverId && row.cpanelUser == user));
    var ids := reply.accounts.Keys;
    if ids == {} {
      assert forall i :: Keyed(db.store, t, serverId, user, i) ==> i in reply.accounts;
      return None;
    }
    var id :| id in ids;
    return Some(id);
  }

  // What upserting one account does to the accounts table.
  ghost predicate CacheSet(m: AccountTable, m': AccountTable, t: string, serverId: Id, account: Parsed, at: Time) {
    && AccountKeysUnique(m) && AccountKeysUnique(m') && AccountsLive(m')
    && Cache(m', t, serverId) == Cache(m, t, serverId)[account.cpanelUser := account.fields]
    && RowsOnly(m, m', t, serverId, {account.cpanelUser}, at)
  }

  predicate Stored(row: AccountRow, t: string, serverId: Id, account: Parsed, at: Time) {
    CachedAt(row, t, serverId) && row.cpanelUser == account.cpanelUser && row.fields == account.fields &&
      row.lastSyncedAt == at
  }

  lemma AccountCallOnly(s: Store, call: Call)
    requires call.InsertAccount? || call.UpdateAccount?
    ensures Apply(s, call) == s.(accounts := AccountsAfter(s, call))
    ensures forall secrets, reply :: Remember(secrets, call, reply) == secrets
  {
  }

  lemma UpdateSetsCache(s: Store, t: string, serverId: Id, account: Parsed, i: Id, at: Time)
    requires AccountKeysUnique(s.accounts) && AccountsLive(s.accounts) && Keyed(s, t, serverId, account.cpanelUser, i)
    ensures CacheSet(s.accounts, AccountsAfter(s, UpdateAccount(t, i, account.fields, at)), t, serverId, account, at)
    ensures var m := AccountsAfter(s, UpdateAccount(t, i, account.fields, at));
            i in m && Stored(m[i], t, serverId, account, at)
  {
    var call := UpdateAccount(t, i, account.fields, at);
    ApplyKeepsAccountKeys(s, call);
    CachePut(s.accounts, AccountsAfter(s, call), t, serverId, i);
  }

  lemma InsertSucceeds(s: Store, t: string, serverId: Id, user: string, fields: Fields, i: Id, at: Time)
    requires AccountsLive(s.accounts) && serverId in s.servers
    requires forall j :: !Keyed(s, t, serverId, user, j)
    ensures Answer(s, InsertAccount(t, i, serverId, user, fields, at)) == Created(i)
  {
    assert !UserTaken(s, t, serverId, user) by {
      forall j | j in s.accounts && s.accounts[j].tenantId == t && s.accounts[j].serverId == serverId
        ensures s.accounts[j].cpanelUser != user
      {
        assert !Keyed(s, t, serverId, user, j);
      }
    }
  }

  lemma InsertSetsCache(s: Store, t: string, serverId: Id, account: Parsed, i: Id, at: Time)
    requires AccountKeysUnique(s.accounts) && AccountsLive(s.accounts) && serverId in s.servers && i !in s.accounts
    requires forall j :: !Keyed(s, t, serverId, account.cpanelUser, j)
    ensures CacheSet(s.accounts,
                     AccountsAfter(s, InsertAccount(t, i, serverId, account.cpanelUser, account.fields, at)), t,
                       serverId, account, at)
    ensures var m := AccountsAfter(s, InsertAccount(t, i, serverId, account.cpanelUser, account.fields, at));
            i in m && Stored(m[i], t, serverId, account, at)
  {
    var call := InsertAccount(t, i, serverId, account.cpanelUser, account.fields, at);
    InsertSucceeds(s, t, serverId, account.cpanelUser, account.fields, i, at);
    ApplyKeepsAccountKeys(s, call);
    CachePut(s.accounts, AccountsAfter(s, call), t, serverId, i);
  }

  lemma CacheHolds(m: AccountTable, t: string, serverId: Id, i: Id)
    requires AccountKeysUnique(m) && i in m && CachedAt(m[i], t, serverId)
    ensures m[i].cpanelUser in Cache(m, t, serverId) && Cache(m, t, serverId)[m[i].cpanelUser] == m[i].fields
  {
  }

  lemma CacheRow(m: AccountTable, t: string, serverId: Id, user: string) returns (i: Id)
    requires AccountKeysUnique(m) && user in Cache(m, t, serverId)
    ensures i in m && CachedAt(m[i], t, serverId) && m[i].cpanelUser == user
  {
    i :| i in m && CachedAt(m[i], t, serverId) && m[i].cpanelUser == user;
  }

  lemma CacheWithin(a: AccountTable, b: AccountTable, t: string, serverId: Id, user: string)
    requires AccountKeysUnique(a) && AccountKeysUnique(b) && user in Cache(a, t, serverId)
    requires forall i :: i in a && CachedAt(a[i], t, serverId) && a[i].cpanelUser == user ==> i in b && a[i] == b[i]
    ensures user in Cache(b, t, serverId) && Cache(b, t, serverId)[user] == Cache(a, t, serverId)[user]
  {
    var i := CacheRow(a, t, serverId, user);
    CacheHolds(a, t, serverId, i);
    CacheHolds(b, t, serverId, i);
  }

  // Tables with the same rows for a server have the same cache for it.
  lemma CacheFrame(a: AccountTable, b: AccountTable, t: string, serverId: Id)
    requires AccountKeysUnique(a) && AccountKeysUnique(b)
    requires forall i :: i in a && CachedAt(a[i], t, serverId) ==> i in b && a[i] == b[i]
    requires forall i :: i in b && CachedAt(b[i], t, serverId) ==> i in a && a[i] == b[i]
    ensures Cache(a, t, serverId) == Cache(b, t, serverId)
  {
    forall user | user in Cache(a, t, serverId)
      ensures user in Cache(b, t, serverId) && Cache(b, t, serverId)[user] == Cache(a, t, serverId)[user]
    {
      CacheWithin(a, b, t, serverId, user);
    }
    forall user | user in Cache(b, t, serverId) ensures user in Cache(a, t, serverId) {
      CacheWithin(b, a, t, serverId, user);
    }
    SameMap(Cache(a, t, serverId), Cache(b, t, serverId));
  }

  lemma SameMap(a: map<string, Fields>, b: map<string, Fields>)
    requires forall k :: k in a ==> k in b && a[k] == b[k]
    requires forall k :: k in b ==> k in a
    ensures a == b
  {
  }

  // Writing one row of a server's cache sets one entry of the map it stands for.
  lemma CachePut(a: AccountTable, b: AccountTable, t: string, serverId: Id, i: Id)
    requires AccountKeysUnique(a) && AccountKeysUnique(b)
    requires i in b && CachedAt(b[i], t, serverId)
    requires i in a ==> a[i].cpanelUser == b[i].cpanelUser
    requires b == a[i := b[i]]
    ensures Cache(b, t, serverId) == Cache(a, t, serverId)[b[i].cpanelUser := b[i].fields]
  {
    CacheHolds(b, t, serverId, i);
    forall user | user != b[i].cpanelUser
      ensures user in Cache(a, t, serverId) ==>
                user in Cache(b, t, serverId) && Cache(b, t, serverId)[user] == Cache(a, t, serverId)[user]
      ensures user in Cache(b, t, serverId) ==> user in Cache(a, t, serverId)
    {
      if user in Cache(a, t, serverId) { CacheWithin(a, b, t, serverId, user); }
      if user in Cache(b, t, serverId) { CacheWithin(b, a, t, serverId, user); }
    }
    MapPut(Cache(a, t, serverId), Cache(b, t, serverId), b[i].cpanelUser, b[i].fields);
  }

  lemma MapPut(before: map<string, Fields>, after: map<string, Fields>, key: string, v: Fields)
    requires key in after && after[key] == v
    requires forall k :: k != key ==>
               (k in before ==> k in after && after[k] == before[k]) && (k in after ==> k in before)
    ensures after == before[key := v]
  {
  }

  ghost predicate Sound(m: AccountTable) {
    AccountKeysUnique(m) && AccountsLive(m)
  }

  lemma ValidSound(db: Database)
    requires db.Valid()
    ensures Sound(db.store.accounts)
  {
  }

  lemma ValidOwned(db: Database, t: string, serverId: Id)
    requires db.Valid() && (t, serverId) in db.seen
    ensures serverId in db.store.servers
  {
  }

  method UpsertOne(db: Database, t: string, serverId: Id, account: Parsed, at: Time) returns (id: Id)
    requires db.Valid() && (t, serverId) in db.seen
    modifies db
    ensures db.Valid() && Evolves(old(db.store), db.store) && db.secrets == old(db.secrets) && old(db.seen) <= db.seen
    ensures db.store.servers == old(db.store.servers) && db.store.tokens == old(db.store.tokens)
    ensures CacheSet(old(db.store.accounts), db.store.accounts, t, serverId, account, at)
    ensures id in db.store.accounts && Stored(db.store.accounts[id], t, serverId, account, at)
  {
    ValidSound(db);
    ValidOwned(db, t, serverId);
    hide Inv, SeenOwned, Evolves, IdsBelow, CacheSet, Sound, Apply, AccountsAfter, Answer, Stored;
    var existing := FindAccountByUser(db, t, serverId, account.cpanelUser);
    if existing.Some? {
      id := existing.value;
      UpdateSetsCache(db.store, t, serverId, account, id, at);
      AccountCallOnly(db.store, UpdateAccount(t, id, account.fields, at));
      var reply := db.Execute(UpdateAccount(t, id, account.fields, at));
    } else {
      id := db.NewId();
      InsertSetsCache(db.store, t, serverId, account, id, at);
      AccountCallOnly(db.store, InsertAccount(t, id, serverId, account.cpanelUser, account.fields, at));
      var reply := db.Execute(InsertAccount(t, id, serverId, account.cpanelUser, account.fields, at));
    }
  }

  lemma PrefixPlus<T>(xs: seq<T>, i: nat)
    requires i <= |xs|
    ensures i < |xs| ==> xs[..i + 1] == xs[..i] + [xs[i]] && xs[..i + 1][..i] == xs[..i]
    ensures xs[..|xs|] == xs
  {
  }

  // What upserting a list does to the accounts table.
  ghost predicate CacheMerged(m: AccountTable, m': AccountTable, t: string, serverId: Id, accounts: seq<Parsed>,
          at: Time)
  {
    && AccountKeysUnique(m) && AccountKeysUnique(m') && AccountsLive(m')
    && Cache(m', t, serverId) == Upserted(Cache(m, t, serverId), accounts)
    && RowsOnly(m, m', t, serverId, Users(accounts), at)
  }

  lemma RowsOnlyTransitive(a: AccountTable, b: AccountTable, d: AccountTable, t: string, serverId: Id,
          users: set<string>, more: set<string>, at: Time)
    requires RowsOnly(a, b, t, serverId, users, at) && RowsOnly(b, d, t, serverId, more, at)
    ensures RowsOnly(a, d, t, serverId, users + more, at)
  {
    forall i | i in a ensures i in d && AccountEvolves(a[i], d[i]) {
      assert AccountEvolves(a[i], b[i]) && AccountEvolves(b[i], d[i]);
    }
  }

  lemma NothingMerged(m: AccountTable, t: string, serverId: Id, at: Time)
    requires Sound(m)
    ensures CacheMerged(m, m, t, serverId, [], at)
  {
  }

  lemma MergeOneMore(a: AccountTable, b: AccountTable, d: AccountTable, t: string, serverId: Id,
          init: seq<Parsed>, last: Parsed, at: Time)
    requires CacheMerged(a, b, t, serverId, init, at) && CacheSet(b, d, t, serverId, last, at)
    ensures CacheMerged(a, d, t, serverId, init + [last], at)
  {
    assert (init + [last])[..|init|] == init;
    RowsOnlyTransitive(a, b, d, t, serverId, Users(init), {last.cpanelUser}, at);
    assert Users(init + [last]) == Users(init) + {last.cpanelUser};
  }

  method UpsertMany(db: Database, t: string, serverId: Id, accounts: seq<Parsed>, at: Time) returns (n: nat)
    requires db.Valid() && (t, serverId) in db.seen
    modifies db
    ensures db.Valid() && Evolves(old(db.store), db.store) && db.secrets == old(db.secrets) && old(db.seen) <= db.seen
    ensures db.store.servers == old(db.store.servers) && db.store.tokens == old(db.store.tokens)
    ensures CacheMerged(old(db.store.accounts), db.store.accounts, t, serverId, accounts, at)
    ensures n == |accounts|
  {
    ValidSound(db);
    NothingMerged(db.store.accounts, t, serverId, at);
    EvolvesReflexive(db.store);
    hide Inv, SeenOwned, Evolves, IdsBelow, CacheSet, CacheMerged, Sound;
    for i := 0 to |accounts|
      invariant db.Valid() && Evolves(old(db.store), db.store) && db.secrets == old(db.secrets) &&
                old(db.seen) <= db.seen
      invariant db.store.servers == old(db.store.servers) && db.store.tokens == old(db.store.tokens)
      invariant CacheMerged(old(db.store.accounts), db.store.accounts, t, serverId, accounts[..i], at)
    {
      ghost var before := db.store;
      PrefixPlus(accounts, i);
      var id := UpsertOne(db, t, serverId, accounts[i], at);
      MergeOneMore(old(db.store.accounts), before.accounts, db.store.accounts, t, serverId, accounts[..i], accounts[i],
                   at);
      EvolvesTransitive(old(db.store), before, db.store);
    }
    PrefixPlus(accounts, |accounts|);
    n := |accounts|;
  }

  lemma {:induction false} UpsertedAt(cache: map<string, Fields>, accounts: seq<Parsed>, user: string)
    ensures user !in Users(accounts) ==>
              (user in Upserted(cache, accounts) <==> user in cache) &&
              (user in cache ==> Upserted(cache, accounts)[user] == cache[user])
    ensures user in Users(accounts) ==>
              user in Upserted(cache, accounts) && user in Upserted(map[], accounts) &&
              Upserted(cache, accounts)[user] == Upserted(map[], accounts)[user]
  {
    if accounts != [] {
      var init, last := accounts[..|accounts| - 1], accounts[|accounts| - 1];
      UpsertedAt(cache, init, user);
      assert last in accounts;
      assert Users(accounts) == Users(init) + {last.cpanelUser} by { assert accounts == init + [last]; }
    }
  }

  // Syncing the same list again changes no field.
  lemma UpsertIdempotent(cache: map<string, Fields>, accounts: seq<Parsed>)
    ensures Upserted(Upserted(cache, accounts), accounts) == Upserted(cache, accounts)
  {
    var once := Upserted(cache, accounts);
    var twice := Upserted(once, accounts);
    forall user ensures (user in twice <==> user in once) && (user in once ==> twice[user] == once[user]) {
      UpsertedAt(cache, accounts, user);
      UpsertedAt(once, accounts, user);
    }
  }

  // The reported count never falls short of the accounts written.
  lemma {:induction false} DistinctUsers(accounts: seq<Parsed>)
    ensures |Users(accounts)| <= |accounts|
  {
    if accounts != [] {
      var init, last := accounts[..|accounts| - 1], accounts[|accounts| - 1];
      DistinctUsers(init);
      assert Users(accounts) == Users(init) + {last.cpanelUser} by { assert accounts == init + [last]; }
    }
  }

  // ----- The entries, told from the records -----

  lemma {:induction false} LastEntry(cache: map<string, Fields>, accounts: seq<Parsed>, user: string) returns (k: nat)
    requires user in Users(accounts)
    ensures k < |accounts| && accounts[k].cpanelUser == user
    ensures forall l :: k < l < |accounts| ==> accounts[l].cpanelUser != user
    ensures user in Upserted(cache, accounts) && Upserted(cache, accounts)[user] == accounts[k].fields
  {
    var n := |accounts| - 1;
    var init := accounts[..n];
    if accounts[n].cpanelUser == user {
      k := n;
    } else {
      var a :| a in accounts && a.cpanelUser == user;
      assert a in init by { assert accounts == init + [accounts[n]]; }
      k := LastEntry(cache, init, user);
      forall l | k < l < |accounts| ensures accounts[l].cpanelUser != user {
        if l < n { assert init[l] == accounts[l]; }
      }
    }
  }

  // The record is of this account.
  ghost predicate Names(raw: Json, user: string) { exists fields :: Recorded(raw, Parsed(user, fields)) }

  lemma NamesParsed(raw: Json, account: Parsed, user: string)
    requires Parse(raw) == Some(account)
    ensures Names(raw, user) <==> account.cpanelUser == user
  {
    ParsesExactly(raw, account);
    forall fields | Recorded(raw, Parsed(user, fields)) ensures account.cpanelUser == user {
      ParsesExactly(raw, Parsed(user, fields));
    }
    hide Recorded;
    if account.cpanelUser == user { assert Recorded(raw, Parsed(user, account.fields)); }
  }

  // What the cache says of an account that WHM's records name is what is kept of the last of these.
  lemma LastRecordKept(m: AccountTable, m': AccountTable, t: string, serverId: Id, raws: seq<Json>,
          accounts: seq<Parsed>, at: Time, user: string)
    requires CacheMerged(m, m', t, serverId, accounts, at) && ParseAll(raws) == Some(accounts)
    ensures (exists k :: 0 <= k < |raws| && Names(raws[k], user)) ==>
              && user in Cache(m', t, serverId)
              && exists k :: 0 <= k < |raws| && Recorded(raws[k], Parsed(user, Cache(m', t, serverId)[user])) &&
                   forall l :: k < l < |raws| ==> !Names(raws[l], user)
    ensures (forall k :: 0 <= k < |raws| ==> !Names(raws[k], user)) ==>
              (user in Cache(m', t, serverId) <==> user in Cache(m, t, serverId)) &&
              (user in Cache(m, t, serverId) ==> Cache(m', t, serverId)[user] == Cache(m, t, serverId)[user])
  {
    forall k | 0 <= k < |raws| ensures Names(raws[k], user) <==> accounts[k].cpanelUser == user {
      NamesParsed(raws[k], accounts[k], user);
    }
    var cache := Cache(m, t, serverId);
    hide Names, Recorded, Parse, ParseAll, Cache, RowsOnly, AccountKeysUnique, AccountsLive;
    if user in Users(accounts) {
      var k := LastEntry(cache, accounts, user);
      ParsesExactly(raws[k], accounts[k]);
      assert Recorded(raws[k], Parsed(user, Cache(m', t, serverId)[user]));
    } else {
      UpsertedAt(cache, accounts, user);
      forall k | 0 <= k < |raws| ensures accounts[k].cpanelUser != user { assert accounts[k] in accounts; }
    }
  }
}
