// What syncing a tenant promises beyond its effect: order, isolation of failures, idempotence, and the summary.
module SyncLaws {
  import opened Json
  import opened Crypto
  import opened Store
  import opened WhmAccounts
  import opened Database
  import opened Repositories
  import opened AccountCache
  import opened Sync
  import Whm

  ghost predicate SameList(one: seq<Id>, two: seq<Id>) {
    forall id :: id in one <==> id in two
  }

  function Untimed(row: ServerRow): ServerRow {
    row.(lastCheckedAt := None)
  }

  function Unstamped(row: TokenRow): TokenRow {
    row.(lastUsedAt := None)
  }

  // The same tables, but for row ids in the cache and for timestamps.
  ghost predicate SameBarTimes(a: Store, b: Store) {
    && SameServersBarTimes(a.servers, b.servers)
    && SameTokensBarTimes(a.tokens, b.tokens)
    && SameCaches(a.accounts, b.accounts)
  }

  ghost predicate SameServersBarTimes(a: ServerTable, b: ServerTable) {
    a.Keys == b.Keys && forall i :: i in a ==> Untimed(a[i]) == Untimed(b[i])
  }

  ghost predicate SameTokensBarTimes(a: TokenTable, b: TokenTable) {
    a.Keys == b.Keys && forall i :: i in a ==> Unstamped(a[i]) == Unstamped(b[i])
  }

  ghost predicate SameCaches(a: AccountTable, b: AccountTable) {
    && AccountKeysUnique(a) && AccountKeysUnique(b)
    && forall u: string, id: Id :: Cache(a, u, id) == Cache(b, u, id)
  }

  // A tenant sync leaves the caches of other tenants and of servers it did not list alone.
  lemma OtherCache(s: AccountTable, a: AccountTable, t: string, rows: seq<Id>, u: string, id: Id)
    requires AccountKeysUnique(s) && AccountKeysUnique(a) && OnlyListed(s, a, t, rows)
    requires u != t || id !in rows
    ensures Cache(a, u, id) == Cache(s, u, id)
  {
    forall i | i in s && CachedAt(s[i], u, id) ensures i in a && s[i] == a[i] {
      assert AccountEvolves(s[i], a[i]);
    }
    CacheFrame(s, a, u, id);
  }

  lemma CacheOf(s: AccountTable, a: AccountTable, t: string, rows: seq<Id>, decisions: Id -> Decision,
          u: string, id: Id)
    requires CachesListed(s, a, t, rows, decisions)
    ensures Cache(a, u, id) == if u == t && id in rows then CacheAfter(Cache(s, u, id), decisions(id))
                               else Cache(s, u, id)
  {
    if u != t || id !in rows { OtherCache(s, a, t, rows, u, id); }
  }

  // The order of the servers, and the times at which they are reached, decide nothing but timestamps and row ids,
  // whatever mix of failures there is.
  lemma OrderIrrelevant(s: Store, a: Store, b: Store, t: string, one: seq<Id>, two: seq<Id>,
          decisions: Id -> Decision, at: Id -> Time, later: Id -> Time)
    requires TenantSynced(s, a, t, one, decisions, at) && TenantSynced(s, b, t, two, decisions, later)
    requires SameList(one, two)
    ensures SameBarTimes(a, b)
    ensures at == later ==> a.servers == b.servers && a.tokens == b.tokens
  {
    assert SameCaches(a.accounts, b.accounts) by {
      forall u: string, id: Id ensures Cache(a.accounts, u, id) == Cache(b.accounts, u, id) {
        CacheOf(s.accounts, a.accounts, t, one, decisions, u, id);
        CacheOf(s.accounts, b.accounts, t, two, decisions, u, id);
      }
    }
    ServersAlike(s.servers, a.servers, b.servers, one, two, decisions, at, later);
    TokensAlike(s.tokens, a.tokens, b.tokens, one, two, decisions, at, later);
  }

  lemma ServersAlike(s: ServerTable, a: ServerTable, b: ServerTable, one: seq<Id>, two: seq<Id>,
          decisions: Id -> Decision, at: Id -> Time, later: Id -> Time)
    requires ServersListed(s, a, one, decisions, at) && ServersListed(s, b, two, decisions, later) && SameList(one, two)
    ensures SameServersBarTimes(a, b)
    ensures at == later ==> a == b
  {
  }

  lemma TokensAlike(s: TokenTable, a: TokenTable, b: TokenTable, one: seq<Id>, two: seq<Id>,
          decisions: Id -> Decision, at: Id -> Time, later: Id -> Time)
    requires TokensListed(s, a, one, decisions, at) && TokensListed(s, b, two, decisions, later) && SameList(one, two)
    ensures SameTokensBarTimes(a, b)
    ensures at == later ==> a == b
  {
    forall i | i in s
      ensures Unstamped(a[i]) == Unstamped(b[i])
      ensures at == later ==> a[i] == b[i]
    {
      assert a[i] == TokenAfter(s[i], i, one, decisions, at) && b[i] == TokenAfter(s[i], i, two, decisions, later);
    }
  }

  // A server listed in a tenant sync ends exactly as if it had been synced alone from the initial state: its row, its
  // tokens and its cache.
  lemma AsIfAlone(c: Service, env: Env, s: Store, a: Store, alone: Store, t: string, rows: seq<Id>, id: Id)
    requires Sound(s.accounts) && TenantSynced(s, a, t, rows, Decisions(c, env, s, t), env.at)
    requires id in rows && id in s.servers && ServerSynced(s, alone, t, id, Decide(c, env, s, t, id), env.at(id))
    ensures id in a.servers && id in alone.servers && a.servers[id] == alone.servers[id]
    ensures forall i :: i in s.tokens && s.tokens[i].serverId == id ==>
              i in a.tokens && i in alone.tokens && a.tokens[i] == alone.tokens[i]
    ensures AccountKeysUnique(a.accounts) && AccountKeysUnique(alone.accounts)
    ensures Cache(a.accounts, t, id) == Cache(alone.accounts, t, id)
  {
    var d := Decide(c, env, s, t, id);
    SyncedRows(s, alone, t, id, d, env.at(id));
    SyncedCache(s, alone, t, id, d, env.at(id));
    assert Decisions(c, env, s, t)(id) == d;
    hide Decide, Cache, AccountKeysUnique, AccountsLive, RowsOnly, OnlyListed, ServerSynced, Decisions, TokensListed,
         TokensSet;
    TokensAsIfAlone(s.tokens, a.tokens, alone.tokens, rows, Decisions(c, env, s, t), env.at, id);
  }

  lemma TokensAsIfAlone(s: TokenTable, a: TokenTable, alone: TokenTable, rows: seq<Id>, decisions: Id -> Decision,
          at: Id -> Time, id: Id)
    requires TokensListed(s, a, rows, decisions, at) && TokensSet(s, alone, decisions(id), at(id)) && id in rows
    ensures forall i :: i in s && s[i].serverId == id ==> i in a && i in alone && a[i] == alone[i]
  {
    forall i | i in s && s[i].serverId == id ensures i in a && i in alone && a[i] == alone[i] {
      assert a[i] == TokenAfter(s[i], i, rows, decisions, at);
    }
  }

  // ----- Syncing again -----

  // A decision does not depend on any timestamp, nor on the status or error a sync leaves behind.
  lemma DecideUntimed(c: Service, env: Env, s: Store, a: Store, t: string, rows: seq<Id>,
          decisions: Id -> Decision, at: Id -> Time, id: Id)
    requires TenantSynced(s, a, t, rows, decisions, at)
    ensures Decide(c, env, a, t, id) == Decide(c, env, s, t, id)
  {
    forall i | i in s.tokens ensures Unstamped(a.tokens[i]) == Unstamped(s.tokens[i]) {
      assert a.tokens[i] == TokenAfter(s.tokens[i], i, rows, decisions, at);
    }
    assert ActiveTokens(a.tokens, t, id, WHM) == ActiveTokens(s.tokens, t, id, WHM) by {
      forall i | i in s.tokens
        ensures i in ActiveTokens(a.tokens, t, id, WHM) <==> i in ActiveTokens(s.tokens, t, id, WHM) {
        assert Unstamped(a.tokens[i]) == Unstamped(s.tokens[i]);
      }
    }
    SameVerdict(c, env, s, a, t, id);
  }

  lemma SameVerdict(c: Service, env: Env, s: Store, a: Store, t: string, id: Id)
    requires LiveServer(a, t, id) <==> LiveServer(s, t, id)
    requires LiveServer(s, t, id) ==>
               && a.servers[id].hostname == s.servers[id].hostname && a.servers[id].port == s.servers[id].port
               && a.servers[id].verifySsl == s.servers[id].verifySsl
    requires a.tokens.Keys == s.tokens.Keys && forall i :: i in s.tokens ==>
               Unstamped(a.tokens[i]) == Unstamped(s.tokens[i])
    requires ActiveTokens(a.tokens, t, id, WHM) == ActiveTokens(s.tokens, t, id, WHM)
    ensures Decide(c, env, a, t, id) == Decide(c, env, s, t, id)
  {
    var token := ActiveToken(s.tokens, t, id, WHM, env.choose);
    if token.Some? { assert Unstamped(a.tokens[token.value]) == Unstamped(s.tokens[token.value]); }
  }

  lemma CacheTwice(s: AccountTable, a: AccountTable, b: AccountTable, t: string, rows: seq<Id>,
          decisions: Id -> Decision, u: string, id: Id)
    requires CachesListed(s, a, t, rows, decisions) && CachesListed(a, b, t, rows, decisions)
    ensures Cache(b, u, id) == Cache(a, u, id)
  {
    CacheOf(s, a, t, rows, decisions, u, id);
    CacheOf(a, b, t, rows, decisions, u, id);
    if u == t && id in rows && decisions(id).Reached? {
      UpsertIdempotent(Cache(s, u, id), decisions(id).accounts);
    }
  }

  // Equal caches over evolving rows leave no room for a second row of the same account.
  lemma NoDuplicates(a: AccountTable, b: AccountTable)
    requires SameCaches(a, b) && forall i :: i in a ==> i in b && AccountEvolves(a[i], b[i])
    ensures a.Keys == b.Keys
  {
    forall i | i in b ensures i in a {
      CacheHolds(b, b[i].tenantId, b[i].serverId, i);
      assert b[i].cpanelUser in Cache(a, b[i].tenantId, b[i].serverId);
      var j := CacheRow(a, b[i].tenantId, b[i].serverId, b[i].cpanelUser);
      assert AccountEvolves(a[j], b[j]);
    }
  }

  lemma CachesTwice(s: AccountTable, a: AccountTable, b: AccountTable, t: string, rows: seq<Id>,
          decisions: Id -> Decision)
    requires CachesListed(s, a, t, rows, decisions) && CachesListed(a, b, t, rows, decisions)
    ensures SameCaches(a, b) && a.Keys == b.Keys
  {
    assert SameCaches(a, b) by {
      forall u: string, id: Id ensures Cache(a, u, id) == Cache(b, u, id) {
        CacheTwice(s, a, b, t, rows, decisions, u, id);
      }
    }
    NoDuplicates(a, b);
  }

  // Re-syncing against the same WHM replies upserts and never duplicates: nothing changes but timestamps.
  lemma SyncIdempotent(c: Service, env: Env, again: Env, s: Store, a: Store, b: Store, t: string, rows: seq<Id>)
    requires again.choose == env.choose && again.whm == env.whm && again.message == env.message
    requires TenantSynced(s, a, t, rows, Decisions(c, env, s, t), env.at)
    requires TenantSynced(a, b, t, rows, Decisions(c, again, a, t), again.at)
    ensures SameBarTimes(a, b) && a.accounts.Keys == b.accounts.Keys
  {
    hide Decide, ServersListed, TokensListed, CachesListed, SameServersBarTimes, SameTokensBarTimes, SameCaches;
    var decisions := Decisions(c, env, s, t);
    forall id: Id ensures Decisions(c, again, a, t)(id) == decisions(id) {
      SameDecision(c, env, again, a, t, id);
      DecideUntimed(c, env, s, a, t, rows, decisions, env.at, id);
    }
    SameCourse(a, b, t, rows, Decisions(c, again, a, t), decisions, again.at);
    CachesTwice(s.accounts, a.accounts, b.accounts, t, rows, decisions);
    ServersTwice(s.servers, a.servers, b.servers, rows, decisions, env.at, again.at);
    TokensOnce(a.tokens, b.tokens, rows, decisions, again.at);
  }

  lemma SameDecision(c: Service, env: Env, again: Env, a: Store, t: string, id: Id)
    requires again.choose == env.choose && again.whm == env.whm && again.message == env.message
    ensures Decide(c, again, a, t, id) == Decide(c, env, a, t, id)
  {
  }

  lemma SameCourse(a: Store, b: Store, t: string, rows: seq<Id>, decisions: Id -> Decision,
          same: Id -> Decision, at: Id -> Time)
    requires TenantSynced(a, b, t, rows, decisions, at) && forall id :: decisions(id) == same(id)
    ensures TenantSynced(a, b, t, rows, same, at)
  {
    forall i | i in a.tokens ensures b.tokens[i] == TokenAfter(a.tokens[i], i, rows, same, at) {
      assert b.tokens[i] == TokenAfter(a.tokens[i], i, rows, decisions, at);
    }
  }

  lemma ServersTwice(s: ServerTable, a: ServerTable, b: ServerTable, rows: seq<Id>, decisions: Id -> Decision,
          at: Id -> Time, later: Id -> Time)
    requires ServersListed(s, a, rows, decisions, at) && ServersListed(a, b, rows, decisions, later)
    ensures SameServersBarTimes(a, b)
  {
  }

  lemma TokensOnce(a: TokenTable, b: TokenTable, rows: seq<Id>, decisions: Id -> Decision, at: Id -> Time)
    requires TokensListed(a, b, rows, decisions, at)
    ensures SameTokensBarTimes(a, b)
  {
    forall i | i in a ensures Unstamped(a[i]) == Unstamped(b[i]) {
      assert b[i] == TokenAfter(a[i], i, rows, decisions, at);
    }
  }

  // ----- The summary -----

  function Successes(records: seq<AuditRecord>): nat {
    if records == [] then 0
    else Successes(records[..|records| - 1]) + if records[|records| - 1].success then 1 else 0
  }

  // All accounts of the outcomes, one after the other.
  function AllAccounts(ds: seq<Decision>): seq<Parsed> {
    if ds == [] then []
    else
      match ds[0]
      case Reached(_, accounts) => accounts + AllAccounts(ds[1..])
      case _ => AllAccounts(ds[1..])
  }

  function Failures(ds: seq<Decision>): set<nat> {
    set k: nat | k < |ds| && !ds[k].Reached?
  }

  // The summary counts the accounts that the reached servers have between them, and the servers that were not reached.
  lemma {:induction false} SummaryExactly(ds: seq<Decision>)
    ensures Imported(ds) == |AllAccounts(ds)|
    ensures Failed(ds) == |Failures(ds)|
  {
    if ds != [] {
      var n := |ds| - 1;
      SummaryExactly(ds[..n]);
      AccountsAppend(ds[..n], ds[n]);
      assert ds == ds[..n] + [ds[n]];
      assert Failures(ds) == Failures(ds[..n]) + if ds[n].Reached? then {} else {n};
    }
  }

  lemma {:induction false} AccountsAppend(ds: seq<Decision>, d: Decision)
    ensures AllAccounts(ds + [d]) == AllAccounts(ds) + if d.Reached? then d.accounts else []
  {
    if ds == [] {
      assert ([] + [d])[1..] == [];
    } else {
      AccountsAppend(ds[1..], d);
      assert (ds + [d])[1..] == ds[1..] + [d];
    }
  }

  // Every server is counted once: as failed, or by exactly one SUCCESS record.
  lemma {:induction false} EveryServerCounted(t: string, rows: seq<Id>, ds: seq<Decision>)
    requires |rows| == |ds|
    ensures Failed(ds) + Successes(Trail(t, rows, ds)) == |rows|
  {
    if rows != [] {
      var n := |rows| - 1;
      EveryServerCounted(t, rows[..n], ds[..n]);
      var before, mine := Trail(t, rows[..n], ds[..n]), AuditsOf(t, rows[n], ds[n]);
      if mine != [] { assert (before + mine)[..|before|] == before; } else { assert before + mine == before; }
    }
  }

  lemma {:induction false} CountWithout(ds: seq<Decision>, k: nat)
    requires k < |ds|
    ensures Imported(ds) == Imported(ds[..k] + ds[k + 1..]) + CountOf(ds[k])
    ensures Failed(ds) == Failed(ds[..k] + ds[k + 1..]) + if ds[k].Reached? then 0 else 1
  {
    var n := |ds| - 1;
    if k < n {
      CountWithout(ds[..n], k);
      var rest := ds[..k] + ds[k + 1..];
      assert rest[..n - 1] == ds[..n][..k] + ds[..n][k + 1..] && rest[n - 1] == ds[n];
    } else {
      assert ds[..k] + ds[k + 1..] == ds[..n];
    }
  }

  lemma Taken(one: seq<Decision>, two: seq<Decision>) returns (k: nat)
    requires multiset(one) == multiset(two) && one != []
    ensures k < |two| && two[k] == one[0] && multiset(one[1..]) == multiset(two[..k] + two[k + 1..])
  {
    assert one[0] in multiset(two);
    k :| k < |two| && two[k] == one[0];
    assert two == two[..k] + [two[k]] + two[k + 1..];
    assert one == [one[0]] + one[1..];
    calc {
      multiset(one[1..]);
      multiset([one[0]] + one[1..]) - multiset{one[0]};
      multiset(two[..k] + [two[k]] + two[k + 1..]) - multiset{two[k]};
      multiset(two[..k] + two[k + 1..]);
    }
  }

  // The reported counts do not depend on the order either.
  lemma {:induction false} SummaryOrder(one: seq<Decision>, two: seq<Decision>)
    requires multiset(one) == multiset(two)
    ensures Imported(one) == Imported(two) && Failed(one) == Failed(two)
    decreases |one|
  {
    hide Imported, Failed, CountOf;
    if one == [] {
      assert |multiset(two)| == |two|;
    } else {
      var k := Taken(one, two);
      SummaryOrder(one[1..], two[..k] + two[k + 1..]);
      CountWithout(one, 0);
      CountWithout(two, k);
      assert one[..0] + one[1..] == one[1..];
    }
  }

  // ----- The plaintext store -----

  // A sync is decided by what its service makes of the secret last written for the token it uses: WHM is only ever
  // given that secret, and where the service cannot open it the sync ends without a status and without an audit record.
  lemma WithCurrentSecret(c: Service, env: Env, s: Store, secrets: SecretTable, t: string, serverId: Id)
    requires SecretsKept(s, secrets) && Lawful(c.prim) && forall i :: i in secrets ==> secrets[i].writer.prim == c.prim
    requires LiveServer(s, t, serverId)
    ensures match ActiveToken(s.tokens, t, serverId, WHM, env.choose)
            case None => Decide(c, env, s, t, serverId) == NoToken
            case Some(i) =>
              i in secrets &&
              match Opened(c, secrets[i])
              case Err(e) => Decide(c, env, s, t, serverId) == CannotDecrypt(e)
              case Ok(secret) =>
                Decide(c, env, s, t, serverId) ==
                Judge(env, Whm.Accounts(env.whm(serverId, CredsOf(s.servers[serverId], s.tokens[i], secret))), i)
    ensures forall e :: AuditsOf(t, serverId, CannotDecrypt(e)) == [] &&
              ServerAfter(s.servers[serverId], CannotDecrypt(e), env.at(serverId)) == s.servers[serverId]
  {
    hide Decrypt, Opened, Hides, Judge, Lawful, Decide;
    var token := ActiveToken(s.tokens, t, serverId, WHM, env.choose);
    if token.Some? {
      StoredOpensAs(c, s.tokens[token.value], secrets[token.value]);
    }
    DecidedBy(c, env, s, t, serverId);
  }

  lemma DecidedBy(c: Service, env: Env, s: Store, t: string, serverId: Id)
    requires LiveServer(s, t, serverId)
    ensures match ActiveToken(s.tokens, t, serverId, WHM, env.choose)
            case None => Decide(c, env, s, t, serverId) == NoToken
            case Some(i) =>
              match Decrypt(c, s.tokens[i].tokenEnc, s.tokens[i].keyId)
              case Err(e) => Decide(c, env, s, t, serverId) == CannotDecrypt(e)
              case Ok(secret) =>
                Decide(c, env, s, t, serverId) ==
                Judge(env, Whm.Accounts(env.whm(serverId, CredsOf(s.servers[serverId], s.tokens[i], secret))), i)
  {
    hide Decrypt, Judge;
  }

  // With one key id throughout this is exactly when the key that reads it is not the key that wrote it.
  lemma FailsUnderOtherKeys(c: Service, env: Env, s: Store, secrets: SecretTable, t: string, serverId: Id, i: Id)
    requires SecretsKept(s, secrets) && Lawful(c.prim) && forall j :: j in secrets ==> secrets[j].writer.prim == c.prim
    requires LiveServer(s, t, serverId) && ActiveToken(s.tokens, t, serverId, WHM, env.choose) == Some(i) &&
             i in secrets
    requires secrets[i].plaintext != "" && secrets[i].writer.keyId == c.keyId
    requires c.key != secrets[i].writer.key ==> Apart(c.prim, secrets[i].writer.key, c.key)
    ensures Decide(c, env, s, t, serverId).CannotDecrypt? <==> c.key != secrets[i].writer.key
  {
    WithCurrentSecret(c, env, s, secrets, t, serverId);
    assert Hides(s.tokens[i], secrets[i]);
    OpensAs(c, secrets[i]);
    ReadsExactly(c, secrets[i]);
    hide Decrypt, Opened, Decide, Encrypt;
  }
}
