// The repository methods on servers and tokens (src/backend/repositories/servers.repository.ts,
// src/backend/repositories/tokens.repository.ts).
module Repositories {
  import opened Json
  import opened Store
  import opened Database

  // Which of several matching rows `findFirst` returns is the database's choice.
  ghost predicate Chooses(choose: set<Id> -> Id) {
    forall ids: set<Id> :: ids != {} ==> choose(ids) in ids
  }

  function ActiveTokens(m: TokenTable, t: string, serverId: Id, scope: TokenScope): set<Id> {
    set i | i in m && m[i].tenantId == t && m[i].deletedAt == None && m[i].serverId == serverId &&
      m[i].scope == scope && m[i].isActive
  }

  function ActiveToken(m: TokenTable, t: string, serverId: Id, scope: TokenScope,
          choose: set<Id> -> Id): (r: Option<Id>)
    ensures r.Some? ==> r.value in ActiveTokens(m, t, serverId, scope)
    ensures Chooses(choose) && r == None ==> ActiveTokens(m, t, serverId, scope) == {}
  {
    var ids := ActiveTokens(m, t, serverId, scope);
    if ids != {} && choose(ids) in ids then Some(choose(ids)) else None
  }

  method FindServer(db: Database, t: string, id: Id) returns (row: Option<ServerRow>)
    requires db.Valid()
    modifies db`store, db`seen, db`secrets
    ensures db.Valid() && db.store == old(db.store) && db.secrets == old(db.secrets) && old(db.seen) <= db.seen
    ensures row.Some? <==> LiveServer(db.store, t, id)
    ensures row.Some? ==> row.value == db.store.servers[id] && (t, id) in db.seen
  {
    hide Inv, SeenOwned, Evolves, IdsBelow;
    var reply := db.Execute(ReadServers(t, (i, _) => i == id));
    row := if id in reply.servers then Some(reply.servers[id]) else None;
  }

  // Some live server of this name, other than those in `except`.
  predicate NamedLive(s: Store, t: string, name: string, except: set<Id>) {
    exists i :: i in s.servers && LiveServer(s, t, i) && s.servers[i].name == name && i !in except
  }

  method FindServerByName(db: Database, t: string, name: string) returns (found: Option<Id>)
    requires db.Valid()
    modifies db`store, db`seen, db`secrets
    ensures db.Valid() && db.store == old(db.store) && db.secrets == old(db.secrets) && old(db.seen) <= db.seen
    ensures found.Some? ==> LiveServer(db.store, t, found.value) && db.store.servers[found.value].name == name
    ensures found == None <==> !NamedLive(db.store, t, name, {})
  {
    hide Inv, SeenOwned, Evolves, IdsBelow;
    var reply := db.Execute(ReadServers(t, (_, row: ServerRow) => row.name == name));
    var ids := reply.servers.Keys;
    if ids == {} {
      assert forall i :: i in db.store.servers && LiveServer(db.store, t, i) && db.store.servers[i].name == name ==>
               i in reply.servers;
      return None;
    }
    var id :| id in ids;
    return Some(id);
  }

  method FindToken(db: Database, t: string, id: Id) returns (row: Option<TokenRow>)
    requires db.Valid()
    modifies db`store, db`seen, db`secrets
    ensures db.Valid() && db.store == old(db.store) && db.secrets == old(db.secrets) && old(db.seen) <= db.seen
    ensures row.Some? <==> LiveToken(db.store, t, id)
    ensures row.Some? ==> row.value == db.store.tokens[id]
  {
    hide Inv, SeenOwned, Evolves, IdsBelow;
    var reply := db.Execute(ReadTokens(t, (i, _) => i == id));
    row := if id in reply.tokens then Some(reply.tokens[id]) else None;
  }

  predicate LabelledLive(s: Store, t: string, serverId: Id, labelName: string) {
    exists i :: i in s.tokens && LiveToken(s, t, i) && s.tokens[i].serverId == serverId &&
      s.tokens[i].labelName == labelName
  }

  method FindTokenByLabel(db: Database, t: string, serverId: Id, labelName: string) returns (found: bool)
    requires db.Valid()
    modifies db`store, db`seen, db`secrets
    ensures db.Valid() && db.store == old(db.store) && db.secrets == old(db.secrets) && old(db.seen) <= db.seen
    ensures found <==> LabelledLive(db.store, t, serverId, labelName)
  {
    hide Inv, SeenOwned, Evolves, IdsBelow;
    var reply :=
        db.Execute(ReadTokens(t, (_, row: TokenRow) => row.serverId == serverId && row.labelName == labelName));
    found := reply.tokens.Keys != {};
    if !found {
      assert forall i :: i in db.store.tokens && i !in reply.tokens && LiveToken(db.store, t, i) ==>
        db.store.tokens[i].serverId != serverId || db.store.tokens[i].labelName != labelName;
    } else {
      var i :| i in reply.tokens.Keys;
    }
  }

  method FindActiveToken(db: Database, t: string, serverId: Id, scope: TokenScope, choose: set<Id> -> Id)
    returns (found: Option<Id>)
    requires db.Valid() && Chooses(choose)
    modifies db`store, db`seen, db`secrets
    ensures db.Valid() && db.store == old(db.store) && db.secrets == old(db.secrets) && old(db.seen) <= db.seen
    ensures found == ActiveToken(db.store.tokens, t, serverId, scope, choose)
  {
    hide Inv, SeenOwned, Evolves, IdsBelow;
    var reply :=
        db.Execute(ReadTokens(t, (_, row: TokenRow) => row.serverId == serverId && row.scope == scope && row.isActive));
    var ids := reply.tokens.Keys;
    assert ids == ActiveTokens(db.store.tokens, t, serverId, scope);
    found := if ids == {} then None else Some(choose(ids));
  }

  // The live active tokens of a server, of whatever scope.
  function ActiveOn(m: TokenTable, t: string, serverId: Id): set<Id> {
    set i | i in m && m[i].tenantId == t && m[i].deletedAt == None && m[i].serverId == serverId && m[i].isActive
  }

  // `counts.get(id) ?? 0`.
  function CountOn(counts: map<Id, nat>, id: Id): nat {
    if id in counts then counts[id] else 0
  }

  method CountActiveByServerIds(db: Database, t: string, serverIds: seq<Id>) returns (counts: map<Id, nat>)
    requires db.Valid()
    modifies db`store, db`seen, db`secrets
    ensures db.Valid() && db.store == old(db.store) && db.secrets == old(db.secrets) && old(db.seen) <= db.seen
    ensures forall id :: id in serverIds ==> CountOn(counts, id) == |ActiveOn(db.store.tokens, t, id)|
    ensures forall id :: id in counts ==> id in serverIds && counts[id] > 0
  {
    EvolvesReflexive(db.store);
    hide Inv, SeenOwned, Evolves, IdsBelow, Local;
    counts := map[];
    if serverIds == [] { return; }
    var reply := db.Execute(ReadTokens(t, (_, row: TokenRow) => row.serverId in serverIds && row.isActive));
    counts := GroupCounts(reply.tokens);
    forall id | id in serverIds ensures ActiveOn(db.store.tokens, t, id) == Group(reply.tokens, id) {
      GroupIsActive(db.store, t, serverIds, id);
    }
    forall id | id in counts ensures id in serverIds && counts[id] > 0 {
      var i :| i in Group(reply.tokens, id);
    }
  }

  function Group(m: TokenTable, serverId: Id): set<Id> {
    set i | i in m && m[i].serverId == serverId
  }

  lemma GroupIsActive(s: Store, t: string, serverIds: seq<Id>, id: Id)
    requires id in serverIds
    ensures ActiveOn(s.tokens, t, id) ==
            Group(FindTokens(s, t, (_, row: TokenRow) => row.serverId in serverIds && row.isActive), id)
  {
  }

  // `groupBy` on the server, and the loop that fills the map.
  method GroupCounts(m: TokenTable) returns (counts: map<Id, nat>)
    ensures forall id :: id in counts <==> Group(m, id) != {}
    ensures forall id :: id in counts ==> counts[id] == |Group(m, id)|
    ensures forall id :: CountOn(counts, id) == |Group(m, id)|
  {
    counts := map[];
    var groups := set i | i in m :: m[i].serverId;
    forall id ensures id in groups <==> Group(m, id) != {} {
      if id in groups {
        var i :| i in m && m[i].serverId == id;
        assert i in Group(m, id);
      }
    }
    var left := groups;
    while left != {}
      invariant left <= groups && counts.Keys == groups - left
      invariant forall id :: id in counts ==> counts[id] == |Group(m, id)|
      decreases |left|
    {
      var g :| g in left;
      counts, left := counts[g := |Group(m, g)|], left - {g};
    }
    forall id | id !in counts ensures |Group(m, id)| == 0 { assert Group(m, id) == {}; }
  }

  // ----- Writes -----

  function WithStatus(s: Store, id: Id, status: ServerStatus, lastError: Option<string>, at: Time): Store
    requires id in s.servers
  {
    s.(servers := s.servers[id := s.servers[id].(status := status, lastError := lastError, lastCheckedAt := Some(at))])
  }

  function WithUse(s: Store, id: Id, at: Time): Store
    requires id in s.tokens
  {
    s.(tokens := s.tokens[id := s.tokens[id].(lastUsedAt := Some(at))])
  }

  method SetServerStatus(db: Database, t: string, id: Id, status: ServerStatus, lastError: Option<string>, at: Time)
    returns (row: Option<ServerRow>)
    requires db.Valid()
    requires (status == ACTIVE && lastError == None) || (status == UNREACHABLE && lastError.Some?)
    modifies db`store, db`seen, db`secrets
    ensures db.Valid() && Evolves(old(db.store), db.store) && db.secrets == old(db.secrets) && old(db.seen) <= db.seen
    ensures LiveServer(old(db.store), t, id) ==>
              db.store == WithStatus(old(db.store), id, status, lastError, at) && row == Some(db.store.servers[id])
    ensures !LiveServer(old(db.store), t, id) ==> db.store == old(db.store) && row == None
  {
    hide Inv, SeenOwned, Evolves, IdsBelow;
    var reply := db.Execute(SetStatus(t, id, status, lastError, at));
    if reply == Count(0) { return None; }
    row := FindServer(db, t, id);
  }

  method MarkTokenUsed(db: Database, t: string, id: Id, at: Time)
    requires db.Valid()
    modifies db`store, db`seen, db`secrets
    ensures db.Valid() && Evolves(old(db.store), db.store) && db.secrets == old(db.secrets) && old(db.seen) <= db.seen
    ensures LiveToken(old(db.store), t, id) ==> db.store == WithUse(old(db.store), id, at)
    ensures !LiveToken(old(db.store), t, id) ==> db.store == old(db.store)
  {
    hide Inv, SeenOwned, Evolves, IdsBelow;
    var reply := db.Execute(MarkUsed(t, id, at));
  }
}
