// The other services' plans, too, do what their methods do when nobody interrupts them (src/backend/services/).
module ServicesAlone {
  import opened Json
  import opened Crypto
  import opened Store
  import opened WhmAccounts
  import opened Database
  import opened Repositories
  import opened AccountCache
  import opened Services
  import opened Sync
  import opened Requests
  import opened Plans
  import opened Obedience
  import opened PlansAlone
  import TokensService
  import ServersService
  import AccountsService
  import Whm

  // Run from this state, the plan comes to this state and result.
  ghost predicate Ends(p: Plan, s: Store, nextId: Id, s': Store, r: Result<()>) {
    exists last: Id :: Reaches(Progress(p, s, nextId), Progress(End(r), s', last))
  }

  lemma EndsNow(r: Result<()>, s: Store, nextId: Id)
    ensures Ends(End(r), s, nextId, s, r)
  {
    Here(Progress(End(r), s, nextId));
  }

  lemma EndsLater(p: Plan, s: Store, nextId: Id, call: Call, s': Store, r: Result<()>)
    requires p.Ask? && p.call(nextId) == call && Ends(p.next(Answer(s, call)), Apply(s, call), nextId + 1, s', r)
    ensures Ends(p, s, nextId, s', r)
  {
    hide Answer, Apply, Reaches;
    var g := Progress(p, s, nextId);
    var last :| Reaches(Progress(p.next(Answer(s, call)), Apply(s, call), nextId + 1), Progress(End(r), s', last));
    assert Step(g) == Progress(p.next(Answer(s, call)), Apply(s, call), nextId + 1);
    Onward(g, Progress(End(r), s', last));
  }

  // ----- What the lookups are answered -----

  lemma TokenAnswer(s: Store, t: string, id: Id)
    ensures HasToken(Answer(s, Plans.FindToken(t, id)), id) <==> LiveToken(s, t, id)
    ensures Apply(s, Plans.FindToken(t, id)) == s
  {
  }

  lemma AccountAnswer(s: Store, t: string, id: Id)
    ensures HasAccount(Answer(s, Plans.FindAccount(t, id)), id) <==> LiveAccount(s, t, id)
    ensures LiveAccount(s, t, id) ==> Answer(s, Plans.FindAccount(t, id)).accounts[id] == s.accounts[id]
    ensures Apply(s, Plans.FindAccount(t, id)) == s
  {
  }

  lemma LabelAnswer(s: Store, t: string, serverId: Id, labelName: string)
    ensures var r := Answer(s, Labelled(t, serverId, labelName));
      r.Tokens? && (r.tokens != map[] <==> LabelledLive(s, t, serverId, labelName))
    ensures Apply(s, Labelled(t, serverId, labelName)) == s
  {
    var found := Answer(s, Labelled(t, serverId, labelName)).tokens;
    if LabelledLive(s, t, serverId, labelName) {
      var i :| i in s.tokens && LiveToken(s, t, i) && s.tokens[i].serverId == serverId &&
        s.tokens[i].labelName == labelName;
      assert i in found;
    }
    if found != map[] { var i :| i in found; }
  }

  lemma NameAnswer(s: Store, t: string, name: string)
    ensures var r := Answer(s, NamedServers(t, name));
      && r.Servers? && (r.servers != map[] <==> NamedLive(s, t, name, {}))
      && (forall i :: i in r.servers <==> i in s.servers && LiveServer(s, t, i) && s.servers[i].name == name)
    ensures Apply(s, NamedServers(t, name)) == s
  {
    var found := Answer(s, NamedServers(t, name)).servers;
    if i :| i in s.servers && LiveServer(s, t, i) && s.servers[i].name == name && i !in {} { assert i in found; }
    if found != map[] { var i :| i in found; }
  }

  // ----- Tokens -----

  lemma InsertNowAlone(s: Store, own: Id, secrets: SecretTable, t: string, serverId: Id,
          input: TokensService.TokenInput)
    returns (s': Store, r: Result<()>)
    requires IdsBelow(s, own) && Sealable(input.secret) && LiveServer(s, t, serverId)
    requires !LabelledLive(s, t, serverId, input.labelName)
    ensures Ends(InsertNow(t, serverId, input), s, own, s', r) && CreatesToken(s, secrets, s', t, serverId, input, r)
  {
    var insert := TokensService.Insertion(t, serverId, input, own);
    TokensService.InsertionOutcome(s, secrets, t, serverId, input, own);
    LabelHeldBy(s, t, serverId, input.labelName, own);
    assert Remember(secrets, insert, Created(own)) == secrets[own := input.secret];
    hide Answer, Apply, TokensService.TokenCreated, LabelTaken, LabelHeld, LabelledLive, Ends;
    s' := Apply(s, insert);
    r := if LabelHeld(s, t, serverId, input.labelName) then Failure(UniqueKeyViolated) else Success(());
    assert r.Success? ==> TokenAdded(s, secrets, s', t, serverId, input, own);
    EndsNow(r, s', own + 1);
    EndsLater(InsertNow(t, serverId, input), s, own, insert, s', r);
  }

  lemma CheckLabelAlone(s: Store, nextId: Id, secrets: SecretTable, t: string, serverId: Id,
          input: TokensService.TokenInput)
    returns (s': Store, r: Result<()>)
    requires IdsBelow(s, nextId) && Sealable(input.secret) && LiveServer(s, t, serverId)
    ensures Ends(CheckLabel(t, serverId, input), s, nextId, s', r) &&
            CreatesToken(s, secrets, s', t, serverId, input, r)
  {
    LabelAnswer(s, t, serverId, input.labelName);
    hide Answer, Apply, TokenAdded, LabelHeld, LabelledLive, Ends, Sealable;
    if LabelledLive(s, t, serverId, input.labelName) {
      s', r := s, Failure(Conflict);
      EndsNow(r, s, nextId + 1);
    } else {
      s', r := InsertNowAlone(s, nextId + 1, secrets, t, serverId, input);
    }
    EndsLater(CheckLabel(t, serverId, input), s, nextId, Labelled(t, serverId, input.labelName), s', r);
  }

  lemma CreateTokenAlone(s: Store, nextId: Id, secrets: SecretTable, t: string, serverId: Id,
          input: TokensService.TokenInput)
    returns (s': Store, r: Result<()>)
    requires IdsBelow(s, nextId) && Sealable(input.secret)
    ensures Ends(Plans.CreateToken(t, serverId, input), s, nextId, s', r)
    ensures CreatesToken(s, secrets, s', t, serverId, input, r)
  {
    ServerAnswer(s, t, serverId);
    hide Answer, Apply, TokenAdded, LabelHeld, LabelledLive, Ends, Sealable;
    if LiveServer(s, t, serverId) {
      s', r := CheckLabelAlone(s, nextId + 1, secrets, t, serverId, input);
    } else {
      s', r := s, Failure(NotFound("Server"));
      EndsNow(r, s, nextId + 1);
    }
    EndsLater(Plans.CreateToken(t, serverId, input), s, nextId, Plans.FindServer(t, serverId), s', r);
  }

  lemma PatchOutcome(s: Store, secrets: SecretTable, t: string, id: Id, patch: TokenPatch)
    requires (patch.secret.Some? ==> Sealable(patch.secret.value)) && LiveToken(s, t, id)
    ensures var call := Call.UpdateToken(t, id, patch);
      if OtherLabelled(s, t, id, patch) then
        Answer(s, call) == UniqueViolation &&
          UpdatesToken(s, secrets, Apply(s, call), t, id, patch, Failure(UniqueKeyViolated))
      else
        && Answer(s, call) == Count(1) && LiveToken(Apply(s, call), t, id)
        && UpdatesToken(s, secrets, Apply(s, call), t, id, patch, Success(()))
  {
    var call := Call.UpdateToken(t, id, patch);
    TokensService.UpdateOutcome(s, secrets, t, id, patch);
    RelabelsExactly(s, t, id, patch);
    assert Remember(secrets, call, Count(1)) == Rotated(secrets, id, patch);
    hide Answer, Apply, TokensService.TokenUpdated, TokensService.Relabels, OtherLabelled, Sealable, Rotated;
  }

  lemma PatchTokenAlone(s: Store, nextId: Id, secrets: SecretTable, t: string, id: Id, patch: TokenPatch)
    returns (s': Store, r: Result<()>)
    requires (patch.secret.Some? ==> Sealable(patch.secret.value)) && LiveToken(s, t, id)
    ensures Ends(PatchToken(t, id, patch), s, nextId, s', r) && UpdatesToken(s, secrets, s', t, id, patch, r)
  {
    hide Answer, Apply, UpdatesToken, OtherLabelled, Ends, Sealable;
    var call := Call.UpdateToken(t, id, patch);
    PatchOutcome(s, secrets, t, id, patch);
    s' := Apply(s, call);
    TokenAnswer(s', t, id);
    r := if OtherLabelled(s, t, id, patch) then Failure(UniqueKeyViolated) else Success(());
    EndsNow(r, s', nextId + 1);
    EndsNow(r, s', nextId + 2);
    if r.Success? { EndsLater(PatchToken(t, id, patch).next(Count(1)), s', nextId + 1, Plans.FindToken(t, id), s', r); }
    EndsLater(PatchToken(t, id, patch), s, nextId, call, s', r);
  }

  lemma UpdateTokenAlone(s: Store, nextId: Id, secrets: SecretTable, t: string, id: Id, patch: TokenPatch)
    returns (s': Store, r: Result<()>)
    requires patch.secret.Some? ==> Sealable(patch.secret.value)
    ensures Ends(Plans.UpdateToken(t, id, patch), s, nextId, s', r) && UpdatesToken(s, secrets, s', t, id, patch, r)
  {
    TokenAnswer(s, t, id);
    hide Answer, Apply, TokensService.TokenUpdated, OtherLabelled, Ends, Sealable;
    if LiveToken(s, t, id) {
      s', r := PatchTokenAlone(s, nextId + 1, secrets, t, id, patch);
    } else {
      s', r := s, Failure(NotFound("Token"));
      EndsNow(r, s, nextId + 1);
    }
    EndsLater(Plans.UpdateToken(t, id, patch), s, nextId, Plans.FindToken(t, id), s', r);
  }

  lemma RemoveTokenAlone(s: Store, nextId: Id, t: string, id: Id, at: Time) returns (s': Store, r: Result<()>)
    ensures Ends(Plans.RemoveToken(t, id, at), s, nextId, s', r) && RemovesToken(s, s', t, id, at, r)
  {
    TokensService.DeleteOutcome(s, map[], t, id, at);
    hide Answer, Apply, Ends, TokensService.WithoutToken;
    s' := Apply(s, DeleteToken(t, id, at));
    r := if LiveToken(s, t, id) then Success(()) else Failure(NotFound("Token"));
    EndsNow(r, s', nextId + 1);
    EndsLater(Plans.RemoveToken(t, id, at), s, nextId, DeleteToken(t, id, at), s', r);
  }

  // ----- Servers -----

  lemma CreateServerAlone(s: Store, nextId: Id, t: string, input: ServersService.ServerInput, at: Time)
    returns (s': Store, r: Result<()>)
    requires IdsBelow(s, nextId)
    ensures Ends(Plans.CreateServer(t, input, at), s, nextId, s', r) && CreatesServer(s, s', t, input, at, r)
  {
    var own := nextId + 1;
    var insert := InsertServer(t, own, input.name, input.hostname, input.port, input.verifySsl, input.notes, at);
    NameAnswer(s, t, input.name);
    NameHeldBy(s, t, input.name, own);
    LiveNameHeld(s, t, input.name);
    ServersService.CreateOutcome(s, map[], t, input, own, at);
    hide Answer, Apply, Ends, ServersService.ServerCreated, NamedLive, NameTaken, NameHeld;
    r := if NamedLive(s, t, input.name, {}) then Failure(Conflict)
         else if NameHeld(s, t, input.name) then Failure(UniqueKeyViolated)
         else Success(());
    s' := if r.Success? then Apply(s, insert) else s;
    EndsNow(r, s', own + 1);
    EndsNow(r, s, own);
    var p := Plans.CreateServer(t, input, at);
    if !NamedLive(s, t, input.name, {}) {
      EndsLater(p.next(Answer(s, NamedServers(t, input.name))), s, own, insert, s', r);
    }
    EndsLater(p, s, nextId, NamedServers(t, input.name), s', r);
  }

  lemma RenameAlone(s: Store, nextId: Id, t: string, id: Id, patch: ServerPatch) returns (s': Store, r: Result<()>)
    ensures Ends(Rename(t, id, patch), s, nextId, s', r)
    ensures !ServersService.Clashes(s, t, id, patch) ==> UpdatesServer(s, s', t, id, patch, r)
  {
    var call := Call.UpdateServer(t, id, patch);
    ServersService.UpdateOutcome(s, map[], t, id, patch);
    s' := Apply(s, call);
    ServerAnswer(s', t, id);
    RenamesExactly(s, t, id, patch);
    hide Answer, Apply, Ends, ServersService.ServerUpdated, ServersService.Renames, ServersService.Clashes, OtherNamed;
    r := if !LiveServer(s, t, id) then Failure(NotFound("Server"))
         else if ServersService.Renames(s, t, id, patch) then Failure(UniqueKeyViolated)
         else Success(());
    EndsNow(r, s', nextId + 1);
    EndsNow(r, s', nextId + 2);
    if r.Success? { EndsLater(Rename(t, id, patch).next(Count(1)), s', nextId + 1, Plans.FindServer(t, id), s', r); }
    EndsLater(Rename(t, id, patch), s, nextId, call, s', r);
  }

  // At most one live server bears a name, so it does not matter which one a lookup returns.
  lemma ClashFound(s: Store, choose: set<Id> -> Id, t: string, id: Id, name: string)
    requires ServerKeysUnique(s) && Chooses(choose)
    ensures var found := Answer(s, NamedServers(t, name)).servers;
      (found != map[] && choose(found.Keys) != id) <==> NamedLive(s, t, name, {id})
  {
    NameAnswer(s, t, name);
    var found := Answer(s, NamedServers(t, name)).servers;
    if found != map[] {
      assert found.Keys != {};
      var i := choose(found.Keys);
      assert i in found;
    }
  }

  lemma UpdateServerAlone(s: Store, nextId: Id, choose: set<Id> -> Id, t: string, id: Id, patch: ServerPatch)
    returns (s': Store, r: Result<()>)
    requires ServerKeysUnique(s) && Chooses(choose)
    ensures Ends(Plans.UpdateServer(choose, t, id, patch), s, nextId, s', r) && UpdatesServer(s, s', t, id, patch, r)
  {
    hide Answer, Apply, Ends, ServersService.ServerUpdated, OtherNamed, Rename, NamedLive, ServerKeysUnique,
         Chooses;
    var p := Plans.UpdateServer(choose, t, id, patch);
    if patch.name.Some? && patch.name.value != "" {
      NameAnswer(s, t, patch.name.value);
      ClashFound(s, choose, t, id, patch.name.value);
      if NamedLive(s, t, patch.name.value, {id}) {
        s', r := s, Failure(Conflict);
        EndsNow(r, s, nextId + 1);
      } else {
        s', r := RenameAlone(s, nextId + 1, t, id, patch);
      }
      EndsLater(p, s, nextId, NamedServers(t, patch.name.value), s', r);
    } else {
      s', r := RenameAlone(s, nextId, t, id, patch);
    }
  }

  lemma RemoveServerAlone(s: Store, nextId: Id, t: string, id: Id, at: Time) returns (s': Store, r: Result<()>)
    ensures Ends(Plans.RemoveServer(t, id, at), s, nextId, s', r) && RemovesServer(s, s', t, id, at, r)
  {
    ServersService.DeleteOutcome(s, map[], t, id, at);
    hide Answer, Apply, Ends, ServersService.WithoutServer;
    s' := Apply(s, DeleteServer(t, id, at));
    r := if LiveServer(s, t, id) then Success(()) else Failure(NotFound("Server"));
    EndsNow(r, s', nextId + 1);
    EndsLater(Plans.RemoveServer(t, id, at), s, nextId, DeleteServer(t, id, at), s', r);
  }

  // ----- A server's WHM -----

  lemma EndsAfter(p: Plan, s: Store, nextId: Id, h: Progress, s': Store, r: Result<()>)
    requires Reaches(Progress(p, s, nextId), h) && Ends(h.plan, h.store, h.nextId, s', r)
    ensures Ends(p, s, nextId, s', r)
  {
    hide Reaches;
    var last :| Reaches(Progress(h.plan, h.store, h.nextId), Progress(End(r), s', last));
    ReachesOn(Progress(p, s, nextId), h, Progress(End(r), s', last));
  }

  lemma WithTokenAlone(choose: set<Id> -> Id, t: string, serverId: Id, go: (ServerRow, Id, TokenRow) -> Plan,
          onward: Result<()> -> Plan, s: Store, nextId: Id, s': Store, r: Result<()>)
    requires LiveServer(s, t, serverId)
    requires match ActiveToken(s.tokens, t, serverId, WHM, choose)
             case None => Ends(onward(Failure(NoActiveToken)), s, nextId + 1, s', r)
             case Some(i) => Ends(go(s.servers[serverId], i, s.tokens[i]), s, nextId + 1, s', r)
    ensures Ends(WithToken(choose, t, serverId, s.servers[serverId], go, onward), s, nextId, s', r)
  {
    WhmTokensAnswer(s, t, serverId);
    hide Answer, Apply, Ends, ActiveTokens;
    EndsLater(WithToken(choose, t, serverId, s.servers[serverId], go, onward), s, nextId, ActiveWhmTokens(t, serverId),
              s', r);
  }

  lemma LookupsAlone(choose: set<Id> -> Id, t: string, serverId: Id, go: (ServerRow, Id, TokenRow) -> Plan,
          onward: Result<()> -> Plan, s: Store, nextId: Id, s': Store, r: Result<()>)
    requires if !LiveServer(s, t, serverId) then Ends(onward(Failure(NotFound("Server"))), s, nextId + 1, s', r)
             else match ActiveToken(s.tokens, t, serverId, WHM, choose)
               case None => Ends(onward(Failure(NoActiveToken)), s, nextId + 2, s', r)
               case Some(i) => Ends(go(s.servers[serverId], i, s.tokens[i]), s, nextId + 2, s', r)
    ensures Ends(WithServerAndToken(choose, t, serverId, go, onward), s, nextId, s', r)
  {
    ServerAnswer(s, t, serverId);
    hide Answer, Apply, Ends, ActiveTokens, ActiveToken;
    if LiveServer(s, t, serverId) { WithTokenAlone(choose, t, serverId, go, onward, s, nextId + 1, s', r); }
    EndsLater(WithServerAndToken(choose, t, serverId, go, onward), s, nextId, Plans.FindServer(t, serverId), s', r);
  }

  lemma SetStatusAlone(s: Store, nextId: Id, t: string, id: Id, status: ServerStatus, lastError: Option<string>,
          at: Time)
    requires LiveServer(s, t, id)
    ensures Ends(Plans.SetServerStatus(t, id, status, lastError, at, Plans.Done()), s, nextId,
                 WithStatus(s, id, status, lastError, at), Success(()))
  {
    var p, call :=
        Plans.SetServerStatus(t, id, status, lastError, at, Plans.Done()), SetStatus(t, id, status, lastError, at);
    var s' := WithStatus(s, id, status, lastError, at);
    assert Answer(s, call) == Count(1) && Apply(s, call) == s';
    ServerAnswer(s', t, id);
    hide Answer, Apply, Ends, WithStatus;
    EndsNow(Success(()), s', nextId + 2);
    EndsLater(p.next(Count(1)), s', nextId + 1, Plans.FindServer(t, id), s', Success(()));
    EndsLater(p, s, nextId, call, s', Success(()));
  }

  lemma StampThen(s: Store, nextId: Id, t: string, token: Id, at: Time, onward: Plan, s': Store, r: Result<()>)
    requires LiveToken(s, t, token) && Ends(onward, WithUse(s, token, at), nextId + 1, s', r)
    ensures Ends(Stamp(t, token, at, onward), s, nextId, s', r)
  {
    assert Apply(s, MarkUsed(t, token, at)) == WithUse(s, token, at);
    hide Answer, Apply, Ends, WithUse;
    EndsLater(Stamp(t, token, at, onward), s, nextId, MarkUsed(t, token, at), s', r);
  }

  lemma ReportAlone(s: Store, nextId: Id, c: Service, probe: Creds -> Whm.CallResult, message: Whm.ExtError -> string,
          t: string, id: Id, token: Id, w: Secret, at: Time)
    returns (s': Store)
    requires LiveServer(s, t, id) && LiveToken(s, t, token)
    requires Decrypt(c, s.tokens[token].tokenEnc, s.tokens[token].keyId) == Opened(c, w)
    ensures Ends(Probe(c, probe, message, t, id, at)(s.servers[id], token, s.tokens[token]), s, nextId, s', Success(()))
    ensures ServersService.Tested(s, s', id, token, at,
                                  ServersService.Probed(c, probe, message, s.servers[id], s.tokens[token], w, at))
  {
    ServersService.AttemptTested(c, s, probe, message, id, token, w, at);
    hide Decrypt, Opened, ServersService.Attempted, ServersService.Probed, ServersService.Tested, Ends;
    var result := ServersService.Attempted(c, probe, message, s.servers[id], s.tokens[token], at);
    if result.ok {
      var used := WithUse(s, token, at);
      s' := WithStatus(used, id, ACTIVE, None, at);
      SetStatusAlone(used, nextId + 1, t, id, ACTIVE, None, at);
      StampThen(s, nextId, t, token, at, Plans.SetServerStatus(t, id, ACTIVE, None, at, Plans.Done()), s', Success(()));
    } else {
      s' := WithStatus(s, id, UNREACHABLE, Some(result.message), at);
      SetStatusAlone(s, nextId, t, id, UNREACHABLE, Some(result.message), at);
    }
  }

  // The token a service of the server uses, and the secret last written for it.
  lemma TokenInUse(c: Service, s: Store, secrets: SecretTable, choose: set<Id> -> Id, t: string, serverId: Id)
    requires SecretsKept(s, secrets) && Lawful(c.prim) && Local(c.prim, secrets)
    ensures s.tokens.Keys == secrets.Keys
    ensures var token := ActiveToken(s.tokens, t, serverId, WHM, choose);
      token.Some? ==>
        && LiveToken(s, t, token.value) && token.value in secrets
        && Decrypt(c, s.tokens[token.value].tokenEnc, s.tokens[token.value].keyId) == Opened(c, secrets[token.value])
  {
    hide Decrypt, Opened, Hides, Lawful;
    var token := ActiveToken(s.tokens, t, serverId, WHM, choose);
    if token.Some? { StoredOpensAs(c, s.tokens[token.value], secrets[token.value]); }
  }

  lemma TestAlone(s: Store, nextId: Id, secrets: SecretTable, c: Service, probe: Creds -> Whm.CallResult,
          message: Whm.ExtError -> string, choose: set<Id> -> Id, t: string, id: Id, at: Time)
    returns (s': Store, r: Result<()>)
    requires SecretsKept(s, secrets) && Lawful(c.prim) && Local(c.prim, secrets) && Chooses(choose)
    ensures Ends(Plans.TestConnection(c, probe, message, choose, t, id, at), s, nextId, s', r)
    ensures Tests(s, secrets, s', t, id, c, probe, message, at, r)
  {
    hide Ends, ServersService.Tested, ServersService.Probed, Lawful, Local, SecretsKept, Decrypt, Opened, ActiveToken,
         Probe;
    TokenInUse(c, s, secrets, choose, t, id);
    var token := ActiveToken(s.tokens, t, id, WHM, choose);
    s' := s;
    if !LiveServer(s, t, id) {
      r := Failure(NotFound("Server"));
      EndsNow(r, s, nextId + 1);
    } else if token == None {
      r := Failure(NoActiveToken);
      EndsNow(r, s, nextId + 2);
    } else {
      r := Success(());
      s' := ReportAlone(s, nextId + 2, c, probe, message, t, id, token.value, secrets[token.value], at);
    }
    LookupsAlone(choose, t, id, Probe(c, probe, message, t, id, at), Finish(), s, nextId, s', r);
  }

  // ----- Operating on one account -----

  lemma ResolveAlone(s: Store, nextId: Id, secrets: SecretTable, c: Service, choose: set<Id> -> Id, t: string,
          accountId: Id)
    requires SecretsKept(s, secrets) && Lawful(c.prim) && Local(c.prim, secrets) && s.tokens.Keys == secrets.Keys
    ensures Ends(Plans.Resolve(c, choose, t, accountId), s, nextId, s,
                 if !LiveAccount(s, t, accountId) then Failure(NotFound("Account"))
                 else Reported(AccountsService.Access(c, s, secrets, choose, t, s.accounts[accountId].serverId)))
  {
    AccountAnswer(s, t, accountId);
    hide Ends, Lawful, Local, SecretsKept, Decrypt, Opened, ActiveToken, Answer, Apply;
    if LiveAccount(s, t, accountId) {
      var serverId := s.accounts[accountId].serverId;
      var r := Reported(AccountsService.Access(c, s, secrets, choose, t, serverId));
      TokenInUse(c, s, secrets, choose, t, serverId);
      EndsNow(r, s, nextId + 2);
      EndsNow(r, s, nextId + 3);
      LookupsAlone(choose, t, serverId, Opens(c), Finish(), s, nextId + 1, s, r);
      EndsLater(Plans.Resolve(c, choose, t, accountId), s, nextId, Plans.FindAccount(t, accountId), s, r);
    } else {
      EndsNow(Failure(NotFound("Account")), s, nextId + 1);
      EndsLater(Plans.Resolve(c, choose, t, accountId), s, nextId, Plans.FindAccount(t, accountId), s,
                Failure(NotFound("Account")));
    }
  }

  lemma WriteSummary(s: Store, nextId: Id, choose: set<Id> -> Id, t: string, serverId: Id, parsed: Parsed, token: Id,
          at: Time)
    returns (s': Store)
    requires Sound(s.accounts) && IdsBelow(s, nextId) && Chooses(choose) && serverId in s.servers &&
             LiveToken(s, t, token)
    ensures Ends(Upsert(choose, t, serverId, parsed, at, Stamp(t, token, at, Plans.Done()), Fails(UniqueKeyViolated)),
                 s, nextId, s', Success(()))
    ensures SummaryWritten(s, s', t, serverId, Success(parsed), token, at, Success(()))
  {
    hide Sound, IdsBelow, Chooses, CacheSet, Ends, Reaches, Upsert;
    var onward := Stamp(t, token, at, Plans.Done());
    var p := Upsert(choose, t, serverId, parsed, at, onward, Fails(UniqueKeyViolated));
    var h := UpsertAlone(Progress(p, s, nextId), choose, t, serverId, parsed, at, onward, Fails(UniqueKeyViolated));
    s' := WithUse(h.store, token, at);
    EndsNow(Success(()), s', h.nextId + 1);
    StampThen(h.store, h.nextId, t, token, at, Plans.Done(), s', Success(()));
    EndsAfter(p, s, nextId, h, s', Success(()));
  }

  // The plan once the token is found.
  lemma SummaryNext(c: Service, lookup: (Creds, string) -> Whm.CallResult, choose: set<Id> -> Id, t: string,
          account: AccountRow, at: Time, server: ServerRow, token: Id, row: TokenRow)
    ensures Summarised(c, lookup, choose, t, account, at)(server, token, row) ==
            match Decrypt(c, row.tokenEnc, row.keyId)
            case Err(e) => Fails(Undecryptable(e))
            case Ok(secret) =>
              match AccountsService.Summary(Whm.FirstAccount(lookup(CredsOf(server, row, secret), account.cpanelUser)))
              case Failure(e) => Fails(e)
              case Success(parsed) =>
                Upsert(choose, t, account.serverId, parsed, at, Stamp(t, token, at, Plans.Done()),
                       Fails(UniqueKeyViolated))
  {
    hide Decrypt, AccountsService.Summary, Upsert, Stamp;
  }

  lemma SummarisedAlone(s: Store, nextId: Id, c: Service, lookup: (Creds, string) -> Whm.CallResult,
          choose: set<Id> -> Id, t: string, account: AccountRow, token: Id, secret: string, at: Time)
    returns (s': Store, r: Result<()>)
    requires Sound(s.accounts) && IdsBelow(s, nextId) && Chooses(choose) && account.serverId in s.servers &&
             LiveToken(s, t, token)
    requires Decrypt(c, s.tokens[token].tokenEnc, s.tokens[token].keyId) == Ok(secret)
    ensures var server, row := s.servers[account.serverId], s.tokens[token];
      var summary :=
          AccountsService.Summary(Whm.FirstAccount(lookup(CredsOf(server, row, secret), account.cpanelUser)));
      && Ends(Summarised(c, lookup, choose, t, account, at)(server, token, row), s, nextId, s', r)
      && SummaryWritten(s, s', t, account.serverId, summary, token, at, r)
  {
    SummaryNext(c, lookup, choose, t, account, at, s.servers[account.serverId], token, s.tokens[token]);
    hide Sound, IdsBelow, Chooses, CacheSet, Ends, Upsert, Decrypt, Summarised, AccountsService.Summary,
         Whm.FirstAccount;
    var creds := CredsOf(s.servers[account.serverId], s.tokens[token], secret);
    match AccountsService.Summary(Whm.FirstAccount(lookup(creds, account.cpanelUser)))
    case Failure(e) =>
      s', r := s, Failure(e);
      EndsNow(r, s, nextId);
    case Success(parsed) =>
      r := Success(());
      s' := WriteSummary(s, nextId, choose, t, account.serverId, parsed, token, at);
  }

  lemma RefreshFoundAlone(s: Store, nextId: Id, secrets: SecretTable, c: Service,
          lookup: (Creds, string) -> Whm.CallResult, choose: set<Id> -> Id, t: string, account: AccountRow, at: Time)
    returns (s': Store, r: Result<()>)
    requires SecretsKept(s, secrets) && Lawful(c.prim) && Local(c.prim, secrets) && s.tokens.Keys == secrets.Keys
    requires Sound(s.accounts) && IdsBelow(s, nextId) && Chooses(choose)
    ensures Ends(RefreshFound(c, lookup, choose, t, account, at), s, nextId, s', r)
    ensures match AccountsService.Access(c, s, secrets, choose, t, account.serverId)
            case Failure(e) => r == Failure(e) && s' == s
            case Success(access) =>
              var summary := AccountsService.Summary(Whm.FirstAccount(lookup(access.0, account.cpanelUser)));
              SummaryWritten(s, s', t, account.serverId, summary, access.1, at, r)
  {
    hide Ends, Lawful, Local, SecretsKept, Decrypt, Opened, ActiveToken, Sound, Chooses, SummaryWritten,
         AccountsService.Summary;
    TokenInUse(c, s, secrets, choose, t, account.serverId);
    BelowMore(s, nextId, nextId + 2);
    hide IdsBelow;
    var access := AccountsService.Access(c, s, secrets, choose, t, account.serverId);
    if access.Success? {
      var token := access.value.1;
      s', r := SummarisedAlone(s, nextId + 2, c, lookup, choose, t, account, token, Opened(c, secrets[token]).value,
                               at);
    } else {
      s', r := s, Failure(access.error);
      EndsNow(r, s, nextId + 1);
      EndsNow(r, s, nextId + 2);
      var token := ActiveToken(s.tokens, t, account.serverId, WHM, choose);
      if LiveServer(s, t, account.serverId) && token.Some? {
        SummaryNext(c, lookup, choose, t, account, at, s.servers[account.serverId], token.value, s.tokens[token.value]);
      }
    }
    LookupsAlone(choose, t, account.serverId, Summarised(c, lookup, choose, t, account, at), Finish(), s, nextId, s',
                 r);
  }

  lemma RefreshAlone(s: Store, nextId: Id, secrets: SecretTable, c: Service, lookup: (Creds, string) -> Whm.CallResult,
          choose: set<Id> -> Id, t: string, accountId: Id, at: Time)
    returns (s': Store, r: Result<()>)
    requires SecretsKept(s, secrets) && Lawful(c.prim) && Local(c.prim, secrets) && s.tokens.Keys == secrets.Keys
    requires Sound(s.accounts) && IdsBelow(s, nextId) && Chooses(choose)
    ensures Ends(Plans.Refresh(c, lookup, choose, t, accountId, at), s, nextId, s', r)
    ensures Refreshes(s, secrets, s', t, accountId, c, lookup, choose, at, r)
  {
    AccountAnswer(s, t, accountId);
    BelowMore(s, nextId, nextId + 1);
    hide Ends, Lawful, Local, SecretsKept, Sound, IdsBelow, Chooses, SummaryWritten, RefreshFound, Answer, Apply;
    hide AccountsService.Summary, AccountsService.Access;
    if LiveAccount(s, t, accountId) {
      s', r := RefreshFoundAlone(s, nextId + 1, secrets, c, lookup, choose, t, s.accounts[accountId], at);
    } else {
      s', r := s, Failure(NotFound("Account"));
      EndsNow(r, s, nextId + 1);
    }
    EndsLater(Plans.Refresh(c, lookup, choose, t, accountId, at), s, nextId, Plans.FindAccount(t, accountId), s', r);
  }

  // ----- Any request -----

  lemma SyncHandled(s: Store, nextId: Id, t: string, id: Id, c: Service, env: Env) returns (s': Store, r: Result<()>)
    requires Sound(s.accounts) && IdsBelow(s, nextId) && Chooses(env.choose)
    ensures Ends(Plans.SyncServer(c, env, t, id), s, nextId, s', r) && SyncsServer(s, s', t, id, c, env, r)
  {
    hide Sound, IdsBelow, Chooses, Reaches, Decide, ServerSynced;
    var h := SyncAlone(c, env, s, nextId, t, id);
    s', r := h.store, h.plan.result;
    assert h == Progress(End(r), s', h.nextId);
  }

  lemma TenantHandled(s: Store, nextId: Id, t: string, c: Service, env: Env) returns (s': Store, r: Result<()>)
    requires Sound(s.accounts) && IdsBelow(s, nextId) && Chooses(env.choose)
    ensures Ends(Plans.SyncTenant(c, env, t), s, nextId, s', r) && SyncsTenant(s, s', t, c, env, r)
  {
    hide Sound, IdsBelow, Chooses, Reaches, Newest, FindServers, TenantSynced;
    var h, rows := TenantSyncAlone(c, env, s, nextId, t);
    s', r := h.store, Success(());
    assert h == Progress(End(r), s', h.nextId);
  }

  lemma StoreReady(s: Store, secrets: SecretTable)
    requires Inv(s, secrets)
    ensures SecretsKept(s, secrets) && s.tokens.Keys == secrets.Keys && Sound(s.accounts) && ServerKeysUnique(s)
  {
  }

  predicate AsksWhm(request: Request) {
    request.TestConnection? || request.SyncTenant? || request.SyncServer? || request.Refresh? || request.Resolve?
  }

  lemma PlainHandled(ticket: Ticket, s: Store, nextId: Id, secrets: SecretTable) returns (s': Store, r: Result<()>)
    requires Chooses(ticket.setting.choose) && ServerKeysUnique(s) && IdsBelow(s, nextId) &&
             s.tokens.Keys == secrets.Keys
    requires !AsksWhm(ticket.request) && (ticket.request.CreateToken? ==> Sealable(ticket.request.tokenInput.secret))
    requires ticket.request.UpdateToken? && ticket.request.tokenPatch.secret.Some? ==>
               Sealable(ticket.request.tokenPatch.secret.value)
    ensures Ends(PlanOf(ticket), s, nextId, s', r) && Handled(ticket, s, secrets, s', r)
  {
    hide Sealable, IdsBelow, Chooses, ServerKeysUnique, Ends;
    hide CreatesServer, UpdatesServer, CreatesToken, UpdatesToken, RemovesServer, RemovesToken;
    var choose, at := ticket.setting.choose, ticket.at;
    match ticket.request
    case CreateServer(t, input) => s', r := CreateServerAlone(s, nextId, t, input, at);
    case UpdateServer(t, id, patch) => s', r := UpdateServerAlone(s, nextId, choose, t, id, patch);
    case RemoveServer(t, id) => s', r := RemoveServerAlone(s, nextId, t, id, at);
    case CreateToken(t, id, input) => s', r := CreateTokenAlone(s, nextId, secrets, t, id, input);
    case UpdateToken(t, id, patch) => s', r := UpdateTokenAlone(s, nextId, secrets, t, id, patch);
    case RemoveToken(t, id) => s', r := RemoveTokenAlone(s, nextId, t, id, at);
    case _ =>
  }

  lemma AskedHandled(ticket: Ticket, s: Store, nextId: Id, secrets: SecretTable) returns (s': Store, r: Result<()>)
    requires Chooses(ticket.setting.choose) && Sound(s.accounts) && SecretsKept(s, secrets) &&
             s.tokens.Keys == secrets.Keys
    requires AsksWhm(ticket.request) && Lawful(ticket.request.c.prim) && Local(ticket.request.c.prim, secrets)
    requires IdsBelow(s, nextId)
    ensures Ends(PlanOf(ticket), s, nextId, s', r) && Handled(ticket, s, secrets, s', r)
  {
    hide Lawful, Local, IdsBelow, Chooses, SecretsKept, Sound, Ends;
    hide Tests, SyncsServer, SyncsTenant, Refreshes, AccountsService.Access;
    var choose, at := ticket.setting.choose, ticket.at;
    match ticket.request
    case TestConnection(t, id, c, probe) =>
      s', r := TestAlone(s, nextId, secrets, c, probe, ticket.setting.message, choose, t, id, at);
    case SyncTenant(t, c, _, _) => s', r := TenantHandled(s, nextId, t, c, EnvOf(ticket));
    case SyncServer(t, id, c, _) => s', r := SyncHandled(s, nextId, t, id, c, EnvOf(ticket));
    case Refresh(t, id, c, lookup) => s', r := RefreshAlone(s, nextId, secrets, c, lookup, choose, t, id, at);
    case Resolve(t, id, c) =>
      ResolveAlone(s, nextId, secrets, c, choose, t, id);
      s' := s;
      r := if !LiveAccount(s, t, id) then Failure(NotFound("Account"))
           else Reported(AccountsService.Access(c, s, secrets, choose, t, s.accounts[id].serverId));
    case _ =>
  }

  // Whatever the request, its service's plan, run without interruption, handles it as the service's method does.
  lemma PlanHandled(prim: Primitives, ticket: Ticket, s: Store, nextId: Id, secrets: SecretTable)
    returns (s': Store, r: Result<()>)
    requires Lawful(prim) && Local(prim, secrets) && Admissible(prim, ticket.request) && Chooses(ticket.setting.choose)
    requires Inv(s, secrets) && IdsBelow(s, nextId)
    ensures s.tokens.Keys == secrets.Keys
    ensures Ends(PlanOf(ticket), s, nextId, s', r) && Handled(ticket, s, secrets, s', r)
  {
    StoreReady(s, secrets);
    hide Inv, Lawful, Local, IdsBelow, Chooses, SecretsKept, Sound, ServerKeysUnique, Ends, PlanOf, Handled, Sealable;
    if AsksWhm(ticket.request) {
      s', r := AskedHandled(ticket, s, nextId, secrets);
    } else {
      s', r := PlainHandled(ticket, s, nextId, secrets);
    }
  }
}
