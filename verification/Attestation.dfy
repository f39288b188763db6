// When an ACTIVE server has a token that was used no earlier than the server's last check: exactly, call by call
// (src/backend/repositories/servers.repository.ts:114-127, src/backend/repositories/tokens.repository.ts:123-128).
module Attestation {
  import opened Json
  import opened Store
  import opened StoreRuns

  ghost predicate UsedSince(tokens: TokenTable, id: Id, i: Id, at: Time) {
    i in tokens && tokens[i].serverId == id && tokens[i].lastUsedAt.Some? && tokens[i].lastUsedAt.value >= at
  }

  ghost predicate Witness(tokens: TokenTable, id: Id, row: ServerRow, i: Id) {
    row.lastCheckedAt.Some? && UsedSince(tokens, id, i, row.lastCheckedAt.value)
  }

  ghost predicate AttestedBy(tokens: TokenTable, id: Id, row: ServerRow) {
    row.status == ACTIVE ==> exists i :: Witness(tokens, id, row, i)
  }

  ghost predicate AllAttested(s: Store) {
    forall id :: id in s.servers ==> AttestedBy(s.tokens, id, s.servers[id])
  }

  // A stamp no older than the last check of the token's server, or one that another token makes up for.
  ghost predicate TimelyStamp(s: Store, token: Id, at: Time)
    requires token in s.tokens
  {
    var id := s.tokens[token].serverId;
    id in s.servers && s.servers[id].status == ACTIVE ==>
      || (s.servers[id].lastCheckedAt.Some? && s.servers[id].lastCheckedAt.value <= at)
      || exists i :: i != token && Witness(s.tokens, id, s.servers[id], i)
  }

  // What a caller would have to see to before the call.
  ghost predicate Timely(s: Store, call: Call) {
    match call
    case MarkUsed(t, token, at) => LiveToken(s, t, token) ==> TimelyStamp(s, token, at)
    case SetStatus(t, id, status, _, at) =>
      LiveServer(s, t, id) && status == ACTIVE ==> exists i :: UsedSince(s.tokens, id, i, at)
    case _ => true
  }

  // Stamping a token leaves its ACTIVE server attested exactly when the stamp is timely, and no other server's witness
  // goes.
  lemma StampExactly(s: Store, t: string, token: Id, at: Time, id: Id)
    requires LiveToken(s, t, token) && id in s.servers && AttestedBy(s.tokens, id, s.servers[id])
    ensures AttestedBy(Apply(s, MarkUsed(t, token, at)).tokens, id, s.servers[id]) <==>
              (id == s.tokens[token].serverId ==> TimelyStamp(s, token, at))
  {
    var row, after := s.servers[id], s.tokens[token := s.tokens[token].(lastUsedAt := Some(at))];
    assert Apply(s, MarkUsed(t, token, at)).tokens == after;
    if row.status == ACTIVE {
      var w :| Witness(s.tokens, id, row, w);
      assert w != token ==> Witness(after, id, row, w);
      assert Witness(after, id, row, token) <==> id == s.tokens[token].serverId && row.lastCheckedAt.value <= at;
      forall i | i != token ensures Witness(after, id, row, i) <==> Witness(s.tokens, id, row, i) {}
    }
  }

  // Marking a server ACTIVE leaves it attested exactly when one of its tokens was used at that time or later.
  lemma StatusExactly(s: Store, t: string, id: Id, status: ServerStatus, lastError: Option<string>, at: Time)
    requires LiveServer(s, t, id)
    ensures var s' := Apply(s, SetStatus(t, id, status, lastError, at));
            AttestedBy(s'.tokens, id, s'.servers[id]) <==>
              (status == ACTIVE ==> exists i :: UsedSince(s.tokens, id, i, at))
  {
    var s' := Apply(s, SetStatus(t, id, status, lastError, at));
    assert s'.tokens == s.tokens && s'.servers[id].lastCheckedAt == Some(at) && s'.servers[id].status == status;
    forall i ensures Witness(s'.tokens, id, s'.servers[id], i) <==> UsedSince(s.tokens, id, i, at) {}
  }

  lemma OtherCallsAttest(s: Store, seen: set<(string, Id)>, call: Call, id: Id)
    requires Proper(s, seen, call) && !call.MarkUsed? && !call.SetStatus?
    requires id in Apply(s, call).servers && (id in s.servers ==> AttestedBy(s.tokens, id, s.servers[id]))
    ensures AttestedBy(Apply(s, call).tokens, id, Apply(s, call).servers[id])
  {
    var s' := Apply(s, call);
    OtherCallsQuiet(s, seen, call);
    if s'.servers[id].status == ACTIVE {
      var i :| Witness(s.tokens, id, s.servers[id], i);
      assert Witness(s'.tokens, id, s'.servers[id], i);
    }
  }

  lemma OtherCallsQuiet(s: Store, seen: set<(string, Id)>, call: Call)
    requires Proper(s, seen, call) && !call.MarkUsed? && !call.SetStatus?
    ensures forall i :: i in s.tokens ==>
              i in TokensAfter(s, call) && TokensAfter(s, call)[i].serverId == s.tokens[i].serverId &&
              TokensAfter(s, call)[i].lastUsedAt == s.tokens[i].lastUsedAt
    ensures forall id :: id in ServersAfter(s, call) && ServersAfter(s, call)[id].status == ACTIVE ==>
              id in s.servers && s.servers[id].status == ACTIVE &&
                ServersAfter(s, call)[id].lastCheckedAt == s.servers[id].lastCheckedAt
  {
    hide NameTaken, LabelTaken, UserTaken, Sealable;
  }

  lemma StampAttests(s: Store, t: string, token: Id, at: Time)
    requires AllAttested(s) && LiveToken(s, t, token)
    ensures AllAttested(Apply(s, MarkUsed(t, token, at))) <==> TimelyStamp(s, token, at)
  {
    var call := MarkUsed(t, token, at);
    assert Apply(s, call).servers == s.servers;
    forall id | id in s.servers
      ensures AttestedBy(Apply(s, call).tokens, id, s.servers[id]) <==>
                (id == s.tokens[token].serverId ==> TimelyStamp(s, token, at))
    {
      StampExactly(s, t, token, at, id);
    }
    hide Apply, AttestedBy, TimelyStamp;
    if s.tokens[token].serverId !in s.servers { NoServerTimely(s, token, at); }
  }

  lemma NoServerTimely(s: Store, token: Id, at: Time)
    requires token in s.tokens && s.tokens[token].serverId !in s.servers
    ensures TimelyStamp(s, token, at)
  {
  }

  lemma StatusAttests(s: Store, t: string, id: Id, status: ServerStatus, lastError: Option<string>, at: Time)
    requires AllAttested(s) && LiveServer(s, t, id)
    ensures AllAttested(Apply(s, SetStatus(t, id, status, lastError, at))) <==>
              (status == ACTIVE ==> exists i :: UsedSince(s.tokens, id, i, at))
  {
    StatusExactly(s, t, id, status, lastError, at);
    var s' := Apply(s, SetStatus(t, id, status, lastError, at));
    assert s'.tokens == s.tokens && s'.servers.Keys == s.servers.Keys;
    assert forall j :: j in s.servers && j != id ==> s'.servers[j] == s.servers[j];
    hide AttestedBy, Apply, UsedSince;
  }

  // A proper call leaves every ACTIVE server attested exactly when it is timely.
  lemma CallAttestsExactly(s: Store, seen: set<(string, Id)>, call: Call)
    requires AllAttested(s) && Proper(s, seen, call)
    ensures AllAttested(Apply(s, call)) <==> Timely(s, call)
  {
    match call
    case MarkUsed(t, token, at) =>
      if LiveToken(s, t, token) { StampAttests(s, t, token, at); }
    case SetStatus(t, id, status, lastError, at) =>
      if LiveServer(s, t, id) { StatusAttests(s, t, id, status, lastError, at); }
    case _ =>
      hide AttestedBy;
      forall id | id in Apply(s, call).servers
        ensures AttestedBy(Apply(s, call).tokens, id, Apply(s, call).servers[id]) {
        OtherCallsAttest(s, seen, call, id);
      }
  }

  ghost predicate TimelyRun(s: Store, run: seq<Call>)
    decreases |run|
  {
    run == [] || (Timely(s, run[0]) && TimelyRun(Apply(s, run[0]), run[1..]))
  }

  ghost predicate AttestedThroughout(s: Store, run: seq<Call>)
    decreases |run|
  {
    AllAttested(s) && (run != [] ==> AttestedThroughout(Apply(s, run[0]), run[1..]))
  }

  // Over any interleaved run every ACTIVE server stays attested exactly when every stamp and every ACTIVE status is
  // timely where it happens.
  lemma {:induction false} RunAttestsExactly(s: Store, seen: set<(string, Id)>, run: seq<Call>)
    requires AllAttested(s) && ProperRun(s, seen, run)
    ensures AttestedThroughout(s, run) <==> TimelyRun(s, run)
    decreases |run|
  {
    if run != [] {
      CallAttestsExactly(s, seen, run[0]);
      hide AllAttested, Timely, Proper, Apply, Answer;
      if Timely(s, run[0]) {
        RunAttestsExactly(Apply(s, run[0]), seen + Noticed(run[0], Answer(s, run[0])), run[1..]);
      } else {
        NotAttested(Apply(s, run[0]), run[1..]);
      }
    }
  }

  lemma NotAttested(s: Store, run: seq<Call>)
    requires !AllAttested(s)
    ensures !AttestedThroughout(s, run)
  {
  }

  // Untimely, concretely: a refresh reads its clock before a sync does and stamps the token after it. The server is
  // attested then exactly if another of its tokens was used since.
  lemma LateStamp(s: Store, t: string, id: Id, token: Id, sync: Time, refresh: Time)
    requires LiveServer(s, t, id) && LiveToken(s, t, token) && s.tokens[token].serverId == id && refresh < sync
    ensures var run := [MarkUsed(t, token, sync), SetStatus(t, id, ACTIVE, None, sync), MarkUsed(t, token, refresh)];
            var s' := After(s, run);
            && ProperRun(s, {}, run) && id in s'.servers && s'.servers[id].status == ACTIVE
            && (AttestedBy(s'.tokens, id, s'.servers[id]) <==>
                exists i :: i != token && UsedSince(s.tokens, id, i, sync))
  {
    var run := [MarkUsed(t, token, sync), SetStatus(t, id, ACTIVE, None, sync), MarkUsed(t, token, refresh)];
    var a := Apply(s, run[0]);
    var b := Apply(a, run[1]);
    var d := Apply(b, run[2]);
    LateRun(s, run);
    assert d.tokens == s.tokens[token := s.tokens[token].(lastUsedAt := Some(refresh))];
    assert d.servers[id].lastCheckedAt == Some(sync) && d.servers[id].status == ACTIVE;
    hide Apply, After, ProperRun, Proper;
    forall i ensures Witness(d.tokens, id, d.servers[id], i) <==> i != token && UsedSince(s.tokens, id, i, sync) {}
  }

  lemma OneCall(s: Store, seen: set<(string, Id)>, call: Call)
    requires Proper(s, seen, call)
    ensures ProperRun(s, seen, [call]) && After(s, [call]) == Apply(s, call)
  {
    hide Apply, Answer, Proper, Noticed;
    var rest := [call][1..];
    assert rest == [];
    assert ProperRun(Apply(s, call), seen + Noticed(call, Answer(s, call)), rest);
    assert After(Apply(s, call), rest) == Apply(s, call);
  }

  lemma FirstCall(s: Store, seen: set<(string, Id)>, run: seq<Call>)
    requires run != [] && Proper(s, seen, run[0]) &&
             ProperRun(Apply(s, run[0]), seen + Noticed(run[0], Answer(s, run[0])), run[1..])
    ensures ProperRun(s, seen, run) && After(s, run) == After(Apply(s, run[0]), run[1..])
  {
  }

  lemma LateRun(s: Store, run: seq<Call>)
    requires |run| == 3 && run[0].MarkUsed? && run[1].SetStatus? && run[1].status == ACTIVE &&
             run[1].lastError == None && run[2].MarkUsed?
    ensures ProperRun(s, {}, run) && After(s, run) == Apply(Apply(Apply(s, run[0]), run[1]), run[2])
  {
    var a := Apply(s, run[0]);
    var b := Apply(a, run[1]);
    var seen := {} + Noticed(run[0], Answer(s, run[0]));
    var more := seen + Noticed(run[1], Answer(a, run[1]));
    assert Proper(s, {}, run[0]) && Proper(a, seen, run[1]) && Proper(b, more, run[2]);
    assert run[1..][1..] == [run[2]] && run[1..][0] == run[1];
    hide Apply, Answer, Proper, Noticed;
    OneCall(b, more, run[2]);
    FirstCall(a, seen, run[1..]);
    FirstCall(s, {}, run);
  }
}
