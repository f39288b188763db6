// A server is removed while services on it are about to start or under way (src/backend/services/).
module Removal {
  import opened Json
  import opened Crypto
  import opened Store
  import opened StoreRuns
  import opened Services
  import opened Plans
  import opened Obedience
  import opened Interleaving
  import opened Requests
  import TokensService

  predicate Removed(s: Store, id: Id) { id in s.servers && s.servers[id].deletedAt.Some? }

  // How many turns job j takes.
  function Turns(schedule: seq<Tick>, j: nat): nat {
    if schedule == [] then 0 else (if schedule[0].job == j then 1 else 0) + Turns(schedule[1..], j)
  }

  lemma {:induction false} NotItsTurn(w: World, schedule: seq<Tick>, j: nat)
    requires Runnable(w, schedule) && j < |w.jobs| && Turns(schedule, j) == 0
    ensures |Exec(w, schedule).jobs| == |w.jobs| && Exec(w, schedule).jobs[j] == w.jobs[j]
    decreases |schedule|
  {
    if schedule != [] { NotItsTurn(Turn(w, schedule[0]), schedule[1..], j); }
  }

  lemma TurnEvolves(w: World, tick: Tick, shown: seq<set<Id>>, seen: set<(string, Id)>)
    requires Ready(w, tick) && AllObedient(w.jobs, shown, seen)
    ensures Evolves(w.store, Turn(w, tick).store)
  {
    TurnObedient(w, tick, shown, seen);
    hide AllObedient, Proper, Apply, Evolves;
    ApplyEvolves(w.store, seen, CallOf(w, tick));
  }

  // ----- Services that start after the removal -----

  // The request is for an operation that needs the server.
  predicate Needs(s: Store, request: Request, id: Id) {
    match request
    case CreateToken(_, serverId, _) => serverId == id
    case TestConnection(_, serverId, _, _) => serverId == id
    case SyncServer(_, serverId, _, _) => serverId == id
    case Refresh(t, accountId, _, _) => LiveAccount(s, t, accountId) && s.accounts[accountId].serverId == id
    case Resolve(t, accountId, _) => LiveAccount(s, t, accountId) && s.accounts[accountId].serverId == id
    case _ => false
  }

  // The account such a request names, if it does.
  function AccountOf(request: Request): Option<Id> {
    if request.Refresh? || request.Resolve? then Some(request.id) else None
  }

  // How many calls it takes to find out that the server is gone.
  function Lookups(request: Request): nat { if AccountOf(request).Some? then 2 else 1 }

  ghost predicate AsksForServer(p: Plan, t: string, id: Id) {
    && p.Ask? && (forall own: Id :: p.call(own) == FindServer(t, id))
    && forall r: Reply :: !HasServer(r, id) ==> p.next(r) == Fails(NotFound("Server"))
  }

  ghost predicate AsksForAccount(p: Plan, t: string, accountId: Id, id: Id) {
    && p.Ask? && (forall own: Id :: p.call(own) == FindAccount(t, accountId))
    && forall r: Reply :: HasAccount(r, accountId) && r.accounts[accountId].serverId == id ==>
         AsksForServer(p.next(r), t, id)
  }

  // Job j is so many lookups away from failing.
  ghost predicate Barred(w: World, j: nat, id: Id, accountId: Option<Id>, left: nat) {
    j < |w.jobs| &&
    var p, t := w.jobs[j].plan, w.jobs[j].t;
    if left == 0 then p == Fails(NotFound("Server"))
    else if left == 1 then AsksForServer(p, t, id)
    else
      && left == 2 && accountId.Some? && AsksForAccount(p, t, accountId.value, id)
      && LiveAccount(w.store, t, accountId.value) && w.store.accounts[accountId.value].serverId == id
  }

  lemma StartsBarred(w: World, j: nat, ticket: Ticket, id: Id)
    requires j < |w.jobs| && w.jobs[j] == Job(ticket.request.t, PlanOf(ticket)) && Needs(w.store, ticket.request, id)
    ensures Barred(w, j, id, AccountOf(ticket.request), Lookups(ticket.request))
  {
  }

  lemma BarredTurn(w: World, tick: Tick, j: nat, id: Id, accountId: Option<Id>, left: nat)
    requires Ready(w, tick) && Removed(w.store, id) && Barred(w, j, id, accountId, left)
    requires Evolves(w.store, Turn(w, tick).store)
    ensures Removed(Turn(w, tick).store, id)
    ensures tick.job == j ==> left > 0 && (CallOf(w, tick).ReadServers? || CallOf(w, tick).ReadAccounts?)
    ensures Barred(Turn(w, tick), j, id, accountId, if tick.job == j then left - 1 else left)
  {
    assert ServerEvolves(w.store.servers[id], Turn(w, tick).store.servers[id]);
    if left == 2 {
      var i := accountId.value;
      assert AccountEvolves(w.store.accounts[i], Turn(w, tick).store.accounts[i]);
    }
    hide Apply;
  }

  // Job j only reads.
  ghost predicate OnlyReads(w: World, schedule: seq<Tick>, j: nat)
    requires Runnable(w, schedule)
    decreases |schedule|
  {
    schedule == [] ||
    ((schedule[0].job == j ==> CallOf(w, schedule[0]).ReadServers? || CallOf(w, schedule[0]).ReadAccounts?) &&
     OnlyReads(Turn(w, schedule[0]), schedule[1..], j))
  }

  lemma {:induction false} BarredRun(w: World, schedule: seq<Tick>, shown: seq<set<Id>>, seen: set<(string, Id)>,
          j: nat, id: Id, accountId: Option<Id>, left: nat)
    requires Runnable(w, schedule) && AllObedient(w.jobs, shown, seen) && Removed(w.store, id) &&
             Barred(w, j, id, accountId, left)
    ensures Turns(schedule, j) <= left && Barred(Exec(w, schedule), j, id, accountId, left - Turns(schedule, j))
    ensures OnlyReads(w, schedule, j)
    decreases |schedule|
  {
    if schedule != [] {
      var tick, rest := schedule[0], schedule[1..];
      var call, reply := CallOf(w, tick), Answer(w.store, CallOf(w, tick));
      var left' := if tick.job == j then left - 1 else left;
      TurnEvolves(w, tick, shown, seen);
      TurnObedient(w, tick, shown, seen);
      BarredTurn(w, tick, j, id, accountId, left);
      var shown', seen' := shown[tick.job := shown[tick.job] + Shown(reply)], seen + Noticed(call, reply);
      assert left - Turns(schedule, j) == left' - Turns(rest, j) && Exec(w, schedule) == Exec(Turn(w, tick), rest);
      hide AllObedient, Barred, Removed, Answer, Apply, Proper, Evolves, Noticed, Shown, Exec, Turns, Turn, Ready;
      BarredRun(Turn(w, tick), rest, shown', seen', j, id, accountId, left');
    }
  }

  lemma BarredEnds(w: World, j: nat, id: Id, accountId: Option<Id>, left: nat)
    requires Barred(w, j, id, accountId, left)
    ensures j < |w.jobs| && (w.jobs[j].plan.End? <==> left == 0)
    ensures w.jobs[j].plan.End? ==> w.jobs[j].plan.result == Failure(NotFound("Server"))
  {
  }

  // A barred job is over after exactly the lookups it takes.
  ghost predicate Refused(w: World, later: seq<Tick>, j: nat, request: Request)
    requires Runnable(w, later)
  {
    && Turns(later, j) <= Lookups(request) && OnlyReads(w, later, j)
    && j < |Exec(w, later).jobs|
    && var p := Exec(w, later).jobs[j].plan;
       && (p.End? <==> Turns(later, j) == Lookups(request))
       && (p.End? ==> p.result == Failure(NotFound("Server")))
  }

  lemma BarredRefused(w: World, later: seq<Tick>, shown: seq<set<Id>>, seen: set<(string, Id)>, j: nat, id: Id,
          request: Request)
    requires Runnable(w, later) && AllObedient(w.jobs, shown, seen) && Removed(w.store, id)
    requires Barred(w, j, id, AccountOf(request), Lookups(request))
    ensures Refused(w, later, j, request)
  {
    hide AllObedient, Removed, Barred, OnlyReads, Lookups, AccountOf;
    BarredRun(w, later, shown, seen, j, id, AccountOf(request), Lookups(request));
    BarredEnds(Exec(w, later), j, id, AccountOf(request), Lookups(request) - Turns(later, j));
  }

  // However the services interleave, one that starts on a server already removed makes its one lookup, or two, and
  // fails: the server is not found, and nothing was written.
  lemma RemovedForGood(prim: Primitives, s: Store, tickets: seq<Ticket>, before: seq<Tick>, later: seq<Tick>, j: nat,
          id: Id)
    requires AllAdmissible(prim, tickets) && Runnable(Open(s, tickets), before)
    requires Runnable(Exec(Open(s, tickets), before), later)
    requires j < |tickets| && Turns(before, j) == 0
    requires var mid := Exec(Open(s, tickets), before).store; Removed(mid, id) && Needs(mid, tickets[j].request, id)
    ensures Refused(Exec(Open(s, tickets), before), later, j, tickets[j].request)
  {
    hide Open, AllObedient, PlanOf, Needs, Removed, Barred, Lookups, AccountOf, Refused, AllAdmissible, Turn, Turns;
    var start := Open(s, tickets);
    OpenObedient(prim, s, tickets);
    JobOf(s, tickets, j);
    NotItsTurn(start, before, j);
    var shown, seen := ExecObedient(start, before, NothingShown(tickets), {});
    StartsBarred(Exec(start, before), j, tickets[j], id);
    BarredRefused(Exec(start, before), later, shown, seen, j, id, tickets[j].request);
  }

  // ----- Creating a token while the server is removed -----

  // At none of its turns does job j meet the label, on a live row or a deleted one.
  ghost predicate LabelFree(w: World, schedule: seq<Tick>, j: nat, t: string, serverId: Id, labelName: string)
    requires Runnable(w, schedule)
    decreases |schedule|
  {
    schedule == [] ||
    ((schedule[0].job == j ==> !LabelTaken(w.store, t, serverId, labelName, schedule[0].id)) &&
     LabelFree(Turn(w, schedule[0]), schedule[1..], j, t, serverId, labelName))
  }

  // The server was looked up and found.
  ghost predicate Creating(p: Plan, t: string, serverId: Id, input: TokensService.TokenInput) {
    p == CheckLabel(t, serverId, input) || p == InsertNow(t, serverId, input)
  }

  // The plan of a creation after n turns.
  ghost predicate Stage(p: Plan, t: string, serverId: Id, input: TokensService.TokenInput, n: nat) {
    if n == 0 then p == Plans.CreateToken(t, serverId, input) else p.End? || Creating(p, t, serverId, input)
  }

  lemma NextStage(p: Plan, t: string, serverId: Id, input: TokensService.TokenInput, n: nat, r: Reply)
    requires p.Ask? && Stage(p, t, serverId, input, n)
    ensures Stage(p.next(r), t, serverId, input, n + 1)
  {
  }

  lemma {:induction false} Stages(w: World, schedule: seq<Tick>, j: nat, t: string, serverId: Id,
          input: TokensService.TokenInput, n: nat)
    requires Runnable(w, schedule) && j < |w.jobs| && Stage(w.jobs[j].plan, t, serverId, input, n)
    ensures j < |Exec(w, schedule).jobs|
    ensures Stage(Exec(w, schedule).jobs[j].plan, t, serverId, input, n + Turns(schedule, j))
    decreases |schedule|
  {
    if schedule != [] {
      var tick := schedule[0];
      if tick.job == j { NextStage(w.jobs[j].plan, t, serverId, input, n, Answer(w.store, CallOf(w, tick))); }
      hide Stage, Answer, Apply;
      Stages(Turn(w, tick), schedule[1..], j, t, serverId, input, if tick.job == j then n + 1 else n);
    }
  }

  lemma {:induction false} OverForGood(w: World, schedule: seq<Tick>, j: nat, t: string, serverId: Id,
          labelName: string)
    requires Runnable(w, schedule) && j < |w.jobs| && w.jobs[j].plan.End?
    ensures |Exec(w, schedule).jobs| == |w.jobs| && Exec(w, schedule).jobs[j] == w.jobs[j]
    ensures LabelFree(w, schedule, j, t, serverId, labelName)
    decreases |schedule|
  {
    if schedule != [] {
      hide LabelTaken, Answer, Apply;
      OverForGood(Turn(w, schedule[0]), schedule[1..], j, t, serverId, labelName);
    }
  }

  // A row that was not there, of this tenant and server.
  ghost predicate NewTokenOn(s: Store, s': Store, t: string, serverId: Id) {
    exists i :: i in s'.tokens && i !in s.tokens && s'.tokens[i].tenantId == t && s'.tokens[i].serverId == serverId
  }

  lemma StillNew(s: Store, mid: Store, s': Store, t: string, serverId: Id)
    requires Evolves(s, mid) && NewTokenOn(mid, s', t, serverId)
    ensures NewTokenOn(s, s', t, serverId)
  {
  }

  lemma StaysNew(s: Store, mid: Store, s': Store, t: string, serverId: Id)
    requires NewTokenOn(s, mid, t, serverId) && Evolves(mid, s')
    ensures NewTokenOn(s, s', t, serverId)
  {
    var i :| i in mid.tokens && i !in s.tokens && mid.tokens[i].tenantId == t && mid.tokens[i].serverId == serverId;
    assert TokenEvolves(mid.tokens[i], s'.tokens[i]);
  }

  // The insert, at its turn.
  lemma InsertTurn(w: World, tick: Tick, t: string, serverId: Id, input: TokensService.TokenInput)
    requires Ready(w, tick) && w.jobs[tick.job].plan == InsertNow(t, serverId, input) && serverId in w.store.servers
    ensures Turn(w, tick).jobs[tick.job].plan ==
            if LabelTaken(w.store, t, serverId, input.labelName, tick.id) then Fails(UniqueKeyViolated)
            else Plans.Done()
    ensures !LabelTaken(w.store, t, serverId, input.labelName, tick.id) ==>
              NewTokenOn(w.store, Turn(w, tick).store, t, serverId)
  {
    hide LabelTaken, Crypto.Encrypt;
    var call := CallOf(w, tick);
    assert call == TokensService.Insertion(t, serverId, input, tick.id);
    if !LabelTaken(w.store, t, serverId, input.labelName, tick.id) {
      assert tick.id in Turn(w, tick).store.tokens;
    }
  }

  predicate LabelledDead(s: Store, t: string, serverId: Id, labelName: string) {
    exists i :: i in s.tokens && s.tokens[i].deletedAt.Some? && s.tokens[i].tenantId == t &&
      s.tokens[i].serverId == serverId && s.tokens[i].labelName == labelName
  }

  lemma DeadStays(s: Store, s': Store, t: string, serverId: Id, labelName: string)
    requires Evolves(s, s') && LabelledDead(s, t, serverId, labelName)
    ensures LabelledDead(s', t, serverId, labelName)
  {
    var i :| i in s.tokens && s.tokens[i].deletedAt.Some? && s.tokens[i].tenantId == t &&
      s.tokens[i].serverId == serverId && s.tokens[i].labelName == labelName;
    assert TokenEvolves(s.tokens[i], s'.tokens[i]);
  }

  // The label check, at its turn: a fresh id is nobody's, so the label is taken by a live row, which the check finds,
  // or else by a deleted one, which it does not.
  lemma CheckTurn(w: World, tick: Tick, t: string, serverId: Id, input: TokensService.TokenInput)
    requires Ready(w, tick) && w.jobs[tick.job].plan == CheckLabel(t, serverId, input)
    ensures var p := Turn(w, tick).jobs[tick.job].plan; p == Fails(Conflict) || p == InsertNow(t, serverId, input)
    ensures Turn(w, tick).jobs[tick.job].plan == Fails(Conflict) ==>
              LabelTaken(w.store, t, serverId, input.labelName, tick.id)
    ensures Turn(w, tick).jobs[tick.job].plan == InsertNow(t, serverId, input) ==>
              (LabelTaken(w.store, t, serverId, input.labelName, tick.id) <==>
               LabelledDead(w.store, t, serverId, input.labelName))
  {
    var found :=
        FindTokens(w.store, t, (_, row: TokenRow) => row.serverId == serverId && row.labelName == input.labelName);
    assert Answer(w.store, CallOf(w, tick)) == Tokens(found);
    if found != map[] {
      var i :| i in found;
      assert i != tick.id;
    } else if LabelTaken(w.store, t, serverId, input.labelName, tick.id) {
      var i :| i in w.store.tokens && i != tick.id && w.store.tokens[i].tenantId == t &&
        w.store.tokens[i].serverId == serverId && w.store.tokens[i].labelName == input.labelName;
      assert i !in found;
    }
  }

  lemma DeadTakes(s: Store, t: string, serverId: Id, labelName: string, own: Id)
    requires LabelledDead(s, t, serverId, labelName) && own !in s.tokens
    ensures LabelTaken(s, t, serverId, labelName, own)
  {
  }

  lemma {:induction false} Doomed(w: World, schedule: seq<Tick>, shown: seq<set<Id>>, seen: set<(string, Id)>, j: nat,
          t: string, id: Id, input: TokensService.TokenInput)
    requires Runnable(w, schedule) && AllObedient(w.jobs, shown, seen) && Removed(w.store, id)
    requires j < |w.jobs| && w.jobs[j].plan == InsertNow(t, id, input) && LabelledDead(w.store, t, id, input.labelName)
    ensures |Exec(w, schedule).jobs| == |w.jobs|
    ensures Exec(w, schedule).jobs[j].plan.End? ==> Exec(w, schedule).jobs[j].plan == Fails(UniqueKeyViolated)
    decreases |schedule|
  {
    if schedule != [] {
      var tick := schedule[0];
      var w', call, reply := Turn(w, tick), CallOf(w, tick), Answer(w.store, CallOf(w, tick));
      TurnEvolves(w, tick, shown, seen);
      TurnObedient(w, tick, shown, seen);
      StaysGone(w.store, w'.store, id);
      DeadStays(w.store, w'.store, t, id, input.labelName);
      hide AllObedient, LabelTaken, LabelledDead, Answer, Apply, Proper, Evolves, Noticed, Shown, InsertNow;
      if tick.job == j {
        DeadTakes(w.store, t, id, input.labelName, tick.id);
        InsertTurn(w, tick, t, id, input);
        OverForGood(w', schedule[1..], j, t, id, input.labelName);
      } else {
        Doomed(w', schedule[1..], shown[tick.job := shown[tick.job] + Shown(reply)], seen + Noticed(call, reply), j, t,
               id, input);
      }
    }
  }

  lemma StaysGone(s: Store, s': Store, id: Id)
    requires Evolves(s, s') && Removed(s, id)
    ensures Removed(s', id)
  {
    assert ServerEvolves(s.servers[id], s'.servers[id]);
  }

  // How a creation that found the server ends.
  ghost predicate Ends(w: World, end: World, free: bool, j: nat, t: string, id: Id) {
    && |end.jobs| == |w.jobs| && j < |w.jobs|
    && (end.jobs[j].plan.End? ==>
          && end.jobs[j].plan.result != Failure(NotFound("Server"))
          && (end.jobs[j].plan.result.Success? <==> free)
          && (end.jobs[j].plan.result.Success? ==> NewTokenOn(w.store, end.store, t, id)))
  }

  lemma AtInsert(w: World, schedule: seq<Tick>, shown: seq<set<Id>>, seen: set<(string, Id)>, t: string, id: Id,
          input: TokensService.TokenInput)
    requires Runnable(w, schedule) && AllObedient(w.jobs, shown, seen) && Removed(w.store, id) && schedule != []
    requires schedule[0].job < |w.jobs| && w.jobs[schedule[0].job].plan == InsertNow(t, id, input)
    ensures Ends(w, Exec(w, schedule), LabelFree(w, schedule, schedule[0].job, t, id, input.labelName), schedule[0].job,
                 t, id)
  {
    var tick := schedule[0];
    var w' := Turn(w, tick);
    InsertTurn(w, tick, t, id, input);
    OverForGood(w', schedule[1..], tick.job, t, id, input.labelName);
    TurnObedient(w, tick, shown, seen);
    var rest := schedule[1..];
    var reply := Answer(w.store, CallOf(w, tick));
    hide AllObedient, LabelTaken, Answer, Apply, Proper, Evolves, Noticed, Shown, InsertNow, NewTokenOn;
    RunsEvolve(w', rest, shown[tick.job := shown[tick.job] + Shown(reply)], seen + Noticed(CallOf(w, tick), reply));
    if !LabelTaken(w.store, t, id, input.labelName, tick.id) {
      StaysNew(w.store, w'.store, Exec(w', rest).store, t, id);
    }
  }

  lemma RunsEvolve(w: World, schedule: seq<Tick>, shown: seq<set<Id>>, seen: set<(string, Id)>)
    requires Runnable(w, schedule) && AllObedient(w.jobs, shown, seen)
    ensures Evolves(w.store, Exec(w, schedule).store)
  {
    hide AllObedient, Evolves, After, ProperRun;
    IssuedProper(w, schedule, shown, seen);
    RunEvolves(w.store, seen, Issued(w, schedule));
  }

  lemma {:induction false} Completes(w: World, schedule: seq<Tick>, shown: seq<set<Id>>, seen: set<(string, Id)>,
          j: nat, t: string, id: Id, input: TokensService.TokenInput)
    requires Runnable(w, schedule) && AllObedient(w.jobs, shown, seen) && Removed(w.store, id)
    requires j < |w.jobs| && Creating(w.jobs[j].plan, t, id, input)
    ensures Ends(w, Exec(w, schedule), LabelFree(w, schedule, j, t, id, input.labelName), j, t, id)
    decreases |schedule|
  {
    if schedule != [] {
      var tick, rest := schedule[0], schedule[1..];
      var w', call, reply := Turn(w, tick), CallOf(w, tick), Answer(w.store, CallOf(w, tick));
      var shown', seen' := shown[tick.job := shown[tick.job] + Shown(reply)], seen + Noticed(call, reply);
      TurnEvolves(w, tick, shown, seen);
      TurnObedient(w, tick, shown, seen);
      StaysGone(w.store, w'.store, id);
      hide AllObedient, LabelTaken, LabelledDead, Answer, Apply, Proper, Evolves, Noticed, Shown, InsertNow, CheckLabel,
           NewTokenOn;
      if tick.job == j && w.jobs[j].plan == InsertNow(t, id, input) {
        AtInsert(w, schedule, shown, seen, t, id, input);
      } else if tick.job == j {
        CheckTurn(w, tick, t, id, input);
        if w'.jobs[j].plan == Fails(Conflict) {
          OverForGood(w', rest, j, t, id, input.labelName);
        } else {
          Completes(w', rest, shown', seen', j, t, id, input);
          NewSince(w.store, w'.store, Exec(w', rest).store, t, id);
          if LabelledDead(w.store, t, id, input.labelName) {
            DeadStays(w.store, w'.store, t, id, input.labelName);
            Doomed(w', rest, shown', seen', j, t, id, input);
          }
        }
      } else {
        Completes(w', rest, shown', seen', j, t, id, input);
        NewSince(w.store, w'.store, Exec(w', rest).store, t, id);
      }
    }
  }

  lemma NewSince(s: Store, mid: Store, s': Store, t: string, id: Id)
    requires Evolves(s, mid)
    ensures NewTokenOn(mid, s', t, id) ==> NewTokenOn(s, s', t, id)
  {
    if NewTokenOn(mid, s', t, id) { StillNew(s, mid, s', t, id); }
  }

  lemma StartStage(ticket: Ticket)
    requires ticket.request.CreateToken?
    ensures Stage(PlanOf(ticket), ticket.request.t, ticket.request.id, ticket.request.tokenInput, 0)
  {
  }

  lemma EndsSo(w: World, end: World, free: bool, j: nat, t: string, id: Id)
    requires Ends(w, end, free, j, t, id)
    ensures |end.jobs| == |w.jobs| && j < |w.jobs|
    ensures var p := end.jobs[j].plan;
      p.End? ==>
        && p.result != Failure(NotFound("Server")) && (p.result.Success? <==> free)
        && (p.result.Success? ==> NewTokenOn(w.store, end.store, t, id))
  {
  }

  // A creation under way does not remove servers itself.
  lemma NoRemoval(w: World, tick: Tick, j: nat, t: string, id: Id, input: TokensService.TokenInput, n: nat)
    requires Ready(w, tick) && CallOf(w, tick).DeleteServer?
    requires j < |w.jobs| && w.jobs[j].plan.Ask? && Stage(w.jobs[j].plan, t, id, input, n)
    ensures tick.job != j
    ensures n > 0 ==> Creating(w.jobs[j].plan, t, id, input)
  {
  }

  // A lookup of the server that comes too late.
  lemma TooLate(w: World, schedule: seq<Tick>, shown: seq<set<Id>>, seen: set<(string, Id)>, j: nat, t: string, id: Id,
          input: TokensService.TokenInput)
    requires Runnable(w, schedule) && AllObedient(w.jobs, shown, seen) && Removed(w.store, id)
    requires j < |w.jobs| && w.jobs[j] == Job(t, Plans.CreateToken(t, id, input))
    ensures j < |Exec(w, schedule).jobs|
    ensures Exec(w, schedule).jobs[j].plan.End? ==> Exec(w, schedule).jobs[j].plan == Fails(NotFound("Server"))
  {
    assert Barred(w, j, id, None, 1);
    hide AllObedient, Removed, Barred, Plans.CreateToken;
    BarredRun(w, schedule, shown, seen, j, id, None, 1);
    BarredEnds(Exec(w, schedule), j, id, None, 1 - Turns(schedule, j));
  }

  lemma RemovalTurn(w: World, removal: Tick, shown: seq<set<Id>>, seen: set<(string, Id)>)
    returns (shown': seq<set<Id>>, seen': set<(string, Id)>)
    requires AllObedient(w.jobs, shown, seen) && Ready(w, removal) && CallOf(w, removal).DeleteServer?
    requires Answer(w.store, CallOf(w, removal)) == Count(1)
    ensures AllObedient(Turn(w, removal).jobs, shown', seen') && Removed(Turn(w, removal).store, CallOf(w, removal).id)
  {
    var call, reply := CallOf(w, removal), Answer(w.store, CallOf(w, removal));
    TurnObedient(w, removal, shown, seen);
    shown', seen' := shown[removal.job := shown[removal.job] + Shown(reply)], seen + Noticed(call, reply);
    hide AllObedient;
  }

  // How a creation ends whose server is removed when it has taken n turns.
  ghost predicate Decided(w: World, later: seq<Tick>, j: nat, t: string, id: Id, labelName: string, n: nat)
    requires Runnable(w, later)
  {
    var end := Exec(w, later);
    && Removed(end.store, id) && j < |end.jobs|
    && var p := end.jobs[j].plan;
       p.End? ==>
         && (p.result == Failure(NotFound("Server")) <==> n == 0)
         && (p.result.Success? <==> n > 0 && LabelFree(w, later, j, t, id, labelName))
         && (p.result.Success? ==> NewTokenOn(w.store, end.store, t, id))
  }

  lemma RemovedMeanwhile(w: World, removal: Tick, later: seq<Tick>, shown: seq<set<Id>>, seen: set<(string, Id)>,
          j: nat, t: string, id: Id, input: TokensService.TokenInput, n: nat)
    requires AllObedient(w.jobs, shown, seen) && Removes(w, removal, id) && Runnable(Turn(w, removal), later)
    requires j < |w.jobs| && w.jobs[j].plan.Ask? && Stage(w.jobs[j].plan, t, id, input, n) && w.jobs[j].t == t
    ensures Decided(Turn(w, removal), later, j, t, id, input.labelName, n)
  {
    hide AllObedient, Removed, LabelFree, NewTokenOn, Ends, Plans.CreateToken, Creating, Evolves;
    NoRemoval(w, removal, j, t, id, input, n);
    var shown', seen' := RemovalTurn(w, removal, shown, seen);
    var w' := Turn(w, removal);
    assert w'.jobs[j] == w.jobs[j];
    hide Turn, Answer, Apply;
    RunsEvolve(w', later, shown', seen');
    StaysGone(w'.store, Exec(w', later).store, id);
    if n == 0 {
      TooLate(w', later, shown', seen', j, t, id, input);
    } else {
      Completes(w', later, shown', seen', j, t, id, input);
      EndsSo(w', Exec(w', later), LabelFree(w', later, j, t, id, input.labelName), j, t, id);
    }
  }

  // The tick deletes the server.
  ghost predicate Removes(w: World, tick: Tick, id: Id) {
    Ready(w, tick) && CallOf(w, tick).DeleteServer? && CallOf(w, tick).id == id &&
      Answer(w.store, CallOf(w, tick)) == Count(1)
  }

  // A token is being created when its server is removed. The creation fails for want of the server exactly if it had
  // not looked the server up by then; and if it had, it succeeds exactly if it meets the label at none of its remaining
  // turns, and leaves the removed server with a new token.
  lemma CreateUnderWay(prim: Primitives, s: Store, tickets: seq<Ticket>, before: seq<Tick>, removal: Tick,
          later: seq<Tick>, j: nat)
    requires AllAdmissible(prim, tickets) && j < |tickets| && tickets[j].request.CreateToken?
    requires Runnable(Open(s, tickets), before)
    requires var w := Exec(Open(s, tickets), before);
      && Removes(w, removal, tickets[j].request.id) && Runnable(Turn(w, removal), later)
      && j < |w.jobs| && w.jobs[j].plan.Ask?
    ensures var w, request := Turn(Exec(Open(s, tickets), before), removal), tickets[j].request;
      Decided(w, later, j, request.t, request.id, request.tokenInput.labelName, Turns(before, j))
  {
    hide Open, AllObedient, PlanOf, Plans.CreateToken, AllAdmissible, Decided, Removes, Turn, Turns, Stage;
    var start, request := Open(s, tickets), tickets[j].request;
    var t, id, input := request.t, request.id, request.tokenInput;
    OpenObedient(prim, s, tickets);
    JobOf(s, tickets, j);
    StartStage(tickets[j]);
    Stages(start, before, j, t, id, input, 0);
    ExecTenants(start, before);
    TenantAt(start, Exec(start, before), j);
    var shown, seen := ExecObedient(start, before, NothingShown(tickets), {});
    RemovedMeanwhile(Exec(start, before), removal, later, shown, seen, j, t, id, input, Turns(before, j));
  }
}
