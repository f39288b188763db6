// Syncs and refreshes of one server under way at once (src/backend/services/hosting-sync.service.ts).
module SyncRaces {
  import opened Json
  import opened Crypto
  import opened Store
  import opened StoreRuns
  import opened Repositories
  import opened Services
  import opened Requests
  import opened Plans
  import opened Obedience
  import opened Interleaving
  import opened Watchful

  // The states a run passes through.
  ghost function Course(w: World, schedule: seq<Tick>): (ws: seq<World>)
    requires Runnable(w, schedule)
    ensures |ws| == |schedule| + 1 && ws[0] == w
    ensures forall k :: 0 <= k < |schedule| ==> Ready(ws[k], schedule[k]) && ws[k + 1] == Turn(ws[k], schedule[k])
    decreases |schedule|
  {
    if schedule == [] then [w] else [w] + Course(Turn(w, schedule[0]), schedule[1..])
  }

  lemma {:induction false} Segment(ws: seq<World>, schedule: seq<Tick>, a: nat, b: nat)
    requires |ws| == |schedule| + 1 && a <= b <= |schedule|
    requires forall k :: 0 <= k < |schedule| ==> Ready(ws[k], schedule[k]) && ws[k + 1] == Turn(ws[k], schedule[k])
    ensures Runnable(ws[a], schedule[a..b]) && Exec(ws[a], schedule[a..b]) == ws[b]
    decreases b - a
  {
    if a < b {
      assert schedule[a..b][0] == schedule[a] && schedule[a..b][1..] == schedule[a + 1..b];
      Segment(ws, schedule, a + 1, b);
    }
  }

  lemma CourseEnds(w: World, schedule: seq<Tick>)
    requires Runnable(w, schedule)
    ensures Course(w, schedule)[|schedule|] == Exec(w, schedule)
  {
    hide Ready, Turn;
    Segment(Course(w, schedule), schedule, 0, |schedule|);
    assert schedule[0..|schedule|] == schedule;
  }

  // Job j's turn before its turn k, the insert of an account, is turn i; and between the two another job's call inserts
  // the same account.
  ghost predicate Overtaken(w: World, schedule: seq<Tick>, j: nat, i: nat, k: nat)
    requires Runnable(w, schedule)
  {
    var ws := Course(w, schedule);
    && i < k < |schedule| && schedule[i].job == j && schedule[k].job == j &&
       (forall m :: i < m < k ==> schedule[m].job != j)
    && var call := CallOf(ws[k], schedule[k]);
       && call.InsertAccount? && Runnable(ws[i + 1], schedule[i + 1..k])
       && InsertsUser(ws[i + 1].store, Issued(ws[i + 1], schedule[i + 1..k]), call.tenantId, call.serverId, call.user)
  }

  function LastTurn(schedule: seq<Tick>, j: nat, n: nat): (r: Option<nat>)
    requires n <= |schedule|
    ensures r.Some? ==> r.value < n && schedule[r.value].job == j && forall m :: r.value < m < n ==>
              schedule[m].job != j
  {
    if n == 0 then None else if schedule[n - 1].job == j then Some(n - 1) else LastTurn(schedule, j, n - 1)
  }

  ghost function Exchange(w: World, tick: Tick): (Call, Reply)
    requires Ready(w, tick)
  {
    (CallOf(w, tick), Answer(w.store, CallOf(w, tick)))
  }

  // What job j called last before turn n, and what it was told.
  ghost function LastOf(w: World, schedule: seq<Tick>, j: nat, n: nat): Last
    requires Runnable(w, schedule) && n <= |schedule|
  {
    var i := LastTurn(schedule, j, n);
    if i == None then None else Some(Exchange(Course(w, schedule)[i.value], schedule[i.value]))
  }

  // At its turn k job j's insert is refused.
  ghost predicate RefusedAt(w: World, schedule: seq<Tick>, j: nat, k: nat)
    requires Runnable(w, schedule)
  {
    k < |schedule| && schedule[k].job == j &&
    var e := Exchange(Course(w, schedule)[k], schedule[k]);
    Refuses(e.0, e.1)
  }

  ghost predicate RefusedBefore(w: World, schedule: seq<Tick>, j: nat, n: nat)
    requires Runnable(w, schedule)
  {
    exists k: nat :: k < n && RefusedAt(w, schedule, j, k)
  }

  lemma OneMoreTurn(w: World, schedule: seq<Tick>, j: nat, n: nat)
    requires Runnable(w, schedule) && n < |schedule|
    ensures LastOf(w, schedule, j, n + 1) ==
            if schedule[n].job == j then Some(Exchange(Course(w, schedule)[n], schedule[n]))
            else LastOf(w, schedule, j, n)
    ensures RefusedBefore(w, schedule, j, n + 1) <==> RefusedBefore(w, schedule, j, n) || RefusedAt(w, schedule, j, n)
  {
    hide Course, Exchange, RefusedAt;
  }

  // What a watchful job knows of its own past.
  lemma {:induction false} History(w: World, schedule: seq<Tick>, j: nat, kind: Kind, n: nat)
    requires Runnable(w, schedule) && n <= |schedule| && j < |w.jobs| && Careful(w.jobs[j].plan, false, kind)
    ensures var w' := Course(w, schedule)[n];
      && |w'.jobs| == |w.jobs| && w'.jobs[j].t == w.jobs[j].t
      && Watches(w'.jobs[j].plan, LastOf(w, schedule, j, n), RefusedBefore(w, schedule, j, n), kind)
    decreases n
  {
    if n > 0 {
      var m := n - 1;
      History(w, schedule, j, kind, m);
      OneMoreTurn(w, schedule, j, m);
      var ws, tick := Course(w, schedule), schedule[m];
      assert Ready(ws[m], tick) && ws[m + 1] == Turn(ws[m], tick);
      if tick.job == j {
        var e := Exchange(ws[m], tick);
        WatchesNow(ws[m].jobs[j].plan, LastOf(w, schedule, j, m), RefusedBefore(w, schedule, j, m), kind, tick.id, e.1);
        assert RefusedAt(w, schedule, j, m) <==> Refuses(e.0, e.1);
      }
      hide Course, Watches, Answer, Apply, LastOf, RefusedBefore;
    }
  }

  lemma EmptyLookup(s: Store, insert: Call)
    requires insert.InsertAccount?
    requires Answer(s, FindByUser(insert.tenantId, insert.serverId, insert.user)) == Accounts(map[])
    ensures FindAccounts(s, insert.tenantId, (_, row: AccountRow) => row.serverId == insert.serverId &&
                         row.cpanelUser == insert.user) == map[]
  {
    var found :=
        FindAccounts(s, insert.tenantId, (_, row: AccountRow) => row.serverId == insert.serverId &&
                     row.cpanelUser == insert.user);
    var answer := Answer(s, FindByUser(insert.tenantId, insert.serverId, insert.user)).accounts;
    assert forall id :: id in found ==> id in answer;
  }

  lemma StateAt(w: World, schedule: seq<Tick>, shown: seq<set<Id>>, seen: set<(string, Id)>, secrets: SecretTable,
          n: nat)
    returns (shown': seq<set<Id>>, seen': set<(string, Id)>)
    requires Runnable(w, schedule) && n <= |schedule| && AllObedient(w.jobs, shown, seen)
    requires Inv(w.store, secrets) && SeenOwned(w.store, seen)
    ensures var w' := Course(w, schedule)[n];
      AllObedient(w'.jobs, shown', seen') && SeenOwned(w'.store, seen') && AccountsLive(w'.store.accounts)
  {
    assert ReferencesOwned(w.store);
    InvLive(w.store, secrets);
    Segment(Course(w, schedule), schedule, 0, n);
    hide Course, AllObedient, Inv, SeenOwned, ReferencesOwned, Ready, Turn, AccountsLive;
    shown', seen' := ExecObedient(w, schedule[0..n], shown, seen);
    IssuedProper(w, schedule[0..n], shown, seen);
    var run := Issued(w, schedule[0..n]);
    RunKeepsInv(w.store, secrets, seen, run);
    InvLive(After(w.store, run), Remembered(w.store, secrets, run));
  }

  lemma InvLive(s: Store, secrets: SecretTable)
    requires Inv(s, secrets)
    ensures AccountsLive(s.accounts)
  {
  }

  // An insert names a server that is there.
  lemma ServerThere(w: World, tick: Tick, shown: seq<set<Id>>, seen: set<(string, Id)>)
    requires Ready(w, tick) && AllObedient(w.jobs, shown, seen) && SeenOwned(w.store, seen) &&
             CallOf(w, tick).InsertAccount?
    ensures CallOf(w, tick).serverId in w.store.servers
  {
    ObedientNow(w.jobs[tick.job].plan, w.jobs[tick.job].t, shown[tick.job], tick.id, UniqueViolation);
    assert (w.jobs[tick.job].t, CallOf(w, tick).serverId) in seen;
    hide Obedient;
  }

  // The turn looks the account up, finds none and changes nothing.
  ghost predicate Misses(w: World, tick: Tick, insert: Call)
    requires Ready(w, tick) && insert.InsertAccount?
  {
    && CallOf(w, tick) == FindByUser(insert.tenantId, insert.serverId, insert.user)
    && Answer(w.store, CallOf(w, tick)) == Accounts(map[])
    && Turn(w, tick).store == w.store
  }

  lemma LookupMisses(w: World, tick: Tick, insert: Call)
    requires Ready(w, tick) && insert.InsertAccount? && LookedUp(Some(Exchange(w, tick)), insert)
    ensures Misses(w, tick, insert)
  {
    hide FindAccounts;
  }

  // The turn at which a watchful job looked up the account it inserts.
  lemma LookupBefore(w: World, schedule: seq<Tick>, j: nat, kind: Kind, k: nat) returns (i: nat)
    requires Runnable(w, schedule) && k < |schedule| && schedule[k].job == j < |w.jobs| &&
             Careful(w.jobs[j].plan, false, kind)
    requires CallOf(Course(w, schedule)[k], schedule[k]).InsertAccount?
    ensures i < k && schedule[i].job == j && forall m :: i < m < k ==> schedule[m].job != j
    ensures Misses(Course(w, schedule)[i], schedule[i], CallOf(Course(w, schedule)[k], schedule[k]))
  {
    hide Course, Watches, Answer, Apply, Careful, Misses, LookedUp;
    var w', tick := Course(w, schedule)[k], schedule[k];
    History(w, schedule, j, kind, k);
    WatchesNow(w'.jobs[j].plan, LastOf(w, schedule, j, k), RefusedBefore(w, schedule, j, k), kind, tick.id,
               UniqueViolation);
    assert LookedUp(LastOf(w, schedule, j, k), CallOf(w', tick));
    LookedUpSome(LastOf(w, schedule, j, k), CallOf(w', tick));
    i := LastTurn(schedule, j, k).value;
    LookupMisses(Course(w, schedule)[i], schedule[i], CallOf(w', tick));
  }

  lemma LookedUpSome(last: Last, insert: Call)
    requires insert.InsertAccount? && LookedUp(last, insert)
    ensures last.Some?
  {
  }

  lemma LastIsUnique(schedule: seq<Tick>, j: nat, i: nat, l: nat, k: nat)
    requires i < k <= |schedule| && l < k && schedule[i].job == j && schedule[l].job == j
    requires (forall m :: i < m < k ==> schedule[m].job != j) && forall m :: l < m < k ==> schedule[m].job != j
    ensures i == l
  {
  }

  // The answer to an insert that follows on that lookup.
  lemma InsertAnswered(w: World, schedule: seq<Tick>, shown: seq<set<Id>>, seen: set<(string, Id)>, insert: Call)
    requires Runnable(w, schedule) && AllObedient(w.jobs, shown, seen) && AccountsLive(w.store.accounts) &&
             insert.InsertAccount?
    requires Answer(w.store, FindByUser(insert.tenantId, insert.serverId, insert.user)) == Accounts(map[])
    ensures Answer(Exec(w, schedule).store, insert) == UniqueViolation <==>
            InsertsUser(w.store, Issued(w, schedule), insert.tenantId, insert.serverId, insert.user)
  {
    EmptyLookup(w.store, insert);
    hide AllObedient, AccountsLive, FindAccounts, InsertsUser, Answer, Runnable;
    IssuedProper(w, schedule, shown, seen);
    RaceExactly(w.store, seen, Issued(w, schedule), insert);
  }

  lemma OvertakenSince(w: World, schedule: seq<Tick>, j: nat, i: nat, k: nat)
    requires Runnable(w, schedule) && i < k < |schedule| && schedule[i].job == j && schedule[k].job == j
    requires forall m :: i < m < k ==> schedule[m].job != j
    requires CallOf(Course(w, schedule)[k], schedule[k]).InsertAccount?
    ensures var ws := Course(w, schedule);
      var insert := CallOf(ws[k], schedule[k]);
      && Runnable(ws[i + 1], schedule[i + 1..k])
      && ((exists l: nat :: Overtaken(w, schedule, j, l, k)) <==>
            InsertsUser(ws[i + 1].store, Issued(ws[i + 1], schedule[i + 1..k]), insert.tenantId, insert.serverId,
                        insert.user))
  {
    hide Course, InsertsUser, Ready, Turn, Runnable, Issued;
    var ws := Course(w, schedule);
    Segment(ws, schedule, i + 1, k);
    if l: nat :| Overtaken(w, schedule, j, l, k) { LastIsUnique(schedule, j, i, l, k); }
    var insert := CallOf(ws[k], schedule[k]);
    assert InsertsUser(ws[i + 1].store, Issued(ws[i + 1], schedule[i + 1..k]), insert.tenantId, insert.serverId,
                       insert.user) ==>
           Overtaken(w, schedule, j, i, k);
  }

  lemma RefusedExactly(w: World, schedule: seq<Tick>, shown: seq<set<Id>>, seen: set<(string, Id)>,
          secrets: SecretTable, j: nat, kind: Kind, k: nat)
    requires Runnable(w, schedule) && AllObedient(w.jobs, shown, seen) && Inv(w.store, secrets) &&
             SeenOwned(w.store, seen)
    requires k < |schedule| && schedule[k].job == j < |w.jobs| && Careful(w.jobs[j].plan, false, kind)
    requires CallOf(Course(w, schedule)[k], schedule[k]).InsertAccount?
    ensures var ws := Course(w, schedule);
      var r := Answer(ws[k].store, CallOf(ws[k], schedule[k]));
      (r == UniqueViolation <==> exists i: nat :: Overtaken(w, schedule, j, i, k)) &&
        (r == UniqueViolation || r.Created?)
  {
    hide Course, AllObedient, Inv, SeenOwned, Careful, AccountsLive, Overtaken, InsertsUser, Ready, Turn, Runnable,
         Answer, Apply;
    var ws := Course(w, schedule);
    var insert := CallOf(ws[k], schedule[k]);
    var i := LookupBefore(w, schedule, j, kind, k);
    var shownI, seenI := StateAt(w, schedule, shown, seen, secrets, i + 1);
    var shownK, seenK := StateAt(w, schedule, shown, seen, secrets, k);
    ServerThere(ws[k], schedule[k], shownK, seenK);
    Segment(ws, schedule, i + 1, k);
    OvertakenSince(w, schedule, j, i, k);
    InsertAnswered(ws[i + 1], schedule[i + 1..k], shownI, seenI, insert);
    InsertRefused(ws[k].store, insert);
  }

  lemma InsertRefused(s: Store, insert: Call)
    requires insert.InsertAccount? && insert.serverId in s.servers
    ensures Answer(s, insert).Created? || Answer(s, insert) == UniqueViolation
  {
  }

  lemma RefusedIffOvertaken(w: World, schedule: seq<Tick>, shown: seq<set<Id>>, seen: set<(string, Id)>,
          secrets: SecretTable, j: nat, kind: Kind, k: nat)
    requires Runnable(w, schedule) && AllObedient(w.jobs, shown, seen) && Inv(w.store, secrets) &&
             SeenOwned(w.store, seen)
    requires j < |w.jobs| && Careful(w.jobs[j].plan, false, kind)
    ensures RefusedAt(w, schedule, j, k) <==> exists i: nat :: Overtaken(w, schedule, j, i, k)
  {
    hide Course, AllObedient, Inv, SeenOwned, Careful, InsertsUser, Ready, Turn, Runnable, Issued;
    if k < |schedule| && schedule[k].job == j && CallOf(Course(w, schedule)[k], schedule[k]).InsertAccount? {
      RefusedExactly(w, schedule, shown, seen, secrets, j, kind, k);
      hide Overtaken;
      assert RefusedAt(w, schedule, j, k) <==>
               !Answer(Course(w, schedule)[k].store, CallOf(Course(w, schedule)[k], schedule[k])).Created?;
    }
  }

  lemma FailsIffOvertaken(w: World, schedule: seq<Tick>, shown: seq<set<Id>>, seen: set<(string, Id)>,
          secrets: SecretTable, j: nat, kind: Kind)
    requires Runnable(w, schedule) && AllObedient(w.jobs, shown, seen) && Inv(w.store, secrets) &&
             SeenOwned(w.store, seen)
    requires j < |w.jobs| && Careful(w.jobs[j].plan, false, kind) && Strict(kind)
    ensures j < |Exec(w, schedule).jobs|
    ensures var p := Exec(w, schedule).jobs[j].plan;
      p.End? ==> (p.result == Failure(UniqueKeyViolated) <==> exists i: nat, k: nat :: Overtaken(w, schedule, j, i, k))
  {
    hide Course, AllObedient, Inv, SeenOwned, Careful, Overtaken, Watches, RefusedAt, Exec, Runnable, LastOf;
    History(w, schedule, j, kind, |schedule|);
    CourseEnds(w, schedule);
    var p := Exec(w, schedule).jobs[j].plan;
    if p.End? {
      WatchesAtEnd(p, LastOf(w, schedule, j, |schedule|), RefusedBefore(w, schedule, j, |schedule|), kind);
      if RefusedBefore(w, schedule, j, |schedule|) {
        var k: nat :| k < |schedule| && RefusedAt(w, schedule, j, k);
        RefusedIffOvertaken(w, schedule, shown, seen, secrets, j, kind, k);
      }
      if i: nat, k: nat :| Overtaken(w, schedule, j, i, k) {
        RefusedIffOvertaken(w, schedule, shown, seen, secrets, j, kind, k);
        RefusedInTime(w, schedule, j, k);
      }
    }
  }

  lemma RefusedInTime(w: World, schedule: seq<Tick>, j: nat, k: nat)
    requires Runnable(w, schedule) && RefusedAt(w, schedule, j, k)
    ensures RefusedBefore(w, schedule, j, |schedule|)
  {
  }

  // ----- Requests -----

  // The services that insert accounts.
  predicate Imports(ticket: Ticket) {
    ticket.request.SyncServer? || ticket.request.SyncTenant? || ticket.request.Refresh?
  }

  function KindOf(ticket: Ticket): Kind
    requires Imports(ticket)
  {
    match ticket.request
    case SyncServer(_, _, _, _) => SyncOne
    case SyncTenant(_, _, _, _) => SyncMany
    case Refresh(_, _, _, _) => RefreshOne
  }

  lemma ImportsCareful(ticket: Ticket)
    requires Imports(ticket) && Chooses(ticket.setting.choose)
    ensures Careful(PlanOf(ticket), false, KindOf(ticket))
  {
    hide Careful, Chooses;
    match ticket.request
    case SyncServer(t, id, c, _) =>
      FinishReports(SyncOne);
      SyncThenCareful(c, EnvOf(ticket), t, id, Finish(), false, SyncOne);
    case SyncTenant(t, c, _, _) => SyncTenantCareful(c, EnvOf(ticket), t);
    case Refresh(t, id, c, lookup) => RefreshCareful(c, lookup, ticket.setting.choose, t, id, ticket.at);
  }

  lemma OpenCareful(s: Store, tickets: seq<Ticket>, j: nat)
    requires j < |tickets| && Imports(tickets[j]) && Chooses(tickets[j].setting.choose)
    ensures Open(s, tickets).store == s && j < |Open(s, tickets).jobs|
    ensures Careful(Open(s, tickets).jobs[j].plan, false, KindOf(tickets[j]))
  {
    hide Open, PlanOf, Careful, KindOf;
    JobOf(s, tickets, j);
    ImportsCareful(tickets[j]);
  }

  // A sync or a refresh looks every account up and then inserts it if it was not there. The insert violates the unique
  // key exactly if between the two some other call inserted the same account; and otherwise it succeeds.
  lemma InsertRaceExactly(prim: Primitives, s: Store, secrets: SecretTable, tickets: seq<Ticket>, schedule: seq<Tick>,
          j: nat, k: nat)
    requires AllAdmissible(prim, tickets) && Inv(s, secrets) && Runnable(Open(s, tickets), schedule)
    requires j < |tickets| && Imports(tickets[j]) && Chooses(tickets[j].setting.choose)
    requires k < |schedule| && schedule[k].job == j
    requires CallOf(Course(Open(s, tickets), schedule)[k], schedule[k]).InsertAccount?
    ensures var w := Open(s, tickets);
      var now := Course(w, schedule)[k];
      var r := Answer(now.store, CallOf(now, schedule[k]));
      (r == UniqueViolation <==> exists i: nat :: Overtaken(w, schedule, j, i, k)) &&
        (r == UniqueViolation || r.Created?)
  {
    hide Course, Open, AllObedient, Inv, Careful, Overtaken, Ready, Turn, Runnable, Answer, Imports, Chooses, KindOf,
         AllAdmissible;
    OpenObedient(prim, s, tickets);
    OpenCareful(s, tickets, j);
    assert SeenOwned(s, {});
    RefusedExactly(Open(s, tickets), schedule, NothingShown(tickets), {}, secrets, j, KindOf(tickets[j]), k);
  }

  // A sync of a server, or a refresh, ends with the violation exactly if it was overtaken so.
  lemma FailsExactly(prim: Primitives, s: Store, secrets: SecretTable, tickets: seq<Ticket>, schedule: seq<Tick>,
          j: nat)
    requires AllAdmissible(prim, tickets) && Inv(s, secrets) && Runnable(Open(s, tickets), schedule)
    requires j < |tickets| && (tickets[j].request.SyncServer? || tickets[j].request.Refresh?) &&
             Chooses(tickets[j].setting.choose)
    ensures var w := Open(s, tickets);
      && j < |Exec(w, schedule).jobs|
      && var p := Exec(w, schedule).jobs[j].plan;
         p.End? ==> (p.result == Failure(UniqueKeyViolated) <==>
                     exists i: nat, k: nat :: Overtaken(w, schedule, j, i, k))
  {
    hide Course, Open, AllObedient, Inv, Careful, Overtaken, Runnable, Exec, Chooses, AllAdmissible;
    OpenObedient(prim, s, tickets);
    OpenCareful(s, tickets, j);
    assert SeenOwned(s, {});
    FailsIffOvertaken(Open(s, tickets), schedule, NothingShown(tickets), {}, secrets, j, KindOf(tickets[j]));
  }

  // The next thing that an overtaken sync does, whether its own or part of its tenant's, is to mark the server
  // UNREACHABLE.
  lemma OvertakenMarks(prim: Primitives, s: Store, secrets: SecretTable, tickets: seq<Ticket>, schedule: seq<Tick>,
          j: nat, i: nat, k: nat, m: nat)
    requires AllAdmissible(prim, tickets) && Inv(s, secrets) && Runnable(Open(s, tickets), schedule)
    requires j < |tickets| && (tickets[j].request.SyncServer? || tickets[j].request.SyncTenant?) &&
             Chooses(tickets[j].setting.choose)
    requires Overtaken(Open(s, tickets), schedule, j, i, k)
    requires k < m < |schedule| && schedule[m].job == j && forall l :: k < l < m ==> schedule[l].job != j
    ensures var ws := Course(Open(s, tickets), schedule);
      Marks(CallOf(ws[m], schedule[m]), CallOf(ws[k], schedule[k]).serverId)
  {
    hide Course, Open, AllObedient, Inv, Careful, Runnable, Chooses, RefusedAt, InsertsUser, AllAdmissible;
    OpenObedient(prim, s, tickets);
    OpenCareful(s, tickets, j);
    assert SeenOwned(s, {});
    RefusedIffOvertaken(Open(s, tickets), schedule, NothingShown(tickets), {}, secrets, j, KindOf(tickets[j]), k);
    RefusalMarks(Open(s, tickets), schedule, j, KindOf(tickets[j]), k, m);
  }

  lemma RefusalMarks(w: World, schedule: seq<Tick>, j: nat, kind: Kind, k: nat, m: nat)
    requires Runnable(w, schedule) && j < |w.jobs| && Careful(w.jobs[j].plan, false, kind) && !kind.RefreshOne?
    requires RefusedAt(w, schedule, j, k)
    requires k < m < |schedule| && schedule[m].job == j && forall l :: k < l < m ==> schedule[l].job != j
    ensures Marks(CallOf(Course(w, schedule)[m], schedule[m]), CallOf(Course(w, schedule)[k], schedule[k]).serverId)
  {
    hide Course, Watches, Answer, Apply, Careful, Marks, RefusedBefore;
    var w', tick := Course(w, schedule)[m], schedule[m];
    History(w, schedule, j, kind, m);
    LastIs(schedule, j, k, m);
    WatchesNow(w'.jobs[j].plan, LastOf(w, schedule, j, m), RefusedBefore(w, schedule, j, m), kind, tick.id,
               UniqueViolation);
  }

  lemma {:induction false} LastIs(schedule: seq<Tick>, j: nat, i: nat, n: nat)
    requires i < n <= |schedule| && schedule[i].job == j && forall m :: i < m < n ==> schedule[m].job != j
    ensures LastTurn(schedule, j, n) == Some(i)
    decreases n
  {
    if i < n - 1 { LastIs(schedule, j, i, n - 1); }
  }
}
