// Any number of service calls interleaved at every repository call: what they issue is a run of proper calls, so every
// theorem on such runs holds of them; and each tenant's services do as if they were alone.
module Interleaving {
  import opened Crypto
  import opened Store
  import opened StoreRuns
  import opened Plans
  import opened Obedience
  import Attestation
  import opened Requests

  datatype Job = Job(t: string, plan: Plan)

  datatype World = World(store: Store, jobs: seq<Job>)

  // The job whose turn it is, and the id generated for it.
  datatype Tick = Tick(job: nat, id: Id)

  predicate Fresh(s: Store, id: Id) { id !in s.servers && id !in s.tokens && id !in s.accounts }

  predicate Ready(w: World, tick: Tick) {
    tick.job < |w.jobs| && w.jobs[tick.job].plan.Ask? && Fresh(w.store, tick.id)
  }

  function CallOf(w: World, tick: Tick): Call
    requires Ready(w, tick)
  {
    w.jobs[tick.job].plan.call(tick.id)
  }

  function Turn(w: World, tick: Tick): World
    requires Ready(w, tick)
  {
    var call, job := CallOf(w, tick), w.jobs[tick.job];
    World(Apply(w.store, call), w.jobs[tick.job := job.(plan := job.plan.next(Answer(w.store, call)))])
  }

  ghost predicate Runnable(w: World, schedule: seq<Tick>)
    decreases |schedule|
  {
    schedule == [] || (Ready(w, schedule[0]) && Runnable(Turn(w, schedule[0]), schedule[1..]))
  }

  ghost function Exec(w: World, schedule: seq<Tick>): World
    requires Runnable(w, schedule)
    decreases |schedule|
  {
    if schedule == [] then w else Exec(Turn(w, schedule[0]), schedule[1..])
  }

  // The repository calls issued, in order.
  ghost function Issued(w: World, schedule: seq<Tick>): seq<Call>
    requires Runnable(w, schedule)
    decreases |schedule|
  {
    if schedule == [] then [] else [CallOf(w, schedule[0])] + Issued(Turn(w, schedule[0]), schedule[1..])
  }

  // These requests come in.
  function Open(s: Store, tickets: seq<Ticket>): World {
    World(s, seq(|tickets|, i requires 0 <= i < |tickets| => Job(tickets[i].request.t, PlanOf(tickets[i]))))
  }

  lemma JobOf(s: Store, tickets: seq<Ticket>, j: nat)
    requires j < |tickets|
    ensures Open(s, tickets).store == s && |Open(s, tickets).jobs| == |tickets|
    ensures Open(s, tickets).jobs[j] == Job(tickets[j].request.t, PlanOf(tickets[j]))
  {
    hide PlanOf;
  }

  ghost predicate AllAdmissible(prim: Primitives, tickets: seq<Ticket>) {
    forall i :: 0 <= i < |tickets| ==> Admissible(prim, tickets[i].request)
  }

  // ----- What they issue -----

  // Every job is obedient given what its tenant has been shown.
  ghost predicate AllObedient(jobs: seq<Job>, shown: seq<set<Id>>, seen: set<(string, Id)>) {
    && |shown| == |jobs|
    && (forall j :: 0 <= j < |jobs| ==> Obedient(jobs[j].plan, jobs[j].t, shown[j]))
    && (forall j, id :: 0 <= j < |jobs| && id in shown[j] ==> (jobs[j].t, id) in seen)
  }

  lemma OrderedIsProper(s: Store, id: Id, call: Call, t: string, shown: set<Id>, seen: set<(string, Id)>)
    requires InOrder(call, id, t, shown) && Fresh(s, id) && forall server :: server in shown ==> (t, server) in seen
    ensures Proper(s, seen, call)
  {
  }

  lemma ShownIsNoticed(s: Store, call: Call, t: string, id: Id)
    requires call.tenantId == t && id in Shown(Answer(s, call))
    ensures (t, id) in Noticed(call, Answer(s, call))
  {
    hide Answer;
  }

  lemma TurnObedient(w: World, tick: Tick, shown: seq<set<Id>>, seen: set<(string, Id)>)
    requires Ready(w, tick) && AllObedient(w.jobs, shown, seen)
    ensures var j, call, reply := tick.job, CallOf(w, tick), Answer(w.store, CallOf(w, tick));
      && call.tenantId == w.jobs[j].t && Proper(w.store, seen, call)
      && AllObedient(Turn(w, tick).jobs, shown[j := shown[j] + Shown(reply)], seen + Noticed(call, reply))
  {
    var j, call, reply := tick.job, CallOf(w, tick), Answer(w.store, CallOf(w, tick));
    ObedientNow(w.jobs[j].plan, w.jobs[j].t, shown[j], tick.id, reply);
    OrderedIsProper(w.store, tick.id, call, w.jobs[j].t, shown[j], seen);
    forall id | id in Shown(reply) ensures (w.jobs[j].t, id) in Noticed(call, reply) {
      ShownIsNoticed(w.store, call, w.jobs[j].t, id);
    }
    assert call.tenantId == w.jobs[j].t;
    hide Obedient, Answer, Apply, Noticed, Shown, InOrder, Proper, Fresh;
  }

  lemma {:induction false} IssuedProper(w: World, schedule: seq<Tick>, shown: seq<set<Id>>, seen: set<(string, Id)>)
    requires Runnable(w, schedule) && AllObedient(w.jobs, shown, seen)
    ensures ProperRun(w.store, seen, Issued(w, schedule))
    ensures Exec(w, schedule).store == After(w.store, Issued(w, schedule))
    decreases |schedule|
  {
    if schedule != [] {
      var tick := schedule[0];
      var call, reply := CallOf(w, tick), Answer(w.store, CallOf(w, tick));
      TurnObedient(w, tick, shown, seen);
      var rest := Issued(Turn(w, tick), schedule[1..]);
      assert Turn(w, tick).store == Apply(w.store, call);
      assert Issued(w, schedule)[0] == call && Issued(w, schedule)[1..] == rest;
      hide AllObedient, Proper, Apply, Answer;
      IssuedProper(Turn(w, tick), schedule[1..], shown[tick.job := shown[tick.job] + Shown(reply)],
                   seen + Noticed(call, reply));
    }
  }

  function NothingShown(tickets: seq<Ticket>): seq<set<Id>> { seq(|tickets|, _ => {}) }

  lemma OpenObedient(prim: Primitives, s: Store, tickets: seq<Ticket>)
    requires AllAdmissible(prim, tickets)
    ensures AllObedient(Open(s, tickets).jobs, NothingShown(tickets), {})
  {
    hide PlanOf, Obedient, Admissible;
    forall i | 0 <= i < |tickets| ensures Obedient(PlanOf(tickets[i]), tickets[i].request.t, {}) {
      PlansObedient(prim, tickets[i]);
    }
  }

  // Whatever requests come in and however their services' calls interleave, the invariant of the store survives, no
  // deleted row changes and no row vanishes, no tenant's rows or answers depend on another tenant's calls, and the
  // witnesses of ACTIVE servers last exactly under the timely condition.
  lemma InterleavedServices(prim: Primitives, s: Store, tickets: seq<Ticket>, schedule: seq<Tick>, secrets: SecretTable)
    requires AllAdmissible(prim, tickets) && Runnable(Open(s, tickets), schedule) && Inv(s, secrets)
    ensures var run, s' := Issued(Open(s, tickets), schedule), Exec(Open(s, tickets), schedule).store;
      && Inv(s', Remembered(s, secrets, run)) && Evolves(s, s')
      && (forall t :: SameFor(t, s', After(s, Only(run, t))) && RepliesTo(s, run, t) == RepliesTo(s, Only(run, t), t))
      && (Attestation.AllAttested(s) ==> (Attestation.AttestedThroughout(s, run) <==> Attestation.TimelyRun(s, run)))
  {
    var w := Open(s, tickets);
    var run := Issued(w, schedule);
    OpenObedient(prim, s, tickets);
    assert w.store == s && ReferencesOwned(s) && SeenOwned(s, {});
    hide Open, AllObedient, Inv, Exec, Issued, Runnable, SameFor, After, Evolves, ReferencesOwned,
         Attestation.AllAttested;
    IssuedProper(w, schedule, NothingShown(tickets), {});
    RunKeepsInv(s, secrets, {}, run);
    forall t ensures SameFor(t, After(s, run), After(s, Only(run, t))) &&
      RepliesTo(s, run, t) == RepliesTo(s, Only(run, t), t) {
      TenantsIndependent(s, run, t);
    }
    if Attestation.AllAttested(s) { Attestation.RunAttestsExactly(s, {}, run); }
  }

  // What was shown to whom by the end.
  lemma {:induction false} ExecObedient(w: World, schedule: seq<Tick>, shown: seq<set<Id>>, seen: set<(string, Id)>)
    returns (shown': seq<set<Id>>, seen': set<(string, Id)>)
    requires Runnable(w, schedule) && AllObedient(w.jobs, shown, seen)
    ensures AllObedient(Exec(w, schedule).jobs, shown', seen')
    ensures ReferencesOwned(w.store) && SeenOwned(w.store, seen) ==>
              ReferencesOwned(Exec(w, schedule).store) && SeenOwned(Exec(w, schedule).store, seen')
    decreases |schedule|
  {
    shown', seen' := shown, seen;
    if schedule != [] {
      var tick := schedule[0];
      var call, reply := CallOf(w, tick), Answer(w.store, CallOf(w, tick));
      TurnObedient(w, tick, shown, seen);
      hide AllObedient, Proper, Apply, Answer, SeenOwned, ReferencesOwned, Noticed, Shown;
      if ReferencesOwned(w.store) && SeenOwned(w.store, seen) { ApplyKeepsReferences(w.store, seen, call); }
      shown', seen' := ExecObedient(Turn(w, tick), schedule[1..], shown[tick.job := shown[tick.job] + Shown(reply)],
                                    seen + Noticed(call, reply));
    }
  }

  // ----- A tenant's services alone -----

  function Tenants(w: World): seq<string> { seq(|w.jobs|, j requires 0 <= j < |w.jobs| => w.jobs[j].t) }

  function TicksOf(tenants: seq<string>, schedule: seq<Tick>, t: string): seq<Tick> {
    if schedule == [] then []
    else
      (if schedule[0].job < |tenants| && tenants[schedule[0].job] == t then [schedule[0]] else []) +
      TicksOf(tenants, schedule[1..], t)
  }

  // Tenant t's jobs are as far, and its rows the same.
  ghost predicate Coupled(a: World, b: World, t: string) {
    && Tenants(a) == Tenants(b)
    && (forall j :: 0 <= j < |a.jobs| && a.jobs[j].t == t ==> a.jobs[j] == b.jobs[j])
    && SameFor(t, a.store, b.store) && IdsWithin(b.store, a.store)
  }

  lemma TurnTenants(w: World, tick: Tick)
    requires Ready(w, tick)
    ensures Tenants(Turn(w, tick)) == Tenants(w)
  {
  }

  lemma FreshWithin(small: Store, big: Store, id: Id)
    requires IdsWithin(small, big) && Fresh(big, id)
    ensures Fresh(small, id)
  {
  }

  lemma TenantAt(a: World, b: World, j: nat)
    requires Tenants(a) == Tenants(b) && j < |a.jobs|
    ensures |a.jobs| == |b.jobs| && a.jobs[j].t == b.jobs[j].t
  {
    assert |Tenants(a)| == |Tenants(b)| && Tenants(a)[j] == Tenants(b)[j];
  }

  lemma OwnTick(a: World, b: World, tick: Tick, t: string, seen: set<(string, Id)>)
    requires Coupled(a, b, t) && Ready(a, tick) && a.jobs[tick.job].t == t
    requires SeenOwned(a.store, seen) && Proper(a.store, seen, CallOf(a, tick)) && CallOf(a, tick).tenantId == t
    ensures Ready(b, tick) && CallOf(b, tick) == CallOf(a, tick) && Coupled(Turn(a, tick), Turn(b, tick), t)
  {
    TenantAt(a, b, tick.job);
    FreshWithin(b.store, a.store, tick.id);
    TurnTenants(a, tick);
    TurnTenants(b, tick);
    hide Answer, Apply, SameFor, IdsWithin, Proper, SeenOwned, Tenants, Fresh;
    OwnCall(a.store, b.store, seen, CallOf(a, tick), t);
  }

  lemma OthersTick(a: World, b: World, tick: Tick, t: string, seen: set<(string, Id)>)
    requires Coupled(a, b, t) && Ready(a, tick) && a.jobs[tick.job].t != t
    requires Proper(a.store, seen, CallOf(a, tick)) && CallOf(a, tick).tenantId != t
    ensures Coupled(Turn(a, tick), b, t)
  {
    TurnTenants(a, tick);
    hide Answer, Apply, SameFor, IdsWithin, Proper, Tenants, Fresh;
    OthersCall(a.store, b.store, seen, CallOf(a, tick), t);
  }

  lemma {:induction false} AloneFrom(a: World, b: World, schedule: seq<Tick>, t: string, shown: seq<set<Id>>,
          seen: set<(string, Id)>)
    requires Coupled(a, b, t) && Runnable(a, schedule) && AllObedient(a.jobs, shown, seen)
    requires SeenOwned(a.store, seen) && ReferencesOwned(a.store)
    ensures var own := TicksOf(Tenants(a), schedule, t);
      && Runnable(b, own) && Issued(b, own) == Only(Issued(a, schedule), t) &&
         Coupled(Exec(a, schedule), Exec(b, own), t)
    decreases |schedule|
  {
    if schedule != [] {
      var tick := schedule[0];
      var call, reply := CallOf(a, tick), Answer(a.store, CallOf(a, tick));
      var rest := TicksOf(Tenants(a), schedule[1..], t);
      TurnObedient(a, tick, shown, seen);
      TurnTenants(a, tick);
      ApplyKeepsReferences(a.store, seen, call);
      assert Issued(a, schedule)[0] == call && Issued(a, schedule)[1..] == Issued(Turn(a, tick), schedule[1..]);
      hide AllObedient, Coupled, Proper, Apply, Answer, SeenOwned, ReferencesOwned, Noticed, Shown;
      if a.jobs[tick.job].t == t {
        OwnTick(a, b, tick, t, seen);
        AloneFrom(Turn(a, tick), Turn(b, tick), schedule[1..], t, shown[tick.job := shown[tick.job] + Shown(reply)],
                  seen + Noticed(call, reply));
        FirstOfOwn(tick, rest);
      } else {
        OthersTick(a, b, tick, t, seen);
        AloneFrom(Turn(a, tick), b, schedule[1..], t, shown[tick.job := shown[tick.job] + Shown(reply)],
                  seen + Noticed(call, reply));
        assert TicksOf(Tenants(a), schedule, t) == rest;
      }
    }
  }

  lemma FirstOfOwn(tick: Tick, rest: seq<Tick>)
    ensures ([tick] + rest)[0] == tick && ([tick] + rest)[1..] == rest
  {
  }

  // Run by themselves, given the same ids, tenant t's services can take the turns they took among all the others; they
  // make the same calls, come to the same results, and leave the tenant the same rows.
  lemma TenantAlone(prim: Primitives, s: Store, tickets: seq<Ticket>, schedule: seq<Tick>, t: string)
    requires AllAdmissible(prim, tickets) && Runnable(Open(s, tickets), schedule) && ReferencesOwned(s)
    ensures var w := Open(s, tickets);
      var own := TicksOf(Tenants(w), schedule, t);
      && Runnable(w, own) && Issued(w, own) == Only(Issued(w, schedule), t)
      && SameFor(t, Exec(w, schedule).store, Exec(w, own).store)
      && |Exec(w, own).jobs| == |Exec(w, schedule).jobs| == |tickets|
      && forall j :: 0 <= j < |tickets| && tickets[j].request.t == t ==>
           Exec(w, own).jobs[j] == Exec(w, schedule).jobs[j]
  {
    var w := Open(s, tickets);
    OpenObedient(prim, s, tickets);
    assert Coupled(w, w, t);
    assert SeenOwned(s, {});
    hide AllObedient, PlanOf;
    AloneFrom(w, w, schedule, t, NothingShown(tickets), {});
    ExecTenants(w, schedule);
    ExecTenants(w, TicksOf(Tenants(w), schedule, t));
    forall j | 0 <= j < |tickets| && tickets[j].request.t == t
      ensures |Exec(w, schedule).jobs| == |tickets| && Exec(w, schedule).jobs[j].t == t
    {
      TenantAt(w, Exec(w, schedule), j);
    }
  }

  lemma {:induction false} ExecTenants(w: World, schedule: seq<Tick>)
    requires Runnable(w, schedule)
    ensures Tenants(Exec(w, schedule)) == Tenants(w) && |Exec(w, schedule).jobs| == |w.jobs|
    decreases |schedule|
  {
    if schedule != [] {
      TurnTenants(w, schedule[0]);
      ExecTenants(Turn(w, schedule[0]), schedule[1..]);
    }
  }
}
