// The limiter has no fixed cap, even when resolved promises resume in order: a release only resolves a waiter, which
// counts itself in later, and a call that arrives in between takes the slot (src/backend/utils/http-retry.ts:51-70).
module Overtaking {
  import opened Limiter
  import opened Whm
  import opened HostCalls
  import opened HostRuns

  const HOST := "host"

  // A waiter that was resolved resumes before any other call comes round a second time: each call has at most one
  // continuation pending when the waiter's is queued, and every later one is queued behind it.
  ghost predicate Prompt(sys: System, s: State, schedule: seq<nat>)
    requires Shaped(sys, s) && Runnable(sys, s, schedule)
    decreases |schedule|
  {
    schedule == [] ||
    (ResumesFirst(s, schedule[0], schedule[1..]) && Prompt(sys, Turn(sys, s, schedule[0]), schedule[1..]))
  }

  // Before call i takes another turn, every other call that is woken now takes one.
  ghost predicate ResumesFirst(s: State, i: nat, rest: seq<nat>) {
    forall w: nat, q: nat :: w < |s.phase| && s.phase[w].Woken? && w != i && q < |rest| && rest[q] == i ==>
      w in rest[..q]
  }

  predicate Distinct(calls: seq<nat>) {
    forall i, j :: 0 <= i < j < |calls| ==> calls[i] != calls[j]
  }

  lemma {:induction false} DistinctPrompt(sys: System, s: State, schedule: seq<nat>)
    requires Shaped(sys, s) && Runnable(sys, s, schedule) && Distinct(schedule)
    ensures Prompt(sys, s, schedule)
    decreases |schedule|
  {
    if schedule != [] { DistinctPrompt(sys, Turn(sys, s, schedule[0]), schedule[1..]); }
  }

  lemma {:induction false} WokenResumes(sys: System, s: State, schedule: seq<nat>, w: nat)
    requires Inv(sys, s) && Runnable(sys, s, schedule) && w < |s.phase| && s.phase[w].Woken?
    requires w !in schedule
    ensures w < |Exec(sys, s, schedule).phase| && Exec(sys, s, schedule).phase[w].Woken?
    decreases |schedule|
  {
    if schedule != [] {
      TurnPhase(sys, s, schedule[0], w);
      TurnInv(sys, s, schedule[0]);
      WokenResumes(sys, Turn(sys, s, schedule[0]), schedule[1..], w);
    }
  }

  ghost predicate NobodyWoken(s: State) {
    forall w: nat :: w < |s.phase| ==> !s.phase[w].Woken?
  }

  lemma {:induction false} RunConcat(sys: System, s: State, a: seq<nat>, b: seq<nat>)
    requires Shaped(sys, s) && Runnable(sys, s, a) && Runnable(sys, Exec(sys, s, a), b)
    ensures Runnable(sys, s, a + b) && Exec(sys, s, a + b) == Exec(sys, Exec(sys, s, a), b)
    decreases |a|
  {
    hide Turn;
    if a == [] {
      assert a + b == b;
    } else {
      RunConcat(sys, Turn(sys, s, a[0]), a[1..], b);
      assert (a + b)[0] == a[0] && (a + b)[1..] == a[1..] + b;
    }
  }

  lemma AllCome(sys: System, s: State, schedule: seq<nat>)
    requires Inv(sys, s) && Runnable(sys, s, schedule) && NobodyWoken(Exec(sys, s, schedule)) && schedule != []
    ensures forall w: nat :: w < |s.phase| && s.phase[w].Woken? && w != schedule[0] ==> w in schedule[1..]
  {
    hide Inv, Turn;
    forall w: nat | w < |s.phase| && s.phase[w].Woken? && w != schedule[0] ensures w in schedule[1..] {
      if w !in schedule { WokenResumes(sys, s, schedule, w); }
    }
  }

  lemma ResumesFirstConcat(s: State, i: nat, a: seq<nat>, b: seq<nat>)
    requires ResumesFirst(s, i, a)
    requires forall w: nat :: w < |s.phase| && s.phase[w].Woken? && w != i ==> w in a
    ensures ResumesFirst(s, i, a + b)
  {
    forall w: nat, q: nat | w < |s.phase| && s.phase[w].Woken? && w != i && q < |a + b| && (a + b)[q] == i
      ensures w in (a + b)[..q]
    {
      if q < |a| {
        assert (a + b)[..q] == a[..q];
      } else {
        assert (a + b)[..q] == a + b[..q - |a|];
      }
    }
  }

  lemma Uncons(sys: System, s: State, schedule: seq<nat>)
    requires Shaped(sys, s) && schedule != [] && Runnable(sys, s, schedule)
    ensures Enabled(s, schedule[0]) && Runnable(sys, Turn(sys, s, schedule[0]), schedule[1..])
    ensures Exec(sys, s, schedule) == Exec(sys, Turn(sys, s, schedule[0]), schedule[1..])
    ensures Prompt(sys, s, schedule) <==>
              ResumesFirst(s, schedule[0], schedule[1..]) && Prompt(sys, Turn(sys, s, schedule[0]), schedule[1..])
  {
  }

  lemma UnconsSum(sys: System, s: State, a: seq<nat>, b: seq<nat>)
    requires Shaped(sys, s) && a != [] && Runnable(sys, s, a + b)
    ensures Enabled(s, a[0]) && Runnable(sys, Turn(sys, s, a[0]), a[1..] + b)
    ensures Prompt(sys, s, a + b) <==> ResumesFirst(s, a[0], a[1..] + b) && Prompt(sys, Turn(sys, s, a[0]), a[1..] + b)
  {
    hide Turn, Exec, ResumesFirst, Shaped;
    assert (a + b)[0] == a[0] && (a + b)[1..] == a[1..] + b;
    Uncons(sys, s, a + b);
  }

  lemma {:induction false} PromptConcat(sys: System, s: State, a: seq<nat>, b: seq<nat>)
    requires Inv(sys, s) && Runnable(sys, s, a) && Prompt(sys, s, a) && NobodyWoken(Exec(sys, s, a))
    requires Runnable(sys, Exec(sys, s, a), b) && Prompt(sys, Exec(sys, s, a), b)
    ensures Runnable(sys, s, a + b) && Prompt(sys, s, a + b) && Exec(sys, s, a + b) == Exec(sys, Exec(sys, s, a), b)
    decreases |a|
  {
    RunConcat(sys, s, a, b);
    if a == [] {
      assert a + b == b;
    } else {
      assert Shaped(sys, s);
      TurnInv(sys, s, a[0]);
      hide Inv, Turn, Prompt, Exec, Runnable, ResumesFirst, NobodyWoken, Shaped, Enabled;
      AllCome(sys, s, a);
      Uncons(sys, s, a);
      UnconsSum(sys, s, a, b);
      ResumesFirstConcat(s, a[0], a[1..], b);
      PromptConcat(sys, Turn(sys, s, a[0]), a[1..], b);
    }
  }

  lemma RunCons(sys: System, s: State, schedule: seq<nat>)
    requires Shaped(sys, s) && schedule != [] && Enabled(s, schedule[0]) &&
             Runnable(sys, Turn(sys, s, schedule[0]), schedule[1..])
    ensures Runnable(sys, s, schedule) && Exec(sys, s, schedule) == Exec(sys, Turn(sys, s, schedule[0]), schedule[1..])
  {
  }

  lemma OneTurn(sys: System, s: State, i: nat)
    requires Shaped(sys, s) && Enabled(s, i)
    ensures Runnable(sys, s, [i]) && Exec(sys, s, [i]) == Turn(sys, s, i)
  {
    var next := Turn(sys, s, i);
    assert [i][1..] == [];
    assert Runnable(sys, next, []) && Exec(sys, next, []) == next;
  }

  // ----- The crowd -----

  // One slot, n calls to one host, and every request succeeds.
  function Crowd(n: nat): System {
    System(1, 0, seq(n, _ => HOST), (i, k) => Response(200, ""))
  }

  // Who is where: admitted, finishing, woken, waiting in this order, and not yet arrived.
  datatype Cast = Cast(admitted: seq<nat>, finishing: seq<nat>, woken: seq<nat>, waiting: seq<nat>, toCome: seq<nat>)

  ghost predicate AllIn(s: State, calls: seq<nat>, phase: Phase) {
    Distinct(calls) && forall q :: 0 <= q < |calls| ==> calls[q] < |s.phase| && s.phase[calls[q]] == phase
  }

  ghost predicate Scene(n: nat, s: State, cast: Cast) {
    && Inv(Crowd(n), s)
    && AllIn(s, cast.admitted, Admitted) && AllIn(s, cast.finishing, Finishing(0))
    && AllIn(s, cast.woken, Woken) && AllIn(s, cast.waiting, Queued) && AllIn(s, cast.toCome, Arrived)
    && (forall w: nat :: w < |s.phase| && s.phase[w].Woken? ==> w in cast.woken)
    && Queue(s.slots, HOST) == cast.waiting
    && Active(s.slots, HOST) == |cast.admitted| + |cast.finishing|
  }

  // Calls in a phase stay in it when only calls in other phases move.
  lemma Stay(s: State, s': State, calls: seq<nat>, phase: Phase, i: nat, j: nat)
    requires AllIn(s, calls, phase) && |s'.phase| == |s.phase| && i < |s.phase| && j < |s.phase|
    requires forall k: nat :: k < |s.phase| && k != i && k != j ==> s'.phase[k] == s.phase[k]
    requires s.phase[i] != phase && s.phase[j] != phase
    ensures AllIn(s', calls, phase)
  {
  }

  lemma Leaves(s: State, s': State, calls: seq<nat>, phase: Phase, j: nat)
    requires calls != [] && AllIn(s, calls, phase) && |s'.phase| == |s.phase| && j < |s.phase|
    requires s.phase[j] != phase || j == calls[0]
    requires forall k: nat :: k < |s.phase| && k != calls[0] && k != j ==> s'.phase[k] == s.phase[k]
    ensures AllIn(s', calls[1..], phase)
  {
  }

  lemma Joins(s: State, s': State, calls: seq<nat>, phase: Phase, i: nat, j: nat)
    requires AllIn(s, calls, phase) && |s'.phase| == |s.phase| && i < |s.phase| && j < |s.phase|
    requires forall k: nat :: k < |s.phase| && k != i && k != j ==> s'.phase[k] == s.phase[k]
    requires s.phase[i] != phase && s.phase[j] != phase && s'.phase[i] == phase
    ensures AllIn(s', calls + [i], phase)
  {
  }

  lemma AtFirst(s: State, calls: seq<nat>, phase: Phase)
    requires calls != [] && AllIn(s, calls, phase)
    ensures calls[0] < |s.phase| && s.phase[calls[0]] == phase
  {
  }

  // What the turns of the crowd do.
  lemma AnsweredTurns(n: nat, s: State, i: nat)
    requires Inv(Crowd(n), s) && i < |s.phase| && s.phase[i] == Admitted
    ensures Runnable(Crowd(n), s, [i, i]) && Inv(Crowd(n), Exec(Crowd(n), s, [i, i])) &&
            Prompt(Crowd(n), s, [i, i]) == ResumesFirst(s, i, [i])
    ensures Exec(Crowd(n), s, [i, i]).phase == s.phase[i := Finishing(0)] && Exec(Crowd(n), s, [i, i]).slots == s.slots
  {
    var sys := Crowd(n);
    TurnInv(sys, s, i);
    var s1 := Turn(sys, s, i);
    assert s1.phase == s.phase[i := Sending(0)] && s1.slots == s.slots;
    TurnInv(sys, s1, i);
    var s2 := Turn(sys, s1, i);
    assert s2.phase == s.phase[i := Finishing(0)] && s2.slots == s.slots;
    assert [i, i][1..] == [i] && [i][1..] == [];
    hide Turn, Inv;
    assert Runnable(sys, s2, []) && Exec(sys, s2, []) == s2 && Prompt(sys, s2, []);
    assert Runnable(sys, s1, [i]) && Exec(sys, s1, [i]) == s2 && Prompt(sys, s1, [i]);
  }

  lemma ArrivalTurn(n: nat, s: State, i: nat)
    requires Inv(Crowd(n), s) && i < |s.phase| && s.phase[i] == Arrived
    ensures var s' := Turn(Crowd(n), s, i);
      && Inv(Crowd(n), s')
      && s'.phase == s.phase[i := if Active(s.slots, HOST) < 1 then Admitted else Queued]
      && Active(s'.slots, HOST) == Active(s.slots, HOST) + (if Active(s.slots, HOST) < 1 then 1 else 0)
      && Queue(s'.slots, HOST) == Queue(s.slots, HOST) + (if Active(s.slots, HOST) < 1 then [] else [i])
  {
    TurnInv(Crowd(n), s, i);
    TurnSlots(Crowd(n), s, i, HOST);
  }

  lemma ResumeTurn(n: nat, s: State, i: nat)
    requires Inv(Crowd(n), s) && i < |s.phase| && s.phase[i] == Woken
    ensures var s' := Turn(Crowd(n), s, i);
      && Inv(Crowd(n), s') && s'.phase == s.phase[i := Admitted]
      && Active(s'.slots, HOST) == Active(s.slots, HOST) + 1 && Queue(s'.slots, HOST) == Queue(s.slots, HOST)
  {
    TurnInv(Crowd(n), s, i);
    TurnSlots(Crowd(n), s, i, HOST);
  }

  lemma ReleaseTurn(n: nat, s: State, i: nat)
    requires Inv(Crowd(n), s) && i < |s.phase| && s.phase[i] == Finishing(0)
    requires Queue(s.slots, HOST) != [] && Active(s.slots, HOST) > 0
    ensures var s', head := Turn(Crowd(n), s, i), Queue(s.slots, HOST)[0];
      && Inv(Crowd(n), s') && head < |s.phase| && s.phase[head] == Queued
      && s'.phase == s.phase[i := Done(0)][head := Woken]
      && Active(s'.slots, HOST) == Active(s.slots, HOST) - 1 && Queue(s'.slots, HOST) == Queue(s.slots, HOST)[1..]
  {
    TurnInv(Crowd(n), s, i);
    TurnSlots(Crowd(n), s, i, HOST);
  }

  // ----- From scene to scene -----

  // A call that holds a slot sends its request and is answered.
  lemma Answered(n: nat, s: State, cast: Cast)
    requires Scene(n, s, cast) && cast.admitted != [] && cast.woken == []
    ensures var i := cast.admitted[0];
      && Runnable(Crowd(n), s, [i, i]) && Prompt(Crowd(n), s, [i, i])
      && Scene(n, Exec(Crowd(n), s, [i, i]), cast.(admitted := cast.admitted[1..], finishing := cast.finishing + [i]))
  {
    var i := cast.admitted[0];
    AtFirst(s, cast.admitted, Admitted);
    AnsweredTurns(n, s, i);
    var s' := Exec(Crowd(n), s, [i, i]);
    hide Inv, Turn, Exec, Runnable, AllIn, Active, Queue;
    Leaves(s, s', cast.admitted, Admitted, i);
    Joins(s, s', cast.finishing, Finishing(0), i, i);
    Stay(s, s', cast.woken, Woken, i, i);
    Stay(s, s', cast.waiting, Queued, i, i);
    Stay(s, s', cast.toCome, Arrived, i, i);
  }

  // A call arrives: it takes the slot if none is taken, else it waits.
  lemma Arrives(n: nat, s: State, cast: Cast)
    requires Scene(n, s, cast) && cast.toCome != []
    ensures var i, free := cast.toCome[0], cast.admitted == [] && cast.finishing == [];
      && Enabled(s, i)
      && Scene(n, Turn(Crowd(n), s, i),
               cast.(admitted := if free then [i] else cast.admitted,
                     waiting := if free then cast.waiting else cast.waiting + [i],
                     toCome := cast.toCome[1..]))
  {
    var i := cast.toCome[0];
    AtFirst(s, cast.toCome, Arrived);
    ArrivalTurn(n, s, i);
    var s' := Turn(Crowd(n), s, i);
    hide Inv, Turn, AllIn, Active, Queue;
    Leaves(s, s', cast.toCome, Arrived, i);
    Stay(s, s', cast.finishing, Finishing(0), i, i);
    Stay(s, s', cast.woken, Woken, i, i);
    if cast.admitted == [] && cast.finishing == [] {
      Joins(s, s', cast.admitted, Admitted, i, i);
      Stay(s, s', cast.waiting, Queued, i, i);
      assert cast.admitted + [i] == [i];
    } else {
      Stay(s, s', cast.admitted, Admitted, i, i);
      Joins(s, s', cast.waiting, Queued, i, i);
    }
  }

  lemma Resumes(n: nat, s: State, cast: Cast)
    requires Scene(n, s, cast) && cast.woken != []
    ensures var i := cast.woken[0];
      && Enabled(s, i)
      && Scene(n, Turn(Crowd(n), s, i), cast.(admitted := cast.admitted + [i], woken := cast.woken[1..]))
  {
    var i := cast.woken[0];
    AtFirst(s, cast.woken, Woken);
    ResumeTurn(n, s, i);
    var s' := Turn(Crowd(n), s, i);
    forall w: nat | w < |s'.phase| && s'.phase[w].Woken? ensures w in cast.woken[1..] {
      assert w in cast.woken && cast.woken == [i] + cast.woken[1..];
    }
    hide Inv, Turn, AllIn, Active, Queue;
    Leaves(s, s', cast.woken, Woken, i);
    Joins(s, s', cast.admitted, Admitted, i, i);
    Stay(s, s', cast.finishing, Finishing(0), i, i);
    Stay(s, s', cast.waiting, Queued, i, i);
    Stay(s, s', cast.toCome, Arrived, i, i);
  }

  lemma Releases(n: nat, s: State, cast: Cast)
    requires Scene(n, s, cast) && cast.finishing != [] && cast.waiting != []
    ensures var i := cast.finishing[0];
      && Enabled(s, i)
      && Scene(n, Turn(Crowd(n), s, i),
               cast.(finishing := cast.finishing[1..], woken := cast.woken + [cast.waiting[0]],
                     waiting := cast.waiting[1..]))
  {
    var i, w := cast.finishing[0], cast.waiting[0];
    AtFirst(s, cast.finishing, Finishing(0));
    ReleaseTurn(n, s, i);
    var s' := Turn(Crowd(n), s, i);
    hide Inv, Turn, AllIn, Active, Queue;
    Leaves(s, s', cast.finishing, Finishing(0), w);
    Leaves(s, s', cast.waiting, Queued, i);
    Joins(s, s', cast.woken, Woken, w, i);
    Stay(s, s', cast.admitted, Admitted, i, w);
    Stay(s, s', cast.toCome, Arrived, i, w);
  }

  lemma SceneShaped(n: nat, s: State, cast: Cast)
    requires Scene(n, s, cast)
    ensures Shaped(Crowd(n), s)
  {
  }

  // These turns lead promptly to this scene.
  ghost predicate Leads(n: nat, s: State, turns: seq<nat>, cast: Cast)
    requires Shaped(Crowd(n), s)
  {
    Runnable(Crowd(n), s, turns) && Prompt(Crowd(n), s, turns) && Scene(n, Exec(Crowd(n), s, turns), cast)
  }

  lemma LeadsOn(n: nat, s: State, a: seq<nat>, mid: Cast, b: seq<nat>, cast: Cast)
    requires Inv(Crowd(n), s) && Leads(n, s, a, mid) && mid.woken == [] && Leads(n, Exec(Crowd(n), s, a), b, cast)
    ensures Leads(n, s, a + b, cast)
  {
    PromptConcat(Crowd(n), s, a, b);
  }

  // Every call that holds a slot has been answered.
  function AllFinishing(cast: Cast): Cast {
    cast.(admitted := [], finishing := cast.finishing + cast.admitted)
  }

  lemma AllFinishingNext(cast: Cast)
    requires cast.admitted != []
    ensures AllFinishing(cast.(admitted := cast.admitted[1..], finishing := cast.finishing + [cast.admitted[0]])) ==
            AllFinishing(cast)
  {
  }

  lemma {:induction false} AllAnswered(n: nat, s: State, cast: Cast) returns (turns: seq<nat>)
    requires Scene(n, s, cast) && cast.woken == []
    ensures Leads(n, s, turns, AllFinishing(cast))
    decreases |cast.admitted|
  {
    if cast.admitted == [] {
      turns := [];
      assert AllFinishing(cast) == cast;
    } else {
      var i := cast.admitted[0];
      assert Inv(Crowd(n), s);
      hide Scene, Prompt, Runnable, Exec, Inv, Crowd;
      Answered(n, s, cast);
      var mid := cast.(admitted := cast.admitted[1..], finishing := cast.finishing + [i]);
      AllFinishingNext(cast);
      hide AllFinishing;
      var rest := AllAnswered(n, Exec(Crowd(n), s, [i, i]), mid);
      LeadsOn(n, s, [i, i], mid, rest, AllFinishing(cast));
      turns := [i, i] + rest;
    }
  }

  lemma {:induction false} AllRelease(n: nat, s: State, cast: Cast)
    requires Scene(n, s, cast) && |cast.finishing| <= |cast.waiting|
    ensures Runnable(Crowd(n), s, cast.finishing)
    ensures Scene(n, Exec(Crowd(n), s, cast.finishing), Released(cast))
    decreases |cast.finishing|
  {
    SceneShaped(n, s, cast);
    hide Scene, Shaped, Turn, Crowd;
    if cast.finishing == [] {
      assert cast.woken + cast.waiting[..0] == cast.woken && cast.waiting[0..] == cast.waiting;
    } else {
      Releases(n, s, cast);
      var next := cast.(finishing := cast.finishing[1..], woken := cast.woken + [cast.waiting[0]],
                        waiting := cast.waiting[1..]);
      ReleasedNext(cast);
      hide Released;
      AllRelease(n, Turn(Crowd(n), s, cast.finishing[0]), next);
      hide Runnable, Exec;
      RunCons(Crowd(n), s, cast.finishing);
    }
  }

  lemma ReleasedNext(cast: Cast)
    requires cast.finishing != [] && |cast.finishing| <= |cast.waiting|
    ensures Released(cast.(finishing := cast.finishing[1..], woken := cast.woken + [cast.waiting[0]],
                           waiting := cast.waiting[1..]))
            == Released(cast)
  {
  }

  // Every call that is finishing has released its slot and woken a waiter.
  function Released(cast: Cast): Cast
    requires |cast.finishing| <= |cast.waiting|
  {
    var k := |cast.finishing|;
    cast.(finishing := [], woken := cast.woken + cast.waiting[..k], waiting := cast.waiting[k..])
  }

  lemma {:induction false} AllResume(n: nat, s: State, cast: Cast)
    requires Scene(n, s, cast)
    ensures Runnable(Crowd(n), s, cast.woken)
    ensures Scene(n, Exec(Crowd(n), s, cast.woken), Resumed(cast))
    decreases |cast.woken|
  {
    SceneShaped(n, s, cast);
    hide Scene, Shaped, Turn, Crowd;
    if cast.woken == [] {
      assert Resumed(cast) == cast;
    } else {
      Resumes(n, s, cast);
      var next := cast.(admitted := cast.admitted + [cast.woken[0]], woken := cast.woken[1..]);
      ResumedNext(cast);
      hide Resumed;
      AllResume(n, Turn(Crowd(n), s, cast.woken[0]), next);
      hide Runnable, Exec;
      RunCons(Crowd(n), s, cast.woken);
    }
  }

  // Every woken waiter has counted itself in.
  function Resumed(cast: Cast): Cast {
    cast.(admitted := cast.admitted + cast.woken, woken := [])
  }

  lemma ResumedNext(cast: Cast)
    requires cast.woken != []
    ensures Resumed(cast.(admitted := cast.admitted + [cast.woken[0]], woken := cast.woken[1..])) == Resumed(cast)
  {
  }

  // All holders release one after the other, one call arrives and takes the slot, and the waiters resume.
  function Burst(cast: Cast): seq<nat>
    requires |cast.finishing| <= |cast.waiting| && cast.toCome != []
  {
    cast.finishing + [cast.toCome[0]] + cast.waiting[..|cast.finishing|]
  }

  function AfterBurst(cast: Cast): Cast
    requires |cast.finishing| <= |cast.waiting| && cast.toCome != []
  {
    var k := |cast.finishing|;
    Cast([cast.toCome[0]] + cast.waiting[..k], [], [], cast.waiting[k..], cast.toCome[1..])
  }

  lemma BurstDistinct(s: State, cast: Cast)
    requires |cast.finishing| <= |cast.waiting| && cast.toCome != []
    requires AllIn(s, cast.finishing, Finishing(0)) && AllIn(s, cast.waiting, Queued) && AllIn(s, cast.toCome, Arrived)
    ensures Distinct(Burst(cast))
  {
    var k, burst := |cast.finishing|, Burst(cast);
    forall q | 0 <= q < |burst|
      ensures burst[q] < |s.phase|
      ensures s.phase[burst[q]] == if q < k then Finishing(0) else if q == k then Arrived else Queued
    {
    }
    forall i, j | 0 <= i < j < |burst| ensures burst[i] != burst[j] {
      if j < k { assert burst[i] == cast.finishing[i] && burst[j] == cast.finishing[j]; }
      if i > k { assert burst[i] == cast.waiting[i - k - 1] && burst[j] == cast.waiting[j - k - 1]; }
    }
  }

  lemma BurstLeads(n: nat, s: State, cast: Cast)
    requires Scene(n, s, cast) && cast.admitted == [] && cast.woken == []
    requires |cast.finishing| <= |cast.waiting| && cast.toCome != []
    ensures Leads(n, s, Burst(cast), AfterBurst(cast))
  {
    var sys, k, i := Crowd(n), |cast.finishing|, cast.toCome[0];
    SceneShaped(n, s, cast);
    BurstDistinct(s, cast);
    AllRelease(n, s, cast);
    var released, free := Released(cast), Exec(sys, s, cast.finishing);
    assert released.woken == cast.waiting[..k];
    Arrives(n, free, released);
    var entered := released.(admitted := [i], toCome := cast.toCome[1..]);
    SceneShaped(n, free, released);
    hide Scene, Turn, Crowd;
    OneTurn(sys, free, i);
    RunConcat(sys, s, cast.finishing, [i]);
    var mid := Exec(sys, s, cast.finishing + [i]);
    AllResume(n, mid, entered);
    RunConcat(sys, s, cast.finishing + [i], entered.woken);
    hide Exec, Runnable;
    DistinctPrompt(sys, s, Burst(cast));
  }

  // One call more than before holds a slot.
  lemma Round(n: nat, s: State, cast: Cast) returns (turns: seq<nat>, after: Cast)
    requires Scene(n, s, cast) && cast.finishing == [] && cast.woken == []
    requires |cast.admitted| <= |cast.waiting| && cast.toCome != []
    ensures Leads(n, s, turns, after)
    ensures after.finishing == [] && after.woken == [] && |after.admitted| == |cast.admitted| + 1
    ensures |after.waiting| == |cast.waiting| - |cast.admitted| && |after.toCome| == |cast.toCome| - 1
  {
    var first := AllAnswered(n, s, cast);
    var mid := cast.(admitted := [], finishing := cast.admitted);
    assert cast.finishing + cast.admitted == cast.admitted;
    after := AfterBurst(mid);
    BurstLeads(n, Exec(Crowd(n), s, first), mid);
    assert Inv(Crowd(n), s);
    hide Prompt, Exec, Runnable, AllIn, Inv;
    LeadsOn(n, s, first, mid, Burst(mid), after);
    turns := first + Burst(mid);
  }

  // The waiters that r rounds use up, starting from k holders.
  function Needed(k: nat, r: nat): nat
    decreases r
  {
    if r == 0 then 0 else k + Needed(k + 1, r - 1)
  }

  lemma {:induction false} Rounds(n: nat, s: State, cast: Cast, r: nat) returns (turns: seq<nat>, after: Cast)
    requires Scene(n, s, cast) && cast.finishing == [] && cast.woken == []
    requires |cast.waiting| >= Needed(|cast.admitted|, r) && |cast.toCome| >= r
    ensures Leads(n, s, turns, after) && |after.admitted| == |cast.admitted| + r && after.finishing == []
    decreases r
  {
    if r == 0 {
      turns, after := [], cast;
    } else {
      var first, mid := Round(n, s, cast);
      assert Inv(Crowd(n), s);
      hide Prompt, Exec, Runnable, Scene, Inv;
      var rest;
      rest, after := Rounds(n, Exec(Crowd(n), s, first), mid, r - 1);
      LeadsOn(n, s, first, mid, rest, after);
      turns := first + rest;
    }
  }

  lemma {:induction false} Gather(n: nat, s: State, cast: Cast, q: nat) returns (turns: seq<nat>, after: Cast)
    requires Scene(n, s, cast) && cast.admitted != [] && cast.finishing == [] && cast.woken == [] && q <= |cast.toCome|
    ensures Leads(n, s, turns, after) && after.admitted == cast.admitted && after.finishing == [] && after.woken == []
    ensures |after.waiting| == |cast.waiting| + q && |after.toCome| == |cast.toCome| - q
    decreases q
  {
    if q == 0 {
      turns, after := [], cast;
    } else {
      var i := cast.toCome[0];
      Arrives(n, s, cast);
      OneTurn(Crowd(n), s, i);
      DistinctPrompt(Crowd(n), s, [i]);
      var mid := cast.(waiting := cast.waiting + [i], toCome := cast.toCome[1..]);
      assert Inv(Crowd(n), s);
      hide Prompt, Exec, Runnable, Scene, Inv;
      var rest;
      rest, after := Gather(n, Exec(Crowd(n), s, [i]), mid, q - 1);
      LeadsOn(n, s, [i], mid, rest, after);
      turns := [i] + rest;
    }
  }

  lemma Opening(n: nat)
    requires n >= 1
    ensures Scene(n, Start(Crowd(n)), Cast([], [], [], [], seq(n, i => i)))
  {
    StartInv(Crowd(n));
  }

  // However large r is, a limiter with a maximum of one can have r + 1 calls holding a slot at the same time, although
  // every resolved waiter resumes in its turn.
  lemma NoFixedCap(r: nat) returns (sys: System, schedule: seq<nat>)
    ensures sys.max == 1 && Runnable(sys, Start(sys), schedule) && Prompt(sys, Start(sys), schedule)
    ensures Active(Exec(sys, Start(sys), schedule).slots, HOST) == sys.max + r
  {
    var n := 1 + Needed(1, r) + r;
    sys := Crowd(n);
    var all := Cast([], [], [], [], seq(n, i => i));
    Opening(n);
    var start := Start(sys);
    Arrives(n, start, all);
    OneTurn(sys, start, 0);
    DistinctPrompt(sys, start, [0]);
    var one := all.(admitted := [0], toCome := all.toCome[1..]);
    var gathering, crowd := Gather(n, Exec(sys, start, [0]), one, Needed(1, r));
    assert Inv(sys, start);
    hide Prompt, Inv, Turn;
    LeadsOn(n, start, [0], one, gathering, crowd);
    var rounds, after := Rounds(n, Exec(sys, start, [0] + gathering), crowd, r);
    LeadsOn(n, start, [0] + gathering, crowd, rounds, after);
    schedule := [0] + gathering + rounds;
  }
}
