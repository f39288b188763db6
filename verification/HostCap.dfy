// Exactly when the limiter caps the calls of a host, and schedules that keep to the order of resolved promises
// (src/backend/utils/http-retry.ts:51-70).
module HostCap {
  import opened Limiter
  import opened HostCalls
  import opened HostRuns

  // A call arrives while a slot is free, but only because every free slot is promised to a woken waiter.
  predicate Overtaking(sys: System, s: State, i: nat, host: string)
    requires i < |s.phase| == |sys.hosts|
  {
    host == sys.hosts[i] && s.phase[i].Arrived? && Active(s.slots, host) < sys.max <= Promised(sys, s, host)
  }

  lemma TurnOvertakes(sys: System, s: State, i: nat, host: string)
    requires Shaped(sys, s) && i < |s.phase|
    ensures Overtakes(Turn(sys, s, i), host) == Overtakes(s, host) + if Overtaking(sys, s, i, host) then 1 else 0
  {
    hide Promised, Active, NextPhases, NextSlots;
  }

  // One turn takes the slots taken and promised past the maximum exactly when it admits an overtaking call.
  lemma TurnBreaksExactly(sys: System, s: State, i: nat, host: string)
    requires Shaped(sys, s) && QueuesExact(sys, s) && Enabled(s, i)
    requires CountsAt(sys, s, host) && Promised(sys, s, host) <= sys.max
    ensures Promised(sys, Turn(sys, s, i), host) > sys.max <==> Overtaking(sys, s, i, host)
  {
    hide NextSlots, NextPhases, QueuesExact, Tally, Active, Queue;
    TurnSlots(sys, s, i, host);
    TurnTally(sys, s, i, host, Waking);
    TurnTally(sys, s, i, host, Holding);
    if host == sys.hosts[i] && s.phase[i].Finishing? { TallyPositive(sys.hosts, s.phase, Holding, i); }
  }

  // In every state along the run the slots taken and promised stay within the maximum.
  ghost predicate WithinCap(sys: System, s: State, schedule: seq<nat>, host: string)
    requires Shaped(sys, s) && Runnable(sys, s, schedule)
    decreases |schedule|
  {
    && Promised(sys, s, host) <= sys.max
    && (schedule != [] ==> WithinCap(sys, Turn(sys, s, schedule[0]), schedule[1..], host))
  }

  lemma {:induction false} OvertakesGrow(sys: System, s: State, schedule: seq<nat>, host: string)
    requires Shaped(sys, s) && Runnable(sys, s, schedule)
    ensures Overtakes(s, host) <= Overtakes(Exec(sys, s, schedule), host)
    decreases |schedule|
  {
    if schedule != [] {
      TurnOvertakes(sys, s, schedule[0], host);
      OvertakesGrow(sys, Turn(sys, s, schedule[0]), schedule[1..], host);
    }
  }

  lemma {:induction false} WithinCapExactly(sys: System, s: State, schedule: seq<nat>, host: string)
    requires Inv(sys, s) && Runnable(sys, s, schedule) && Promised(sys, s, host) <= sys.max
    ensures WithinCap(sys, s, schedule, host) <==> Overtakes(Exec(sys, s, schedule), host) == Overtakes(s, host)
    decreases |schedule|
  {
    if schedule != [] {
      var s' := Turn(sys, s, schedule[0]);
      TurnInv(sys, s, schedule[0]);
      TurnOvertakes(sys, s, schedule[0], host);
      assert CountsAt(sys, s, host);
      TurnBreaksExactly(sys, s, schedule[0], host);
      hide Inv, Promised, Overtaking;
      if Overtaking(sys, s, schedule[0], host) {
        OvertakesGrow(sys, s', schedule[1..], host);
      } else {
        WithinCapExactly(sys, s', schedule[1..], host);
      }
    }
  }

  // Turns of woken waiters only.
  ghost predicate Resumptions(sys: System, s: State, turns: seq<nat>)
    requires Shaped(sys, s)
    decreases |turns|
  {
    turns == [] ||
      (turns[0] < |s.phase| && s.phase[turns[0]].Woken? && Resumptions(sys, Turn(sys, s, turns[0]), turns[1..]))
  }

  lemma {:induction false} ResumptionsRun(sys: System, s: State, turns: seq<nat>, host: string)
    requires Inv(sys, s) && Resumptions(sys, s, turns)
    ensures Runnable(sys, s, turns) && Promised(sys, Exec(sys, s, turns), host) == Promised(sys, s, host)
    decreases |turns|
  {
    if turns != [] {
      ResumptionKeeps(sys, s, turns[0], host);
      TurnInv(sys, s, turns[0]);
      ResumptionsRun(sys, Turn(sys, s, turns[0]), turns[1..], host);
    }
  }

  lemma ResumptionKeeps(sys: System, s: State, i: nat, host: string)
    requires Inv(sys, s) && i < |s.phase| && s.phase[i].Woken?
    ensures Promised(sys, Turn(sys, s, i), host) == Promised(sys, s, host)
    ensures Tally(sys.hosts, Turn(sys, s, i).phase, host, Waking) ==
            Tally(sys.hosts, s.phase, host, Waking) - if sys.hosts[i] == host then 1 else 0
  {
    hide NextSlots, NextPhases, QueuesExact, Tally, Active, Queue, CountsAt;
    TurnSlots(sys, s, i, host);
    TurnTally(sys, s, i, host, Waking);
  }

  // The waiters woken for a host can all resume at once, and then hold what was promised.
  lemma {:induction false} ResumeAll(sys: System, s: State, host: string) returns (turns: seq<nat>)
    requires Inv(sys, s)
    ensures Resumptions(sys, s, turns) && Runnable(sys, s, turns)
    ensures Active(Exec(sys, s, turns).slots, host) == Promised(sys, s, host)
    decreases Tally(sys.hosts, s.phase, host, Waking)
  {
    if Tally(sys.hosts, s.phase, host, Waking) == 0 {
      turns := [];
    } else {
      var i := TallyWitness(sys.hosts, s.phase, host, Waking);
      ResumptionKeeps(sys, s, i, host);
      TurnInv(sys, s, i);
      hide Inv, Tally, Promised, Active;
      var rest := ResumeAll(sys, Turn(sys, s, i), host);
      turns := [i] + rest;
      assert turns[1..] == rest;
    }
  }

  ghost predicate ExceedsNow(sys: System, s: State, host: string)
    requires Shaped(sys, s)
  {
    exists turns ::
      Resumptions(sys, s, turns) && Runnable(sys, s, turns) && Active(Exec(sys, s, turns).slots, host) > sys.max
  }

  // Some state of the run leads, by resumptions alone, to more calls holding a slot than the maximum.
  ghost predicate ExceedsCap(sys: System, s: State, schedule: seq<nat>, host: string)
    requires Shaped(sys, s) && Runnable(sys, s, schedule)
    decreases |schedule|
  {
    || ExceedsNow(sys, s, host)
    || (schedule != [] && ExceedsCap(sys, Turn(sys, s, schedule[0]), schedule[1..], host))
  }

  lemma ExceedsHere(sys: System, s: State, host: string)
    requires Inv(sys, s)
    ensures ExceedsNow(sys, s, host) <==> Promised(sys, s, host) > sys.max
  {
    forall turns | Resumptions(sys, s, turns) && Runnable(sys, s, turns)
      ensures Active(Exec(sys, s, turns).slots, host) <= Promised(sys, s, host)
    {
      ResumptionsRun(sys, s, turns, host);
    }
    var all := ResumeAll(sys, s, host);
  }

  lemma {:induction false} ExceedsExactly(sys: System, s: State, schedule: seq<nat>, host: string)
    requires Inv(sys, s) && Runnable(sys, s, schedule)
    ensures ExceedsCap(sys, s, schedule, host) <==> !WithinCap(sys, s, schedule, host)
    decreases |schedule|
  {
    ExceedsHere(sys, s, host);
    hide ExceedsNow, Promised;
    if schedule != [] {
      TurnInv(sys, s, schedule[0]);
      ExceedsExactly(sys, Turn(sys, s, schedule[0]), schedule[1..], host);
    }
  }

  // The cap holds exactly for the runs without overtaking: then no call is ever admitted beyond the maximum, and if
  // there was one overtaking, the waiters woken at that moment need only resume to exceed it.
  lemma CapHoldsExactly(sys: System, schedule: seq<nat>, host: string)
    requires sys.max >= 0 && Runnable(sys, Start(sys), schedule)
    ensures WithinCap(sys, Start(sys), schedule, host) <==> Overtakes(Exec(sys, Start(sys), schedule), host) == 0
    ensures ExceedsCap(sys, Start(sys), schedule, host) <==> Overtakes(Exec(sys, Start(sys), schedule), host) > 0
  {
    StartInv(sys);
    assert CountsAt(sys, Start(sys), host);
    WithinCapExactly(sys, Start(sys), schedule, host);
    ExceedsExactly(sys, Start(sys), schedule, host);
  }

  // ----- Calls that hold a slot -----

  // A woken waiter resumes while no slot is free.
  predicate Overstepping(sys: System, s: State, i: nat, host: string)
    requires i < |s.phase| == |sys.hosts|
  {
    host == sys.hosts[i] && s.phase[i].Woken? && Active(s.slots, host) >= sys.max
  }

  lemma TurnOverstepsExactly(sys: System, s: State, i: nat, host: string)
    requires Shaped(sys, s) && QueuesExact(sys, s) && Enabled(s, i) && CountsAt(sys, s, host) &&
             Active(s.slots, host) <= sys.max
    ensures Active(Turn(sys, s, i).slots, host) > sys.max <==> Overstepping(sys, s, i, host)
  {
    hide NextSlots, NextPhases, QueuesExact, Tally, Active, Queue;
    TurnSlots(sys, s, i, host);
  }

  // In every state along the run at most as many calls as allowed hold a slot.
  ghost predicate HeldWithinCap(sys: System, s: State, schedule: seq<nat>, host: string)
    requires Shaped(sys, s) && Runnable(sys, s, schedule)
    decreases |schedule|
  {
    && Active(s.slots, host) <= sys.max
    && (schedule != [] ==> HeldWithinCap(sys, Turn(sys, s, schedule[0]), schedule[1..], host))
  }

  // Some turn of the run oversteps.
  ghost predicate Oversteps(sys: System, s: State, schedule: seq<nat>, host: string)
    requires Shaped(sys, s) && Runnable(sys, s, schedule)
    decreases |schedule|
  {
    schedule != [] &&
    (Overstepping(sys, s, schedule[0], host) || Oversteps(sys, Turn(sys, s, schedule[0]), schedule[1..], host))
  }

  lemma {:induction false} HeldExactlyFrom(sys: System, s: State, schedule: seq<nat>, host: string)
    requires Inv(sys, s) && Runnable(sys, s, schedule) && Active(s.slots, host) <= sys.max
    ensures HeldWithinCap(sys, s, schedule, host) <==> !Oversteps(sys, s, schedule, host)
    decreases |schedule|
  {
    if schedule != [] {
      var s' := Turn(sys, s, schedule[0]);
      TurnInv(sys, s, schedule[0]);
      assert CountsAt(sys, s, host);
      TurnOverstepsExactly(sys, s, schedule[0], host);
      hide Inv, Active, Overstepping;
      if Active(s'.slots, host) <= sys.max {
        HeldExactlyFrom(sys, s', schedule[1..], host);
      }
    }
  }

  // More calls than allowed hold a slot at some moment exactly if some waiter resumes while no slot is free; and nobody
  // does unless somebody overtook before.
  lemma HeldExactly(sys: System, schedule: seq<nat>, host: string)
    requires sys.max >= 0 && Runnable(sys, Start(sys), schedule)
    ensures HeldWithinCap(sys, Start(sys), schedule, host) <==> !Oversteps(sys, Start(sys), schedule, host)
    ensures Oversteps(sys, Start(sys), schedule, host) ==> Overtakes(Exec(sys, Start(sys), schedule), host) > 0
  {
    StartInv(sys);
    assert CountsAt(sys, Start(sys), host);
    HeldExactlyFrom(sys, Start(sys), schedule, host);
    CapHoldsExactly(sys, schedule, host);
    hide WithinCap, HeldWithinCap, Oversteps, ExceedsCap, Exec, Overtakes, Runnable, Active;
    if WithinCap(sys, Start(sys), schedule, host) { WithinMeansHeld(sys, Start(sys), schedule, host); }
  }

  lemma {:induction false} WithinMeansHeld(sys: System, s: State, schedule: seq<nat>, host: string)
    requires Inv(sys, s) && Runnable(sys, s, schedule) && WithinCap(sys, s, schedule, host)
    ensures HeldWithinCap(sys, s, schedule, host)
    decreases |schedule|
  {
    if schedule != [] {
      TurnInv(sys, s, schedule[0]);
      WithinMeansHeld(sys, Turn(sys, s, schedule[0]), schedule[1..], host);
    }
  }
}
