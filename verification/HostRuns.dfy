// Whole runs of concurrent WHM calls: bounds, termination, completion, fairness and independence of hosts.
module HostRuns {
  import opened Limiter
  import opened Retry
  import opened Whm
  import opened HostCalls

  // A schedule lists which call takes each turn.
  ghost predicate Runnable(sys: System, s: State, schedule: seq<nat>)
    requires Shaped(sys, s)
    decreases |schedule|
  {
    schedule == [] || (Enabled(s, schedule[0]) && Runnable(sys, Turn(sys, s, schedule[0]), schedule[1..]))
  }

  ghost function Exec(sys: System, s: State, schedule: seq<nat>): (s': State)
    requires Shaped(sys, s) && Runnable(sys, s, schedule)
    ensures Shaped(sys, s')
    decreases |schedule|
  {
    if schedule == [] then s else Exec(sys, Turn(sys, s, schedule[0]), schedule[1..])
  }

  // Nobody can take a turn.
  ghost predicate AtRest(s: State) {
    forall i: nat :: !Enabled(s, i)
  }

  ghost predicate AllDone(s: State) {
    forall i: nat :: i < |s.phase| ==> s.phase[i].Done?
  }

  lemma {:induction false} RunInv(sys: System, s: State, schedule: seq<nat>)
    requires Inv(sys, s) && Runnable(sys, s, schedule)
    ensures Inv(sys, Exec(sys, s, schedule))
    decreases |schedule|
  {
    if schedule != [] {
      TurnInv(sys, s, schedule[0]);
      RunInv(sys, Turn(sys, s, schedule[0]), schedule[1..]);
    }
  }

  // ----- The concurrency bound -----

  // In every reachable state, per host: calls holding a slot plus waiters promised one pass the maximum by at most
  // the number of overtakes, and outstanding requests never outnumber the slots taken.
  lemma ConcurrencyBound(sys: System, schedule: seq<nat>, host: string)
    requires sys.max >= 0 && Runnable(sys, Start(sys), schedule)
    ensures var s := Exec(sys, Start(sys), schedule);
      && Active(s.slots, host) == Tally(sys.hosts, s.phase, host, Holding)
      && Promised(sys, s, host) <= sys.max + Overtakes(s, host)
      && Tally(sys.hosts, s.phase, host, Outstanding) <= Active(s.slots, host)
  {
    StartInv(sys);
    RunInv(sys, Start(sys), schedule);
    var s := Exec(sys, Start(sys), schedule);
    assert CountsAt(sys, s, host);
    OutstandingHold(sys.hosts, s.phase, host);
  }

  // ----- Termination and completion -----

  function Rank(sys: System, p: Phase): nat {
    var last := sys.Last();
    match p
    case Arrived => 2 * last + 6
    case Queued => 2 * last + 5
    case Woken => 2 * last + 4
    case Admitted => 2 * last + 3
    case Sending(k) => if k <= last then 2 * (last - k) + 2 else 0
    case Sleeping(k) => if k <= last then 2 * (last - k) + 1 else 0
    case Finishing(_) => 1
    case Done(_) => 0
  }

  function Measure(sys: System, phase: seq<Phase>): nat {
    if phase == [] then 0 else Rank(sys, phase[0]) + Measure(sys, phase[1..])
  }

  lemma {:induction false} MeasureUpdate(sys: System, phase: seq<Phase>, i: nat, p: Phase)
    requires i < |phase|
    ensures Measure(sys, phase[i := p]) == Measure(sys, phase) - Rank(sys, phase[i]) + Rank(sys, p)
  {
    if i == 0 {
      assert phase[0 := p][1..] == phase[1..];
    } else {
      assert phase[i := p][1..] == phase[1..][i - 1 := p];
      MeasureUpdate(sys, phase[1..], i - 1, p);
    }
  }

  lemma {:induction false} MeasureStart(sys: System, phase: seq<Phase>)
    requires forall i :: 0 <= i < |phase| ==> phase[i] == Arrived
    ensures Measure(sys, phase) == |phase| * (2 * sys.Last() + 6)
  {
    if phase != [] {
      MeasureStart(sys, phase[1..]);
      assert |phase| * (2 * sys.Last() + 6) == (|phase| - 1) * (2 * sys.Last() + 6) + (2 * sys.Last() + 6);
    }
  }

  lemma RankDrops(sys: System, s: State, i: nat)
    requires Shaped(sys, s) && Enabled(s, i) && Accounted(sys, s, i)
    ensures Rank(sys, NextPhase(sys, s, i)) < Rank(sys, s.phase[i])
  {
    hide Active, Shaped;
  }

  lemma TurnDrops(sys: System, s: State, i: nat)
    requires Inv(sys, s) && Enabled(s, i)
    ensures Measure(sys, Turn(sys, s, i).phase) < Measure(sys, s.phase)
  {
    hide Tally, Active, CountsAt;
    var next := NextPhase(sys, s, i);
    assert Accounted(sys, s, i);
    RankDrops(sys, s, i);
    hide NextPhase, Accounted, NextSlots;
    MeasureUpdate(sys, s.phase, i, next);
    if Wakes(sys, s, i) {
      var h := Queue(s.slots, sys.hosts[i])[0];
      assert s.phase[h].Queued?;
      MeasureUpdate(sys, s.phase[i := next], h, Woken);
    }
  }

  lemma {:induction false} RunDrops(sys: System, s: State, schedule: seq<nat>)
    requires Inv(sys, s) && Runnable(sys, s, schedule)
    ensures |schedule| + Measure(sys, Exec(sys, s, schedule).phase) <= Measure(sys, s.phase)
    decreases |schedule|
  {
    if schedule != [] {
      TurnDrops(sys, s, schedule[0]);
      TurnInv(sys, s, schedule[0]);
      RunDrops(sys, Turn(sys, s, schedule[0]), schedule[1..]);
    }
  }

  // No run is longer than this, whatever the interleaving and the transport outcomes.
  lemma RunsEnd(sys: System, schedule: seq<nat>)
    requires sys.max >= 0 && Runnable(sys, Start(sys), schedule)
    ensures |schedule| <= |sys.hosts| * (2 * sys.Last() + 6)
  {
    StartInv(sys);
    RunDrops(sys, Start(sys), schedule);
    MeasureStart(sys, Start(sys).phase);
  }

  // No deadlock: with at least one slot per host, as long as one call is not done, some call can move.
  lemma Progress(sys: System, s: State, i: nat) returns (j: nat)
    requires sys.max >= 1 && Inv(sys, s) && i < |s.phase| && !s.phase[i].Done?
    ensures Enabled(s, j)
  {
    if !s.phase[i].Queued? { return i; }
    var host := sys.hosts[i];
    assert i in Queue(s.slots, host);
    assert CountsAt(sys, s, host);
    if Active(s.slots, host) > 0 {
      j := TallyWitness(sys.hosts, s.phase, host, Holding);
    } else {
      j := TallyWitness(sys.hosts, s.phase, host, Waking);
    }
  }

  lemma RestMeansDone(sys: System, s: State)
    requires sys.max >= 1 && Inv(sys, s) && AtRest(s)
    ensures AllDone(s)
  {
    forall i: nat | i < |s.phase| ensures s.phase[i].Done? {
      if !s.phase[i].Done? {
        var j := Progress(sys, s, i);
        assert false;
      }
    }
  }

  ghost predicate Settled(sys: System, s: State, i: nat)
    requires Shaped(sys, s) && i < |s.phase|
  {
    s.phase[i].Done? && Settles(sys.Stream(i), sys.retries, s.phase[i].attempt) &&
    s.requests[i] == s.phase[i].attempt + 1 && s.freed[i] == 1
  }

  lemma HeadWaits(sys: System, s: State, host: string)
    requires Shaped(sys, s) && QueuesExact(sys, s) && Queue(s.slots, host) != []
    ensures exists i: nat :: i < |s.phase| && s.phase[i].Queued?
  {
    var head := Queue(s.slots, host)[0];
    assert s.phase[head].Queued?;
  }

  lemma DoneMeansIdle(sys: System, s: State, host: string)
    requires Inv(sys, s) && AllDone(s)
    ensures Active(s.slots, host) == 0 && Queue(s.slots, host) == []
  {
    assert CountsAt(sys, s, host);
    TallyEmpty(sys.hosts, s.phase, host, Holding);
    if Queue(s.slots, host) != [] { HeadWaits(sys, s, host); }
  }

  lemma CallSettles(sys: System, schedule: seq<nat>, i: nat)
    requires sys.max >= 1 && Runnable(sys, Start(sys), schedule) && AtRest(Exec(sys, Start(sys), schedule))
    requires i < |sys.hosts|
    ensures Settled(sys, Exec(sys, Start(sys), schedule), i)
  {
    StartInv(sys);
    RunInv(sys, Start(sys), schedule);
    var s := Exec(sys, Start(sys), schedule);
    RestMeansDone(sys, s);
    assert s.phase[i].Done? && Accounted(sys, s, i);
  }

  // Every run that cannot continue has finished every call with the outcome its own transport stream settles on,
  // has freed every slot once, and leaves every count and queue empty.
  lemma Completion(sys: System, schedule: seq<nat>)
    requires sys.max >= 1 && Runnable(sys, Start(sys), schedule) && AtRest(Exec(sys, Start(sys), schedule))
    ensures forall i: nat :: i < |sys.hosts| ==> Settled(sys, Exec(sys, Start(sys), schedule), i)
    ensures forall host: string ::
              Active(Exec(sys, Start(sys), schedule).slots, host) == 0 &&
                Queue(Exec(sys, Start(sys), schedule).slots, host) == []
  {
    forall i: nat | i < |sys.hosts| ensures Settled(sys, Exec(sys, Start(sys), schedule), i) {
      CallSettles(sys, schedule, i);
    }
    StartInv(sys);
    RunInv(sys, Start(sys), schedule);
    var s := Exec(sys, Start(sys), schedule);
    RestMeansDone(sys, s);
    forall host: string ensures Active(s.slots, host) == 0 && Queue(s.slots, host) == [] {
      DoneMeansIdle(sys, s, host);
    }
  }

  // The interleaving decides nothing a caller can see: any two complete runs end every call the same way.
  lemma ScheduleIrrelevant(sys: System, one: seq<nat>, two: seq<nat>)
    requires sys.max >= 1
    requires Runnable(sys, Start(sys), one) && AtRest(Exec(sys, Start(sys), one))
    requires Runnable(sys, Start(sys), two) && AtRest(Exec(sys, Start(sys), two))
    ensures Exec(sys, Start(sys), one).phase == Exec(sys, Start(sys), two).phase
    ensures Exec(sys, Start(sys), one).requests == Exec(sys, Start(sys), two).requests
  {
    var a, b := Exec(sys, Start(sys), one), Exec(sys, Start(sys), two);
    forall i: nat | i < |a.phase| ensures a.phase[i] == b.phase[i] && a.requests[i] == b.requests[i] {
      CallSettles(sys, one, i);
      CallSettles(sys, two, i);
      DecidesUnique(Attempts(sys.Stream(i)), IsRetryable, sys.retries, a.phase[i].attempt, b.phase[i].attempt);
    }
  }

  function Total(xs: seq<nat>): nat {
    if xs == [] then 0 else xs[0] + Total(xs[1..])
  }

  lemma {:induction false} TotalAtMost(xs: seq<nat>, bound: nat)
    requires forall i :: 0 <= i < |xs| ==> xs[i] <= bound
    ensures Total(xs) <= |xs| * bound
  {
    if xs != [] {
      TotalAtMost(xs[1..], bound);
      assert |xs| * bound == (|xs| - 1) * bound + bound;
    }
  }

  // At any moment of any run, n calls have sent at most n * (retries + 1) requests.
  lemma RequestBound(sys: System, schedule: seq<nat>)
    requires sys.max >= 0 && Runnable(sys, Start(sys), schedule)
    ensures Total(Exec(sys, Start(sys), schedule).requests) <= |sys.hosts| * (sys.Last() + 1)
  {
    StartInv(sys);
    RunInv(sys, Start(sys), schedule);
    var s := Exec(sys, Start(sys), schedule);
    RequestsAtMost(sys, s);
    assert |s.requests| == |sys.hosts|;
    hide Inv, Exec, Runnable, Start;
    TotalAtMost(s.requests, sys.Last() + 1);
  }

  lemma RequestsAtMost(sys: System, s: State)
    requires Inv(sys, s)
    ensures forall i: nat :: i < |s.requests| ==> s.requests[i] <= sys.Last() + 1
  {
    forall i: nat | i < |s.requests| ensures s.requests[i] <= sys.Last() + 1 {
      assert Accounted(sys, s, i);
    }
  }

  // Waiters are woken in the order they queued.
  lemma FirstInFirstOut(sys: System, schedule: seq<nat>, host: string)
    requires sys.max >= 0 && Runnable(sys, Start(sys), schedule)
    ensures var s := Exec(sys, Start(sys), schedule);
      Listed(s.enqueued, host) == Listed(s.woken, host) + Queue(s.slots, host)
  {
    StartInv(sys);
    RunInv(sys, Start(sys), schedule);
  }

  // Without a slot nothing ever moves: every call ends up waiting, and none is ever admitted.
  lemma {:induction false} NoSlotsNoProgress(sys: System, s: State, schedule: seq<nat>)
    requires sys.max <= 0 && Shaped(sys, s) && Runnable(sys, s, schedule)
    requires s.slots.active == map[]
    requires forall i: nat :: i < |s.phase| ==> s.phase[i].Arrived? || s.phase[i].Queued?
    ensures forall i: nat :: i < |s.phase| ==>
              Exec(sys, s, schedule).phase[i].Arrived? || Exec(sys, s, schedule).phase[i].Queued?
    decreases |schedule|
  {
    if schedule != [] {
      NoSlotsNoProgress(sys, Turn(sys, s, schedule[0]), schedule[1..]);
    }
  }

  // ----- Hosts do not disturb each other -----

  function OnlyKey<V>(m: map<string, V>, host: string): map<string, V> {
    map key | key in m && key == host :: m[key]
  }

  lemma OnlyKeyUpdate<V>(m: map<string, V>, host: string, v: V)
    ensures OnlyKey(m[host := v], host) == OnlyKey(m, host)[host := v]
  {
  }

  function Masked<T>(hosts: seq<string>, xs: seq<T>, host: string, blank: T): (r: seq<T>)
    requires |hosts| == |xs|
    ensures |r| == |xs|
    ensures forall i :: 0 <= i < |xs| ==> r[i] == if hosts[i] == host then xs[i] else blank
  {
    seq(|xs|, i requires 0 <= i < |xs| => if hosts[i] == host then xs[i] else blank)
  }

  lemma MaskedUpdate<T>(hosts: seq<string>, xs: seq<T>, host: string, blank: T, i: nat, x: T)
    requires |hosts| == |xs| && i < |xs|
    ensures Masked(hosts, xs[i := x], host, blank) ==
            if hosts[i] == host then Masked(hosts, xs, host, blank)[i := x] else Masked(hosts, xs, host, blank)
  {
  }

  // What one host sees: the calls of other hosts have not arrived.
  function OnHost(sys: System, s: State, host: string): State
    requires |s.phase| == |s.requests| == |s.freed| == |sys.hosts|
  {
    State(
      Slots(OnlyKey(s.slots.active, host), OnlyKey(s.slots.queues, host)),
      Masked(sys.hosts, s.phase, host, Arrived),
      Masked(sys.hosts, s.requests, host, 0),
      Masked(sys.hosts, s.freed, host, 0),
      OnlyKey(s.overtakes, host), OnlyKey(s.enqueued, host), OnlyKey(s.woken, host))
  }

  function TurnsOf(sys: System, schedule: seq<nat>, host: string): seq<nat> {
    if schedule == [] then []
    else
      (if schedule[0] < |sys.hosts| && sys.hosts[schedule[0]] == host then [schedule[0]] else []) +
      TurnsOf(sys, schedule[1..], host)
  }

  lemma {:induction false} TallyOnHost(hosts: seq<string>, all: seq<Phase>, mine: seq<Phase>, host: string, kind: Kind)
    requires |hosts| == |all| == |mine|
    requires forall i :: 0 <= i < |all| && hosts[i] == host ==> mine[i] == all[i]
    ensures Tally(hosts, mine, host, kind) == Tally(hosts, all, host, kind)
  {
    if all != [] { TallyOnHost(hosts[1..], all[1..], mine[1..], host, kind); }
  }

  lemma OtherTurnPhases(sys: System, s: State, i: nat, host: string, j: nat)
    requires Shaped(sys, s) && QueuesExact(sys, s) && Enabled(s, i) && sys.hosts[i] != host
    requires j < |s.phase| && sys.hosts[j] == host
    ensures NextPhases(sys, s, i)[j] == s.phase[j]
  {
    TurnPhase(sys, s, i, j);
    if Wakes(sys, s, i) { assert sys.hosts[Queue(s.slots, sys.hosts[i])[0]] == sys.hosts[i]; }
  }

  lemma OtherTurnSlots(sys: System, s: State, i: nat, host: string)
    requires Shaped(sys, s) && i < |s.phase| && sys.hosts[i] != host
    ensures OnlyKey(NextSlots(sys, s, i).active, host) == OnlyKey(s.slots.active, host)
    ensures OnlyKey(NextSlots(sys, s, i).queues, host) == OnlyKey(s.slots.queues, host)
  {
  }

  lemma OtherTurnHistory(sys: System, s: State, i: nat, host: string)
    requires Shaped(sys, s) && i < |s.phase| && sys.hosts[i] != host
    ensures OnlyKey(NextOvertakes(sys, s, i), host) == OnlyKey(s.overtakes, host)
    ensures OnlyKey(NextEnqueued(sys, s, i), host) == OnlyKey(s.enqueued, host)
    ensures OnlyKey(NextWoken(sys, s, i), host) == OnlyKey(s.woken, host)
    ensures Masked(sys.hosts, NextRequests(sys, s, i), host, 0) == Masked(sys.hosts, s.requests, host, 0)
    ensures Masked(sys.hosts, NextFreed(sys, s, i), host, 0) == Masked(sys.hosts, s.freed, host, 0)
  {
    MaskedUpdate(sys.hosts, s.requests, host, 0, i, s.requests[i] + 1);
    MaskedUpdate(sys.hosts, s.freed, host, 0, i, s.freed[i] + 1);
  }

  lemma OtherTurn(sys: System, s: State, i: nat, host: string)
    requires Shaped(sys, s) && QueuesExact(sys, s) && Enabled(s, i) && sys.hosts[i] != host
    ensures OnHost(sys, Turn(sys, s, i), host) == OnHost(sys, s, host)
  {
    OtherTurnSlots(sys, s, i, host);
    OtherTurnHistory(sys, s, i, host);
    forall j: nat | j < |s.phase| && sys.hosts[j] == host ensures NextPhases(sys, s, i)[j] == s.phase[j] {
      OtherTurnPhases(sys, s, i, host, j);
    }
    assert Masked(sys.hosts, NextPhases(sys, s, i), host, Arrived) == Masked(sys.hosts, s.phase, host, Arrived);
  }

  // The host's own turn meets the same counts, queue and waiters in its projection as in the whole state.
  lemma SameView(sys: System, s: State, i: nat, host: string)
    requires Shaped(sys, s) && Enabled(s, i) && sys.hosts[i] == host
    ensures var mine := OnHost(sys, s, host);
      && Shaped(sys, mine) && Enabled(mine, i) && mine.phase[i] == s.phase[i]
      && Active(mine.slots, host) == Active(s.slots, host) && Queue(mine.slots, host) == Queue(s.slots, host)
      && Tally(sys.hosts, mine.phase, host, Waking) == Tally(sys.hosts, s.phase, host, Waking)
      && NextPhase(sys, mine, i) == NextPhase(sys, s, i)
  {
    OnHostShaped(sys, s, host);
    TallyOnHost(sys.hosts, s.phase, OnHost(sys, s, host).phase, host, Waking);
  }

  lemma OwnTurnSlots(sys: System, s: State, i: nat, host: string)
    requires Shaped(sys, s) && Enabled(s, i) && sys.hosts[i] == host
    ensures NextSlots(sys, OnHost(sys, s, host), i) ==
            Slots(OnlyKey(NextSlots(sys, s, i).active, host), OnlyKey(NextSlots(sys, s, i).queues, host))
  {
    hide Tally, Shaped;
    SameView(sys, s, i, host);
    var left, right := NextSlots(sys, OnHost(sys, s, host), i), NextSlots(sys, s, i);
    assert left.active == OnlyKey(right.active, host);
    assert left.queues == OnlyKey(right.queues, host);
  }

  lemma OwnTurnPhases(sys: System, s: State, i: nat, host: string)
    requires Shaped(sys, s) && QueuesExact(sys, s) && Enabled(s, i) && sys.hosts[i] == host
    ensures Shaped(sys, OnHost(sys, s, host))
    ensures NextPhases(sys, OnHost(sys, s, host), i) == OnHost(sys, Turn(sys, s, i), host).phase
  {
    SameView(sys, s, i, host);
    var left, right := NextPhases(sys, OnHost(sys, s, host), i), OnHost(sys, Turn(sys, s, i), host).phase;
    if Wakes(sys, s, i) { assert sys.hosts[Queue(s.slots, host)[0]] == host; }
    forall j: nat | j < |left| ensures left[j] == right[j] {
      TurnPhase(sys, s, i, j);
    }
  }

  lemma OwnTurnCounters(sys: System, s: State, i: nat, host: string)
    requires Shaped(sys, s) && Enabled(s, i) && sys.hosts[i] == host
    ensures NextRequests(sys, OnHost(sys, s, host), i) == Masked(sys.hosts, NextRequests(sys, s, i), host, 0)
    ensures NextFreed(sys, OnHost(sys, s, host), i) == Masked(sys.hosts, NextFreed(sys, s, i), host, 0)
  {
    hide Tally, Active, Queue, NextPhase, Shaped;
    SameView(sys, s, i, host);
    MaskedUpdate(sys.hosts, s.requests, host, 0, i, s.requests[i] + 1);
    MaskedUpdate(sys.hosts, s.freed, host, 0, i, s.freed[i] + 1);
  }

  lemma OwnOvertakes(sys: System, s: State, i: nat, host: string)
    requires Shaped(sys, s) && Enabled(s, i) && sys.hosts[i] == host
    ensures NextOvertakes(sys, OnHost(sys, s, host), i) == OnlyKey(NextOvertakes(sys, s, i), host)
  {
    hide Active, Queue, NextPhase, Tally, Shaped;
    SameView(sys, s, i, host);
    OnlyKeyUpdate(s.overtakes, host, Overtakes(s, host) + 1);
  }

  lemma OwnEnqueued(sys: System, s: State, i: nat, host: string)
    requires Shaped(sys, s) && Enabled(s, i) && sys.hosts[i] == host
    ensures NextEnqueued(sys, OnHost(sys, s, host), i) == OnlyKey(NextEnqueued(sys, s, i), host)
  {
    hide Active, Queue, NextPhase, Tally, Shaped;
    SameView(sys, s, i, host);
    OnlyKeyUpdate(s.enqueued, host, Listed(s.enqueued, host) + [i]);
  }

  lemma OwnWoken(sys: System, s: State, i: nat, host: string)
    requires Shaped(sys, s) && Enabled(s, i) && sys.hosts[i] == host
    ensures NextWoken(sys, OnHost(sys, s, host), i) == OnlyKey(NextWoken(sys, s, i), host)
  {
    hide Active, Queue, NextPhase, Tally, Shaped;
    SameView(sys, s, i, host);
    if Wakes(sys, s, i) { OnlyKeyUpdate(s.woken, host, Listed(s.woken, host) + [Queue(s.slots, host)[0]]); }
  }

  lemma OwnTurn(sys: System, s: State, i: nat, host: string)
    requires Shaped(sys, s) && QueuesExact(sys, s) && Enabled(s, i) && sys.hosts[i] == host
    ensures Shaped(sys, OnHost(sys, s, host)) && Enabled(OnHost(sys, s, host), i)
    ensures OnHost(sys, Turn(sys, s, i), host) == Turn(sys, OnHost(sys, s, host), i)
  {
    SameView(sys, s, i, host);
    OwnTurnSlots(sys, s, i, host);
    OwnTurnPhases(sys, s, i, host);
    OwnTurnCounters(sys, s, i, host);
    OwnOvertakes(sys, s, i, host);
    OwnEnqueued(sys, s, i, host);
    OwnWoken(sys, s, i, host);
  }

  lemma OnHostShaped(sys: System, s: State, host: string)
    requires Shaped(sys, s)
    ensures Shaped(sys, OnHost(sys, s, host))
  {
    forall key: string, q: nat | q < |Queue(OnHost(sys, s, host).slots, key)|
      ensures Queue(OnHost(sys, s, host).slots, key)[q] < |sys.hosts|
    {
      assert key == host && Queue(s.slots, host)[q] < |sys.hosts|;
    }
  }

  lemma {:induction false} Projection(sys: System, s: State, schedule: seq<nat>, host: string)
    requires Inv(sys, s) && Runnable(sys, s, schedule)
    ensures Shaped(sys, OnHost(sys, s, host))
    ensures Runnable(sys, OnHost(sys, s, host), TurnsOf(sys, schedule, host))
    ensures OnHost(sys, Exec(sys, s, schedule), host) == Exec(sys, OnHost(sys, s, host), TurnsOf(sys, schedule, host))
    decreases |schedule|
  {
    OnHostShaped(sys, s, host);
    if schedule != [] {
      var i, next := schedule[0], Turn(sys, s, schedule[0]);
      TurnInv(sys, s, i);
      Projection(sys, next, schedule[1..], host);
      var rest := TurnsOf(sys, schedule[1..], host);
      if sys.hosts[i] == host {
        OwnTurn(sys, s, i, host);
        assert TurnsOf(sys, schedule, host) == [i] + rest;
        assert ([i] + rest)[1..] == rest;
      } else {
        OtherTurn(sys, s, i, host);
        assert TurnsOf(sys, schedule, host) == rest;
      }
    }
  }

  // Key separation: any run, seen from one host, is the run of that host's turns alone.
  lemma HostsIndependent(sys: System, schedule: seq<nat>, host: string)
    requires sys.max >= 0 && Runnable(sys, Start(sys), schedule)
    ensures Runnable(sys, Start(sys), TurnsOf(sys, schedule, host))
    ensures OnHost(sys, Exec(sys, Start(sys), schedule), host) == Exec(sys, Start(sys), TurnsOf(sys, schedule, host))
  {
    StartInv(sys);
    assert OnHost(sys, Start(sys), host) == Start(sys);
    Projection(sys, Start(sys), schedule, host);
  }
}
