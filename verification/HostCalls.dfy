// WHM calls running concurrently: `limiter.run(host, () => retry(attempt))` for any finite set of calls, any
// number of hosts and any interleaving. A turn runs one call from one `await` to the next; what the transport
// answers to attempt k of call i is `transport(i, k)`, arbitrary.
module HostCalls {
  import opened Json
  import opened Limiter
  import opened Retry
  import opened Whm

  datatype System = System(max: int, retries: int, hosts: seq<string>, transport: (nat, nat) -> Transport) {
    // The last attempt a call may reach.
    function Last(): nat { if retries > 0 then retries else 0 }

    function Stream(i: nat): nat -> Transport {
      (k: nat) => transport(i, k)
    }
  }

  datatype Phase =
    | Arrived
    | Queued               // in the wait queue of its host
    | Woken                // its promise is resolved, it has not resumed yet
    | Admitted             // holds a slot, nothing sent yet
    | Sending(attempt: nat)
    | Sleeping(attempt: nat)
    | Finishing(attempt: nat)  // the retry loop is over, the slot not yet released
    | Done(attempt: nat)

  // `requests` and `freed` count per call; `overtakes` counts, per host, the slots taken at once although all of them
  // were taken or promised to woken waiters; `enqueued` and `woken` record the order of queueing and of waking.
  datatype State = State(
    slots: Slots, phase: seq<Phase>, requests: seq<nat>, freed: seq<nat>,
    overtakes: map<string, nat>, enqueued: map<string, seq<nat>>, woken: map<string, seq<nat>>)

  datatype Kind = Holding | Waking | Outstanding

  predicate Is(p: Phase, kind: Kind) {
    match kind
    case Holding => p.Admitted? || p.Sending? || p.Sleeping? || p.Finishing?
    case Waking => p.Woken?
    case Outstanding => p.Sending?
  }

  // How many calls of a host are in a phase of this kind.
  function Tally(hosts: seq<string>, phase: seq<Phase>, host: string, kind: Kind): nat
    requires |hosts| == |phase|
  {
    if phase == [] then 0
    else Tally(hosts[1..], phase[1..], host, kind) + if hosts[0] == host && Is(phase[0], kind) then 1 else 0
  }

  // Slots taken, and slots promised to waiters that were woken and have not resumed.
  function Promised(sys: System, s: State, host: string): int
    requires |sys.hosts| == |s.phase|
  {
    Active(s.slots, host) + Tally(sys.hosts, s.phase, host, Waking)
  }

  function Overtakes(s: State, host: string): nat { if host in s.overtakes then s.overtakes[host] else 0 }

  function Listed(m: map<string, seq<nat>>, host: string): seq<nat> { if host in m then m[host] else [] }

  ghost predicate Shaped(sys: System, s: State) {
    && |s.phase| == |s.requests| == |s.freed| == |sys.hosts|
    && forall host: string, q: nat :: q < |Queue(s.slots, host)| ==> Queue(s.slots, host)[q] < |sys.hosts|
  }

  function Start(sys: System): State {
    var n := |sys.hosts|;
    State(NO_SLOTS, seq(n, _ => Arrived), seq(n, _ => 0), seq(n, _ => 0), map[], map[], map[])
  }

  predicate Enabled(s: State, i: nat) {
    i < |s.phase| && !s.phase[i].Queued? && !s.phase[i].Done?
  }

  // `acquire` finds a free slot, or a resolved waiter resumes.
  predicate Enters(sys: System, s: State, i: nat)
    requires i < |s.phase| && i < |sys.hosts|
  {
    s.phase[i].Woken? || (s.phase[i].Arrived? && Active(s.slots, sys.hosts[i]) < sys.max)
  }

  // `acquire` finds none and joins the queue.
  predicate Queues(sys: System, s: State, i: nat)
    requires i < |s.phase| && i < |sys.hosts|
  {
    s.phase[i].Arrived? && Active(s.slots, sys.hosts[i]) >= sys.max
  }

  // `release` resolves the head of the queue.
  predicate Wakes(sys: System, s: State, i: nat)
    requires i < |s.phase| && i < |sys.hosts|
  {
    s.phase[i].Finishing? && Queue(s.slots, sys.hosts[i]) != []
  }

  function NextPhase(sys: System, s: State, i: nat): Phase
    requires i < |s.phase| && i < |sys.hosts|
  {
    match s.phase[i]
    case Arrived => if Active(s.slots, sys.hosts[i]) < sys.max then Admitted else Queued
    case Queued => Queued
    case Woken => Admitted
    case Admitted => Sending(0)
    case Sending(k) =>
      if Again(Classify(sys.transport(i, k)), IsRetryable) && k < sys.retries then Sleeping(k) else Finishing(k)
    case Sleeping(k) => Sending(k + 1)
    case Finishing(k) => Done(k)
    case Done(k) => Done(k)
  }

  function NextSlots(sys: System, s: State, i: nat): Slots
    requires i < |s.phase| && i < |sys.hosts|
  {
    if Enters(sys, s, i) then Enter(s.slots, sys.hosts[i])
    else if Queues(sys, s, i) then Enqueue(s.slots, sys.hosts[i], i)
    else if s.phase[i].Finishing? then Leave(s.slots, sys.hosts[i])
    else s.slots
  }

  ghost function NextPhases(sys: System, s: State, i: nat): seq<Phase>
    requires Shaped(sys, s) && i < |s.phase|
  {
    var moved := s.phase[i := NextPhase(sys, s, i)];
    if Wakes(sys, s, i) then moved[Queue(s.slots, sys.hosts[i])[0] := Woken] else moved
  }

  // What a turn asks of the limiter, done on the limiter itself: the model's slots are the two maps of the class, the
  // call goes on exactly when the limiter admits it, and the call woken is the one the limiter resolves.
  method LimiterTurn(limiter: KeyedConcurrencyLimiter, sys: System, s: State, i: nat)
    returns (next: Phase, woken: Option<nat>)
    requires Shaped(sys, s) && i < |s.phase| && limiter.State() == s.slots && limiter.maxConcurrent == sys.max
    modifies limiter
    ensures limiter.State() == NextSlots(sys, s, i) && next == NextPhase(sys, s, i)
    ensures woken == if Wakes(sys, s, i) then Some(Queue(s.slots, sys.hosts[i])[0]) else None
  {
    var host := sys.hosts[i];
    next, woken := s.phase[i], None;
    match s.phase[i] {
      case Arrived =>
        var admitted := limiter.BeginAcquire(host, i);
        next := if admitted then Admitted else Queued;
      case Woken =>
        limiter.ResumeAcquire(host);
        next := Admitted;
      case Finishing(k) =>
        woken := limiter.Release(host);
        next := Done(k);
      case _ => next := NextPhase(sys, s, i);
    }
  }

  // The effect of one turn on the slots and the queue of a host.
  lemma TurnSlots(sys: System, s: State, i: nat, host: string)
    requires Shaped(sys, s) && i < |s.phase|
    ensures Queue(NextSlots(sys, s, i), host) ==
              if host == sys.hosts[i] && Queues(sys, s, i) then Queue(s.slots, host) + [i]
              else if host == sys.hosts[i] && Wakes(sys, s, i) then Queue(s.slots, host)[1..]
              else Queue(s.slots, host)
    ensures Active(NextSlots(sys, s, i), host) ==
              if host == sys.hosts[i] && Enters(sys, s, i) then Active(s.slots, host) + 1
              else if host == sys.hosts[i] && s.phase[i].Finishing? then
                (if Active(s.slots, host) > 0 then Active(s.slots, host) - 1 else 0)
              else Active(s.slots, host)
  {
  }

  lemma SlotsShaped(sys: System, s: State, i: nat)
    requires Shaped(sys, s) && i < |s.phase|
    ensures forall host: string, q: nat :: q < |Queue(NextSlots(sys, s, i), host)| ==>
              Queue(NextSlots(sys, s, i), host)[q] < |sys.hosts|
  {
    forall host: string, q: nat | q < |Queue(NextSlots(sys, s, i), host)|
      ensures Queue(NextSlots(sys, s, i), host)[q] < |sys.hosts|
    {
      TurnSlots(sys, s, i, host);
      if q + 1 < |Queue(s.slots, host)| { assert Queue(s.slots, host)[q + 1] < |sys.hosts|; }
    }
  }

  function NextRequests(sys: System, s: State, i: nat): seq<nat>
    requires i < |s.phase| == |sys.hosts| == |s.requests|
  {
    if NextPhase(sys, s, i).Sending? then s.requests[i := s.requests[i] + 1] else s.requests
  }

  function NextFreed(sys: System, s: State, i: nat): seq<nat>
    requires i < |s.phase| == |sys.hosts| == |s.freed|
  {
    if s.phase[i].Finishing? then s.freed[i := s.freed[i] + 1] else s.freed
  }

  function NextOvertakes(sys: System, s: State, i: nat): map<string, nat>
    requires i < |s.phase| == |sys.hosts|
  {
    var host := sys.hosts[i];
    if Enters(sys, s, i) && s.phase[i].Arrived? && Promised(sys, s, host) >= sys.max
    then s.overtakes[host := Overtakes(s, host) + 1] else s.overtakes
  }

  function NextEnqueued(sys: System, s: State, i: nat): map<string, seq<nat>>
    requires i < |s.phase| == |sys.hosts|
  {
    var host := sys.hosts[i];
    if Queues(sys, s, i) then s.enqueued[host := Listed(s.enqueued, host) + [i]] else s.enqueued
  }

  function NextWoken(sys: System, s: State, i: nat): map<string, seq<nat>>
    requires i < |s.phase| == |sys.hosts|
  {
    var host := sys.hosts[i];
    if Wakes(sys, s, i) then s.woken[host := Listed(s.woken, host) + [Queue(s.slots, host)[0]]] else s.woken
  }

  ghost function Turn(sys: System, s: State, i: nat): (s': State)
    requires Shaped(sys, s) && i < |s.phase|
    ensures Shaped(sys, s')
  {
    SlotsShaped(sys, s, i);
    State(NextSlots(sys, s, i), NextPhases(sys, s, i), NextRequests(sys, s, i), NextFreed(sys, s, i),
          NextOvertakes(sys, s, i), NextEnqueued(sys, s, i), NextWoken(sys, s, i))
  }

  // ----- What every turn keeps -----

  ghost predicate QueuesExact(sys: System, s: State)
    requires Shaped(sys, s)
  {
    && (forall host: string, q: nat :: q < |Queue(s.slots, host)| ==>
          var i := Queue(s.slots, host)[q]; sys.hosts[i] == host && s.phase[i].Queued?)
    && (forall host: string, p: nat, q: nat :: p < q < |Queue(s.slots, host)| ==>
          Queue(s.slots, host)[p] != Queue(s.slots, host)[q])
    && (forall i: nat :: i < |s.phase| && s.phase[i].Queued? ==> i in Queue(s.slots, sys.hosts[i]))
    && (forall host: string :: Listed(s.enqueued, host) == Listed(s.woken, host) + Queue(s.slots, host))
  }

  // For every host: the limiter counts exactly the calls holding a slot; nobody waits while a slot is neither
  // taken nor promised; and taken plus promised slots pass the maximum by at most the number of overtakes.
  ghost predicate CountsAt(sys: System, s: State, host: string)
    requires Shaped(sys, s)
  {
    && Active(s.slots, host) == Tally(sys.hosts, s.phase, host, Holding)
    && (Queue(s.slots, host) != [] ==> Promised(sys, s, host) >= sys.max)
    && Promised(sys, s, host) <= sys.max + Overtakes(s, host)
  }

  // What the phase of call i says about its attempts so far.
  ghost predicate Accounted(sys: System, s: State, i: nat)
    requires Shaped(sys, s) && i < |s.phase|
  {
    && s.freed[i] == (if s.phase[i].Done? then 1 else 0)
    && match s.phase[i]
       case Sending(k) => s.requests[i] == k + 1 && k <= sys.Last() && RetriedBefore(sys, i, k)
       case Sleeping(k) => s.requests[i] == k + 1 && k < sys.retries && RetriedBefore(sys, i, k + 1)
       case Finishing(k) => s.requests[i] == k + 1 && Settles(sys.Stream(i), sys.retries, k)
       case Done(k) => s.requests[i] == k + 1 && Settles(sys.Stream(i), sys.retries, k)
       case _ => s.requests[i] == 0
  }

  ghost predicate RetriedBefore(sys: System, i: nat, k: nat) {
    forall j: nat :: j < k ==> Again(Classify(sys.transport(i, j)), IsRetryable)
  }

  ghost predicate Inv(sys: System, s: State) {
    && Shaped(sys, s)
    && QueuesExact(sys, s)
    && (forall host: string :: CountsAt(sys, s, host))
    && (forall i: nat :: i < |s.phase| ==> Accounted(sys, s, i))
  }

  lemma {:induction false} TallyUpdate(hosts: seq<string>, phase: seq<Phase>, host: string, kind: Kind, i: nat,
          p: Phase)
    requires |hosts| == |phase| && i < |phase|
    ensures Tally(hosts, phase[i := p], host, kind)
            == Tally(hosts, phase, host, kind)
               - (if hosts[i] == host && Is(phase[i], kind) then 1 else 0)
               + (if hosts[i] == host && Is(p, kind) then 1 else 0)
  {
    if i == 0 {
      assert phase[0 := p][1..] == phase[1..];
    } else {
      assert phase[i := p][1..] == phase[1..][i - 1 := p];
      TallyUpdate(hosts[1..], phase[1..], host, kind, i - 1, p);
    }
  }

  lemma {:induction false} TallyWitness(hosts: seq<string>, phase: seq<Phase>, host: string, kind: Kind)
    returns (i: nat)
    requires |hosts| == |phase| && Tally(hosts, phase, host, kind) > 0
    ensures i < |phase| && hosts[i] == host && Is(phase[i], kind)
  {
    if hosts[0] == host && Is(phase[0], kind) {
      i := 0;
    } else {
      var j := TallyWitness(hosts[1..], phase[1..], host, kind);
      i := j + 1;
    }
  }

  lemma {:induction false} TallyPositive(hosts: seq<string>, phase: seq<Phase>, kind: Kind, i: nat)
    requires |hosts| == |phase| && i < |phase| && Is(phase[i], kind)
    ensures Tally(hosts, phase, hosts[i], kind) > 0
  {
    if i > 0 { TallyPositive(hosts[1..], phase[1..], kind, i - 1); }
  }

  lemma {:induction false} TallyEmpty(hosts: seq<string>, phase: seq<Phase>, host: string, kind: Kind)
    requires |hosts| == |phase| && forall i :: 0 <= i < |phase| ==> !Is(phase[i], kind)
    ensures Tally(hosts, phase, host, kind) == 0
  {
    if phase != [] { TallyEmpty(hosts[1..], phase[1..], host, kind); }
  }

  lemma {:induction false} OutstandingHold(hosts: seq<string>, phase: seq<Phase>, host: string)
    requires |hosts| == |phase|
    ensures Tally(hosts, phase, host, Outstanding) <= Tally(hosts, phase, host, Holding)
  {
    if phase != [] { OutstandingHold(hosts[1..], phase[1..], host); }
  }

  lemma StartInv(sys: System)
    requires sys.max >= 0
    ensures Inv(sys, Start(sys))
  {
    var s := Start(sys);
    forall host: string, kind: Kind ensures Tally(sys.hosts, s.phase, host, kind) == 0 {
      TallyEmpty(sys.hosts, s.phase, host, kind);
    }
  }

  // The effect of one turn on every count.
  lemma TurnTally(sys: System, s: State, i: nat, host: string, kind: Kind)
    requires Shaped(sys, s) && QueuesExact(sys, s) && Enabled(s, i)
    ensures var moved := (if sys.hosts[i] == host && Is(NextPhase(sys, s, i), kind) then 1 else 0)
                       - (if sys.hosts[i] == host && Is(s.phase[i], kind) then 1 else 0);
            var wakes := if sys.hosts[i] == host && Wakes(sys, s, i) && kind == Waking then 1 else 0;
            Tally(sys.hosts, NextPhases(sys, s, i), host, kind) == Tally(sys.hosts, s.phase, host, kind) + moved + wakes
  {
    var next := NextPhase(sys, s, i);
    TallyUpdate(sys.hosts, s.phase, host, kind, i, next);
    if Wakes(sys, s, i) {
      var h := Queue(s.slots, sys.hosts[i])[0];
      assert sys.hosts[h] == sys.hosts[i] && s.phase[h].Queued?;
      TallyUpdate(sys.hosts, s.phase[i := next], host, kind, h, Woken);
    }
  }

  lemma TurnCountsAt(sys: System, s: State, i: nat, host: string)
    requires Shaped(sys, s) && QueuesExact(sys, s) && Enabled(s, i) && CountsAt(sys, s, host)
    ensures CountsAt(sys, Turn(sys, s, i), host)
  {
    hide NextSlots, NextPhases, QueuesExact, Tally, Active, Queue;
    TurnSlots(sys, s, i, host);
    TurnTally(sys, s, i, host, Holding);
    TurnTally(sys, s, i, host, Waking);
    if s.phase[i].Finishing? { TallyPositive(sys.hosts, s.phase, Holding, i); }
  }

  lemma TurnListed(sys: System, s: State, i: nat, host: string)
    requires Shaped(sys, s) && i < |s.phase|
    ensures Listed(NextEnqueued(sys, s, i), host) ==
              if host == sys.hosts[i] && Queues(sys, s, i) then Listed(s.enqueued, host) + [i]
              else Listed(s.enqueued, host)
    ensures Listed(NextWoken(sys, s, i), host) ==
              if host == sys.hosts[i] && Wakes(sys, s, i) then Listed(s.woken, host) + [Queue(s.slots, host)[0]]
              else Listed(s.woken, host)
  {
    hide Active, Queue;
  }

  // Appending to the queue, or moving its head to those woken, keeps enqueued what was woken and what still waits.
  lemma OrderKept(enqueued: seq<nat>, woken: seq<nat>, queue: seq<nat>, i: nat)
    requires enqueued == woken + queue
    ensures enqueued + [i] == woken + (queue + [i])
    ensures queue != [] ==> enqueued == (woken + [queue[0]]) + queue[1..]
  {
  }

  lemma TurnOrder(sys: System, s: State, i: nat, host: string)
    requires Shaped(sys, s) && i < |s.phase|
    requires Listed(s.enqueued, host) == Listed(s.woken, host) + Queue(s.slots, host)
    ensures var s' := Turn(sys, s, i);
            Listed(s'.enqueued, host) == Listed(s'.woken, host) + Queue(s'.slots, host)
  {
    hide NextSlots, NextPhases, NextPhase, NextEnqueued, NextWoken, NextRequests, NextFreed, NextOvertakes;
    hide Listed, Active, Queue, Tally, Shaped;
    TurnSlots(sys, s, i, host);
    TurnListed(sys, s, i, host);
    OrderKept(Listed(s.enqueued, host), Listed(s.woken, host), Queue(s.slots, host), i);
  }

  lemma TurnPhase(sys: System, s: State, i: nat, j: nat)
    requires Shaped(sys, s) && QueuesExact(sys, s) && Enabled(s, i) && j < |s.phase|
    ensures NextPhases(sys, s, i)[j] ==
              if j == i then NextPhase(sys, s, i)
              else if Wakes(sys, s, i) && j == Queue(s.slots, sys.hosts[i])[0] then Woken
              else s.phase[j]
    ensures Wakes(sys, s, i) && j == Queue(s.slots, sys.hosts[i])[0] ==> s.phase[j].Queued?
  {
  }

  lemma TurnQueueDistinct(sys: System, s: State, i: nat, host: string, q: nat)
    requires Shaped(sys, s) && QueuesExact(sys, s) && Enabled(s, i)
    requires q < |Queue(NextSlots(sys, s, i), host)|
    ensures forall p: nat :: p < q ==> Queue(NextSlots(sys, s, i), host)[p] != Queue(NextSlots(sys, s, i), host)[q]
  {
    hide NextSlots, NextPhases, Queue, Active, Tally;
    TurnSlots(sys, s, i, host);
    var before, after := Queue(s.slots, host), Queue(NextSlots(sys, s, i), host);
    if host == sys.hosts[i] && Wakes(sys, s, i) {
      forall p: nat | p < q ensures after[p] != after[q] { assert before[p + 1] != before[q + 1]; }
    } else if q == |before| {
      forall p: nat | p < q ensures after[p] != after[q] { assert s.phase[before[p]].Queued?; }
    }
  }

  lemma TurnQueueMember(sys: System, s: State, i: nat, host: string, q: nat)
    requires Shaped(sys, s) && QueuesExact(sys, s) && Enabled(s, i)
    requires q < |Queue(NextSlots(sys, s, i), host)|
    ensures var j := Queue(NextSlots(sys, s, i), host)[q];
            j < |s.phase| && sys.hosts[j] == host && NextPhases(sys, s, i)[j].Queued?
    ensures forall p: nat :: p < q ==> Queue(NextSlots(sys, s, i), host)[p] != Queue(NextSlots(sys, s, i), host)[q]
  {
    hide NextSlots, NextPhases, Queue, Active, Tally;
    TurnSlots(sys, s, i, host);
    var before, after := Queue(s.slots, host), Queue(NextSlots(sys, s, i), host);
    if host == sys.hosts[i] && Wakes(sys, s, i) {
      assert after[q] == before[q + 1] != before[0];
    } else if q < |before| {
      assert after[q] == before[q];
      if Wakes(sys, s, i) {
        var other := Queue(s.slots, sys.hosts[i]);
        assert sys.hosts[other[0]] == sys.hosts[i] != host;
      }
    }
    TurnPhase(sys, s, i, after[q]);
    TurnQueueDistinct(sys, s, i, host, q);
  }

  lemma QueuedListed(sys: System, s: State, j: nat)
    requires Shaped(sys, s) && QueuesExact(sys, s) && j < |s.phase| && s.phase[j].Queued?
    ensures j in Queue(s.slots, sys.hosts[j])
  {
  }

  lemma InTail(queue: seq<nat>, j: nat)
    requires j in queue && j != queue[0]
    ensures j in queue[1..]
  {
    assert queue == [queue[0]] + queue[1..];
  }

  lemma TurnQueued(sys: System, s: State, i: nat, j: nat)
    requires Shaped(sys, s) && QueuesExact(sys, s) && Enabled(s, i) && j < |s.phase|
    requires NextPhases(sys, s, i)[j].Queued?
    ensures j in Queue(NextSlots(sys, s, i), sys.hosts[j])
  {
    hide NextSlots, NextPhases, Queue, Active, QueuesExact;
    TurnSlots(sys, s, i, sys.hosts[j]);
    TurnPhase(sys, s, i, j);
    if j != i {
      QueuedListed(sys, s, j);
      if sys.hosts[j] == sys.hosts[i] && Wakes(sys, s, i) { InTail(Queue(s.slots, sys.hosts[j]), j); }
    }
  }

  lemma TurnQueues(sys: System, s: State, i: nat)
    requires Shaped(sys, s) && QueuesExact(sys, s) && Enabled(s, i)
    ensures QueuesExact(sys, Turn(sys, s, i))
  {
    var s' := Turn(sys, s, i);
    forall host: string
      ensures Listed(s'.enqueued, host) == Listed(s'.woken, host) + Queue(s'.slots, host)
    {
      TurnOrder(sys, s, i, host);
    }
    forall host: string, q: nat | q < |Queue(s'.slots, host)|
      ensures var j := Queue(s'.slots, host)[q]; sys.hosts[j] == host && s'.phase[j].Queued?
      ensures forall p: nat :: p < q ==> Queue(s'.slots, host)[p] != Queue(s'.slots, host)[q]
    {
      TurnQueueMember(sys, s, i, host, q);
    }
    forall j: nat | j < |s'.phase| && s'.phase[j].Queued? ensures j in Queue(s'.slots, sys.hosts[j]) {
      TurnQueued(sys, s, i, j);
    }
  }

  lemma TurnAccount(sys: System, s: State, i: nat, j: nat)
    requires Shaped(sys, s) && QueuesExact(sys, s) && Enabled(s, i) && j < |s.phase| && Accounted(sys, s, j)
    ensures Accounted(sys, Turn(sys, s, i), j)
  {
    hide NextSlots, NextPhases, QueuesExact, Queue, Tally;
    TurnPhase(sys, s, i, j);
    if i == j && s.phase[i].Sending? {
      var k := s.phase[i].attempt;
      forall l: nat ensures Attempts(sys.Stream(i))(l) == Classify(sys.transport(i, l)) {}
    }
  }

  lemma TurnInv(sys: System, s: State, i: nat)
    requires Inv(sys, s) && Enabled(s, i)
    ensures Inv(sys, Turn(sys, s, i))
  {
    TurnQueues(sys, s, i);
    var s' := Turn(sys, s, i);
    forall host: string ensures CountsAt(sys, s', host) {
      TurnCountsAt(sys, s, i, host);
    }
    forall j: nat | j < |s'.phase| ensures Accounted(sys, s', j) {
      TurnAccount(sys, s, i, j);
    }
  }
}
