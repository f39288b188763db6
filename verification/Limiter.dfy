// The per-key concurrency limiter (src/backend/utils/http-retry.ts).
// Its methods run from one `await` to the next, so each of them is one atomic segment.
module Limiter {
  import opened Json

  // The two maps of the limiter as a value. A waiter is named by the operation it belongs to.
  datatype Slots = Slots(active: map<string, int>, queues: map<string, seq<nat>>)

  const NO_SLOTS := Slots(map[], map[])

  function Active(s: Slots, key: string): int {
    if key in s.active then s.active[key] else 0
  }

  function Queue(s: Slots, key: string): seq<nat> {
    if key in s.queues then s.queues[key] else []
  }

  function Enter(s: Slots, key: string): Slots {
    s.(active := s.active[key := Active(s, key) + 1])
  }

  function Enqueue(s: Slots, key: string, op: nat): Slots {
    s.(queues := s.queues[key := Queue(s, key) + [op]])
  }

  function Leave(s: Slots, key: string): Slots {
    Slots(s.active[key := if Active(s, key) > 0 then Active(s, key) - 1 else 0],
          if Queue(s, key) == [] then s.queues else s.queues[key := Queue(s, key)[1..]])
  }

  class KeyedConcurrencyLimiter {
    const maxConcurrent: int
    var active: map<string, int>
    var queues: map<string, seq<nat>>

    function State(): Slots
      reads this
    {
      Slots(active, queues)
    }

    constructor (maxConcurrent: int)
      ensures this.maxConcurrent == maxConcurrent && State() == NO_SLOTS
    {
      this.maxConcurrent := maxConcurrent;
      active, queues := map[], map[];
    }

    // `acquire` up to its `await`: take a slot at once, or join the queue of the key.
    method BeginAcquire(key: string, op: nat) returns (admitted: bool)
      modifies this
      ensures admitted <==> Active(old(State()), key) < maxConcurrent
      ensures State() == if admitted then Enter(old(State()), key) else Enqueue(old(State()), key, op)
    {
      var current := if key in active then active[key] else 0;
      if current < maxConcurrent {
        active := active[key := current + 1];
        return true;
      }
      var queue := if key in queues then queues[key] else [];
      queue := queue + [op];
      queues := queues[key := queue];
      return false;
    }

    // `acquire` after its `await`: the waiter was resolved and counts itself in.
    method ResumeAcquire(key: string)
      modifies this
      ensures State() == Enter(old(State()), key)
    {
      active := active[key := (if key in active then active[key] else 0) + 1];
    }

    method Release(key: string) returns (woken: Option<nat>)
      modifies this
      ensures State() == Leave(old(State()), key)
      ensures woken == if Queue(old(State()), key) == [] then None else Some(Queue(old(State()), key)[0])
    {
      var left := (if key in active then active[key] else 1) - 1;
      active := active[key := if left > 0 then left else 0];
      woken := None;
      if key in queues && queues[key] != [] {
        woken := Some(queues[key][0]);
        queues := queues[key := queues[key][1..]];
      }
    }
  }
}
