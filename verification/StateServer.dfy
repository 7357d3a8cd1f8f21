/**
 The `subscribe` arm of a connection thread, run among everything else that
 happens to the store and the other connections.
 */
module StateServer {
  import opened Store
  import opened Reducer
  import opened Replication

  /** A step the thread of connection `c` takes itself. */
  predicate OwnStep(step: Step, c: nat) {
    match step
    case Greet(d) => d == c
    case Deliver(d) => d == c
    case Heartbeat(d) => d == c
    case Break(d, _) => d == c
    case Leave(d) => d == c
    case _ => false
  }

  /** Where a connection thread is in its arm. */
  ghost predicate At(system: System, c: nat, id: nat, open: bool, greeted: bool) {
    && c < |system.connections|
    && system.connections[c].id == id && system.connections[c].open == open && system.connections[c].greeted == greeted
    && id <= system.store.nextSubId
  }

  lemma OthersKeepPlace(system: System, step: Step, c: nat, id: nat, open: bool, greeted: bool)
    requires At(system, c, id, open, greeted) && !OwnStep(step, c)
    ensures At(Do(system, step), c, id, open, greeted)
  {
    match step
    case Call(op) => IdsOnlyGrow(system.store, op);
    case _ =>
  }

  class World {
    ghost var system: System
    /** Every step so far, this thread's and everyone else's. */
    ghost var steps: seq<Step>

    ghost predicate Valid()
      reads this
    {
      system == Run(steps)
    }

    constructor ()
      ensures Valid() && steps == []
    {
      system, steps := START, [];
    }

    method Take(ghost step: Step)
      requires Valid()
      modifies this
      ensures Valid() && steps == old(steps) + [step] && system == Do(old(system), step)
    {
      assert (steps + [step])[..|steps|] == steps;
      system, steps := Do(system, step), steps + [step];
    }

    /** Any number of steps by anyone else. */
    method Others(ghost c: nat, ghost id: nat, ghost open: bool, ghost greeted: bool)
      requires Valid() && At(system, c, id, open, greeted)
      modifies this
      ensures Valid() && At(system, c, id, open, greeted) && old(steps) <= steps
    {
      var n: nat := *;
      while n > 0
        invariant Valid() && At(system, c, id, open, greeted) && old(steps) <= steps
      {
        assert !OwnStep(Read(c), c);
        ghost var step: Step :| !OwnStep(step, c);
        OthersKeepPlace(system, step, c, id, open, greeted);
        Take(step);
        n := n - 1;
      }
    }

    /** Subscribing takes the snapshot and the subscription in one step. */
    method Subscribe(ghost before: Replica, ghost build: string) returns (ghost c: nat, ghost id: nat)
      requires Valid()
      modifies this
      ensures Valid() && steps == old(steps) + [Connect(before, build)]
      ensures c == |old(system.connections)| && id == old(system.store.nextSubId) + 1
      ensures At(system, c, id, true, false)
    {
      c, id := |system.connections|, system.store.nextSubId + 1;
      Take(Connect(before, build));
    }

    /** The hello, and then deltas and heartbeats until something ends the loop. */
    method Converse(ghost c: nat, ghost id: nat)
      requires Valid() && At(system, c, id, true, false)
      modifies this
      ensures Valid() && At(system, c, id, true, true) && old(steps) <= steps
    {
      GreetingKeepsPlace(system, c, id);
      Take(Greet(c));
      var rounds: nat := *;
      while rounds > 0
        invariant Valid() && At(system, c, id, true, true) && old(steps) <= steps
      {
        Others(c, id, true, true);
        var received: bool, due: bool := *, *;
        if received {
          DeliveryKeepsPlace(system, c, id);
          Take(Deliver(c));
        } else if due {
          HeartbeatKeepsPlace(system, c, id);
          Take(Heartbeat(c));
        }
        rounds := rounds - 1;
      }
    }

    /** The loop is over, perhaps in the middle of a line, and the subscription is given up. */
    method Depart(ghost c: nat, ghost id: nat, ghost greeted: bool)
      requires Valid() && At(system, c, id, true, greeted)
      modifies this
      ensures Valid() && old(steps) <= steps && |steps| > 0 && steps[|steps| - 1] == Leave(c)
      ensures c < |system.connections| && system.connections[c].id == id && !system.connections[c].open
      ensures id !in system.store.subscribers
    {
      var torn: bool := *;
      BreakingKeepsPlace(system, c, id, torn, greeted);
      Take(Break(c, torn));
      Others(c, id, false, greeted);
      LeavingUnsubscribes(system, c, id);
      Take(Leave(c));
    }

    /**
     The arm: subscribe, greet, then deliver and beat until a write fails, the
     queue's sender is gone or the server shuts down; and whatever happened, the
     subscription is given up at the end. The run it leaves behind is one the
     replication results are about.
     */
    method HandleSubscribe(ghost before: Replica, ghost build: string) returns (ghost c: nat, ghost id: nat)
      requires Valid()
      modifies this
      ensures Valid() && old(steps) + [Connect(before, build)] <= steps && steps[|steps| - 1] == Leave(c)
      ensures c == |old(system.connections)| && id == old(system.store.nextSubId) + 1
      ensures c < |system.connections| && system.connections[c].id == id && !system.connections[c].open
      ensures id !in system.store.subscribers
    {
      c, id := Subscribe(before, build);
      Others(c, id, true, false);
      var greeted: bool := *;
      if greeted {
        Converse(c, id);
        Others(c, id, true, true);
      }
      Depart(c, id, greeted);
    }
  }

  lemma GreetingKeepsPlace(system: System, c: nat, id: nat)
    requires At(system, c, id, true, false)
    ensures At(Do(system, Greet(c)), c, id, true, true)
  {
  }

  lemma DeliveryKeepsPlace(system: System, c: nat, id: nat)
    requires At(system, c, id, true, true)
    ensures At(Do(system, Deliver(c)), c, id, true, true)
  {
  }

  lemma HeartbeatKeepsPlace(system: System, c: nat, id: nat)
    requires At(system, c, id, true, true)
    ensures At(Do(system, Heartbeat(c)), c, id, true, true)
  {
  }

  lemma BreakingKeepsPlace(system: System, c: nat, id: nat, torn: bool, greeted: bool)
    requires At(system, c, id, true, greeted)
    ensures At(Do(system, Break(c, torn)), c, id, false, greeted)
  {
  }

  lemma LeavingUnsubscribes(system: System, c: nat, id: nat)
    requires c < |system.connections| && system.connections[c].id == id && !system.connections[c].open
    ensures id !in Do(system, Leave(c)).store.subscribers
    ensures Do(system, Leave(c)).connections == system.connections
  {
  }
}
