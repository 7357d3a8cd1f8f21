/** Who stays subscribed, and what each subscriber's queue is given, by every operation and over every run. */
module Delivery {
  import opened Wrappers
  import opened Sequences
  import opened Text
  import opened Cards
  import opened Store
  import opened Reducer
  import opened Replication

  // ----- one operation -----

  function PaneOf(op: Op): string {
    match op
    case SubscribeFull => ""
    case Unsubscribe(_) => ""
    case _ => op.pane
  }

  /** The update an operation sends, if it sends one: the pane's card as it is now, or that there is none. */
  function Sent(op: Op, t: Inner): Update {
    Showing(t, PaneOf(op))
  }

  function Showing(t: Inner, pane: string): Update {
    Update(t.number, pane, if pane in t.panes then Some(t.panes[pane]) else None)
  }

  /** What became of a listed subscriber. */
  ghost predicate Served(s: Inner, t: Inner, u: Update, id: nat)
    requires id in s.channels
  {
    && id in t.channels
    && (if t.number == s.number then id in t.subscribers && t.channels[id] == s.channels[id]
        else if s.channels[id].receiverAlive && |s.channels[id].queue| < 256 then
          id in t.subscribers && t.channels[id] == Channel(s.channels[id].queue + [u], true)
        else id !in t.subscribers && t.channels[id] == s.channels[id])
  }

  lemma BroadcastServes(s: Inner, number: nat, panes: map<string, Card>, u: Update, id: nat)
    requires id in s.subscribers && id in s.channels && number == s.number + 1
    ensures Served(s, Broadcast(s.(number := number, panes := panes), u), u, id)
  {
  }

  lemma CommitServes(s: Inner, pane: string, o: Outcome, id: nat)
    requires id in s.subscribers && id in s.channels
    ensures
      var t := Commit(s, pane, o);
      Served(s, t, Showing(t, pane), id)
  {
    if o.changed {
      var stamped := o.card.(updatedSeq := s.number + 1);
      BroadcastServes(s, s.number + 1, s.panes[pane := stamped], Update(s.number + 1, pane, Some(stamped)), id);
    }
  }

  /**
   Every operation but its own unsubscription leaves a listed subscriber listed
   with its queue untouched, if it sends nothing. If it sends an update, a
   subscriber with a live receiver and fewer than 256 updates queued stays, with
   that one update at the end of its queue; any other is dropped, its queue as
   it was.
   */
  lemma WhoStays(s: Inner, op: Op, id: nat)
    requires Store.Valid(s) && id in s.subscribers && op != Unsubscribe(id)
    ensures Served(s, Exec(s, op), Sent(op, Exec(s, op)), id)
  {
    match op
    case SetAgent(pane, agent) =>
      CommitServes(s, pane, AgentEdit(CardOf(s, pane), agent, pane !in s.panes), id);
    case SetPaneListCwd(pane, cwd) => CwdServes(s, pane, cwd, id);
    case SetPanePosition(pane, position) => EditServes(s, pane, PositionEdit(CardOf(s, pane), position), id);
    case SetPaneWorkspace(pane, workspace) => EditServes(s, pane, WorkspaceEdit(CardOf(s, pane), NonEmpty(workspace)), id);
    case ReplaceSession(pane, agent) => CommitServes(s, pane, Outcome(FreshSession(s, pane, agent), true), id);
    case Record(pane, event, payload) => EditServes(s, pane, Apply(CardOf(s, pane), event, Normalise(event, payload)), id);
    case Remove(pane) => RemoveServes(s, pane, id);
    case SubscribeFull =>
    case Unsubscribe(other) =>
  }

  /** An edit of a card there may be. */
  lemma EditServes(s: Inner, pane: string, o: Outcome, id: nat)
    requires id in s.subscribers && id in s.channels
    ensures
      var t := if pane in s.panes then Commit(s, pane, o) else s;
      Served(s, t, Showing(t, pane), id)
  {
    CommitServes(s, pane, o, id);
  }

  lemma CwdServes(s: Inner, pane: string, cwd: Option<string>, id: nat)
    requires id in s.subscribers && id in s.channels
    ensures
      var t := if cwd.Some? then AfterSetCwd(s, pane, Sanitise(cwd.value)) else s;
      Served(s, t, Showing(t, pane), id)
  {
    if cwd.Some? {
      CommitServes(s, pane, CwdEdit(CardOf(s, pane), Sanitise(cwd.value)), id);
    }
  }

  lemma RemoveServes(s: Inner, pane: string, id: nat)
    requires id in s.subscribers && id in s.channels
    ensures Served(s, AfterRemove(s, pane), Showing(AfterRemove(s, pane), pane), id)
  {
    if pane in s.panes {
      BroadcastServes(s, s.number + 1, s.panes - {pane}, Update(s.number + 1, pane, None), id);
    }
  }

  /** A subscriber that asked to go is gone, and a new one comes only by subscribing, with an empty queue. */
  lemma WhoComesAndGoes(s: Inner, op: Op, id: nat)
    requires Store.Valid(s)
    ensures op == Unsubscribe(id) ==> id !in Exec(s, op).subscribers
    ensures id !in s.subscribers && id in Exec(s, op).subscribers ==>
            op.SubscribeFull? && id == s.nextSubId + 1 && Exec(s, op).channels[id] == Channel([], true)
  {
    match op
    case SetAgent(pane, agent) =>
    case Record(pane, event, payload) =>
    case _ =>
  }

  // ----- runs -----

  /** The subscription loses its place: it is given up, or an update finds its queue full. */
  ghost predicate Loses(s: Inner, op: Op, id: nat) {
    op == Unsubscribe(id) || (Exec(s, op).number != s.number && id in s.channels && |s.channels[id].queue| >= 256)
  }

  /** Step `k` of the run costs connection `c` its subscription. */
  ghost predicate LosesAt(steps: seq<Step>, c: nat, k: nat)
    requires k < |steps|
  {
    var past := Run(steps[..k]);
    c < |past.connections| && steps[k].Call? && Loses(past.store, steps[k].op, past.connections[c].id)
  }

  /** Subscribed, with somebody at the other end. */
  ghost predicate Alive(s: Inner, id: nat) {
    id in s.channels && s.channels[id].receiverAlive
  }

  lemma CallKeepsPlace(s: Inner, op: Op, id: nat)
    requires Store.Valid(s) && Alive(s, id)
    ensures Alive(Exec(s, op), id)
    ensures id in Exec(s, op).subscribers <==> id in s.subscribers && !Loses(s, op, id)
  {
    if id in s.subscribers && op != Unsubscribe(id) {
      WhoStays(s, op, id);
    } else {
      WhoComesAndGoes(s, op, id);
      UnlistedIsLeftAlone(s, op, id);
    }
  }

  lemma UnlistedIsLeftAlone(s: Inner, op: Op, id: nat)
    requires Store.Valid(s) && id in s.channels && (id !in s.subscribers || op == Unsubscribe(id))
    ensures id in Exec(s, op).channels && Exec(s, op).channels[id] == s.channels[id]
  {
    match op
    case SetAgent(pane, agent) =>
    case Record(pane, event, payload) =>
    case _ =>
  }

  /** Connection `c` is where it was, unless its place is lost. */
  ghost predicate InPlace(sys: System, next: System, c: nat, lost: bool) {
    && c < |sys.connections| && c < |next.connections| && sys.connections[c].open
    && next.connections[c].id == sys.connections[c].id && Alive(next.store, sys.connections[c].id)
    && (sys.connections[c].id in next.store.subscribers <==> sys.connections[c].id in sys.store.subscribers && !lost)
  }

  lemma LeavingElsewhere(sys: System, other: nat, c: nat)
    requires Inv(sys) && c < |sys.connections| && other < |sys.connections|
    requires sys.connections[c].open && !sys.connections[other].open && Alive(sys.store, sys.connections[c].id)
    ensures InPlace(sys, DropReceiver(sys, sys.connections[other].id), c, false)
  {
    assert sys.connections[other].id != sys.connections[c].id;
  }

  lemma DeliveryInPlace(sys: System, d: nat, c: nat)
    requires c < |sys.connections| && d < |sys.connections| && sys.connections[c].open && Alive(sys.store, sys.connections[c].id)
    ensures InPlace(sys, DeliverOne(sys, d), c, false)
  {
  }

  /** One step, for a connection that is open after it and was there before it. */
  lemma StepKeepsPlace(sys: System, step: Step, c: nat)
    requires Inv(sys) && c < |sys.connections| && c < |Do(sys, step).connections| && Do(sys, step).connections[c].open
    requires Alive(sys.store, sys.connections[c].id)
    ensures InPlace(sys, Do(sys, step), c, step.Call? && Loses(sys.store, step.op, sys.connections[c].id))
  {
    StillOpen(sys, step, c);
    match step
    case Call(op) => CallInPlace(sys, op, c);
    case Leave(other) =>
      if other < |sys.connections| && !sys.connections[other].open {
        LeavingElsewhere(sys, other, c);
      }
    case Deliver(d) =>
      if d < |sys.connections| && sys.connections[d].open && sys.connections[d].greeted {
        DeliveryInPlace(sys, d, c);
      }
    case Connect(before, build) =>
    case _ => SameStore(sys, step, c);
  }

  lemma CallInPlace(sys: System, op: Op, c: nat)
    requires Inv(sys) && c < |sys.connections| && sys.connections[c].open && Alive(sys.store, sys.connections[c].id)
    ensures InPlace(sys, Do(sys, Call(op)), c, Loses(sys.store, op, sys.connections[c].id))
  {
    CallKeepsPlace(sys.store, op, sys.connections[c].id);
    MovedInPlace(sys, Exec(sys.store, op), c, Loses(sys.store, op, sys.connections[c].id));
  }

  lemma MovedInPlace(sys: System, t: Inner, c: nat, lost: bool)
    requires c < |sys.connections| && sys.connections[c].open && Alive(t, sys.connections[c].id)
    requires sys.connections[c].id in t.subscribers <==> sys.connections[c].id in sys.store.subscribers && !lost
    ensures InPlace(sys, Moved(sys, t), c, lost)
  {
  }

  /** A step between a connection and its sidebar leaves the store alone. */
  lemma SameStore(sys: System, step: Step, c: nat)
    requires step.Greet? || step.Heartbeat? || step.Break? || step.Read?
    requires c < |sys.connections| && sys.connections[c].open && Do(sys, step).connections[c].open
    requires Alive(sys.store, sys.connections[c].id)
    ensures InPlace(sys, Do(sys, step), c, false)
  {
  }

  /** A connection is subscribed, with its receiver alive, when it has just connected. */
  lemma ConnectedIsSubscribed(sys: System, step: Step, c: nat)
    requires Inv(sys) && c < |Do(sys, step).connections| && c >= |sys.connections|
    ensures
      var next := Do(sys, step);
      next.connections[c].id in next.store.subscribers && Alive(next.store, next.connections[c].id)
  {
  }

  lemma LosesAtFront(steps: seq<Step>, c: nat, k: nat)
    requires k < |steps| - 1
    ensures LosesAt(steps[..|steps| - 1], c, k) == LosesAt(steps, c, k)
  {
    assert steps[..|steps| - 1][..k] == steps[..k];
  }

  /**
   In every run a connection that is still open is still subscribed if and only
   if nobody has given its subscription up and no update has ever found its
   queue with 256 waiting.
   */
  lemma {:induction false} OpenMeansSubscribed(steps: seq<Step>, c: nat)
    requires c < |Run(steps).connections| && Run(steps).connections[c].open
    ensures Alive(Run(steps).store, Run(steps).connections[c].id)
    ensures Run(steps).connections[c].id in Run(steps).store.subscribers <==> forall k | 0 <= k < |steps| :: !LosesAt(steps, c, k)
  {
    if steps != [] {
      var front, last := steps[..|steps| - 1], steps[|steps| - 1];
      RunKeepsInv(front);
      forall k: nat | k < |steps| - 1 ensures LosesAt(front, c, k) == LosesAt(steps, c, k) {
        LosesAtFront(steps, c, k);
      }
      if c < |Run(front).connections| {
        StillOpen(Run(front), last, c);
        OpenMeansSubscribed(front, c);
        StepKeepsPlace(Run(front), last, c);
        assert LosesAt(steps, c, |steps| - 1) <==> last.Call? && Loses(Run(front).store, last.op, Run(front).connections[c].id);
      } else {
        ConnectedIsSubscribed(Run(front), last, c);
        NotYetThere(steps, c);
      }
    }
  }

  lemma StillOpen(sys: System, step: Step, c: nat)
    requires c < |sys.connections| && c < |Do(sys, step).connections| && Do(sys, step).connections[c].open
    ensures sys.connections[c].open
  {
  }

  lemma {:induction false} NotYetThere(steps: seq<Step>, c: nat)
    requires steps != [] && c >= |Run(steps[..|steps| - 1]).connections|
    ensures forall k | 0 <= k < |steps| :: !LosesAt(steps, c, k)
  {
    forall k: nat | k < |steps| ensures !LosesAt(steps, c, k) {
      ConnectionsOnlyGrow(steps[..|steps| - 1], k);
      assert steps[..|steps| - 1][..k] == steps[..k];
    }
  }

  lemma {:induction false} ConnectionsOnlyGrow(steps: seq<Step>, k: nat)
    requires k <= |steps|
    ensures |Run(steps[..k]).connections| <= |Run(steps).connections|
  {
    if k < |steps| {
      var front := steps[..|steps| - 1];
      ConnectionsOnlyGrow(front, k);
      assert front[..k] == steps[..k];
      OneStepGrows(Run(front), steps[|steps| - 1]);
    } else {
      assert steps[..k] == steps;
    }
  }

  lemma OneStepGrows(sys: System, step: Step)
    ensures |sys.connections| <= |Do(sys, step).connections|
  {
  }
}
