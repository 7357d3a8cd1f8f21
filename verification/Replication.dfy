/**
 The store, its subscribers' queues, the connection threads that drain them
 and the sidebars that read the sockets, as one state machine. A run is any
 interleaving of their steps.
 */
module Replication {
  import opened Wrappers
  import opened Sequences
  import opened Text
  import opened Cards
  import opened Store
  import opened Reducer

  /** The snapshot taken together with a subscription, under one lock. */
  datatype Snapshot = Snapshot(number: nat, panes: map<string, WireCard>, build: string)

  function HelloLine(snapshot: Snapshot): Line {
    Hello(WIRE_VERSION, snapshot.number, snapshot.panes, Some(snapshot.build))
  }

  /** One `subscribe` connection and the sidebar at its other end. */
  datatype Connection = Connection(
    id: nat,            // the subscription
    hello: Snapshot,    // what its first line will carry
    greeted: bool,      // the hello has been written
    open: bool,         // the connection thread is still in its loop
    stream: seq<Line>,  // every line written to the socket so far
    read: nat,          // how many of them the sidebar has applied
    before: Replica,    // what the sidebar held when it connected
    client: Replica)    // what it holds now

  /** `log` is a history variable: the visible cards at each sequence number. */
  datatype System = System(store: Inner, connections: seq<Connection>, log: seq<map<string, WireCard>>)

  datatype Step =
    | Call(op: Op)
    | Connect(before: Replica, build: string)
    | Greet(c: nat)
    | Deliver(c: nat)
    | Heartbeat(c: nat)
    | Break(c: nat, torn: bool)
    | Leave(c: nat)
    | Read(c: nat)

  function WireAll(panes: map<string, Card>): map<string, WireCard> {
    map pane | pane in panes :: Wire(panes[pane])
  }

  function WireUpdate(u: Update): Line {
    Delta(u.number, u.paneId, if u.telemetry.Some? then Some(Wire(u.telemetry.value)) else None)
  }

  const START := System(EMPTY, [], [map[]])

  ghost function Moved(sys: System, store: Inner): System {
    System(store, sys.connections,
           if store.number == sys.store.number then sys.log else sys.log + [WireAll(store.panes)])
  }

  function WithConnection(sys: System, c: nat, conn: Connection): System
    requires c < |sys.connections|
  {
    sys.(connections := sys.connections[c := conn])
  }

  /** One step; a step that is not possible in this state changes nothing. */
  ghost function Do(sys: System, step: Step): System {
    match step
    case Call(op) => Moved(sys, Exec(sys.store, op))
    case Connect(before, build) =>
      var hello := Snapshot(sys.store.number, WireAll(sys.store.panes), build);
      var store := AfterSubscribe(sys.store);
      sys.(store := store,
           connections := sys.connections + [Connection(store.nextSubId, hello, false, true, [], 0, before, before)])
    case Greet(c) =>
      if c < |sys.connections| && sys.connections[c].open && !sys.connections[c].greeted then
        var conn := sys.connections[c];
        WithConnection(sys, c, conn.(greeted := true, stream := conn.stream + [HelloLine(conn.hello)]))
      else sys
    case Deliver(c) =>
      if c < |sys.connections| && sys.connections[c].open && sys.connections[c].greeted then DeliverOne(sys, c) else sys
    case Heartbeat(c) =>
      if c < |sys.connections| && sys.connections[c].open && sys.connections[c].greeted then
        WithConnection(sys, c, sys.connections[c].(stream := sys.connections[c].stream + [Blank]))
      else sys
    case Break(c, torn) =>
      if c < |sys.connections| && sys.connections[c].open then
        var conn := sys.connections[c];
        WithConnection(sys, c, conn.(open := false, stream := conn.stream + if torn then [Malformed] else []))
      else sys
    case Leave(c) =>
      if c < |sys.connections| && !sys.connections[c].open then DropReceiver(sys, sys.connections[c].id) else sys
    case Read(c) =>
      if c < |sys.connections| && sys.connections[c].read < |sys.connections[c].stream| then
        var conn := sys.connections[c];
        WithConnection(sys, c, conn.(read := conn.read + 1, client := Reduce(conn.client, conn.stream[conn.read])))
      else sys
  }

  /** `recv_timeout` returned an update: it leaves the queue and is written as a delta. */
  function DeliverOne(sys: System, c: nat): System
    requires c < |sys.connections|
  {
    var conn := sys.connections[c];
    if conn.id in sys.store.channels && sys.store.channels[conn.id].queue != [] then
      WithConnection(sys, c, conn.(stream := conn.stream + [WireUpdate(sys.store.channels[conn.id].queue[0])]))
      .(store := Popped(sys.store, conn.id))
    else sys
  }

  function Popped(s: Inner, id: nat): Inner
    requires id in s.channels && s.channels[id].queue != []
  {
    s.(channels := s.channels[id := s.channels[id].(queue := s.channels[id].queue[1..])])
  }

  function DropReceiver(sys: System, id: nat): System {
    var left := AfterUnsubscribe(sys.store, id);
    if id in left.channels then
      sys.(store := left.(channels := left.channels[id := Channel([], false)]))
    else sys.(store := left)
  }

  ghost function Run(steps: seq<Step>): System {
    if steps == [] then START else Do(Run(steps[..|steps| - 1]), steps[|steps| - 1])
  }

  // ----- what a store operation looks like from outside -----

  ghost predicate Silent(s: Inner, t: Inner) {
    && t.number == s.number
    && WireAll(t.panes) == WireAll(s.panes)
    && (forall id | id in s.channels :: id in t.channels && t.channels[id] == s.channels[id])
    && (forall id | id in s.channels && id in t.subscribers :: id in s.subscribers)
  }

  ghost predicate Loud(s: Inner, t: Inner, u: Update) {
    && t.number == s.number + 1 == u.number
    && WireAll(t.panes) == Patch(WireAll(s.panes), u.paneId, WireUpdate(u).telemetry)
    && (forall id | id in s.channels :: id in t.channels &&
         if id in t.subscribers then id in s.subscribers && t.channels[id] == Push(s.channels[id], u)
         else t.channels[id] == s.channels[id])
  }

  lemma PublishIsLoud(s: Inner, pane: string, card: Card)
    ensures exists u :: Loud(s, Publish(s, pane, card), u)
  {
    var stamped := card.(updatedSeq := s.number + 1);
    var u := Update(s.number + 1, pane, Some(stamped));
    assert WireAll(s.panes[pane := stamped]) == WireAll(s.panes)[pane := Wire(stamped)];
    assert Loud(s, Publish(s, pane, card), u);
  }

  lemma RemoveIsLoud(s: Inner, pane: string)
    requires pane in s.panes
    ensures exists u :: Loud(s, AfterRemove(s, pane), u)
  {
    var u := Update(s.number + 1, pane, None);
    assert WireAll(s.panes - {pane}) == WireAll(s.panes) - {pane};
    assert Loud(s, AfterRemove(s, pane), u);
  }

  lemma CommitIsSeen(s: Inner, pane: string, o: Outcome)
    requires !o.changed ==> pane in s.panes && Wire(o.card) == Wire(s.panes[pane])
    ensures Silent(s, Commit(s, pane, o)) || exists u :: Loud(s, Commit(s, pane, o), u)
  {
    if o.changed {
      PublishIsLoud(s, pane, o.card);
    } else {
      assert WireAll(s.panes[pane := o.card]) == WireAll(s.panes);
    }
  }

  /** Every operation either shows nothing or takes one number and offers the one delta that explains it. */
  lemma EveryOpIsSeen(s: Inner, op: Op)
    requires Store.Valid(s)
    ensures Silent(s, Exec(s, op)) || exists u :: Loud(s, Exec(s, op), u)
  {
    match op
    case SetAgent(pane, agent) =>
      if pane in s.panes {
        CommitIsSeen(s, pane, AgentEdit(s.panes[pane], agent, false));
      } else {
        CommitIsSeen(s, pane, AgentEdit(DEFAULT_CARD, agent, true));
      }
    case SetPaneListCwd(pane, cwd) =>
      if cwd.Some? && Sanitise(cwd.value) != "" && pane in s.panes {
        CommitIsSeen(s, pane, CwdEdit(s.panes[pane], Sanitise(cwd.value)));
      }
    case SetPanePosition(pane, position) =>
      if pane in s.panes {
        CommitIsSeen(s, pane, PositionEdit(s.panes[pane], position));
      }
    case SetPaneWorkspace(pane, workspace) =>
      if pane in s.panes {
        CommitIsSeen(s, pane, WorkspaceEdit(s.panes[pane], NonEmpty(workspace)));
      }
    case ReplaceSession(pane, agent) =>
      PublishIsLoud(s, pane, FreshSession(s, pane, agent));
    case Record(pane, event, payload) =>
      if pane in s.panes {
        var o := Apply(s.panes[pane], event, Normalise(event, payload));
        if !o.changed {
          SilentEventsAreInvisible(s.panes[pane], event, Normalise(event, payload));
        }
        CommitIsSeen(s, pane, o);
      }
    case Remove(pane) =>
      if pane in s.panes {
        RemoveIsLoud(s, pane);
      }
    case SubscribeFull =>
    case Unsubscribe(id) =>
  }

  // ----- what a stream says -----

  /** How many deltas a stretch of lines carries. */
  function Deltas(lines: seq<Line>): nat {
    if lines == [] then 0 else Deltas(lines[..|lines| - 1]) + if lines[|lines| - 1].Delta? then 1 else 0
  }

  /** The line after number `at`: a delta carries number `at + 1` and explains that entry of the log. */
  ghost predicate Explains(log: seq<map<string, WireCard>>, at: nat, line: Line) {
    && !line.Hello?
    && (line.Delta? ==>
      at + 1 < |log| && line.number == at + 1 && log[at + 1] == Patch(log[at], line.paneId, line.telemetry))
  }

  /** Consecutive deltas from `from`, with any number of heartbeats between them. */
  ghost predicate Feed(log: seq<map<string, WireCard>>, from: nat, lines: seq<Line>) {
    lines == [] || (Feed(log, from, lines[..|lines| - 1]) &&
                    Explains(log, from + Deltas(lines[..|lines| - 1]), lines[|lines| - 1]))
  }

  lemma {:induction false} FeedGrows(log: seq<map<string, WireCard>>, more: seq<map<string, WireCard>>, from: nat, lines: seq<Line>)
    requires Feed(log, from, lines) && log <= more
    ensures Feed(more, from, lines)
  {
    if lines != [] {
      FeedGrows(log, more, from, lines[..|lines| - 1]);
    }
  }

  lemma FeedOne(log: seq<map<string, WireCard>>, from: nat, lines: seq<Line>, line: Line)
    requires Feed(log, from, lines) && Explains(log, from + Deltas(lines), line)
    ensures Feed(log, from, lines + [line])
    ensures Deltas(lines + [line]) == Deltas(lines) + if line.Delta? then 1 else 0
  {
    assert (lines + [line])[..|lines|] == lines;
  }

  /** A reader that starts on an entry of the log stays on it, one number per delta. */
  lemma {:induction false} ReadingTheFeed(log: seq<map<string, WireCard>>, from: nat, lines: seq<Line>, r: Replica)
    requires from < |log| && r.lastSeq == from && r.panes == log[from]
    requires Feed(log, from, lines)
    ensures
      var now := ReduceAll(r, lines);
      now.lastSeq == from + Deltas(lines) < |log| && now.panes == log[from + Deltas(lines)] && now.daemonBuild == r.daemonBuild
  {
    if lines != [] {
      ReadingTheFeed(log, from, lines[..|lines| - 1], r);
    }
  }

  /** The updates waiting in a queue, as the lines they will become. */
  function Pending(queue: seq<Update>): (r: seq<Line>)
    ensures |r| == |queue|
  {
    Map(WireUpdate, queue)
  }

  lemma {:induction false} FeedPrefix(log: seq<map<string, WireCard>>, from: nat, lines: seq<Line>, k: nat)
    requires Feed(log, from, lines) && k <= |lines|
    ensures Feed(log, from, lines[..k])
  {
    if k < |lines| {
      FeedPrefix(log, from, lines[..|lines| - 1], k);
      assert lines[..|lines| - 1][..k] == lines[..k];
    } else {
      assert lines[..k] == lines;
    }
  }

  // ----- the invariant -----

  /** The lines a connection has written since its hello. */
  function Body(conn: Connection): seq<Line>
    requires conn.greeted ==> conn.stream != []
  {
    if conn.greeted then conn.stream[1..] else []
  }

  /** Everything this connection has written or, while it is open, will write from its queue. */
  ghost function Course(store: Inner, conn: Connection): seq<Line>
    requires conn.greeted ==> conn.stream != []
  {
    Body(conn) + if conn.open && conn.id in store.channels then Pending(store.channels[conn.id].queue) else []
  }

  ghost predicate ConnectionOk(store: Inner, log: seq<map<string, WireCard>>, conn: Connection) {
    && 1 <= conn.id <= store.nextSubId && conn.id in store.channels
    && conn.hello.number < |log| && conn.hello.panes == log[conn.hello.number]
    && (conn.greeted ==> conn.stream != [] && conn.stream[0] == HelloLine(conn.hello))
    && (!conn.greeted ==> forall line | line in conn.stream :: line.Malformed?)
    && (!conn.greeted && conn.open ==> conn.stream == [])
    && Feed(log, conn.hello.number, Course(store, conn))
    && (conn.open && conn.id in store.subscribers ==> conn.hello.number + Deltas(Course(store, conn)) == store.number)
    && conn.read <= |conn.stream|
    && conn.client == ReduceAll(conn.before, conn.stream[..conn.read])
  }

  ghost predicate Inv(sys: System) {
    && Store.Valid(sys.store)
    && |sys.log| == sys.store.number + 1
    && sys.log[sys.store.number] == WireAll(sys.store.panes)
    && (forall c | 0 <= c < |sys.connections| :: ConnectionOk(sys.store, sys.log, sys.connections[c]))
    && (forall c, d | 0 <= c < d < |sys.connections| :: sys.connections[c].id != sys.connections[d].id)
  }

  // ----- every step keeps it -----

  lemma SilentKeepsConnection(s: Inner, t: Inner, log: seq<map<string, WireCard>>, conn: Connection)
    requires Silent(s, t) && t.nextSubId >= s.nextSubId && ConnectionOk(s, log, conn)
    ensures ConnectionOk(t, log, conn)
  {
    assert Course(t, conn) == Course(s, conn);
  }

  lemma QueuedCourse(body: seq<Line>, queue: seq<Update>, u: Update)
    ensures body + Pending(queue + [u]) == body + Pending(queue) + [WireUpdate(u)]
  {
    assert Pending(queue + [u]) == Pending(queue) + [WireUpdate(u)];
  }

  lemma LoudKeepsConnection(s: Inner, t: Inner, u: Update, log: seq<map<string, WireCard>>, conn: Connection)
    requires |log| == s.number + 1 && log[s.number] == WireAll(s.panes)
    requires Loud(s, t, u) && t.nextSubId >= s.nextSubId && ConnectionOk(s, log, conn)
    ensures ConnectionOk(t, log + [WireAll(t.panes)], conn)
  {
    var more := log + [WireAll(t.panes)];
    var from, course := conn.hello.number, Course(s, conn);
    FeedGrows(log, more, from, course);
    if conn.open && conn.id in t.subscribers {
      QueuedCourse(Body(conn), s.channels[conn.id].queue, u);
      assert Course(t, conn) == course + [WireUpdate(u)];
      assert Explains(more, s.number, WireUpdate(u));
      FeedOne(more, from, course, WireUpdate(u));
    } else {
      assert Course(t, conn) == course;
    }
  }

  lemma SilentKeepsInv(sys: System, t: Inner)
    requires Inv(sys) && Store.Valid(t) && Silent(sys.store, t) && t.nextSubId >= sys.store.nextSubId
    ensures Inv(Moved(sys, t))
  {
    forall c | 0 <= c < |sys.connections| ensures ConnectionOk(t, sys.log, sys.connections[c]) {
      SilentKeepsConnection(sys.store, t, sys.log, sys.connections[c]);
    }
  }

  lemma LoudKeepsInv(sys: System, t: Inner, u: Update)
    requires Inv(sys) && Store.Valid(t) && Loud(sys.store, t, u) && t.nextSubId >= sys.store.nextSubId
    ensures Inv(Moved(sys, t))
  {
    var next := Moved(sys, t);
    forall c | 0 <= c < |sys.connections| ensures ConnectionOk(t, next.log, sys.connections[c]) {
      LoudKeepsConnection(sys.store, t, u, sys.log, sys.connections[c]);
    }
  }

  lemma IdsOnlyGrow(s: Inner, op: Op)
    ensures Exec(s, op).nextSubId >= s.nextSubId
  {
    match op
    case Record(pane, event, payload) =>
    case _ =>
  }

  lemma SeenKeepsInv(sys: System, t: Inner)
    requires Inv(sys) && Store.Valid(t) && t.nextSubId >= sys.store.nextSubId
    requires Silent(sys.store, t) || exists u :: Loud(sys.store, t, u)
    ensures Inv(Moved(sys, t))
  {
    if Silent(sys.store, t) {
      SilentKeepsInv(sys, t);
    } else {
      var u :| Loud(sys.store, t, u);
      LoudKeepsInv(sys, t, u);
    }
  }

  lemma CallKeepsInv(sys: System, op: Op)
    requires Inv(sys)
    ensures Inv(Do(sys, Call(op)))
  {
    ExecValid(sys.store, op);
    EveryOpIsSeen(sys.store, op);
    IdsOnlyGrow(sys.store, op);
    SeenKeepsInv(sys, Exec(sys.store, op));
  }

  lemma ConnectKeepsInv(sys: System, before: Replica, build: string)
    requires Inv(sys)
    ensures Inv(Do(sys, Connect(before, build)))
  {
    var t := AfterSubscribe(sys.store);
    ExecValid(sys.store, SubscribeFull);
    assert Exec(sys.store, SubscribeFull) == t;
    var next := Do(sys, Connect(before, build));
    forall c | 0 <= c < |sys.connections| ensures ConnectionOk(t, sys.log, sys.connections[c]) {
      SilentKeepsConnection(sys.store, t, sys.log, sys.connections[c]);
    }
    NewConnectionOk(t, sys.log, next.connections[|sys.connections|]);
  }

  lemma NewConnectionOk(store: Inner, log: seq<map<string, WireCard>>, conn: Connection)
    requires 1 <= conn.id <= store.nextSubId && conn.id in store.channels && store.channels[conn.id].queue == []
    requires conn.open && !conn.greeted && conn.stream == [] && conn.read == 0 && conn.client == conn.before
    requires conn.hello.number == store.number < |log| && conn.hello.panes == log[store.number]
    ensures ConnectionOk(store, log, conn)
  {
    assert Course(store, conn) == [];
  }

  /** A connection does not notice what happens to another one's queue. */
  lemma ElsewhereKeepsConnection(s: Inner, t: Inner, log: seq<map<string, WireCard>>, conn: Connection)
    requires ConnectionOk(s, log, conn)
    requires t.number == s.number && t.nextSubId == s.nextSubId
    requires conn.id in t.channels && (conn.open ==> t.channels[conn.id] == s.channels[conn.id])
    requires conn.open && conn.id in t.subscribers ==> conn.id in s.subscribers
    ensures ConnectionOk(t, log, conn)
  {
    assert Course(t, conn) == Course(s, conn);
  }

  /** A step of connection `c` that touches no queue but its own keeps the invariant if it keeps `c` right. */
  lemma OneConnectionKeepsInv(sys: System, c: nat, store: Inner, conn: Connection)
    requires Inv(sys) && c < |sys.connections| && Store.Valid(store)
    requires conn.id == sys.connections[c].id
    requires store.number == sys.store.number && store.panes == sys.store.panes && store.nextSubId == sys.store.nextSubId
    requires store.channels.Keys == sys.store.channels.Keys
    requires forall id | id in store.channels && id != conn.id :: store.channels[id] == sys.store.channels[id]
    requires forall id | id in store.subscribers :: id in sys.store.subscribers
    requires ConnectionOk(store, sys.log, conn)
    ensures Inv(WithConnection(sys, c, conn).(store := store))
  {
    var next := WithConnection(sys, c, conn).(store := store);
    forall d | 0 <= d < |next.connections| ensures ConnectionOk(store, sys.log, next.connections[d]) {
      if d != c {
        ElsewhereKeepsConnection(sys.store, store, sys.log, sys.connections[d]);
      }
    }
  }

  lemma {:induction false} ReduceOneMore(r: Replica, lines: seq<Line>, k: nat)
    requires k < |lines|
    ensures ReduceAll(r, lines[..k + 1]) == Reduce(ReduceAll(r, lines[..k]), lines[k])
  {
    assert lines[..k + 1][..k] == lines[..k];
  }

  lemma StreamGrows(conn: Connection, line: Line)
    requires conn.read <= |conn.stream|
    ensures (conn.stream + [line])[..conn.read] == conn.stream[..conn.read]
  {
  }

  lemma {:induction false} FeedWithHeartbeat(log: seq<map<string, WireCard>>, from: nat, a: seq<Line>, b: seq<Line>)
    requires Feed(log, from, a + b)
    ensures Feed(log, from, a + [Blank] + b)
    ensures Deltas(a + [Blank] + b) == Deltas(a + b)
  {
    if b == [] {
      assert a + b == a && a + [Blank] + b == a + [Blank];
      FeedOne(log, from, a, Blank);
    } else {
      var front, line := b[..|b| - 1], b[|b| - 1];
      assert (a + b)[..|a + b| - 1] == a + front;
      FeedWithHeartbeat(log, from, a, front);
      assert a + [Blank] + b == (a + [Blank] + front) + [line];
      FeedOne(log, from, a + [Blank] + front, line);
      FeedOne(log, from, a + front, line);
      assert a + b == (a + front) + [line];
    }
  }

  lemma GreetKeepsInv(sys: System, c: nat)
    requires Inv(sys)
    ensures Inv(Do(sys, Greet(c)))
  {
    if c < |sys.connections| && sys.connections[c].open && !sys.connections[c].greeted {
      var conn := sys.connections[c];
      var after := conn.(greeted := true, stream := conn.stream + [HelloLine(conn.hello)]);
      StreamGrows(conn, HelloLine(conn.hello));
      assert Course(sys.store, after) == Course(sys.store, conn);
      OneConnectionKeepsInv(sys, c, sys.store, after);
    }
  }

  lemma DeliveredConnection(s: Inner, log: seq<map<string, WireCard>>, conn: Connection)
    requires ConnectionOk(s, log, conn) && conn.open && conn.greeted && s.channels[conn.id].queue != []
    ensures ConnectionOk(Popped(s, conn.id), log, conn.(stream := conn.stream + [WireUpdate(s.channels[conn.id].queue[0])]))
  {
    var queue := s.channels[conn.id].queue;
    StreamGrows(conn, WireUpdate(queue[0]));
    DeliveredCourse(conn.stream, queue);
    assert Course(Popped(s, conn.id), conn.(stream := conn.stream + [WireUpdate(queue[0])])) == Course(s, conn);
  }

  /** Writing the head of the queue moves it from one half of the course to the other. */
  lemma DeliveredCourse(stream: seq<Line>, queue: seq<Update>)
    requires stream != [] && queue != []
    ensures (stream + [WireUpdate(queue[0])])[1..] + Pending(queue[1..]) == stream[1..] + Pending(queue)
  {
    assert Pending(queue) == [WireUpdate(queue[0])] + Pending(queue[1..]);
  }

  lemma DeliverKeepsInv(sys: System, c: nat)
    requires Inv(sys)
    ensures Inv(Do(sys, Deliver(c)))
  {
    if c < |sys.connections| && sys.connections[c].open && sys.connections[c].greeted &&
       sys.store.channels[sys.connections[c].id].queue != [] {
      var conn := sys.connections[c];
      DeliveredConnection(sys.store, sys.log, conn);
      OneConnectionKeepsInv(sys, c, Popped(sys.store, conn.id),
                            conn.(stream := conn.stream + [WireUpdate(sys.store.channels[conn.id].queue[0])]));
    }
  }

  lemma HeartbeatKeepsConnection(store: Inner, log: seq<map<string, WireCard>>, conn: Connection)
    requires ConnectionOk(store, log, conn) && conn.open && conn.greeted
    ensures ConnectionOk(store, log, conn.(stream := conn.stream + [Blank]))
  {
    var after := conn.(stream := conn.stream + [Blank]);
    var queued := Pending(store.channels[conn.id].queue);
    StreamGrows(conn, Blank);
    FeedWithHeartbeat(log, conn.hello.number, Body(conn), queued);
    assert Course(store, after) == Body(conn) + [Blank] + queued;
  }

  lemma HeartbeatKeepsInv(sys: System, c: nat)
    requires Inv(sys)
    ensures Inv(Do(sys, Heartbeat(c)))
  {
    if c < |sys.connections| && sys.connections[c].open && sys.connections[c].greeted {
      var conn := sys.connections[c];
      HeartbeatKeepsConnection(sys.store, sys.log, conn);
      OneConnectionKeepsInv(sys, c, sys.store, conn.(stream := conn.stream + [Blank]));
    }
  }

  /** A connection that breaks, perhaps in the middle of a line, has nothing more to come. */
  function Broken(conn: Connection, torn: bool): Connection {
    conn.(open := false, stream := conn.stream + if torn then [Malformed] else [])
  }

  lemma BrokenCourse(store: Inner, conn: Connection, torn: bool)
    requires conn.greeted ==> conn.stream != []
    ensures
      var after := Broken(conn, torn);
      && Course(store, after) == (if torn && conn.greeted then Body(conn) + [Malformed] else Body(conn))
      && Body(conn) <= Course(store, conn)
      && (conn.greeted ==> after.stream[0] == conn.stream[0])
  {
    assert conn.stream + [] == conn.stream;
    assert conn.greeted ==> (conn.stream + [Malformed])[1..] == conn.stream[1..] + [Malformed];
  }

  lemma {:induction false} FeedOfPrefix(log: seq<map<string, WireCard>>, from: nat, lines: seq<Line>, more: seq<Line>)
    requires Feed(log, from, more) && lines <= more
    ensures Feed(log, from, lines) && Feed(log, from, lines + [Malformed])
  {
    FeedPrefix(log, from, more, |lines|);
    assert more[..|lines|] == lines;
    FeedOne(log, from, lines, Malformed);
  }

  lemma BrokenFeed(store: Inner, log: seq<map<string, WireCard>>, conn: Connection, torn: bool)
    requires ConnectionOk(store, log, conn) && conn.open
    ensures Feed(log, conn.hello.number, Course(store, Broken(conn, torn)))
  {
    BrokenCourse(store, conn, torn);
    FeedOfPrefix(log, conn.hello.number, Body(conn), Course(store, conn));
  }

  lemma BrokenKeepsConnection(store: Inner, log: seq<map<string, WireCard>>, conn: Connection, torn: bool)
    requires ConnectionOk(store, log, conn) && conn.open
    ensures ConnectionOk(store, log, Broken(conn, torn))
  {
    BrokenFeed(store, log, conn, torn);
    BrokenCourse(store, conn, torn);
    BrokenStream(conn, torn);
  }

  lemma BrokenStream(conn: Connection, torn: bool)
    requires conn.read <= |conn.stream|
    ensures Broken(conn, torn).stream[..conn.read] == conn.stream[..conn.read]
  {
    if torn {
      StreamGrows(conn, Malformed);
    }
  }

  lemma BreakKeepsInv(sys: System, c: nat, torn: bool)
    requires Inv(sys)
    ensures Inv(Do(sys, Break(c, torn)))
  {
    if c < |sys.connections| && sys.connections[c].open {
      var after := Broken(sys.connections[c], torn);
      BrokenKeepsConnection(sys.store, sys.log, sys.connections[c], torn);
      OneConnectionKeepsInv(sys, c, sys.store, after);
    }
  }

  lemma LeaveKeepsInv(sys: System, c: nat)
    requires Inv(sys)
    ensures Inv(Do(sys, Leave(c)))
  {
    if c < |sys.connections| && !sys.connections[c].open {
      var conn := sys.connections[c];
      var next := DropReceiver(sys, conn.id);
      ExecValid(sys.store, Unsubscribe(conn.id));
      assert Exec(sys.store, Unsubscribe(conn.id)) == AfterUnsubscribe(sys.store, conn.id);
      assert Course(next.store, conn) == Course(sys.store, conn);
      assert sys.connections[c := conn] == sys.connections;
      OneConnectionKeepsInv(sys, c, next.store, conn);
    }
  }

  lemma ReadKeepsInv(sys: System, c: nat)
    requires Inv(sys)
    ensures Inv(Do(sys, Read(c)))
  {
    if c < |sys.connections| && sys.connections[c].read < |sys.connections[c].stream| {
      var conn := sys.connections[c];
      var after := conn.(read := conn.read + 1, client := Reduce(conn.client, conn.stream[conn.read]));
      ReduceOneMore(conn.before, conn.stream, conn.read);
      assert Course(sys.store, after) == Course(sys.store, conn);
      OneConnectionKeepsInv(sys, c, sys.store, after);
    }
  }

  /** No interleaving leaves the invariant. */
  lemma {:induction false} RunKeepsInv(steps: seq<Step>)
    ensures Inv(Run(steps))
  {
    if steps != [] {
      var sys := Run(steps[..|steps| - 1]);
      RunKeepsInv(steps[..|steps| - 1]);
      match steps[|steps| - 1]
      case Call(op) => CallKeepsInv(sys, op);
      case Connect(before, build) => ConnectKeepsInv(sys, before, build);
      case Greet(c) => GreetKeepsInv(sys, c);
      case Deliver(c) => DeliverKeepsInv(sys, c);
      case Heartbeat(c) => HeartbeatKeepsInv(sys, c);
      case Break(c, torn) => BreakKeepsInv(sys, c, torn);
      case Leave(c) => LeaveKeepsInv(sys, c);
      case Read(c) => ReadKeepsInv(sys, c);
    }
  }

  // ----- what the log means -----

  lemma StepGrowsLog(sys: System, step: Step)
    requires Inv(sys)
    ensures
      var next := Do(sys, step);
      sys.log <= next.log && sys.store.number <= next.store.number <= sys.store.number + 1
  {
    if step.Call? {
      EveryOpIsSeen(sys.store, step.op);
    }
  }

  /** The log only grows, and at every earlier moment of the run it ended in that moment's cards. */
  lemma {:induction false} LogIsHistory(steps: seq<Step>, i: nat)
    requires i <= |steps|
    ensures
      var past, now := Run(steps[..i]), Run(steps);
      && past.store.number < |past.log| && past.log <= now.log
      && past.log[past.store.number] == WireAll(past.store.panes)
  {
    RunKeepsInv(steps[..i]);
    if i == |steps| {
      assert steps[..i] == steps;
    } else {
      var front := steps[..|steps| - 1];
      assert front[..i] == steps[..i];
      LogIsHistory(front, i);
      RunKeepsInv(front);
      StepGrowsLog(Run(front), steps[|steps| - 1]);
    }
  }

  /** The sequence number moves by at most one, so every number so far was the current one at some moment. */
  lemma {:induction false} EveryNumberHappened(steps: seq<Step>, n: nat) returns (i: nat)
    requires n <= Run(steps).store.number
    ensures i <= |steps| && Run(steps[..i]).store.number == n
  {
    i := |steps|;
    assert steps[..i] == steps;
    if n != Run(steps).store.number {
      var front := steps[..|steps| - 1];
      RunKeepsInv(front);
      StepGrowsLog(Run(front), steps[|steps| - 1]);
      i := EveryNumberHappened(front, n);
      assert front[..i] == steps[..i];
    }
  }

  // ----- the theorem -----

  /** The cards a subscriber could see at one moment of a run. */
  ghost function VisibleAt(steps: seq<Step>, i: nat): map<string, WireCard>
    requires i <= |steps|
  {
    WireAll(Run(steps[..i]).store.panes)
  }

  ghost function NumberAt(steps: seq<Step>, i: nat): nat
    requires i <= |steps|
  {
    Run(steps[..i]).store.number
  }

  /** The sequence numbers of the deltas in a stretch of lines, in order. */
  function Numbers(lines: seq<Line>): seq<nat> {
    if lines == [] then []
    else Numbers(lines[..|lines| - 1]) + if lines[|lines| - 1].Delta? then [lines[|lines| - 1].number] else []
  }

  lemma {:induction false} FeedIsConsecutive(log: seq<map<string, WireCard>>, from: nat, lines: seq<Line>)
    requires Feed(log, from, lines)
    ensures |Numbers(lines)| == Deltas(lines)
    ensures forall k | 0 <= k < |Numbers(lines)| :: Numbers(lines)[k] == from + 1 + k
  {
    if lines != [] {
      FeedIsConsecutive(log, from, lines[..|lines| - 1]);
    }
  }

  lemma {:induction false} ReduceAfterHello(r: Replica, hello: Line, lines: seq<Line>)
    ensures ReduceAll(r, [hello] + lines) == ReduceAll(Reduce(r, hello), lines)
  {
    if lines == [] {
      assert [hello] + lines == [hello] && [hello][..0] == [];
    } else {
      assert ([hello] + lines)[..|lines|] == [hello] + lines[..|lines| - 1];
      ReduceAfterHello(r, hello, lines[..|lines| - 1]);
    }
  }

  /** Before its hello arrives a sidebar keeps what it had. */
  lemma {:induction false} NothingBeforeHello(r: Replica, lines: seq<Line>)
    requires forall line | line in lines :: line.Malformed?
    ensures ReduceAll(r, lines) == r
  {
    if lines != [] {
      NothingBeforeHello(r, lines[..|lines| - 1]);
    }
  }

  ghost predicate HelloRead(conn: Connection) {
    conn.greeted && 1 <= conn.read <= |conn.stream|
  }

  /** The lines the sidebar has applied since its hello. */
  ghost function Applied(conn: Connection): seq<Line>
    requires HelloRead(conn)
  {
    conn.stream[1..conn.read]
  }

  /** What the sidebar has applied is the beginning of the connection's course. */
  lemma AppliedIsABeginning(store: Inner, conn: Connection)
    requires HelloRead(conn)
    ensures
      && conn.read - 1 <= |Course(store, conn)|
      && Course(store, conn)[..conn.read - 1] == Applied(conn)
      && conn.stream[..conn.read] == [conn.stream[0]] + Applied(conn)
  {
    var queued := if conn.open && conn.id in store.channels then Pending(store.channels[conn.id].queue) else [];
    assert Course(store, conn) == conn.stream[1..] + queued;
    assert (conn.stream[1..] + queued)[..conn.read - 1] == conn.stream[1..][..conn.read - 1] == conn.stream[1..conn.read];
  }

  lemma WhatTheClientHolds(log: seq<map<string, WireCard>>, store: Inner, conn: Connection)
    requires ConnectionOk(store, log, conn) && HelloRead(conn)
    ensures
      var lines := Applied(conn);
      && Feed(log, conn.hello.number, lines)
      && conn.client.lastSeq == conn.hello.number + Deltas(lines) < |log|
      && conn.client.panes == log[conn.client.lastSeq] && conn.client.daemonBuild == Some(conn.hello.build)
  {
    var lines := Applied(conn);
    AppliedIsABeginning(store, conn);
    FeedPrefix(log, conn.hello.number, Course(store, conn), conn.read - 1);
    ReduceAfterHello(conn.before, HelloLine(conn.hello), lines);
    ReadingTheFeed(log, conn.hello.number, lines, Reduce(conn.before, HelloLine(conn.hello)));
  }

  /**
   In every run, a sidebar that has applied its hello holds exactly the cards
   the store showed whenever its number was the sidebar's `lastSeq` (and it was,
   at some moment), and the deltas it applied are numbered from the hello's
   number plus one without a gap, whether or not the subscription was dropped.
   The build it shows is the one that hello named.
   */
  lemma ReplicaIsTheStoreAtItsNumber(steps: seq<Step>, c: nat)
    requires c < |Run(steps).connections| && HelloRead(Run(steps).connections[c])
    ensures
      var conn := Run(steps).connections[c];
      && (exists i | 0 <= i <= |steps| :: NumberAt(steps, i) == conn.client.lastSeq)
      && (forall i | 0 <= i <= |steps| && NumberAt(steps, i) == conn.client.lastSeq :: conn.client.panes == VisibleAt(steps, i))
      && var numbers := Numbers(Applied(conn));
      && (forall k | 0 <= k < |numbers| :: numbers[k] == conn.hello.number + 1 + k)
      && conn.client.lastSeq == conn.hello.number + |numbers|
      && conn.client.daemonBuild == Some(conn.hello.build)
  {
    RunKeepsInv(steps);
    var sys := Run(steps);
    var conn := sys.connections[c];
    WhatTheClientHolds(sys.log, sys.store, conn);
    FeedIsConsecutive(sys.log, conn.hello.number, Applied(conn));
    var i := EveryNumberHappened(steps, conn.client.lastSeq);
    assert NumberAt(steps, i) == conn.client.lastSeq;
    forall j | 0 <= j <= |steps| && NumberAt(steps, j) == conn.client.lastSeq
      ensures conn.client.panes == VisibleAt(steps, j)
    {
      LogIsHistory(steps, j);
    }
  }

  /** Until it has read its hello, a sidebar still holds what it held when it connected. */
  lemma NoHelloNoChange(steps: seq<Step>, c: nat)
    requires c < |Run(steps).connections| && !HelloRead(Run(steps).connections[c])
    ensures Run(steps).connections[c].client == Run(steps).connections[c].before
  {
    RunKeepsInv(steps);
    var conn := Run(steps).connections[c];
    NothingBeforeHello(conn.before, conn.stream[..conn.read]);
  }

  /** A sidebar whose subscription survived and whose queue and socket are drained shows the present. */
  lemma DrainedReplicaIsCurrent(steps: seq<Step>, c: nat)
    requires c < |Run(steps).connections| && HelloRead(Run(steps).connections[c])
    requires
      var sys := Run(steps);
      var conn := sys.connections[c];
      conn.open && conn.id in sys.store.subscribers && conn.read == |conn.stream| &&
      (conn.id in sys.store.channels ==> sys.store.channels[conn.id].queue == [])
    ensures Run(steps).connections[c].client.lastSeq == Run(steps).store.number
    ensures Run(steps).connections[c].client.panes == WireAll(Run(steps).store.panes)
  {
    RunKeepsInv(steps);
    var sys := Run(steps);
    var conn := sys.connections[c];
    WhatTheClientHolds(sys.log, sys.store, conn);
    assert Course(sys.store, conn) == Applied(conn);
  }
}
