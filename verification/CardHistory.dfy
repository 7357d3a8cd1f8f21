/** What a card shows, over every run of store operations: field by field, the last word on it. */
module CardHistory {
  import opened Wrappers
  import opened Json
  import opened Text
  import opened Cards
  import opened Store
  import opened CwdHistory

  // ----- the words -----

  predicate Records(op: Op, pane: string, event: Event) {
    op.Record? && op.pane == pane && op.event == event
  }

  /** A string member of a recorded payload. */
  predicate Reads(op: Op, key: string, text: string)
    requires op.Record?
  {
    AsStr(At(op.payload, key)) == Some(text)
  }

  /** The operation says which state the pane is in. */
  predicate Says(op: Op, pane: string, state: CardState) {
    match state
    case Finished => Records(op, pane, AgentNotification) && Reads(op, "reason", "turn-complete")
    case Error => Records(op, pane, AgentNotification) && Reads(op, "reason", "agent-error")
    case Attention => Records(op, pane, AgentAttention)
    case Running => Records(op, pane, AgentLifecycle) && Reads(op, "phase", "running")
    case Idle => false
  }

  /** The operation ends a running state, and no other. */
  predicate GoesIdle(op: Op, pane: string) {
    Records(op, pane, AgentLifecycle) && Reads(op, "phase", "idle")
  }

  /** The state the operations after `b` leave. */
  function StateAfter(ops: seq<Op>, b: nat, pane: string): CardState {
    if |ops| <= b + 1 then Idle
    else
      var op, past := ops[|ops| - 1], StateAfter(ops[..|ops| - 1], b, pane);
      if Says(op, pane, Finished) then Finished
      else if Says(op, pane, Error) then Error
      else if Says(op, pane, Attention) then Attention
      else if Says(op, pane, Running) then Running
      else if GoesIdle(op, pane) && past == Running then Idle
      else past
  }

  /** The last cleaned payload of this event after `b`. */
  ghost function LastPayload(ops: seq<Op>, b: nat, pane: string, event: Event): Option<Value> {
    if |ops| <= b + 1 then None
    else
      var op := ops[|ops| - 1];
      if Records(op, pane, event) then Some(Normalise(event, op.payload)) else LastPayload(ops[..|ops| - 1], b, pane, event)
  }

  function LastPosition(ops: seq<Op>, b: nat, pane: string): Option<nat> {
    if |ops| <= b + 1 then None
    else
      var op := ops[|ops| - 1];
      if op.SetPanePosition? && op.pane == pane then Some(op.position) else LastPosition(ops[..|ops| - 1], b, pane)
  }

  function LastWorkspace(ops: seq<Op>, b: nat, pane: string): Option<string> {
    if |ops| <= b + 1 then None
    else
      var op := ops[|ops| - 1];
      if op.SetPaneWorkspace? && op.pane == pane then (if op.workspace == Some("") then None else op.workspace)
      else LastWorkspace(ops[..|ops| - 1], b, pane)
  }

  /** The agent last named at or after `b`. */
  function LastAgent(ops: seq<Op>, b: nat, pane: string): Option<string> {
    if |ops| <= b then None
    else
      var op := ops[|ops| - 1];
      if (op.SetAgent? || op.ReplaceSession?) && op.pane == pane then Some(op.agent) else LastAgent(ops[..|ops| - 1], b, pane)
  }

  // ----- one operation -----

  /** What a card shows besides its cwd and its tool calls. */
  datatype Face = Face(agent: Option<string>, position: Option<nat>, workspace: Option<string>, state: CardState,
                       status: Option<Value>, lifecycle: Option<Value>, title: Option<Value>)

  function FaceOf(c: Card): Face {
    Face(c.agent, c.position, c.workspaceId, c.cardState, c.status, c.lifecycle, c.title)
  }

  function ToolsOf(c: Card): (nat, map<string, nat>, seq<Value>) {
    (c.toolCallTotal, c.toolCounts, c.toolCalls)
  }

  ghost function FaceAfter(ops: seq<Op>, b: nat, pane: string): Face {
    Face(LastAgent(ops, b, pane), LastPosition(ops, b, pane), LastWorkspace(ops, b, pane), StateAfter(ops, b, pane),
         LastPayload(ops, b, pane, AgentStatus), LastPayload(ops, b, pane, AgentLifecycle),
         LastPayload(ops, b, pane, AgentSessionTitle))
  }

  lemma CommitShows(s: Inner, at: string, o: Outcome, pane: string)
    requires pane in s.panes
    ensures
      var now := Commit(s, at, o).panes;
      && pane in now
      && FaceOf(now[pane]) == FaceOf(if pane == at then o.card else s.panes[pane])
      && ToolsOf(now[pane]) == ToolsOf(if pane == at then o.card else s.panes[pane])
  {
  }

  /** What one operation does to the face of a card that it neither creates, replaces nor removes. */
  ghost function NextFace(f: Face, op: Op, pane: string): Face {
    match op
    case SetAgent(at, agent) => if at == pane then f.(agent := Some(agent)) else f
    case SetPanePosition(at, position) => if at == pane then f.(position := Some(position)) else f
    case SetPaneWorkspace(at, workspace) =>
      if at == pane then f.(workspace := if workspace == Some("") then None else workspace) else f
    case Record(at, event, payload) => if at == pane then Shown(f, op, pane) else f
    case _ => f
  }

  ghost function Shown(f: Face, op: Op, pane: string): Face
    requires op.Record? && op.pane == pane
  {
    f.(state :=
         if Says(op, pane, Finished) then Finished
         else if Says(op, pane, Error) then Error
         else if Says(op, pane, Attention) then Attention
         else if Says(op, pane, Running) then Running
         else if GoesIdle(op, pane) && f.state == Running then Idle
         else f.state,
       status := if op.event == AgentStatus then Some(Normalise(AgentStatus, op.payload)) else f.status,
       lifecycle := if op.event == AgentLifecycle then Some(Normalise(AgentLifecycle, op.payload)) else f.lifecycle,
       title := if op.event == AgentSessionTitle then Some(Normalise(AgentSessionTitle, op.payload)) else f.title)
  }

  lemma RecordShows(c: Card, op: Op, pane: string)
    requires op.Record? && op.pane == pane
    ensures
      var now := Apply(c, op.event, Normalise(op.event, op.payload)).card;
      && FaceOf(now) == Shown(FaceOf(c), op, pane)
      && (op.event != AgentToolCall && op.event != AgentReplaySummary ==> ToolsOf(now) == ToolsOf(c))
  {
    assert "turn-complete" != "agent-error" && "running" != "idle";
    match op.event
    case AgentLifecycle =>
    case AgentNotification =>
    case _ =>
  }

  lemma OneStepShows(s: Inner, op: Op, pane: string)
    requires pane in s.panes && pane in Exec(s, op).panes
    requires !(op.ReplaceSession? && op.pane == pane)
    ensures FaceOf(Exec(s, op).panes[pane]) == NextFace(FaceOf(s.panes[pane]), op, pane)
    ensures !Records(op, pane, AgentToolCall) && !Records(op, pane, AgentReplaySummary) ==>
            ToolsOf(Exec(s, op).panes[pane]) == ToolsOf(s.panes[pane])
  {
    match op
    case SetAgent(at, agent) =>
      CommitShows(s, at, AgentEdit(if at in s.panes then s.panes[at] else DEFAULT_CARD, agent, at !in s.panes), pane);
    case SetPaneListCwd(at, cwd) =>
      if at in s.panes && cwd.Some? {
        CommitShows(s, at, CwdEdit(s.panes[at], Sanitise(cwd.value)), pane);
      }
    case SetPanePosition(at, position) =>
      if at in s.panes {
        CommitShows(s, at, PositionEdit(s.panes[at], position), pane);
      }
    case SetPaneWorkspace(at, workspace) =>
      if at in s.panes {
        CommitShows(s, at, WorkspaceEdit(s.panes[at], NonEmpty(workspace)), pane);
      }
    case Record(at, event, payload) =>
      if at in s.panes {
        CommitShows(s, at, Apply(s.panes[at], event, Normalise(event, payload)), pane);
        RecordShows(s.panes[at], op, at);
      }
    case _ =>
  }

  // ----- runs -----

  /** A card begins with its agent and what cwd it carried over, and nothing else: whatever a session had shown is gone. */
  lemma BeginsBlank(ops: seq<Op>, pane: string)
    requires ops != [] && Began(ops, |ops| - 1, pane)
    ensures
      var b := |ops| - 1;
      var cwd, now := Carried(ops, b, pane), RunOps(ops);
      && pane in now.panes
      && now.panes[pane] == Card(Some(ops[b].agent), cwd, if cwd.Some? then PaneList else Unset, None, None, map[], Idle,
                                 None, None, None, [], 0, now.number, {}, {})
      && now.number == RunOps(ops[..b]).number + 1
  {
  }

  lemma FaceStep(ops: seq<Op>, b: nat, pane: string)
    requires b < |ops| - 1
    requires !(ops[|ops| - 1].ReplaceSession? && ops[|ops| - 1].pane == pane)
    ensures FaceAfter(ops, b, pane) == NextFace(FaceAfter(ops[..|ops| - 1], b, pane), ops[|ops| - 1], pane)
  {
  }

  lemma {:induction false} FaceIsTheLastWords(ops: seq<Op>, b: nat, pane: string)
    requires pane in RunOps(ops).panes && LastBeginning(ops, b, pane)
    ensures FaceOf(RunOps(ops).panes[pane]) == FaceAfter(ops, b, pane)
  {
    var front, op := ops[..|ops| - 1], ops[|ops| - 1];
    if b < |ops| - 1 {
      StillItsBeginning(ops, b, pane);
      FaceIsTheLastWords(front, b, pane);
      OneStepShows(RunOps(front), op, pane);
      FaceStep(ops, b, pane);
    } else {
      assert ops[..b] == front;
      BeginsBlank(ops, pane);
    }
  }

  /**
   In every run a card shows, of everything recorded or set since it was created
   or its session replaced, the last agent, position and workspace and the last
   cleaned status, lifecycle and title payloads, or none.
   */
  lemma CardIsTheLastWords(ops: seq<Op>, b: nat, pane: string)
    requires pane in RunOps(ops).panes && LastBeginning(ops, b, pane)
    ensures
      var card := RunOps(ops).panes[pane];
      && card.agent == LastAgent(ops, b, pane)
      && card.position == LastPosition(ops, b, pane)
      && card.workspaceId == LastWorkspace(ops, b, pane)
      && card.status == LastPayload(ops, b, pane, AgentStatus)
      && card.lifecycle == LastPayload(ops, b, pane, AgentLifecycle)
      && card.title == LastPayload(ops, b, pane, AgentSessionTitle)
  {
    FaceIsTheLastWords(ops, b, pane);
  }

  /** Operation `k` is the last since `b` to say a state. */
  ghost predicate LastSays(ops: seq<Op>, b: nat, pane: string, k: nat, state: CardState) {
    b < k < |ops| && Says(ops[k], pane, state) && forall j, other | k < j < |ops| :: !Says(ops[j], pane, other)
  }

  ghost predicate IdleSince(ops: seq<Op>, k: nat, pane: string) {
    exists j :: k < j < |ops| && GoesIdle(ops[j], pane)
  }

  lemma SaysOne(op: Op, pane: string, a: CardState, c: CardState)
    requires Says(op, pane, a) && Says(op, pane, c)
    ensures a == c && !GoesIdle(op, pane)
  {
    assert "turn-complete" != "agent-error" && "running" != "idle";
  }

  lemma {:induction false} LastSaysDecides(ops: seq<Op>, b: nat, pane: string, k: nat, state: CardState)
    requires LastSays(ops, b, pane, k, state)
    ensures StateAfter(ops, b, pane) == if state == Running && IdleSince(ops, k, pane) then Idle else state
  {
    var front, op := ops[..|ops| - 1], ops[|ops| - 1];
    if k < |ops| - 1 {
      assert forall j | 0 <= j < |front| :: front[j] == ops[j];
      LastSaysDecides(front, b, pane, k, state);
      assert forall other :: !Says(op, pane, other);
      IdleOneMore(ops, k, pane);
    } else {
      forall other | Says(op, pane, other) ensures other == state {
        SaysOne(op, pane, state, other);
      }
    }
  }

  lemma IdleOneMore(ops: seq<Op>, k: nat, pane: string)
    requires k < |ops| - 1
    ensures IdleSince(ops, k, pane) <==> IdleSince(ops[..|ops| - 1], k, pane) || GoesIdle(ops[|ops| - 1], pane)
  {
    var front := ops[..|ops| - 1];
    if IdleSince(front, k, pane) {
      var j :| k < j < |front| && GoesIdle(front[j], pane);
      assert GoesIdle(ops[j], pane);
    }
    if IdleSince(ops, k, pane) {
      var j :| k < j < |ops| && GoesIdle(ops[j], pane);
      assert j < |front| ==> GoesIdle(front[j], pane);
    }
  }

  lemma {:induction false} NobodySays(ops: seq<Op>, b: nat, pane: string)
    requires forall j, other | b < j < |ops| :: !Says(ops[j], pane, other)
    ensures StateAfter(ops, b, pane) == Idle
  {
    if |ops| > b + 1 {
      var front, op := ops[..|ops| - 1], ops[|ops| - 1];
      assert forall j | 0 <= j < |front| :: front[j] == ops[j];
      NobodySays(front, b, pane);
      assert forall other :: !Says(op, pane, other);
    }
  }

  /**
   In every run a card's state is what was last said of it since it began:
   finished by a completed turn's notification, error by a failed agent's,
   attention, or running, and then only until the next idle phase. A card of
   which nothing has been said is idle.
   */
  lemma StateIsTheLastWord(ops: seq<Op>, b: nat, pane: string)
    requires pane in RunOps(ops).panes && LastBeginning(ops, b, pane)
    ensures forall k, state | LastSays(ops, b, pane, k, state) ::
              RunOps(ops).panes[pane].cardState == if state == Running && IdleSince(ops, k, pane) then Idle else state
    ensures (forall j, state | b < j < |ops| :: !Says(ops[j], pane, state)) ==> RunOps(ops).panes[pane].cardState == Idle
  {
    FaceIsTheLastWords(ops, b, pane);
    forall k, state | LastSays(ops, b, pane, k, state)
      ensures StateAfter(ops, b, pane) == if state == Running && IdleSince(ops, k, pane) then Idle else state
    {
      LastSaysDecides(ops, b, pane, k, state);
    }
    if forall j, state | b < j < |ops| :: !Says(ops[j], pane, state) {
      NobodySays(ops, b, pane);
    }
  }
}
