/** Where a card's cwd comes from, over every run of store operations. */
module CwdHistory {
  import opened Wrappers
  import opened Json
  import opened Text
  import opened Cards
  import opened Store

  ghost function RunOps(ops: seq<Op>): Inner {
    if ops == [] then EMPTY else Exec(RunOps(ops[..|ops| - 1]), ops[|ops| - 1])
  }

  lemma {:induction false} RunOpsValid(ops: seq<Op>)
    ensures Store.Valid(RunOps(ops))
  {
    if ops != [] {
      RunOpsValid(ops[..|ops| - 1]);
      ExecValid(RunOps(ops[..|ops| - 1]), ops[|ops| - 1]);
    }
  }

  /** In every reachable store no two cards carry the same stamp, and every stamp is in 1..number. */
  lemma StampsAreDistinct(ops: seq<Op>, p: string, q: string)
    requires p in RunOps(ops).panes && q in RunOps(ops).panes && p != q
    ensures RunOps(ops).panes[p].updatedSeq != RunOps(ops).panes[q].updatedSeq
    ensures 1 <= RunOps(ops).panes[p].updatedSeq <= RunOps(ops).number
  {
    RunOpsValid(ops);
  }

  /** The cwd an operation reports for `pane` from the agent's transcript, if any. */
  ghost function FromTranscript(op: Op, pane: string): Option<string> {
    if op.Record? && op.pane == pane && (op.event == AgentCwd || op.event == AgentReplaySummary)
    then AsStr(At(Normalise(op.event, op.payload), "cwd")) else None
  }

  /** The cwd an operation reports for `pane` from the pane list, if any. */
  function FromPaneList(op: Op, pane: string): Option<string> {
    if op.SetPaneListCwd? && op.pane == pane && op.cwd.Some? && Sanitise(op.cwd.value) != ""
    then Some(Sanitise(op.cwd.value)) else None
  }

  /** Operation `b` created the card of `pane` or replaced its session. */
  ghost predicate Began(ops: seq<Op>, b: nat, pane: string)
    requires b < |ops|
  {
    || (ops[b].ReplaceSession? && ops[b].pane == pane)
    || (ops[b].SetAgent? && ops[b].pane == pane && pane !in RunOps(ops[..b]).panes)
  }

  ghost predicate LastBeginning(ops: seq<Op>, b: nat, pane: string) {
    b < |ops| && Began(ops, b, pane) && forall i | b < i < |ops| :: !Began(ops, i, pane)
  }

  /** The last transcript cwd reported after operation `b`. */
  ghost function LastTranscript(ops: seq<Op>, b: nat, pane: string): Option<string> {
    if |ops| <= b + 1 then None
    else if FromTranscript(ops[|ops| - 1], pane).Some? then FromTranscript(ops[|ops| - 1], pane)
    else LastTranscript(ops[..|ops| - 1], b, pane)
  }

  /** The last pane-list cwd reported after operation `b`. */
  function LastPaneList(ops: seq<Op>, b: nat, pane: string): Option<string> {
    if |ops| <= b + 1 then None
    else if FromPaneList(ops[|ops| - 1], pane).Some? then FromPaneList(ops[|ops| - 1], pane)
    else LastPaneList(ops[..|ops| - 1], b, pane)
  }

  /** What the beginning at `b` carried over: the replaced card's cwd, or nothing. */
  ghost function Carried(ops: seq<Op>, b: nat, pane: string): Option<string>
    requires b < |ops|
  {
    var past := RunOps(ops[..b]).panes;
    if ops[b].ReplaceSession? && pane in past then past[pane].cwd else None
  }

  ghost function ExpectedCwd(ops: seq<Op>, b: nat, pane: string): Option<string>
    requires b < |ops|
  {
    if LastTranscript(ops, b, pane).Some? then LastTranscript(ops, b, pane)
    else if LastPaneList(ops, b, pane).Some? then LastPaneList(ops, b, pane)
    else Carried(ops, b, pane)
  }

  ghost function ExpectedSource(ops: seq<Op>, b: nat, pane: string): CwdSource
    requires b < |ops|
  {
    if LastTranscript(ops, b, pane).Some? then Transcript
    else if ExpectedCwd(ops, b, pane).Some? then PaneList
    else Unset
  }

  lemma CommitCwd(s: Inner, at: string, o: Outcome, pane: string)
    requires pane in s.panes
    ensures
      var now := Commit(s, at, o).panes;
      && pane in now
      && now[pane].cwd == (if pane == at then o.card.cwd else s.panes[pane].cwd)
      && now[pane].cwdSource == (if pane == at then o.card.cwdSource else s.panes[pane].cwdSource)
  {
  }

  lemma ApplyCwd(c: Card, event: Event, payload: Value)
    ensures
      var now := Apply(c, event, payload).card;
      if (event == AgentCwd || event == AgentReplaySummary) && AsStr(At(payload, "cwd")).Some? then
        now.cwd == AsStr(At(payload, "cwd")) && now.cwdSource == Transcript
      else now.cwd == c.cwd && now.cwdSource == c.cwdSource
  {
  }

  /** What one operation does to the cwd of a card that it neither creates, replaces nor removes. */
  lemma OneStep(s: Inner, op: Op, pane: string)
    requires pane in s.panes && pane in Exec(s, op).panes
    requires !(op.ReplaceSession? && op.pane == pane)
    ensures
      var past, now := s.panes[pane], Exec(s, op).panes[pane];
      && (FromTranscript(op, pane).Some? ==> now.cwd == FromTranscript(op, pane) && now.cwdSource == Transcript)
      && (FromPaneList(op, pane).Some? && past.cwdSource != Transcript ==>
        now.cwd == FromPaneList(op, pane) && now.cwdSource == PaneList)
      && (FromTranscript(op, pane).None? && (FromPaneList(op, pane).None? || past.cwdSource == Transcript) ==>
        now.cwd == past.cwd && now.cwdSource == past.cwdSource)
  {
    match op
    case SetAgent(at, agent) =>
      CommitCwd(s, at, AgentEdit(if at in s.panes then s.panes[at] else DEFAULT_CARD, agent, at !in s.panes), pane);
    case SetPaneListCwd(at, cwd) =>
      if at in s.panes && cwd.Some? {
        CommitCwd(s, at, CwdEdit(s.panes[at], Sanitise(cwd.value)), pane);
      }
    case SetPanePosition(at, position) =>
      if at in s.panes {
        CommitCwd(s, at, PositionEdit(s.panes[at], position), pane);
      }
    case SetPaneWorkspace(at, workspace) =>
      if at in s.panes {
        CommitCwd(s, at, WorkspaceEdit(s.panes[at], NonEmpty(workspace)), pane);
      }
    case Record(at, event, payload) =>
      if at in s.panes {
        CommitCwd(s, at, Apply(s.panes[at], event, Normalise(event, payload)), pane);
        ApplyCwd(s.panes[at], event, Normalise(event, payload));
      }
    case _ =>
  }

  lemma ArrivesOnlyByBeginning(s: Inner, op: Op, pane: string)
    requires pane !in s.panes && pane in Exec(s, op).panes
    ensures (op.ReplaceSession? || op.SetAgent?) && op.pane == pane
  {
  }

  /** One operation after the beginning moves the expected cwd as it moves the card's. */
  lemma ExpectedStep(ops: seq<Op>, b: nat, pane: string)
    requires b < |ops| - 1
    ensures
      var front, op := ops[..|ops| - 1], ops[|ops| - 1];
      && LastTranscript(ops, b, pane) == (if FromTranscript(op, pane).Some? then FromTranscript(op, pane) else LastTranscript(front, b, pane))
      && LastPaneList(ops, b, pane) == (if FromPaneList(op, pane).Some? then FromPaneList(op, pane) else LastPaneList(front, b, pane))
      && Carried(ops, b, pane) == Carried(front, b, pane)
  {
    assert ops[..|ops| - 1][..b] == ops[..b];
  }

  /** Before its last operation a card had the same beginning. */
  lemma StillItsBeginning(ops: seq<Op>, b: nat, pane: string)
    requires pane in RunOps(ops).panes && LastBeginning(ops, b, pane) && b < |ops| - 1
    ensures
      var front := ops[..|ops| - 1];
      pane in RunOps(front).panes && LastBeginning(front, b, pane)
    ensures !Began(ops, |ops| - 1, pane)
  {
    var front := ops[..|ops| - 1];
    assert front[..b] == ops[..b];
    forall i | b < i < |front| ensures !Began(front, i, pane) {
      assert front[..i] == ops[..i] && !Began(ops, i, pane);
    }
    assert !Began(ops, |ops| - 1, pane);
    if pane !in RunOps(front).panes {
      ArrivesOnlyByBeginning(RunOps(front), ops[|ops| - 1], pane);
    }
  }

  /**
   In every run a card's cwd is the last transcript cwd since the card was
   created or its session replaced; failing that, the last non-empty pane-list
   cwd since then; failing that, what the replacement carried over.
   */
  lemma {:induction false} CwdIsTheLastWord(ops: seq<Op>, b: nat, pane: string)
    requires pane in RunOps(ops).panes && LastBeginning(ops, b, pane)
    ensures RunOps(ops).panes[pane].cwd == ExpectedCwd(ops, b, pane)
    ensures RunOps(ops).panes[pane].cwdSource == ExpectedSource(ops, b, pane)
  {
    var front, op := ops[..|ops| - 1], ops[|ops| - 1];
    if b < |ops| - 1 {
      StillItsBeginning(ops, b, pane);
      CwdIsTheLastWord(front, b, pane);
      ExpectedStep(ops, b, pane);
      OneStep(RunOps(front), op, pane);
    } else {
      assert ops[..b] == front;
    }
  }

  /** Every card has such a beginning, so the statement above covers every card of every run. */
  lemma {:induction false} EveryCardBegan(ops: seq<Op>, pane: string) returns (b: nat)
    requires pane in RunOps(ops).panes
    ensures LastBeginning(ops, b, pane)
  {
    var front, op := ops[..|ops| - 1], ops[|ops| - 1];
    if Began(ops, |ops| - 1, pane) {
      b := |ops| - 1;
    } else {
      if pane !in RunOps(front).panes {
        ArrivesOnlyByBeginning(RunOps(front), op, pane);
      }
      b := EveryCardBegan(front, pane);
      assert front[..b] == ops[..b];
      forall i | b < i < |ops| ensures !Began(ops, i, pane) {
        if i < |front| {
          assert front[..i] == ops[..i] && !Began(front, i, pane);
        }
      }
    }
  }
}
