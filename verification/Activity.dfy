/** The accumulator that folds a transcript's historical tool calls into one summary. */
module ActivityFold {
  import opened Wrappers
  import opened Json
  import opened Sequences
  import opened Sorting

  const RECENT_TOOL_CALLS_LIMIT: nat := 50
  const U32_LIMIT: nat := 0x1_0000_0000

  datatype Status = Running | Done | Failed

  datatype ToolCall = ToolCall(
    sessionId: string,
    toolUseId: string,
    tool: string,
    args: string,
    status: Status,
    timestamp: string,
    durationMs: nat,
    isTestFile: bool)

  datatype Activity = Activity(
    total: nat,
    byType: map<string, nat>,
    running: map<string, ToolCall>,
    recent: seq<ToolCall>)

  const IDLE := Activity(0, map[], map[], [])

  function Saturate(n: nat): nat {
    if n < U32_LIMIT then n else U32_LIMIT - 1
  }

  function CountIn(counts: map<string, nat>, tool: string): nat {
    if tool in counts then counts[tool] else 0
  }

  /** Timestamps are ISO 8601 text, compared as text. */
  function NotAfter(a: ToolCall, b: ToolCall): bool {
    LexLe(a.timestamp, b.timestamp)
  }

  function Completed(a: Activity, call: ToolCall): Activity {
    Activity(Saturate(a.total + 1),
             a.byType[call.tool := (CountIn(a.byType, call.tool) + 1) % U32_LIMIT],
             a.running - {call.toolUseId},
             LastN(a.recent + [call], RECENT_TOOL_CALLS_LIMIT))
  }

  /** `record_tool_call` before the replay has caught up. */
  function Fold(a: Activity, call: ToolCall): Activity {
    if call.status == Running then a.(running := a.running[call.toolUseId := call]) else Completed(a, call)
  }

  function FoldAll(a: Activity, calls: seq<ToolCall>): Activity {
    if calls == [] then a else Fold(FoldAll(a, calls[..|calls| - 1]), calls[|calls| - 1])
  }

  function MergedTypes(a: map<string, nat>, b: map<string, nat>): map<string, nat> {
    map tool | tool in a.Keys + b.Keys :: if tool in b then Saturate(CountIn(a, tool) + b[tool]) else a[tool]
  }

  function Merged(a: Activity, b: Activity): Activity {
    Activity(Saturate(a.total + b.total),
             MergedTypes(a.byType, b.byType),
             a.running + b.running,
             LastN(StableSort(a.recent + b.recent, NotAfter), RECENT_TOOL_CALLS_LIMIT))
  }

  class ReplayAccumulator {
    var total: nat
    var byType: map<string, nat>
    var running: map<string, ToolCall>
    var recent: seq<ToolCall>

    ghost function View(): Activity
      reads this
    {
      Activity(total, byType, running, recent)
    }

    ghost predicate Valid()
      reads this
    {
      |recent| <= RECENT_TOOL_CALLS_LIMIT
    }

    constructor ()
      ensures View() == IDLE && Valid()
    {
      total, byType, running, recent := 0, map[], map[], [];
    }

    method RecordCompleted(call: ToolCall)
      requires Valid()
      modifies this
      ensures Valid() && View() == Completed(old(View()), call)
    {
      running := running - {call.toolUseId};
      total := Saturate(total + 1);
      byType := byType[call.tool := (CountIn(byType, call.tool) + 1) % U32_LIMIT];
      recent := recent + [call];
      if |recent| > RECENT_TOOL_CALLS_LIMIT {
        recent := recent[1..];
      }
    }

    method RecordRunning(call: ToolCall)
      requires Valid()
      modifies this
      ensures Valid() && View() == old(View()).(running := old(running)[call.toolUseId := call])
    {
      running := running[call.toolUseId := call];
    }

    method RecordToolCall(call: ToolCall)
      requires Valid()
      modifies this
      ensures Valid() && View() == Fold(old(View()), call)
    {
      match call.status {
        case Running => RecordRunning(call);
        case Done => RecordCompleted(call);
        case Failed => RecordCompleted(call);
      }
    }

    /** Folds another decoder's accumulator into this one. */
    method Merge(other: Activity)
      modifies this
      ensures Valid() && View() == Merged(old(View()), other)
    {
      total := Saturate(total + other.total);
      byType := MergeTypes(byType, other.byType);
      running := running + other.running;
      recent := StableSort(recent + other.recent, NotAfter);
      if |recent| > RECENT_TOOL_CALLS_LIMIT {
        recent := recent[|recent| - RECENT_TOOL_CALLS_LIMIT..];
      }
    }
  }

  method MergeTypes(ours: map<string, nat>, theirs: map<string, nat>) returns (merged: map<string, nat>)
    ensures merged == MergedTypes(ours, theirs)
  {
    merged := ours;
    var rest := theirs.Keys;
    while rest != {}
      invariant rest <= theirs.Keys
      invariant merged.Keys == ours.Keys + (theirs.Keys - rest)
      invariant forall tool | tool in merged ::
        merged[tool] == if tool in theirs && tool !in rest then MergedTypes(ours, theirs)[tool] else ours[tool]
      decreases rest
    {
      var tool :| tool in rest;
      merged := merged[tool := Saturate(CountIn(merged, tool) + theirs[tool])];
      rest := rest - {tool};
    }
  }

  // ----- the events these become -----

  function StatusText(status: Status): string {
    match status
    case Running => "running"
    case Done => "done"
    case Failed => "failed"
  }

  /** `agent-tool-call`, serialised. */
  function ToolCallEvent(call: ToolCall): Value {
    Obj(map["sessionId" := Str(call.sessionId),
            "toolUseId" := Str(call.toolUseId),
            "tool" := Str(call.tool),
            "args" := Str(call.args),
            "status" := Str(StatusText(call.status)),
            "timestamp" := Str(call.timestamp),
            "durationMs" := Int(call.durationMs),
            "isTestFile" := Bool(call.isTestFile)])
  }

  function TypesField(counts: map<string, nat>): Fields {
    map tool | tool in counts :: Int(counts[tool])
  }

  /** `agent-replay-summary`, serialised; the window goes out newest first. */
  function SummaryEvent(a: Activity, sessionId: string, numTurns: nat, cwd: Option<string>): Value {
    Obj(map["sessionId" := Str(sessionId),
            "numTurns" := Int(numTurns),
            "cwd" := if cwd.Some? then Str(cwd.value) else Null,
            "toolCallTotal" := Int(a.total),
            "toolCallByType" := Obj(TypesField(a.byType)),
            "recentToolCalls" := Arr(Map(ToolCallEvent, Reverse(a.recent)))])
  }
}
