/**
 A resumed session ships its history as one summary and then goes live. This
 module compares the card that produces with the card that recording every
 call one by one would have produced.
 */
module Replay {
  import opened Wrappers
  import opened Json
  import opened Sequences
  import opened Text
  import opened Cards
  import opened ActivityFold

  // ----- the two paths -----

  /** An event passes the sink and then the store, and each of them normalises it. */
  ghost function Emit(c: Card, event: Event, payload: Value): Card {
    Apply(c, event, Normalise(event, Normalise(event, payload))).card
  }

  ghost function EmitAll(c: Card, calls: seq<ToolCall>): Card {
    if calls == [] then c
    else Emit(EmitAll(c, calls[..|calls| - 1]), AgentToolCall, ToolCallEvent(calls[|calls| - 1]))
  }

  /** Nothing to report is not reported. */
  predicate WorthReporting(a: Activity, numTurns: nat, cwd: Option<string>) {
    a.total > 0 || numTurns > 0 || cwd.Some?
  }

  /** Catching up: the calls still open are emitted, then the summary, then the session is live. */
  ghost function Resume(c: Card, a: Activity, open: seq<ToolCall>, live: seq<ToolCall>,
                        sessionId: string, numTurns: nat, cwd: Option<string>): Card {
    var started := EmitAll(c, open);
    var caughtUp :=
      if WorthReporting(a, numTurns, cwd) then Emit(started, AgentReplaySummary, SummaryEvent(a, sessionId, numTurns, cwd))
      else started;
    EmitAll(caughtUp, live)
  }

  // ----- the part of a card tool calls can move -----

  datatype Ledger = Ledger(total: nat, counts: map<string, nat>, ring: seq<Value>, settled: set<string>)

  const BLANK := Ledger(0, map[], [], {})

  function LedgerOf(c: Card): Ledger {
    Ledger(c.toolCallTotal, c.toolCounts, c.toolCalls, c.settledTools)
  }

  /** What the sidebar shows of it. */
  predicate Agree(a: Ledger, b: Ledger) {
    a.total == b.total && a.counts == b.counts && a.ring == b.ring
  }

  function Clean(call: ToolCall): Value {
    SanitiseCall(ToolCallEvent(call))
  }

  function NameOf(call: ToolCall): string {
    if Sanitise(call.tool) == "" then "unknown" else Sanitise(call.tool)
  }

  predicate Admits(l: Ledger, call: ToolCall) {
    call.toolUseId != "" && call.toolUseId !in l.settled
  }

  function Settle(l: Ledger, call: ToolCall): Ledger {
    if Admits(l, call) then
      Ledger(l.total + 1, Bump(l.counts, NameOf(call)), LastN(l.ring + [Clean(call)], TOOL_CALL_RING),
             l.settled + {call.toolUseId})
    else l
  }

  function SettleAll(l: Ledger, calls: seq<ToolCall>): Ledger {
    if calls == [] then l else Settle(SettleAll(l, calls[..|calls| - 1]), calls[|calls| - 1])
  }

  function Settled(calls: seq<ToolCall>): (r: seq<ToolCall>) {
    Filter((call: ToolCall) => call.status != Status.Running, calls)
  }

  lemma CleanMembers(call: ToolCall)
    ensures At(Clean(call), "toolUseId") == Str(call.toolUseId)
    ensures At(Clean(call), "tool") == Str(Sanitise(call.tool))
    ensures At(Clean(call), "status") == Str(StatusText(call.status))
  {
    var raw := ToolCallEvent(call);
    assert Get(raw, "tool") == Some(Str(call.tool)) && Get(raw, "args") == Some(Str(call.args));
    var once := SanitiseField(raw, "tool");
    assert Get(once, "args") == Some(Str(call.args));
    assert Get(once, "tool") == Some(Str(Sanitise(call.tool)));
  }

  /** Emitting a call moves the ledger by one settlement, or not at all while it is running. */
  lemma EmitMovesLedger(c: Card, call: ToolCall)
    ensures LedgerOf(Emit(c, AgentToolCall, ToolCallEvent(call))) ==
            if call.status == Status.Running then LedgerOf(c) else Settle(LedgerOf(c), call)
  {
    NormaliseIdempotent(AgentToolCall, ToolCallEvent(call));
    CleanMembers(call);
    ApplyCleanCall(c, Clean(call), call);
  }

  lemma ApplyCleanCall(c: Card, p: Value, call: ToolCall)
    requires p == Clean(call)
    requires At(p, "toolUseId") == Str(call.toolUseId) && At(p, "tool") == Str(Sanitise(call.tool))
    requires At(p, "status") == Str(StatusText(call.status))
    ensures LedgerOf(Apply(c, AgentToolCall, p).card) ==
            if call.status == Status.Running then LedgerOf(c) else Settle(LedgerOf(c), call)
  {
    assert AsStr(At(p, "status")) == Some(StatusText(call.status));
    StatusTextsDiffer();
    if call.status == Status.Running {
      RunningIsSilent(c, p);
    } else {
      TerminalSettles(c, p, call);
    }
  }

  lemma StatusTextsDiffer()
    ensures StatusText(Status.Running) != StatusText(Status.Done) && StatusText(Status.Running) != StatusText(Status.Failed)
  {
    assert "running" != "done" && "running" != "failed";
  }

  lemma RunningIsSilent(c: Card, p: Value)
    requires AsStr(At(p, "status")) == Some(StatusText(Status.Running))
    ensures LedgerOf(RecordToolCall(c, p).card) == LedgerOf(c)
  {
  }

  lemma TerminalSettles(c: Card, p: Value, call: ToolCall)
    requires p == Clean(call) && call.status != Status.Running
    requires At(p, "toolUseId") == Str(call.toolUseId) && At(p, "tool") == Str(Sanitise(call.tool))
    requires AsStr(At(p, "status")) == Some(StatusText(call.status)) && StatusText(call.status) != StatusText(Status.Running)
    ensures LedgerOf(RecordToolCall(c, p).card) == Settle(LedgerOf(c), call)
  {
  }

  lemma {:induction false} EmitAllMovesLedger(c: Card, calls: seq<ToolCall>)
    ensures LedgerOf(EmitAll(c, calls)) == SettleAll(LedgerOf(c), Settled(calls))
  {
    if calls != [] {
      var front, call := calls[..|calls| - 1], calls[|calls| - 1];
      EmitAllMovesLedger(c, front);
      EmitMovesLedger(EmitAll(c, front), call);
      if call.status != Status.Running {
        assert Settled(calls)[..|Settled(calls)| - 1] == Settled(front);
      }
    }
  }

  // ----- what the accumulator holds -----

  function CountRaw(calls: seq<ToolCall>, tool: string): nat {
    if calls == [] then 0
    else CountRaw(calls[..|calls| - 1], tool) + if calls[|calls| - 1].tool == tool then 1 else 0
  }

  /** How many calls have a tool name that cleans to `name`. */
  function CountClean(clean: string -> string, calls: seq<ToolCall>, name: string): nat {
    if calls == [] then 0
    else CountClean(clean, calls[..|calls| - 1], name) + if clean(calls[|calls| - 1].tool) == name then 1 else 0
  }

  lemma {:induction false} CountsAreSmall(clean: string -> string, calls: seq<ToolCall>, name: string)
    ensures CountClean(clean, calls, name) <= |calls| && CountRaw(calls, name) <= |calls|
  {
    if calls != [] {
      CountsAreSmall(clean, calls[..|calls| - 1], name);
    }
  }

  lemma RawCountsAreSmall(calls: seq<ToolCall>, tool: string)
    ensures CountRaw(calls, tool) <= |calls|
  {
    CountsAreSmall(name => name, calls, tool);
  }

  /** Two accumulators that make the same summary. */
  predicate SameSummary(a: Activity, b: Activity) {
    a.total == b.total && a.byType == b.byType && a.recent == b.recent
  }

  lemma SettledOneMore(calls: seq<ToolCall>)
    requires calls != []
    ensures
      var front, call := Settled(calls[..|calls| - 1]), calls[|calls| - 1];
      Settled(calls) == if call.status == Status.Running then front else front + [call]
  {
  }

  /** Running calls pass through the accumulator without touching its totals. */
  lemma {:induction false} FoldIgnoresRunning(calls: seq<ToolCall>)
    ensures SameSummary(FoldAll(IDLE, calls), FoldAll(IDLE, Settled(calls)))
  {
    if calls != [] {
      FoldIgnoresRunning(calls[..|calls| - 1]);
      if calls[|calls| - 1].status != Status.Running {
        assert Settled(calls)[..|Settled(calls)| - 1] == Settled(calls[..|calls| - 1]);
      }
    }
  }

  ghost predicate AllSettled(calls: seq<ToolCall>) {
    forall i | 0 <= i < |calls| :: calls[i].status != Status.Running
  }

  lemma {:induction false} SettledIsAll(calls: seq<ToolCall>)
    requires AllSettled(calls)
    ensures Settled(calls) == calls
  {
    if calls != [] {
      SettledIsAll(calls[..|calls| - 1]);
      SettledOneMore(calls);
    }
  }

  /** An accumulator that holds these completions. */
  ghost predicate HoldsCalls(a: Activity, done: seq<ToolCall>) {
    && a.total == Saturate(|done|)
    && a.recent == LastN(done, RECENT_TOOL_CALLS_LIMIT)
    && forall tool :: CountIn(a.byType, tool) == Wrapped(CountRaw(done, tool))
  }

  function Wrapped(n: nat): nat {
    n % U32_LIMIT
  }

  /**
   The accumulator holds the number of completions, saturated at 32 bits, the
   last fifty of them, and how many there were of each name, wrapped at 32 bits;
   calls that only ran do not show.
   */
  lemma {:induction false} FoldHolds(calls: seq<ToolCall>)
    ensures HoldsCalls(FoldAll(IDLE, calls), Settled(calls))
  {
    if calls != [] {
      var front, call := calls[..|calls| - 1], calls[|calls| - 1];
      FoldHolds(front);
      SettledOneMore(calls);
      if call.status != Status.Running {
        OneMoreCompleted(FoldAll(IDLE, front), Settled(front), call);
      }
    }
  }

  lemma WrapOneMore(n: nat)
    ensures Wrapped(Wrapped(n) + 1) == Wrapped(n + 1)
    ensures n < U32_LIMIT ==> Wrapped(n) == n
  {
  }

  lemma OneMoreCompleted(a: Activity, done: seq<ToolCall>, call: ToolCall)
    requires HoldsCalls(a, done)
    ensures HoldsCalls(Completed(a, call), done + [call])
  {
    LastNOfConcat(done, [call], RECENT_TOOL_CALLS_LIMIT);
    CountRawOneMore(done, call);
    WrapOneMore(CountRaw(done, call.tool));
    var now := Completed(a, call);
    forall tool ensures CountIn(now.byType, tool) == Wrapped(CountRaw(done + [call], tool)) {
      assert CountIn(a.byType, tool) == Wrapped(CountRaw(done, tool));
    }
  }

  lemma CountRawOneMore(calls: seq<ToolCall>, call: ToolCall)
    ensures forall tool :: CountRaw(calls + [call], tool) == CountRaw(calls, tool) + if call.tool == tool then 1 else 0
  {
    assert (calls + [call])[..|calls|] == calls;
  }

  /** Below 2^32 completions nothing saturates and nothing wraps. */
  lemma FoldCountsExactly(calls: seq<ToolCall>)
    requires AllSettled(calls) && |calls| < U32_LIMIT
    ensures FoldAll(IDLE, calls).total == |calls|
    ensures forall tool :: CountIn(FoldAll(IDLE, calls).byType, tool) == CountRaw(calls, tool)
  {
    var a := FoldAll(IDLE, calls);
    FoldHolds(calls);
    SettledIsAll(calls);
    forall tool ensures CountIn(a.byType, tool) == CountRaw(calls, tool) {
      RawCountsAreSmall(calls, tool);
      WrapOneMore(CountRaw(calls, tool));
      assert CountIn(a.byType, tool) == Wrapped(CountRaw(calls, tool));
    }
  }

  ghost predicate Tallied(clean: string -> string, byType: map<string, nat>, calls: seq<ToolCall>) {
    forall name :: CleanCount(clean, TypesField(byType), name) == CountClean(clean, calls, name)
  }

  /** One fold step, below the 32-bit limit. */
  lemma FoldStep(calls: seq<ToolCall>)
    requires calls != [] && AllSettled(calls) && |calls| < U32_LIMIT
    ensures
      var front, tool := calls[..|calls| - 1], calls[|calls| - 1].tool;
      var past := FoldAll(IDLE, front).byType;
      CountIn(past, tool) < U32_LIMIT - 1 && FoldAll(IDLE, calls).byType == past[tool := CountIn(past, tool) + 1]
  {
    var front, tool := calls[..|calls| - 1], calls[|calls| - 1].tool;
    FoldCountsExactly(front);
    RawCountsAreSmall(front, tool);
  }

  /** Cleaning the names of the counts gives the counts of the clean names. */
  lemma {:induction false} FoldTallies(clean: string -> string, calls: seq<ToolCall>)
    requires AllSettled(calls) && |calls| < U32_LIMIT
    ensures Tallied(clean, FoldAll(IDLE, calls).byType, calls)
  {
    if calls != [] {
      var front, call := calls[..|calls| - 1], calls[|calls| - 1];
      FoldTallies(clean, front);
      FoldStep(calls);
      var past, now := FoldAll(IDLE, front).byType, FoldAll(IDLE, calls).byType;
      forall name ensures CleanCount(clean, TypesField(now), name) == CountClean(clean, calls, name) {
        assert CleanCount(clean, TypesField(past), name) == CountClean(clean, front, name);
        OneMoreCall(clean, past, call.tool, name);
      }
    }
  }

  lemma {:induction false} FoldKeys(calls: seq<ToolCall>)
    requires AllSettled(calls) && |calls| < U32_LIMIT
    ensures FoldAll(IDLE, calls).byType.Keys == set call | call in calls :: call.tool
  {
    if calls != [] {
      var front, call := calls[..|calls| - 1], calls[|calls| - 1];
      FoldKeys(front);
      FoldStep(calls);
      assert calls == front + [call];
    }
  }

  lemma OneMoreCall(clean: string -> string, past: map<string, nat>, tool: string, name: string)
    requires CountIn(past, tool) < U32_LIMIT - 1
    ensures CleanCount(clean, TypesField(past[tool := CountIn(past, tool) + 1]), name) ==
            CleanCount(clean, TypesField(past), name) + if clean(tool) == name then 1 else 0
  {
    var before, after := TypesField(past), TypesField(past[tool := CountIn(past, tool) + 1]);
    CleanCountOf(clean, after, name, tool);
    if tool in past {
      CleanCountOf(clean, before, name, tool);
      assert after - {tool} == before - {tool};
    } else {
      assert after - {tool} == before;
    }
  }

  // ----- the card a summary produces -----

  function CleanIds(calls: seq<ToolCall>): set<string> {
    set call | call in calls :: call.toolUseId
  }

  function ToolNames(clean: string -> string, calls: seq<ToolCall>): set<string> {
    set call | call in calls && clean(call.tool) != "" :: clean(call.tool)
  }

  /** The counts a summary leaves behind: per clean, non-empty name. */
  function SummaryCounts(clean: string -> string, calls: seq<ToolCall>): map<string, nat> {
    map name | name in ToolNames(clean, calls) :: CountClean(clean, calls, name)
  }

  lemma NamesOfTypes(clean: string -> string, keys: set<string>, calls: seq<ToolCall>)
    requires keys == set call | call in calls :: call.tool
    ensures Names(clean, keys) == ToolNames(clean, calls)
  {
    forall name | name in ToolNames(clean, calls) ensures name in Names(clean, keys) {
      var call :| call in calls && clean(call.tool) != "" && clean(call.tool) == name;
      assert call.tool in keys;
    }
  }

  lemma CountsOfSmall(counts: map<string, nat>)
    requires forall name | name in counts :: counts[name] < U64_LIMIT
    ensures Counts(TypesField(counts)) == counts
  {
  }

  lemma TallyInRange(clean: string -> string, calls: seq<ToolCall>, name: string)
    requires AllSettled(calls) && |calls| < U32_LIMIT
    ensures CleanCount(clean, TypesField(FoldAll(IDLE, calls).byType), name) % U64_LIMIT == CountClean(clean, calls, name) < U64_LIMIT
  {
    FoldTallies(clean, calls);
    CountsAreSmall(clean, calls, name);
    assert CleanCount(clean, TypesField(FoldAll(IDLE, calls).byType), name) == CountClean(clean, calls, name);
  }

  lemma KeysAfterNormalising(clean: string -> string, calls: seq<ToolCall>)
    requires AllSettled(calls) && |calls| < U32_LIMIT
    ensures FoldTypes(clean, TypesField(FoldAll(IDLE, calls).byType)).Keys == TypesField(SummaryCounts(clean, calls)).Keys
  {
    var types := TypesField(FoldAll(IDLE, calls).byType);
    FoldKeys(calls);
    NamesOfTypes(clean, types.Keys, calls);
  }

  lemma TypesAfterNormalising(clean: string -> string, calls: seq<ToolCall>)
    requires AllSettled(calls) && |calls| < U32_LIMIT
    ensures FoldTypes(clean, TypesField(FoldAll(IDLE, calls).byType)) == TypesField(SummaryCounts(clean, calls))
  {
    var folded, expected := FoldTypes(clean, TypesField(FoldAll(IDLE, calls).byType)), TypesField(SummaryCounts(clean, calls));
    KeysAfterNormalising(clean, calls);
    forall name | name in folded.Keys ensures folded[name] == expected[name] {
      SlotAfterNormalising(clean, calls, name);
    }
    SameTable(folded, expected);
  }

  lemma SameTable(a: Fields, b: Fields)
    requires a.Keys == b.Keys && forall name | name in a.Keys :: a[name] == b[name]
    ensures a == b
  {
  }

  lemma SlotAfterNormalising(clean: string -> string, calls: seq<ToolCall>, name: string)
    requires AllSettled(calls) && |calls| < U32_LIMIT
    requires name in FoldTypes(clean, TypesField(FoldAll(IDLE, calls).byType)) && name in TypesField(SummaryCounts(clean, calls))
    ensures FoldTypes(clean, TypesField(FoldAll(IDLE, calls).byType))[name] == TypesField(SummaryCounts(clean, calls))[name]
  {
    TallyInRange(clean, calls, name);
  }

  lemma CountsAfterNormalising(clean: string -> string, calls: seq<ToolCall>)
    requires AllSettled(calls) && |calls| < U32_LIMIT
    ensures Counts(TypesField(SummaryCounts(clean, calls))) == SummaryCounts(clean, calls)
  {
    forall name | name in SummaryCounts(clean, calls) ensures SummaryCounts(clean, calls)[name] < U64_LIMIT {
      TallyInRange(clean, calls, name);
    }
    CountsOfSmall(SummaryCounts(clean, calls));
  }

  /** What the store sees of a summary after both clean-ups. */
  lemma SummaryMembers(a: Activity, sessionId: string, numTurns: nat, cwd: Option<string>)
    ensures
      var p := Normalise(AgentReplaySummary, SummaryEvent(a, sessionId, numTurns, cwd));
      && At(p, "toolCallTotal") == Int(a.total)
      && At(p, "toolCallByType") == Obj(FoldTypes(Sanitise, TypesField(a.byType)))
      && At(p, "recentToolCalls") == Arr(Map(SanitiseCall, Map(ToolCallEvent, Reverse(a.recent))))
  {
    var raw := SummaryEvent(a, sessionId, numTurns, cwd);
    assert Get(raw, "toolCallByType") == Some(Obj(TypesField(a.byType)));
    assert Get(raw, "recentToolCalls") == Some(Arr(Map(ToolCallEvent, Reverse(a.recent))));
    assert Get(raw, "toolCallTotal") == Some(Int(a.total));
    var p1 := SanitiseField(raw, "cwd");
    assert Get(p1, "toolCallByType") == Get(raw, "toolCallByType");
    assert Get(p1, "recentToolCalls") == Get(raw, "recentToolCalls");
    assert Get(p1, "toolCallTotal") == Get(raw, "toolCallTotal");
    var p2 := SanitiseCallsField(p1);
    assert Get(p2, "toolCallByType") == Get(p1, "toolCallByType");
    assert Get(p2, "toolCallTotal") == Get(p1, "toolCallTotal");
  }

  lemma WindowSurvivesTheTrip(recent: seq<ToolCall>)
    requires |recent| <= RECENT_TOOL_CALLS_LIMIT
    ensures Reverse(Take(Map(SanitiseCall, Map(ToolCallEvent, Reverse(recent))), TOOL_CALL_RING)) == Map(Clean, recent)
  {
  }

  lemma IdsOfWindow(recent: seq<ToolCall>)
    ensures IdsOf(Map(Clean, recent)) == CleanIds(recent)
  {
    var calls := Map(Clean, recent);
    forall i | 0 <= i < |recent| ensures calls[i] in calls && AsStr(At(calls[i], "toolUseId")) == Some(recent[i].toolUseId) {
      CleanMembers(recent[i]);
    }
    forall id | id in CleanIds(recent) ensures id in IdsOf(calls) {
      var i :| 0 <= i < |recent| && recent[i].toolUseId == id;
      assert calls[i] in calls;
    }
  }

  function AfterSummary(settled: set<string>, calls: seq<ToolCall>): Ledger {
    var recent := LastN(calls, RECENT_TOOL_CALLS_LIMIT);
    Ledger(|calls|, SummaryCounts(Sanitise, calls), Map(Clean, recent), settled + CleanIds(recent))
  }

  lemma SettledAreSettled(history: seq<ToolCall>)
    ensures AllSettled(Settled(history))
  {
    assert forall call | call in Settled(history) :: call.status != Status.Running;
  }

  lemma CwdIsNotInTheLedger(c: Card, p: Value)
    ensures LedgerOf(ApplySummary(c, p).card) == LedgerOf(SummaryTools(c, p))
  {
  }

  lemma ApplyCleanSummary(c: Card, p: Value, total: nat, types: Fields, items: seq<Value>)
    requires total < U64_LIMIT && At(p, "toolCallTotal") == Int(total)
    requires At(p, "toolCallByType") == Obj(types) && At(p, "recentToolCalls") == Arr(items)
    ensures
      var calls := Reverse(Take(items, TOOL_CALL_RING));
      LedgerOf(Apply(c, AgentReplaySummary, p).card) == Ledger(total, Counts(types), calls, c.settledTools + IdsOf(calls))
  {
    CwdIsNotInTheLedger(c, p);
  }

  /** What a summary of these completions leaves, however it was accumulated. */
  lemma SummaryMovesLedger(c: Card, a: Activity, calls: seq<ToolCall>, sessionId: string, numTurns: nat, cwd: Option<string>)
    requires AllSettled(calls) && |calls| < U32_LIMIT && SameSummary(a, FoldAll(IDLE, calls))
    ensures
      var summary := SummaryEvent(a, sessionId, numTurns, cwd);
      LedgerOf(Emit(c, AgentReplaySummary, summary)) == AfterSummary(c.settledTools, calls)
  {
    var summary := SummaryEvent(a, sessionId, numTurns, cwd);
    NormaliseIdempotent(AgentReplaySummary, summary);
    FoldHolds(calls);
    SettledIsAll(calls);
    FoldCountsExactly(calls);
    SummaryMembers(a, sessionId, numTurns, cwd);
    TypesAfterNormalising(Sanitise, calls);
    CountsAfterNormalising(Sanitise, calls);
    WindowSurvivesTheTrip(a.recent);
    IdsOfWindow(a.recent);
    ApplyCleanSummary(c, Normalise(AgentReplaySummary, summary), a.total, TypesField(SummaryCounts(Sanitise, calls)),
                      Map(SanitiseCall, Map(ToolCallEvent, Reverse(a.recent))));
  }
}
