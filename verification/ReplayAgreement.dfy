/** When a summary followed by live calls shows exactly what recording every call would show. */
module ReplayAgreement {
  import opened Wrappers
  import opened Sequences
  import opened Text
  import opened Cards
  import opened ActivityFold
  import opened Replay

  // ----- the condition -----

  ghost predicate GoodIds(calls: seq<ToolCall>) {
    && (forall call | call in calls :: call.toolUseId != "")
    && (forall i, j | 0 <= i < j < |calls| :: calls[i].toolUseId != calls[j].toolUseId)
  }

  ghost predicate NoBlankNames(calls: seq<ToolCall>) {
    forall call | call in calls :: Sanitise(call.tool) != ""
  }

  /** The calls that no longer fit the summary's window. */
  function Older(calls: seq<ToolCall>): seq<ToolCall> {
    if |calls| <= RECENT_TOOL_CALLS_LIMIT then [] else calls[..|calls| - RECENT_TOOL_CALLS_LIMIT]
  }

  ghost predicate Untouched(live: seq<ToolCall>, aged: set<string>) {
    forall call | call in live :: call.toolUseId !in aged
  }

  /** Ids are present and distinct, names are not blank, and nothing older than the window comes back. */
  ghost predicate Resumable(history: seq<ToolCall>, live: seq<ToolCall>) {
    GoodIds(history) && NoBlankNames(history) && Untouched(live, CleanIds(Older(history)))
  }

  // ----- recording every call -----

  function NameTool(tool: string): string {
    if Sanitise(tool) == "" then "unknown" else Sanitise(tool)
  }

  lemma GoodIdsOneMore(front: seq<ToolCall>, call: ToolCall)
    ensures GoodIds(front + [call]) <==> GoodIds(front) && call.toolUseId != "" && call.toolUseId !in CleanIds(front)
  {
    var calls := front + [call];
    if GoodIds(calls) {
      assert call in calls;
      assert forall other | other in front :: other in calls;
      forall i, j | 0 <= i < j < |front| ensures front[i].toolUseId != front[j].toolUseId {
        assert calls[i].toolUseId != calls[j].toolUseId;
      }
      forall other | other in front ensures other.toolUseId != call.toolUseId {
        var i :| 0 <= i < |front| && front[i] == other;
        assert calls[i].toolUseId != calls[|front|].toolUseId;
      }
    } else if GoodIds(front) && call.toolUseId != "" && call.toolUseId !in CleanIds(front) {
      assert forall i | 0 <= i < |front| :: front[i] in front && front[i].toolUseId in CleanIds(front);
      assert forall other | other in calls :: other in front || other == call;
      assert false;
    }
  }

  lemma {:induction false} DirectTotal(calls: seq<ToolCall>)
    ensures
      var d := SettleAll(BLANK, calls);
      && d.settled == CleanIds(calls) - {""}
      && d.total <= |calls|
      && (d.total == |calls| <==> GoodIds(calls))
  {
    if calls != [] {
      var front, call := calls[..|calls| - 1], calls[|calls| - 1];
      DirectTotal(front);
      assert calls == front + [call];
      assert CleanIds(calls) == CleanIds(front) + {call.toolUseId};
      GoodIdsOneMore(front, call);
    }
  }

  lemma {:induction false} DirectRing(calls: seq<ToolCall>)
    requires GoodIds(calls)
    ensures SettleAll(BLANK, calls).ring == LastN(Map(Clean, calls), TOOL_CALL_RING)
    ensures SettleAll(BLANK, calls).counts == SummaryCounts(NameTool, calls)
  {
    if calls != [] {
      var front, call := calls[..|calls| - 1], calls[|calls| - 1];
      DirectRing(front);
      DirectTotal(front);
      DirectTotal(calls);
      assert Admits(SettleAll(BLANK, front), call);
      assert Map(Clean, calls) == Map(Clean, front) + [Clean(call)];
      LastNOfConcat(Map(Clean, front), [Clean(call)], TOOL_CALL_RING);
      CountsOneMore(NameTool, calls);
    }
  }

  lemma CountsOneMore(name: string -> string, calls: seq<ToolCall>)
    requires calls != [] && name(calls[|calls| - 1].tool) != ""
    ensures SummaryCounts(name, calls) == Bump(SummaryCounts(name, calls[..|calls| - 1]), name(calls[|calls| - 1].tool))
  {
    var front, call := calls[..|calls| - 1], calls[|calls| - 1];
    NamesOneMore(name, calls);
    if name(call.tool) !in ToolNames(name, front) {
      NotCounted(name, front, name(call.tool));
    }
    forall n | n in ToolNames(name, calls)
      ensures SummaryCounts(name, calls)[n] == Bump(SummaryCounts(name, front), name(call.tool))[n]
    {
    }
  }

  lemma NamesOneMore(name: string -> string, calls: seq<ToolCall>)
    requires calls != [] && name(calls[|calls| - 1].tool) != ""
    ensures ToolNames(name, calls) == ToolNames(name, calls[..|calls| - 1]) + {name(calls[|calls| - 1].tool)}
  {
    var front, last := calls[..|calls| - 1], calls[|calls| - 1];
    forall call: ToolCall ensures call in calls <==> call in front || call == last {
      assert calls == front + [last];
    }
  }

  lemma {:induction false} NotCounted(name: string -> string, calls: seq<ToolCall>, n: string)
    requires n != "" && n !in ToolNames(name, calls)
    ensures CountClean(name, calls, n) == 0
  {
    if calls != [] {
      var front, call := calls[..|calls| - 1], calls[|calls| - 1];
      assert call in calls;
      NotCounted(name, front, n);
    }
  }

  lemma {:induction false} CountedAlike(f: string -> string, g: string -> string, calls: seq<ToolCall>, n: string)
    requires forall call | call in calls :: f(call.tool) == g(call.tool)
    ensures CountClean(f, calls, n) == CountClean(g, calls, n)
  {
    if calls != [] {
      assert calls[|calls| - 1] in calls;
      CountedAlike(f, g, calls[..|calls| - 1], n);
    }
  }

  lemma SameCounts(calls: seq<ToolCall>)
    requires NoBlankNames(calls)
    ensures SummaryCounts(NameTool, calls) == SummaryCounts(Sanitise, calls)
  {
    forall n ensures CountClean(NameTool, calls, n) == CountClean(Sanitise, calls, n) {
      CountedAlike(NameTool, Sanitise, calls, n);
    }
    assert ToolNames(NameTool, calls) == ToolNames(Sanitise, calls);
  }

  /** Recording counts a blank name as "unknown"; a summary drops it. */
  lemma {:induction false} BlanksGoUnknown(calls: seq<ToolCall>)
    ensures CountClean(NameTool, calls, "unknown") >= CountClean(Sanitise, calls, "unknown")
    ensures !NoBlankNames(calls) ==> CountClean(NameTool, calls, "unknown") > CountClean(Sanitise, calls, "unknown")
  {
    if calls != [] {
      var front, call := calls[..|calls| - 1], calls[|calls| - 1];
      assert calls == front + [call];
      BlanksGoUnknown(front);
      assert call in calls;
      assert "unknown" != "";
    }
  }

  lemma UnknownsDiffer(calls: seq<ToolCall>)
    requires !NoBlankNames(calls)
    ensures CountIn(SummaryCounts(NameTool, calls), "unknown") > CountIn(SummaryCounts(Sanitise, calls), "unknown")
  {
    BlanksGoUnknown(calls);
    if "unknown" !in ToolNames(NameTool, calls) {
      NotCounted(NameTool, calls, "unknown");
    }
  }

  // ----- going live -----

  /** `d` knows every id `s` knows, and besides those exactly the ids in `aged`, which `s` has forgotten. */
  ghost predicate Forgot(s: Ledger, d: Ledger, aged: set<string>) {
    && "" !in aged && aged !! s.settled
    && (forall id | id != "" :: id in d.settled <==> id in s.settled || id in aged)
  }

  ghost predicate Knows(d: Ledger, s: Ledger) {
    forall id | id != "" && id in s.settled :: id in d.settled
  }

  /** Whoever knows fewer ids admits more calls, so a gap in the totals never closes. */
  lemma {:induction false} GapsStay(s: Ledger, d: Ledger, live: seq<ToolCall>)
    requires Knows(d, s) && s.total > d.total
    ensures Knows(SettleAll(d, live), SettleAll(s, live)) && SettleAll(s, live).total > SettleAll(d, live).total
  {
    if live != [] {
      GapsStay(s, d, live[..|live| - 1]);
    }
  }

  function Unknowns(l: Ledger): nat {
    CountIn(l.counts, "unknown")
  }

  ghost predicate InStep(s: Ledger, d: Ledger, s': Ledger, d': Ledger, aged: set<string>) {
    && Forgot(s', d', aged) && s'.total == d'.total
    && (Agree(s, d) ==> Agree(s', d'))
    && (Unknowns(d) > Unknowns(s) ==> Unknowns(d') > Unknowns(s'))
  }

  lemma OneInStep(s: Ledger, d: Ledger, call: ToolCall, aged: set<string>)
    requires Forgot(s, d, aged) && s.total == d.total
    ensures call.toolUseId !in aged ==> InStep(s, d, Settle(s, call), Settle(d, call), aged)
    ensures call.toolUseId in aged ==> Settle(s, call).total > Settle(d, call).total
    ensures Knows(Settle(d, call), Settle(s, call))
  {
  }

  /** Live calls keep the two ledgers in step until one of them reuses a forgotten id. */
  lemma {:induction false} GoingLive(s: Ledger, d: Ledger, live: seq<ToolCall>, aged: set<string>)
    requires Forgot(s, d, aged) && s.total == d.total
    ensures Untouched(live, aged) ==> InStep(s, d, SettleAll(s, live), SettleAll(d, live), aged)
    ensures !Untouched(live, aged) ==> SettleAll(s, live).total > SettleAll(d, live).total
    ensures Knows(SettleAll(d, live), SettleAll(s, live))
  {
    if live != [] {
      var front, call := live[..|live| - 1], live[|live| - 1];
      assert live == front + [call];
      GoingLive(s, d, front, aged);
      assert Untouched(live, aged) <==> Untouched(front, aged) && call.toolUseId !in aged;
      if Untouched(front, aged) {
        OneInStep(SettleAll(s, front), SettleAll(d, front), call, aged);
      }
    }
  }

  lemma {:induction false} SettleAllConcat(l: Ledger, a: seq<ToolCall>, b: seq<ToolCall>)
    ensures SettleAll(l, a + b) == SettleAll(SettleAll(l, a), b)
  {
    if b == [] {
      assert a + b == a;
    } else {
      assert (a + b)[..|a + b| - 1] == a + b[..|b| - 1];
      SettleAllConcat(l, a, b[..|b| - 1]);
    }
  }

  // ----- the theorem -----

  lemma WindowAndRest(calls: seq<ToolCall>)
    ensures calls == Older(calls) + LastN(calls, RECENT_TOOL_CALLS_LIMIT)
    ensures CleanIds(calls) == CleanIds(Older(calls)) + CleanIds(LastN(calls, RECENT_TOOL_CALLS_LIMIT))
    ensures GoodIds(calls) ==>
      CleanIds(Older(calls)) !! CleanIds(LastN(calls, RECENT_TOOL_CALLS_LIMIT)) && "" !in CleanIds(calls)
  {
    var older, window := Older(calls), LastN(calls, RECENT_TOOL_CALLS_LIMIT);
    assert calls == older + window;
    if GoodIds(calls) {
      forall a, b | a in older && b in window ensures a.toolUseId != b.toolUseId {
        var i :| 0 <= i < |older| && older[i] == a;
        var j :| 0 <= j < |window| && window[j] == b;
        assert calls[i].toolUseId != calls[|older| + j].toolUseId;
      }
    }
  }

  /** The comparison on the ledgers alone. */
  lemma LedgersAgreeExactly(history: seq<ToolCall>, live: seq<ToolCall>)
    ensures Agree(SettleAll(AfterSummary({}, history), live), SettleAll(BLANK, history + live)) <==> Resumable(history, live)
  {
    SettleAllConcat(BLANK, history, live);
    if GoodIds(history) {
      GoodHistoryAgrees(history, live);
    } else {
      DirectTotal(history);
      GapsStay(AfterSummary({}, history), SettleAll(BLANK, history), live);
    }
  }

  lemma GoodHistoryAgrees(history: seq<ToolCall>, live: seq<ToolCall>)
    requires GoodIds(history)
    ensures Agree(SettleAll(AfterSummary({}, history), live), SettleAll(SettleAll(BLANK, history), live)) <==> Resumable(history, live)
  {
    var s, d := AfterSummary({}, history), SettleAll(BLANK, history);
    var aged := CleanIds(Older(history));
    HistoryIsForgotten(history);
    GoingLive(s, d, live, aged);
    NamesDecide(history);
  }

  lemma HistoryIsForgotten(history: seq<ToolCall>)
    requires GoodIds(history)
    ensures Forgot(AfterSummary({}, history), SettleAll(BLANK, history), CleanIds(Older(history)))
    ensures AfterSummary({}, history).total == SettleAll(BLANK, history).total
  {
    DirectTotal(history);
    WindowAndRest(history);
    DirectRing(history);
    MapLastN(history);
  }

  /** With good ids the two ledgers agree before going live exactly when no name is blank. */
  lemma NamesDecide(history: seq<ToolCall>)
    requires GoodIds(history)
    ensures
      var s, d := AfterSummary({}, history), SettleAll(BLANK, history);
      && (NoBlankNames(history) ==> Agree(s, d))
      && (!NoBlankNames(history) ==> Unknowns(d) > Unknowns(s))
  {
    DirectTotal(history);
    DirectRing(history);
    MapLastN(history);
    if NoBlankNames(history) {
      SameCounts(history);
    } else {
      UnknownsDiffer(history);
    }
  }

  lemma MapLastN(calls: seq<ToolCall>)
    ensures Map(Clean, LastN(calls, RECENT_TOOL_CALLS_LIMIT)) == LastN(Map(Clean, calls), TOOL_CALL_RING)
  {
  }

  lemma SettledConcat(a: seq<ToolCall>, b: seq<ToolCall>)
    ensures Settled(a + b) == Settled(a) + Settled(b)
  {
    FilterConcat((call: ToolCall) => call.status != Status.Running, a, b);
  }

  lemma {:induction false} NothingSettled(calls: seq<ToolCall>)
    requires forall call | call in calls :: call.status == Status.Running
    ensures Settled(calls) == []
  {
    if calls != [] {
      assert calls[|calls| - 1] in calls;
      NothingSettled(calls[..|calls| - 1]);
    }
  }

  /** A summary of no calls at all, sent or not, leaves a blank ledger blank. */
  lemma CatchingUp(c: Card, a: Activity, past: seq<ToolCall>, sessionId: string, numTurns: nat, cwd: Option<string>)
    requires LedgerOf(c) == BLANK
    requires AllSettled(past) && |past| < U32_LIMIT && SameSummary(a, FoldAll(IDLE, past))
    ensures LedgerOf(Emit(c, AgentReplaySummary, SummaryEvent(a, sessionId, numTurns, cwd))) == AfterSummary({}, past)
    ensures !WorthReporting(a, numTurns, cwd) ==> LedgerOf(c) == AfterSummary({}, past)
  {
    SummaryMovesLedger(c, a, past, sessionId, numTurns, cwd);
    FoldCountsExactly(past);
    if a.total == 0 {
      assert past == [];
    }
  }

  /**
   On a card with no tool calls yet, and below 2^32 completions: whatever
   accumulator makes the summary of these completions, catching up with it and
   then going live shows the same total, the same counts and the same ring as
   recording every one of them and every live call, if and only if their ids are
   present and distinct, their names are not blank, and no live call reuses the
   id of a call older than the fifty in the window.
   */
  lemma SummaryAgreesExactly(c: Card, a: Activity, past: seq<ToolCall>, open: seq<ToolCall>, live: seq<ToolCall>,
                             sessionId: string, numTurns: nat, cwd: Option<string>)
    requires LedgerOf(c) == BLANK
    requires forall call | call in open :: call.status == Status.Running
    requires AllSettled(past) && |past| < U32_LIMIT && SameSummary(a, FoldAll(IDLE, past))
    ensures Agree(LedgerOf(Resume(c, a, open, live, sessionId, numTurns, cwd)), SettleAll(BLANK, past + Settled(live)))
            <==> Resumable(past, Settled(live))
  {
    var started := EmitAll(c, open);
    EmitAllMovesLedger(c, open);
    NothingSettled(open);
    CatchingUp(started, a, past, sessionId, numTurns, cwd);
    if WorthReporting(a, numTurns, cwd) {
      EmitAllMovesLedger(Emit(started, AgentReplaySummary, SummaryEvent(a, sessionId, numTurns, cwd)), live);
    } else {
      EmitAllMovesLedger(started, live);
    }
    LedgersAgreeExactly(past, Settled(live));
  }

  /** One decoder: its history in one summary, against emitting every call of it one by one. */
  lemma ResumeAgreesExactly(c: Card, history: seq<ToolCall>, open: seq<ToolCall>, live: seq<ToolCall>,
                            sessionId: string, numTurns: nat, cwd: Option<string>)
    requires LedgerOf(c) == BLANK
    requires forall call | call in open :: call.status == Status.Running
    requires |Settled(history)| < U32_LIMIT
    ensures Agree(LedgerOf(Resume(c, FoldAll(IDLE, history), open, live, sessionId, numTurns, cwd)), LedgerOf(EmitAll(c, history + live)))
            <==> Resumable(Settled(history), Settled(live))
  {
    SettledAreSettled(history);
    FoldIgnoresRunning(history);
    SummaryAgreesExactly(c, FoldAll(IDLE, history), Settled(history), open, live, sessionId, numTurns, cwd);
    EmitAllMovesLedger(c, history + live);
    SettledConcat(history, live);
  }

  // ----- conservation -----

  ghost function Sum(counts: map<string, nat>): nat {
    if counts == map[] then 0 else var k :| k in counts; counts[k] + Sum(counts - {k})
  }

  ghost function SomeKey(counts: map<string, nat>): (k: string)
    requires counts != map[]
    ensures k in counts && Sum(counts) == counts[k] + Sum(counts - {k})
  {
    var k :| k in counts && Sum(counts) == counts[k] + Sum(counts - {k});
    k
  }

  lemma {:induction false} SumOf(counts: map<string, nat>, k: string)
    requires k in counts
    ensures Sum(counts) == counts[k] + Sum(counts - {k})
    decreases |counts|
  {
    var pick := SomeKey(counts);
    if pick != k {
      SumOf(counts - {pick}, k);
      SumOf(counts - {k}, pick);
      assert counts - {pick} - {k} == counts - {k} - {pick};
    }
  }

  lemma BumpAddsOne(counts: map<string, nat>, tool: string)
    ensures Sum(Bump(counts, tool)) == Sum(counts) + 1
  {
    var more := Bump(counts, tool);
    SumOf(more, tool);
    if tool in counts {
      SumOf(counts, tool);
      assert more - {tool} == counts - {tool};
    } else {
      assert more - {tool} == counts;
    }
  }

  ghost predicate TotalIsSum(l: Ledger) {
    l.total == Sum(l.counts)
  }

  /** Recording calls keeps the total equal to the sum of the per-tool counts. */
  lemma {:induction false} TotalIsTheSum(l: Ledger, calls: seq<ToolCall>)
    requires TotalIsSum(l)
    ensures TotalIsSum(SettleAll(l, calls))
  {
    if calls != [] {
      var past, call := SettleAll(l, calls[..|calls| - 1]), calls[|calls| - 1];
      TotalIsTheSum(l, calls[..|calls| - 1]);
      BumpAddsOne(past.counts, NameOf(call));
    }
  }

  /** A resumable history ends, after any live calls, with a total equal to the sum of its counts. */
  lemma ResumedTotalIsTheSum(c: Card, history: seq<ToolCall>, open: seq<ToolCall>, live: seq<ToolCall>,
                             sessionId: string, numTurns: nat, cwd: Option<string>)
    requires LedgerOf(c) == BLANK
    requires forall call | call in open :: call.status == Status.Running
    requires |Settled(history)| < U32_LIMIT
    ensures Resumable(Settled(history), Settled(live)) ==> TotalIsSum(LedgerOf(Resume(c, FoldAll(IDLE, history), open, live, sessionId, numTurns, cwd)))
  {
    if Resumable(Settled(history), Settled(live)) {
      ResumeAgreesExactly(c, history, open, live, sessionId, numTurns, cwd);
      EmitAllMovesLedger(c, history + live);
      assert Sum(map[]) == 0;
      TotalIsTheSum(BLANK, Settled(history + live));
    }
  }
}
