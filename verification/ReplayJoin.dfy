/** Several decoders, one summary: the joined replay against recording every call in timestamp order. */
module ReplayJoin {
  import opened Wrappers
  import opened Sequences
  import opened Sorting
  import opened Cards
  import opened ActivityFold
  import opened Replay
  import opened ReplayAgreement
  import opened ReplayMerge

  function Tools(calls: seq<ToolCall>): set<string> {
    set call | call in calls :: call.tool
  }

  lemma ToolsConcat(a: seq<ToolCall>, b: seq<ToolCall>)
    ensures Tools(a + b) == Tools(a) + Tools(b)
  {
    forall tool | tool in Tools(a) + Tools(b) ensures tool in Tools(a + b) {
      var call :| (call in a || call in b) && call.tool == tool;
      assert call in a + b;
    }
  }

  lemma FoldTools(calls: seq<ToolCall>)
    requires |Settled(calls)| < U32_LIMIT
    ensures FoldAll(IDLE, calls).byType.Keys == Tools(Settled(calls))
  {
    FoldIgnoresRunning(calls);
    SettledAreSettled(calls);
    FoldKeys(Settled(calls));
  }

  lemma {:induction false} MergedTools(decoders: seq<seq<ToolCall>>)
    requires |Completions(decoders)| < U32_LIMIT
    ensures MergeAll(decoders).byType.Keys == Tools(Completions(decoders))
  {
    if decoders != [] {
      var front, last := decoders[..|decoders| - 1], decoders[|decoders| - 1];
      MergedTools(front);
      FoldTools(last);
      ToolsConcat(Completions(front), Settled(last));
    }
  }

  lemma {:induction false} CompletionsAreSettled(decoders: seq<seq<ToolCall>>)
    ensures AllSettled(Completions(decoders))
  {
    if decoders != [] {
      CompletionsAreSettled(decoders[..|decoders| - 1]);
      SettledAreSettled(decoders[|decoders| - 1]);
    }
  }

  // ----- sorting keeps what is counted -----

  lemma {:induction false} InsertCounts(s: seq<ToolCall>, x: ToolCall, le: (ToolCall, ToolCall) -> bool, tool: string)
    ensures CountRaw(Insert(s, x, le), tool) == CountRaw(s, tool) + if x.tool == tool then 1 else 0
  {
    if s == [] || le(s[|s| - 1], x) {
      CountRawOneMore(s, x);
    } else {
      var front, last := s[..|s| - 1], s[|s| - 1];
      InsertCounts(front, x, le, tool);
      CountRawOneMore(Insert(front, x, le), last);
    }
  }

  lemma {:induction false} SortCounts(s: seq<ToolCall>, le: (ToolCall, ToolCall) -> bool, tool: string)
    ensures CountRaw(StableSort(s, le), tool) == CountRaw(s, tool)
  {
    if s != [] {
      SortCounts(s[..|s| - 1], le, tool);
      InsertCounts(StableSort(s[..|s| - 1], le), s[|s| - 1], le, tool);
    }
  }

  lemma SortKeeps(s: seq<ToolCall>, le: (ToolCall, ToolCall) -> bool)
    ensures |StableSort(s, le)| == |s|
    ensures AllSettled(s) ==> AllSettled(StableSort(s, le))
    ensures Tools(StableSort(s, le)) == Tools(s)
  {
    var sorted := StableSort(s, le);
    SortMultiset(s, le);
    assert |multiset(sorted)| == |multiset(s)|;
    forall call: ToolCall ensures call in sorted <==> call in s {
      assert call in multiset(sorted) <==> call in multiset(s);
    }
    if AllSettled(s) {
      forall i | 0 <= i < |sorted| ensures sorted[i].status != Status.Running {
        assert sorted[i] in s;
      }
    }
  }

  // ----- the join -----

  lemma SameTables(a: map<string, nat>, b: map<string, nat>)
    requires a.Keys == b.Keys && forall tool | tool in a.Keys :: CountIn(a, tool) == CountIn(b, tool)
    ensures a == b
  {
    assert forall tool | tool in a.Keys :: a[tool] == CountIn(a, tool) && b[tool] == CountIn(b, tool);
  }

  /** Joining accumulators makes the summary that one decoder of the whole sorted history would have made. */
  lemma JoinIsOneDecoder(decoders: seq<seq<ToolCall>>)
    requires InOrder(decoders) && |Completions(decoders)| < U32_LIMIT
    ensures SameSummary(MergeAll(decoders), FoldAll(IDLE, StableSort(Completions(decoders), NotAfter)))
  {
    var done := Completions(decoders);
    var past := StableSort(done, NotAfter);
    CompletionsAreSettled(decoders);
    SortKeeps(done, NotAfter);
    MergedWindow(decoders);
    FoldHolds(past);
    SettledIsAll(past);
    FoldCountsExactly(past);
    MergedTools(decoders);
    FoldKeys(past);
    forall tool ensures CountIn(MergeAll(decoders).byType, tool) == CountIn(FoldAll(IDLE, past).byType, tool) {
      MergedCounts(decoders, tool);
      SortCounts(done, NotAfter, tool);
    }
    SameTables(MergeAll(decoders).byType, FoldAll(IDLE, past).byType);
  }

  /**
   Any number of decoders, whose completions each came in timestamp order, joined
   into one summary, and then live calls: the card shows what emitting all their
   completions in the stable timestamp order and then the live calls would have
   shown, if and only if that history is resumable.
   */
  lemma JoinedResumeAgreesExactly(c: Card, decoders: seq<seq<ToolCall>>, open: seq<ToolCall>, live: seq<ToolCall>,
                                  sessionId: string, numTurns: nat, cwd: Option<string>)
    requires LedgerOf(c) == BLANK
    requires forall call | call in open :: call.status == Status.Running
    requires InOrder(decoders) && |Completions(decoders)| < U32_LIMIT
    ensures
      var past := StableSort(Completions(decoders), NotAfter);
      Agree(LedgerOf(Resume(c, MergeAll(decoders), open, live, sessionId, numTurns, cwd)), LedgerOf(EmitAll(c, past + live)))
      <==> Resumable(past, Settled(live))
  {
    var past := StableSort(Completions(decoders), NotAfter);
    CompletionsAreSettled(decoders);
    SortKeeps(Completions(decoders), NotAfter);
    JoinIsOneDecoder(decoders);
    SummaryAgreesExactly(c, MergeAll(decoders), past, open, live, sessionId, numTurns, cwd);
    EmitAllMovesLedger(c, past + live);
    SettledConcat(past, live);
    SettledIsAll(past);
  }

  // ----- why everyone waits -----

  /** A session in which some calls were emitted before the summary was. */
  ghost function NotWaiting(c: Card, a: Activity, early: seq<ToolCall>, live: seq<ToolCall>,
                            sessionId: string, numTurns: nat, cwd: Option<string>): Card {
    EmitAll(Emit(EmitAll(c, early), AgentReplaySummary, SummaryEvent(a, sessionId, numTurns, cwd)), live)
  }

  /** The early calls were all in the history already, or had no id to be counted by. */
  ghost predicate NothingNew(past: seq<ToolCall>, early: seq<ToolCall>) {
    forall call | call in early :: call.toolUseId == "" || call.toolUseId in CleanIds(past)
  }

  lemma {:induction false} EarlyTotal(l: Ledger, early: seq<ToolCall>)
    ensures SettleAll(l, early).total >= l.total
    ensures l.settled <= SettleAll(l, early).settled <= l.settled + CleanIds(early)
    ensures forall call | call in early :: call.toolUseId == "" || call.toolUseId in SettleAll(l, early).settled
    ensures SettleAll(l, early) == l || SettleAll(l, early).total > l.total
  {
    if early != [] {
      var front, call := early[..|early| - 1], early[|early| - 1];
      assert early == front + [call];
      EarlyTotal(l, front);
    }
  }

  /** Live calls that reuse nothing forgotten cannot make up for a call that was lost. */
  lemma {:induction false} LossesStay(s: Ledger, d: Ledger, live: seq<ToolCall>, aged: set<string>)
    requires Forgot(s, d, aged) && d.total > s.total && Untouched(live, aged)
    ensures Forgot(SettleAll(s, live), SettleAll(d, live), aged) && SettleAll(d, live).total > SettleAll(s, live).total
  {
    if live != [] {
      var front, call := live[..|live| - 1], live[|live| - 1];
      assert live == front + [call];
      LossesStay(s, d, front, aged);
    }
  }

  lemma {:induction false} NothingNewCounts(l: Ledger, early: seq<ToolCall>)
    requires forall call | call in early :: call.toolUseId == "" || call.toolUseId in l.settled
    ensures SettleAll(l, early) == l
  {
    if early != [] {
      var front, call := early[..|early| - 1], early[|early| - 1];
      assert early == front + [call];
      NothingNewCounts(l, front);
    }
  }

  lemma EarlyCounts(past: seq<ToolCall>, early: seq<ToolCall>)
    requires GoodIds(past)
    ensures
      var l := SettleAll(BLANK, past);
      var d := SettleAll(l, early);
      if NothingNew(past, early) then d == l else d.total > l.total
  {
    var l := SettleAll(BLANK, past);
    DirectTotal(past);
    if NothingNew(past, early) {
      NothingNewCounts(l, early);
    } else {
      var call :| call in early && call.toolUseId != "" && call.toolUseId !in CleanIds(past);
      EarlyTotal(l, early);
      assert call.toolUseId in SettleAll(l, early).settled && call.toolUseId !in l.settled;
    }
  }

  lemma EarlyIsForgotten(past: seq<ToolCall>, early: seq<ToolCall>)
    requires GoodIds(past)
    ensures
      var known := SettleAll(BLANK, early).settled;
      Forgot(AfterSummary(known, past), SettleAll(SettleAll(BLANK, past), early), CleanIds(Older(past)) - known)
  {
    DirectTotal(past);
    DirectTotal(early);
    WindowAndRest(past);
    EarlyTotal(SettleAll(BLANK, past), early);
    IdsAreForgotten(CleanIds(Older(past)), CleanIds(LastN(past, RECENT_TOOL_CALLS_LIMIT)), CleanIds(early),
                    SettleAll(BLANK, early).settled, SettleAll(SettleAll(BLANK, past), early).settled);
  }

  lemma IdsAreForgotten(older: set<string>, window: set<string>, early: set<string>, known: set<string>, all: set<string>)
    requires older !! window && "" !in older && known == early - {""}
    requires older + window - {""} <= all <= older + window - {""} + early && known <= all
    ensures "" !in older - known && (older - known) !! (known + window)
    ensures forall id | id != "" :: id in all <==> id in known + window || id in older - known
  {
  }

  /**
   Had a decoder gone live before the summary was sent, its calls would have been
   lost: the card would agree with recording everything if and only if those
   calls added nothing to the history. So the decoders wait for each other.
   */
  lemma NotWaitingLosesCalls(c: Card, a: Activity, past: seq<ToolCall>, early: seq<ToolCall>, live: seq<ToolCall>,
                             sessionId: string, numTurns: nat, cwd: Option<string>)
    requires LedgerOf(c) == BLANK
    requires AllSettled(past) && |past| < U32_LIMIT && SameSummary(a, FoldAll(IDLE, past))
    requires Resumable(past, Settled(live))
    ensures Agree(LedgerOf(NotWaiting(c, a, early, live, sessionId, numTurns, cwd)), LedgerOf(EmitAll(c, past + early + live)))
            <==> NothingNew(past, Settled(early))
  {
    var known := SettleAll(BLANK, Settled(early)).settled;
    var aged := CleanIds(Older(past)) - known;
    var s, d := AfterSummary(known, past), SettleAll(SettleAll(BLANK, past), Settled(early));
    NotWaitingLedgers(c, a, past, early, live, sessionId, numTurns, cwd);
    EarlyIsForgotten(past, Settled(early));
    EarlyCounts(past, Settled(early));
    DirectTotal(past);
    NamesDecide(past);
    if NothingNew(past, Settled(early)) {
      GoingLive(s, d, Settled(live), aged);
    } else {
      LossesStay(s, d, Settled(live), aged);
    }
  }

  lemma NotWaitingLedgers(c: Card, a: Activity, past: seq<ToolCall>, early: seq<ToolCall>, live: seq<ToolCall>,
                          sessionId: string, numTurns: nat, cwd: Option<string>)
    requires LedgerOf(c) == BLANK
    requires AllSettled(past) && |past| < U32_LIMIT && SameSummary(a, FoldAll(IDLE, past))
    ensures LedgerOf(NotWaiting(c, a, early, live, sessionId, numTurns, cwd))
            == SettleAll(AfterSummary(SettleAll(BLANK, Settled(early)).settled, past), Settled(live))
    ensures LedgerOf(EmitAll(c, past + early + live)) == SettleAll(SettleAll(SettleAll(BLANK, past), Settled(early)), Settled(live))
  {
    var started := EmitAll(c, early);
    var caughtUp := Emit(started, AgentReplaySummary, SummaryEvent(a, sessionId, numTurns, cwd));
    EmitAllMovesLedger(c, early);
    SummaryMovesLedger(started, a, past, sessionId, numTurns, cwd);
    EmitAllMovesLedger(caughtUp, live);
    EmitAllMovesLedger(c, past + early + live);
    SettledConcat(past + early, live);
    SettledConcat(past, early);
    SettledIsAll(past);
    SettleAllConcat(BLANK, past + Settled(early), Settled(live));
    SettleAllConcat(BLANK, past, Settled(early));
  }
}
