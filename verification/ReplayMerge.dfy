/** Joining several decoders' accumulators loses nothing the joined window would have kept. */
module ReplayMerge {
  import opened Sequences
  import opened Sorting
  import opened ActivityFold
  import opened Replay

  lemma TimestampsAreTotal()
    ensures TotalPreorder(NotAfter)
  {
    forall a, b ensures Comparable(NotAfter, a, b) {
      LexTotal(a.timestamp, b.timestamp);
    }
    forall a, b, c ensures Chains(NotAfter, a, b, c) {
      if NotAfter(a, b) && NotAfter(b, c) {
        LexTransitive(a.timestamp, b.timestamp, c.timestamp);
      }
    }
  }

  // ----- sorting and truncating -----

  lemma SortOfSorted<T(!new)>(s: seq<T>, le: (T, T) -> bool)
    requires TotalPreorder(le) && SortedBy(s, le)
    ensures StableSort(s, le) == s
  {
    SortSorted(s, le);
    forall c ensures Class(StableSort(s, le), c, le) == Class(s, c, le) {
      SortStable(s, c, le);
    }
    SortedUnique(StableSort(s, le), s, le);
  }

  /** Sorting the first part beforehand changes nothing. */
  lemma SortOfPartlySorted<T(!new)>(a: seq<T>, b: seq<T>, le: (T, T) -> bool)
    requires TotalPreorder(le)
    ensures StableSort(StableSort(a, le) + b, le) == StableSort(a + b, le)
  {
    var p, q := StableSort(a, le) + b, a + b;
    SortSorted(p, le);
    SortSorted(q, le);
    forall c ensures Class(StableSort(p, le), c, le) == Class(StableSort(q, le), c, le) {
      SortStable(p, c, le);
      SortStable(q, c, le);
      SortStable(a, c, le);
      ClassConcat(StableSort(a, le), b, c, le);
      ClassConcat(a, b, c, le);
    }
    SortedUnique(StableSort(p, le), StableSort(q, le), le);
  }

  lemma {:induction false} NoClass<T(!new)>(s: seq<T>, x: T, c: T, le: (T, T) -> bool)
    requires TotalPreorder(le) && Same(le, c, x)
    requires forall i | 0 <= i < |s| :: !le(x, s[i])
    ensures Class(s, c, le) == []
  {
    if s != [] {
      NoClass(s[..|s| - 1], x, c, le);
      assert Chains(le, x, c, s[|s| - 1]);
    }
  }

  /** An element at or above everything before it and above everything after it. */
  ghost predicate TopOf<T>(a: seq<T>, x: T, b: seq<T>, le: (T, T) -> bool) {
    (forall i | 0 <= i < |a| :: le(a[i], x)) && (forall i | 0 <= i < |b| :: !le(x, b[i]))
  }

  lemma TopClass<T(!new)>(a: seq<T>, x: T, b: seq<T>, c: T, le: (T, T) -> bool)
    requires TotalPreorder(le) && TopOf(a, x, b, le)
    ensures Class(a + [x] + b, c, le) == Class(a + b, c, le) + if Same(le, c, x) then [x] else []
  {
    ClassConcat(a + [x], b, c, le);
    ClassSnoc(a, x, c, le);
    ClassConcat(a, b, c, le);
    if Same(le, c, x) {
      NoClass(b, x, c, le);
    }
  }

  lemma TopBounds<T(!new)>(a: seq<T>, x: T, b: seq<T>, y: T, le: (T, T) -> bool)
    requires TotalPreorder(le) && TopOf(a, x, b, le) && y in a + b
    ensures le(y, x)
  {
    var k :| 0 <= k < |a + b| && (a + b)[k] == y;
    if k >= |a| {
      assert !le(x, b[k - |a|]) && Comparable(le, x, b[k - |a|]);
    }
  }

  /** It sorts last. */
  lemma TopSortsLast<T(!new)>(a: seq<T>, x: T, b: seq<T>, le: (T, T) -> bool)
    requires TotalPreorder(le) && TopOf(a, x, b, le)
    ensures StableSort(a + [x] + b, le) == StableSort(a + b, le) + [x]
  {
    var whole, rest := a + [x] + b, a + b;
    var p, q := StableSort(whole, le), StableSort(rest, le) + [x];
    SortSorted(whole, le);
    SortSorted(rest, le);
    SortMultiset(rest, le);
    forall i | 0 <= i < |q| - 1 ensures le(q[i], x) {
      assert q[i] in multiset(rest);
      TopBounds(a, x, b, q[i], le);
    }
    forall c ensures Class(p, c, le) == Class(q, c, le) {
      SortStable(whole, c, le);
      SortStable(rest, c, le);
      TopClass(a, x, b, c, le);
      ClassSnoc(StableSort(rest, le), x, c, le);
    }
    SortedUnique(p, q, le);
  }

  /** `w` is an end of `s`, long enough to hold its last `k` elements. */
  ghost predicate EndOf<T>(w: seq<T>, s: seq<T>, k: nat) {
    |w| <= |s| && w == s[|s| - |w|..] && (|w| >= k || w == s)
  }

  lemma EndOfFront<T>(w: seq<T>, s: seq<T>, k: nat)
    requires EndOf(w, s, k) && w != [] && k > 0
    ensures w[|w| - 1] == s[|s| - 1] && EndOf(Front(w), Front(s), k - 1) && EndOf(w, s, k - 1)
  {
  }

  lemma EndOfSorted<T>(w: seq<T>, s: seq<T>, k: nat, le: (T, T) -> bool)
    requires EndOf(w, s, k) && SortedBy(s, le)
    ensures SortedBy(w, le)
  {
  }

  lemma SameEnds<T>(p: seq<T>, q: seq<T>, x: T, k: nat)
    requires k > 0 && LastN(p, k - 1) == LastN(q, k - 1)
    ensures LastN(p + [x], k) == LastN(q + [x], k)
  {
    assert LastN(p + [x], k) == LastN(p, k - 1) + [x];
    assert LastN(q + [x], k) == LastN(q, k - 1) + [x];
  }

  lemma EndOfWhole<T>(w: seq<T>, s: seq<T>, k: nat)
    requires EndOf(w, s, k)
    ensures LastN(w, k) == LastN(s, k)
  {
  }

  lemma MergeWithNothing<T(!new)>(s: seq<T>, w: seq<T>, k: nat, le: (T, T) -> bool)
    requires TotalPreorder(le) && SortedBy(s, le) && EndOf(w, s, k)
    ensures LastN(StableSort(w, le), k) == LastN(StableSort(s, le), k)
  {
    EndOfSorted(w, s, k, le);
    SortOfSorted(s, le);
    SortOfSorted(w, le);
    EndOfWhole(w, s, k);
  }

  lemma TakeFromB<T(!new)>(a: seq<T>, b: seq<T>, a': seq<T>, b': seq<T>, k: nat, le: (T, T) -> bool)
    requires TotalPreorder(le) && SortedBy(a, le) && SortedBy(b, le) && SortedBy(a', le) && SortedBy(b', le)
    requires k > 0 && a != [] && b != [] && a' != [] && b' != []
    requires a'[|a'| - 1] == a[|a| - 1] && b'[|b'| - 1] == b[|b| - 1] && le(a[|a| - 1], b[|b| - 1])
    requires LastN(StableSort(a' + Front(b'), le), k - 1) == LastN(StableSort(a + Front(b), le), k - 1)
    ensures LastN(StableSort(a' + b', le), k) == LastN(StableSort(a + b, le), k)
  {
    LastOfB(a, b, le);
    LastOfB(a', b', le);
    SameEnds(StableSort(a' + Front(b'), le), StableSort(a + Front(b), le), b[|b| - 1], k);
  }

  lemma TakeFromA<T(!new)>(a: seq<T>, b: seq<T>, a': seq<T>, b': seq<T>, k: nat, le: (T, T) -> bool)
    requires TotalPreorder(le) && SortedBy(a, le) && SortedBy(b, le) && SortedBy(a', le) && SortedBy(b', le)
    requires k > 0 && a != [] && b != [] && a' != [] && b' != []
    requires a'[|a'| - 1] == a[|a| - 1] && b'[|b'| - 1] == b[|b| - 1] && !le(a[|a| - 1], b[|b| - 1])
    requires LastN(StableSort(Front(a') + b', le), k - 1) == LastN(StableSort(Front(a) + b, le), k - 1)
    ensures LastN(StableSort(a' + b', le), k) == LastN(StableSort(a + b, le), k)
  {
    LastOfA(a, b, le);
    LastOfA(a', b', le);
    SameEnds(StableSort(Front(a') + b', le), StableSort(Front(a) + b, le), a[|a| - 1], k);
  }

  /** Truncating two sorted windows before merging them leaves the end of the merge alone. */
  lemma {:induction false} TruncateThenMerge<T(!new)>(a: seq<T>, b: seq<T>, a': seq<T>, b': seq<T>, k: nat, le: (T, T) -> bool)
    requires TotalPreorder(le) && SortedBy(a, le) && SortedBy(b, le)
    requires EndOf(a', a, k) && EndOf(b', b, k)
    ensures LastN(StableSort(a' + b', le), k) == LastN(StableSort(a + b, le), k)
    decreases |a| + |b|, 1
  {
    if k == 0 {
    } else if a' == [] {
      assert a + b == b && a' + b' == b';
      MergeWithNothing(b, b', k, le);
    } else if b' == [] {
      assert a + b == a && a' + b' == a';
      MergeWithNothing(a, a', k, le);
    } else if le(a[|a| - 1], b[|b| - 1]) {
      TruncateFromB(a, b, a', b', k, le);
    } else {
      TruncateFromA(a, b, a', b', k, le);
    }
  }

  /** Taking the last of one pair leaves two pairs that are still ends, one shorter. */
  lemma ShorterEnds<T>(w: seq<T>, s: seq<T>, w': seq<T>, s': seq<T>, k: nat, le: (T, T) -> bool)
    requires SortedBy(s, le) && SortedBy(s', le)
    requires EndOf(w, s, k) && EndOf(w', s', k) && k > 0 && w != [] && w' != []
    ensures s != [] && s' != [] && |Front(s)| < |s|
    ensures w[|w| - 1] == s[|s| - 1] && w'[|w'| - 1] == s'[|s'| - 1]
    ensures EndOf(Front(w), Front(s), k - 1) && EndOf(w', s', k - 1)
    ensures SortedBy(Front(s), le) && SortedBy(w, le) && SortedBy(w', le)
  {
    EndOfFront(w, s, k);
    EndOfFront(w', s', k);
    FrontSorted(s, le);
    EndOfSorted(w, s, k, le);
    EndOfSorted(w', s', k, le);
  }

  lemma {:induction false} TruncateFromB<T(!new)>(a: seq<T>, b: seq<T>, a': seq<T>, b': seq<T>, k: nat, le: (T, T) -> bool)
    requires TotalPreorder(le) && SortedBy(a, le) && SortedBy(b, le)
    requires EndOf(a', a, k) && EndOf(b', b, k) && k > 0 && a' != [] && b' != []
    requires le(a[|a| - 1], b[|b| - 1])
    ensures LastN(StableSort(a' + b', le), k) == LastN(StableSort(a + b, le), k)
    decreases |a| + |b|, 0
  {
    ShorterEnds(b', b, a', a, k, le);
    TruncateThenMerge(a, Front(b), a', Front(b'), k - 1, le);
    TakeFromB(a, b, a', b', k, le);
  }

  lemma {:induction false} TruncateFromA<T(!new)>(a: seq<T>, b: seq<T>, a': seq<T>, b': seq<T>, k: nat, le: (T, T) -> bool)
    requires TotalPreorder(le) && SortedBy(a, le) && SortedBy(b, le)
    requires EndOf(a', a, k) && EndOf(b', b, k) && k > 0 && a' != [] && b' != []
    requires !le(a[|a| - 1], b[|b| - 1])
    ensures LastN(StableSort(a' + b', le), k) == LastN(StableSort(a + b, le), k)
    decreases |a| + |b|, 0
  {
    ShorterEnds(a', a, b', b, k, le);
    TruncateThenMerge(Front(a), b, Front(a'), b', k - 1, le);
    TakeFromA(a, b, a', b', k, le);
  }

  function Front<T>(s: seq<T>): (r: seq<T>)
    requires s != []
  {
    s[..|s| - 1]
  }

  lemma FrontSorted<T>(s: seq<T>, le: (T, T) -> bool)
    requires s != [] && SortedBy(s, le)
    ensures SortedBy(Front(s), le)
  {
  }

  lemma TopOfPair<T(!new)>(a: seq<T>, b: seq<T>, y: T, le: (T, T) -> bool)
    requires TotalPreorder(le)
    requires (forall i | 0 <= i < |a| :: le(a[i], y)) && (forall i | 0 <= i < |b| :: le(b[i], y))
    ensures StableSort(a + b + [y], le) == StableSort(a + b, le) + [y]
  {
    assert a + b + [y] == a + b + [y] + [] && a + b + [] == a + b;
    TopSortsLast(a + b, y, [], le);
  }

  lemma AllBelowLast<T(!new)>(s: seq<T>, y: T, le: (T, T) -> bool)
    requires TotalPreorder(le) && SortedBy(s, le) && s != [] && le(s[|s| - 1], y)
    ensures forall i | 0 <= i < |s| :: le(s[i], y)
  {
    forall i | 0 <= i < |s| ensures le(s[i], y) {
      assert i < |s| - 1 ==> le(s[i], s[|s| - 1]);
      assert Chains(le, s[i], s[|s| - 1], y);
    }
  }

  lemma FrontBelowLast<T(!new)>(s: seq<T>, le: (T, T) -> bool)
    requires SortedBy(s, le) && s != []
    ensures forall i | 0 <= i < |Front(s)| :: le(Front(s)[i], s[|s| - 1])
  {
  }

  lemma LastOfB<T(!new)>(a: seq<T>, b: seq<T>, le: (T, T) -> bool)
    requires TotalPreorder(le) && SortedBy(a, le) && SortedBy(b, le)
    requires a != [] && b != [] && le(a[|a| - 1], b[|b| - 1])
    ensures StableSort(a + b, le) == StableSort(a + Front(b), le) + [b[|b| - 1]]
  {
    var y := b[|b| - 1];
    FrontBelowLast(b, le);
    AllBelowLast(a, y, le);
    SplitLast(a, b);
    TopOfPair(a, Front(b), y, le);
  }

  lemma SplitLast<T>(a: seq<T>, b: seq<T>)
    requires b != []
    ensures a + b == a + Front(b) + [b[|b| - 1]]
  {
  }

  lemma LastOfA<T(!new)>(a: seq<T>, b: seq<T>, le: (T, T) -> bool)
    requires TotalPreorder(le) && SortedBy(a, le) && SortedBy(b, le)
    requires a != [] && b != [] && !le(a[|a| - 1], b[|b| - 1])
    ensures StableSort(a + b, le) == StableSort(Front(a) + b, le) + [a[|a| - 1]]
  {
    var x, y := a[|a| - 1], b[|b| - 1];
    forall i | 0 <= i < |b| ensures !le(x, b[i]) {
      assert i < |b| - 1 ==> le(b[i], y);
      assert Chains(le, x, b[i], y);
    }
    FrontBelowLast(a, le);
    assert a == Front(a) + [x];
    TopSortsLast(Front(a), x, b, le);
  }

  // ----- decoders -----

  ghost function MergeAll(decoders: seq<seq<ToolCall>>): Activity {
    if decoders == [] then IDLE
    else Merged(MergeAll(decoders[..|decoders| - 1]), FoldAll(IDLE, decoders[|decoders| - 1]))
  }

  /** Everything the decoders saw complete, one decoder's after another's. */
  function Completions(decoders: seq<seq<ToolCall>>): seq<ToolCall> {
    if decoders == [] then [] else Completions(decoders[..|decoders| - 1]) + Settled(decoders[|decoders| - 1])
  }

  /** Every decoder's completions, in the order it saw them, are in timestamp order. */
  ghost predicate InOrder(decoders: seq<seq<ToolCall>>) {
    forall d | 0 <= d < |decoders| :: SortedBy(Settled(decoders[d]), NotAfter)
  }

  /**
   However many decoders are joined, the joined window is the last fifty of the
   stable timestamp sort of all their completions, and the total is the number
   of those, saturated at 32 bits.
   */
  lemma {:induction false} MergedWindow(decoders: seq<seq<ToolCall>>)
    requires InOrder(decoders)
    ensures MergeAll(decoders).recent == LastN(StableSort(Completions(decoders), NotAfter), RECENT_TOOL_CALLS_LIMIT)
    ensures MergeAll(decoders).total == Saturate(|Completions(decoders)|)
  {
    if decoders != [] {
      var front, last := decoders[..|decoders| - 1], decoders[|decoders| - 1];
      MergedWindow(front);
      FoldHolds(last);
      MergeOneWindow(Completions(front), Settled(last));
    }
  }

  lemma MergeOneWindow(past: seq<ToolCall>, last: seq<ToolCall>)
    requires SortedBy(last, NotAfter)
    ensures
      var window, joined := RECENT_TOOL_CALLS_LIMIT, StableSort(past, NotAfter);
      LastN(StableSort(LastN(joined, window) + LastN(last, window), NotAfter), window) == LastN(StableSort(past + last, NotAfter), window)
  {
    var joined := StableSort(past, NotAfter);
    TimestampsAreTotal();
    SortSorted(past, NotAfter);
    TruncateThenMerge(joined, last, LastN(joined, RECENT_TOOL_CALLS_LIMIT), LastN(last, RECENT_TOOL_CALLS_LIMIT),
                      RECENT_TOOL_CALLS_LIMIT, NotAfter);
    SortOfPartlySorted(past, last, NotAfter);
  }

  lemma {:induction false} CountRawConcat(a: seq<ToolCall>, b: seq<ToolCall>, tool: string)
    ensures CountRaw(a + b, tool) == CountRaw(a, tool) + CountRaw(b, tool)
  {
    if b == [] {
      assert a + b == a;
    } else {
      assert (a + b)[..|a + b| - 1] == a + Front(b);
      CountRawConcat(a, Front(b), tool);
    }
  }

  lemma MergedCount(a: Activity, b: Activity, tool: string)
    requires CountIn(a.byType, tool) + CountIn(b.byType, tool) < U32_LIMIT
    ensures CountIn(Merged(a, b).byType, tool) == CountIn(a.byType, tool) + CountIn(b.byType, tool)
  {
  }

  lemma FoldCountsOne(calls: seq<ToolCall>, tool: string)
    requires |Settled(calls)| < U32_LIMIT
    ensures CountIn(FoldAll(IDLE, calls).byType, tool) == CountRaw(Settled(calls), tool)
  {
    FoldHolds(calls);
    RawCountsAreSmall(Settled(calls), tool);
    WrapOneMore(CountRaw(Settled(calls), tool));
    assert CountIn(FoldAll(IDLE, calls).byType, tool) == Wrapped(CountRaw(Settled(calls), tool));
  }

  lemma MergeOneCount(a: Activity, past: seq<ToolCall>, last: seq<ToolCall>, tool: string)
    requires CountIn(a.byType, tool) == CountRaw(past, tool) && |past + Settled(last)| < U32_LIMIT
    ensures CountIn(Merged(a, FoldAll(IDLE, last)).byType, tool) == CountRaw(past + Settled(last), tool)
  {
    FoldCountsOne(last, tool);
    CountRawConcat(past, Settled(last), tool);
    RawCountsAreSmall(past + Settled(last), tool);
    MergedCount(a, FoldAll(IDLE, last), tool);
  }

  /** The joined per-tool counts are the counts over all the completions. */
  lemma {:induction false} MergedCounts(decoders: seq<seq<ToolCall>>, tool: string)
    requires |Completions(decoders)| < U32_LIMIT
    ensures CountIn(MergeAll(decoders).byType, tool) == CountRaw(Completions(decoders), tool)
  {
    if decoders != [] {
      var front, last := decoders[..|decoders| - 1], decoders[|decoders| - 1];
      MergedCounts(front, tool);
      MergeOneCount(MergeAll(front), Completions(front), last, tool);
    }
  }
}
