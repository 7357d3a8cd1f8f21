/**
 `scan_source`: reading what a file has grown by, in whatever pieces it comes,
 and turning its lines into notifications.
 */
module Scanner {
  import opened Wrappers
  import opened Framing
  import opened Dedupe
  import opened Turns

  // ----- specification -----

  /**
   One attempt to read the file: its length (none when it cannot be had),
   whether it could be read from the cursor at all, what each read returned,
   and whether the reads ended at the end of the file or with an error.
   */
  datatype Source = Source(length: Option<nat>, readable: bool, chunks: seq<seq<byte>>, complete: bool)

  /** Where the reading stands. */
  datatype Place = Place(cursor: nat, framer: Framer)

  datatype Machine = Machine(place: Place, turn: Turn)

  datatype Scan = Scan(after: Machine, lines: seq<seq<byte>>, sent: seq<Emission>, ok: bool)

  /** A line that does not parse has no signal. */
  type Classifier = seq<byte> -> Option<Signal>

  /** What a line does to the turn, and what it sends. */
  type Handler = (Turn, seq<byte>) -> (Turn, seq<Emission>)

  function Handling(rules: Rules, classify: Classifier): Handler {
    (t: Turn, line: seq<byte>) =>
      var e := if classify(line).Some? then Apply(rules, t, classify(line).value) else Effect(t, [], 0, 0);
      (e.turn, e.sent)
  }

  function Flatten(chunks: seq<seq<byte>>): seq<byte> {
    if chunks == [] then [] else Flatten(chunks[..|chunks| - 1]) + chunks[|chunks| - 1]
  }

  function FeedAll(f: Framer, bytes: seq<byte>): (Framer, seq<seq<byte>>) {
    if bytes == [] then (f, [])
    else
      var past := FeedAll(f, bytes[..|bytes| - 1]);
      var step := Feed(past.0, bytes[|bytes| - 1]);
      (step.0, past.1 + step.1)
  }

  function HandleAll(handle: Handler, t: Turn, lines: seq<seq<byte>>): (Turn, seq<Emission>) {
    if lines == [] then (t, [])
    else
      var past := HandleAll(handle, t, lines[..|lines| - 1]);
      var e := handle(past.0, lines[|lines| - 1]);
      (e.0, past.1 + e.1)
  }

  predicate Readable(cursor: nat, source: Source) {
    source.length.Some? && source.length.value > cursor && source.readable
  }

  predicate CutShort(cursor: nat, source: Source) {
    source.length.Some? && source.length.value < cursor
  }

  /** The reading half of a scan: the new place and the lines it yields. */
  function Advance(p: Place, source: Source): (Place, seq<seq<byte>>) {
    if CutShort(p.cursor, source) then (Place(source.length.value, FRESH_LINE), [])
    else if !Readable(p.cursor, source) then (p, [])
    else
      var bytes := Flatten(source.chunks);
      var framed := FeedAll(p.framer, bytes);
      (Place(p.cursor + |bytes|, framed.0), framed.1)
  }

  /** A scan succeeds when the file was cut short, when it holds nothing new, or when its reads reached its end. */
  predicate Succeeds(p: Place, source: Source) {
    source.length.Some? && (source.length.value <= p.cursor || (source.readable && source.complete))
  }

  /** `scan_source` */
  function ScanOnce(rules: Rules, classify: Classifier, m: Machine, source: Source): Scan {
    var (place, lines) := Advance(m.place, source);
    var handled := HandleAll(Handling(rules, classify), m.turn, lines);
    var ok := Succeeds(m.place, source);
    if CutShort(m.place.cursor, source) then Scan(Machine(place, Reset(m.turn)), [], [], ok)
    else if Readable(m.place.cursor, source) && source.complete then
      var end := Flush(rules, handled.0);
      Scan(Machine(place, end.turn), lines, handled.1 + end.sent, ok)
    else Scan(Machine(place, handled.0), lines, handled.1, ok)
  }

  lemma FeedOne(f: Framer, bytes: seq<byte>, b: byte)
    ensures
      var past := FeedAll(f, bytes);
      var step := Feed(past.0, b);
      FeedAll(f, bytes + [b]) == (step.0, past.1 + step.1)
  {
    assert (bytes + [b])[..|bytes|] == bytes;
  }

  lemma HandleOne(handle: Handler, t: Turn, lines: seq<seq<byte>>, line: seq<byte>)
    ensures
      var past := HandleAll(handle, t, lines);
      var e := handle(past.0, line);
      HandleAll(handle, t, lines + [line]) == (e.0, past.1 + e.1)
  {
    assert (lines + [line])[..|lines|] == lines;
  }

  lemma Regroup<T>(a: seq<T>, b: seq<T>, c: seq<T>)
    ensures a + b + c == a + (b + c)
  {
  }

  lemma {:induction false} FeedConcat(f: Framer, a: seq<byte>, b: seq<byte>)
    ensures
      var first := FeedAll(f, a);
      var second := FeedAll(first.0, b);
      FeedAll(f, a + b) == (second.0, first.1 + second.1)
  {
    if b == [] {
      assert a + b == a && FeedAll(f, a).1 + [] == FeedAll(f, a).1;
    } else {
      var front, last := b[..|b| - 1], b[|b| - 1];
      FeedConcat(f, a, front);
      assert b == front + [last];
      FeedConcatOne(f, a, front, last);
    }
  }

  lemma FeedConcatOne(f: Framer, a: seq<byte>, front: seq<byte>, last: byte)
    requires
      var first := FeedAll(f, a);
      var second := FeedAll(first.0, front);
      FeedAll(f, a + front) == (second.0, first.1 + second.1)
    ensures
      var first := FeedAll(f, a);
      var second := FeedAll(first.0, front + [last]);
      FeedAll(f, a + (front + [last])) == (second.0, first.1 + second.1)
  {
    var (f1, x) := FeedAll(f, a);
    var (f2, y) := FeedAll(f1, front);
    FeedOne(f, a + front, last);
    FeedOne(f1, front, last);
    assert a + (front + [last]) == a + front + [last];
    Regroup(x, y, Feed(f2, last).1);
  }

  lemma {:induction false} HandleConcat(handle: Handler, t: Turn, a: seq<seq<byte>>, b: seq<seq<byte>>)
    ensures
      var first := HandleAll(handle, t, a);
      var second := HandleAll(handle, first.0, b);
      HandleAll(handle, t, a + b) == (second.0, first.1 + second.1)
  {
    if b == [] {
      assert a + b == a && HandleAll(handle, t, a).1 + [] == HandleAll(handle, t, a).1;
    } else {
      var front, last := b[..|b| - 1], b[|b| - 1];
      HandleConcat(handle, t, a, front);
      HandleOne(handle, t, a + front, last);
      assert a + b == a + front + [last];
      var (t1, x) := HandleAll(handle, t, a);
      var (t2, y) := HandleAll(handle, t1, front);
      Regroup(x, y, handle(t2, last).1);
    }
  }

  lemma FlattenOne(chunks: seq<seq<byte>>, chunk: seq<byte>)
    ensures Flatten(chunks + [chunk]) == Flatten(chunks) + chunk
  {
    assert (chunks + [chunk])[..|chunks|] == chunks;
  }

  // ----- what the framing promises -----

  /** What a framer owes the content it has been fed: its line in hand, and the lines handed over since `before`. */
  ghost predicate Owes(f: Framer, lines: seq<seq<byte>>, before: seq<byte>, content: seq<byte>) {
    Holds(f, content) && Lines(content) == Lines(before) + lines
  }

  lemma OwesOneMore(f: Framer, lines: seq<seq<byte>>, before: seq<byte>, content: seq<byte>, b: byte)
    requires Owes(f, lines, before, content)
    ensures Owes(Feed(f, b).0, lines + Feed(f, b).1, before, content + [b])
  {
    FeedHolds(f, content, b);
    Regroup(Lines(before), lines, Feed(f, b).1);
  }

  lemma OwesNothingYet(f: Framer, content: seq<byte>)
    requires Holds(f, content)
    ensures Owes(f, [], content, content)
  {
    assert Lines(content) + [] == Lines(content);
  }

  lemma {:induction false} FeedAllHolds(f: Framer, content: seq<byte>, bytes: seq<byte>)
    requires Holds(f, content)
    ensures Owes(FeedAll(f, bytes).0, FeedAll(f, bytes).1, content, content + bytes)
  {
    if bytes == [] {
      assert content + bytes == content;
      OwesNothingYet(f, content);
    } else {
      var front, b := bytes[..|bytes| - 1], bytes[|bytes| - 1];
      FeedAllHolds(f, content, front);
      var (past, lines) := FeedAll(f, front);
      FeedOne(f, front, b);
      OwesOneMore(past, lines, content, content + front, b);
      assert bytes == front + [b] && content + bytes == content + front + [b];
    }
  }

  function BytesRead(cursor: nat, source: Source): seq<byte> {
    if Readable(cursor, source) then Flatten(source.chunks) else []
  }

  lemma AdvanceHolds(p: Place, source: Source, content: seq<byte>)
    requires Holds(p.framer, content) && !CutShort(p.cursor, source)
    ensures
      var (after, lines) := Advance(p, source);
      var bytes := BytesRead(p.cursor, source);
      && after.cursor == p.cursor + |bytes|
      && Owes(after.framer, lines, content, content + bytes)
  {
    if Readable(p.cursor, source) {
      FeedAllHolds(p.framer, content, Flatten(source.chunks));
    } else {
      assert content + [] == content;
      OwesNothingYet(p.framer, content);
    }
  }

  /** The place after a run of scans, and every line handed to the classifier on the way. */
  function AdvanceAll(p: Place, sources: seq<Source>): (Place, seq<seq<byte>>) {
    if sources == [] then (p, [])
    else
      var past := AdvanceAll(p, sources[..|sources| - 1]);
      var last := Advance(past.0, sources[|sources| - 1]);
      (last.0, past.1 + last.1)
  }

  ghost predicate Part(file: seq<byte>, at: nat, bytes: seq<byte>) {
    at + |bytes| <= |file| && file[at..at + |bytes|] == bytes
  }

  /** Each scan of the run read the file where its cursor stood, and found it no shorter than that. */
  ghost predicate ReadsFrom(file: seq<byte>, p: Place, sources: seq<Source>)
    decreases |sources|
  {
    if sources == [] then p.cursor <= |file|
    else
      var front, last := sources[..|sources| - 1], sources[|sources| - 1];
      var cursor := AdvanceAll(p, front).0.cursor;
      ReadsFrom(file, p, front) && !CutShort(cursor, last) && Part(file, cursor, BytesRead(cursor, last))
  }

  lemma PartOfFile(file: seq<byte>, from: nat, at: nat, bytes: seq<byte>)
    requires from <= at && Part(file, at, bytes)
    ensures file[from..at + |bytes|] == file[from..at] + bytes
  {
  }

  /** What a run of scans that began at `start` owes the file. */
  ghost predicate Faithful(file: seq<byte>, start: nat, p: Place, lines: seq<seq<byte>>) {
    && start <= p.cursor <= |file|
    && lines == Lines(file[start..p.cursor])
    && Holds(p.framer, file[start..p.cursor])
  }

  lemma OneMoreScan(file: seq<byte>, start: nat, p: Place, lines: seq<seq<byte>>, source: Source)
    requires Faithful(file, start, p, lines)
    requires !CutShort(p.cursor, source) && Part(file, p.cursor, BytesRead(p.cursor, source))
    ensures Faithful(file, start, Advance(p, source).0, lines + Advance(p, source).1)
    ensures Advance(p, source).0.cursor == p.cursor + |BytesRead(p.cursor, source)|
  {
    var (after, more) := Advance(p, source);
    AdvanceHolds(p, source, file[start..p.cursor]);
    FaithfulAfter(file, start, p, lines, after, more, BytesRead(p.cursor, source));
  }

  lemma FaithfulAfter(file: seq<byte>, start: nat, p: Place, lines: seq<seq<byte>>, after: Place, more: seq<seq<byte>>, bytes: seq<byte>)
    requires Faithful(file, start, p, lines) && Part(file, p.cursor, bytes)
    requires after.cursor == p.cursor + |bytes|
    requires Owes(after.framer, more, file[start..p.cursor], file[start..p.cursor] + bytes)
    ensures Faithful(file, start, after, lines + more)
  {
    PartOfFile(file, start, p.cursor, bytes);
    StillFaithful(file, start, after, lines, more, file[start..p.cursor], file[start..p.cursor] + bytes);
  }

  lemma StillFaithful(file: seq<byte>, start: nat, p: Place, lines: seq<seq<byte>>, more: seq<seq<byte>>,
                      before: seq<byte>, content: seq<byte>)
    requires lines == Lines(before) && Owes(p.framer, more, before, content)
    requires start <= p.cursor <= |file| && file[start..p.cursor] == content
    ensures Faithful(file, start, p, lines + more)
  {
  }

  /** How many bytes a run of scans reads. */
  function TotalRead(p: Place, sources: seq<Source>): nat {
    if sources == [] then 0
    else
      var front, last := sources[..|sources| - 1], sources[|sources| - 1];
      TotalRead(p, front) + |BytesRead(AdvanceAll(p, front).0.cursor, last)|
  }

  /**
   For every append-only file and every way it came in scans and reads, with
   failed opens and reads that broke off anywhere: the cursor is the start plus
   the bytes read, the lines handed to the classifier are exactly the
   newline-ended lines of those bytes, and the unfinished line kept is bounded.
   */
  lemma {:induction false} EverySplitHandsTheSameLines(file: seq<byte>, p: Place, sources: seq<Source>)
    requires p.framer == FRESH_LINE && ReadsFrom(file, p, sources)
    ensures Faithful(file, p.cursor, AdvanceAll(p, sources).0, AdvanceAll(p, sources).1)
    ensures AdvanceAll(p, sources).0.cursor == p.cursor + TotalRead(p, sources)
    ensures |AdvanceAll(p, sources).0.framer.partial| <= MAX_PARTIAL_LINE_BYTES
  {
    if sources == [] {
      NoLines([]);
      assert file[p.cursor..p.cursor] == [];
    } else {
      var front, last := sources[..|sources| - 1], sources[|sources| - 1];
      EverySplitHandsTheSameLines(file, p, front);
      var past := AdvanceAll(p, front);
      OneMoreScan(file, p.cursor, past.0, past.1, last);
    }
  }

  // ----- what the flush promises -----

  lemma ApplyKeepsProvider(rules: Rules, t: Turn, s: Signal)
    ensures Apply(rules, t, s).turn.provider == t.provider
  {
    ApplyUnfolds(rules, t, s);
    FlushIsOneNotification(rules, t);
    if s.AssistantText? {
      FlushIsOneNotification(rules, t.(body := rules.normalise(s.text)));
    }
  }

  lemma {:induction false} HandlingKeepsProvider(rules: Rules, classify: Classifier, t: Turn, lines: seq<seq<byte>>)
    ensures HandleAll(Handling(rules, classify), t, lines).0.provider == t.provider
  {
    if lines != [] {
      var line := lines[|lines| - 1];
      HandlingKeepsProvider(rules, classify, t, lines[..|lines| - 1]);
      if classify(line).Some? {
        ApplyKeepsProvider(rules, HandleAll(Handling(rules, classify), t, lines[..|lines| - 1]).0, classify(line).value);
      }
    }
  }

  /**
   After a scan that succeeds, an OpenCode idle is still pending exactly when
   the scan had nothing to read and the idle was pending before: that path
   returns before the flush.
   */
  lemma SuccessLeavesAnIdleOnlyUnread(rules: Rules, classify: Classifier, m: Machine, source: Source)
    requires m.turn.provider == OpenCode
    ensures
      var scan := ScanOnce(rules, classify, m, source);
      && scan.after.turn.provider == OpenCode
      && (scan.ok ==> (scan.after.turn.pending.Some? <==> source.length == Some(m.place.cursor) && m.turn.pending.Some?))
  {
    var lines := Advance(m.place, source).1;
    HandlingKeepsProvider(rules, classify, m.turn, lines);
    FlushIsOneNotification(rules, HandleAll(Handling(rules, classify), m.turn, lines).0);
  }

  function ScanAll(rules: Rules, classify: Classifier, m: Machine, sources: seq<Source>): Machine {
    if sources == [] then m
    else ScanOnce(rules, classify, ScanAll(rules, classify, m, sources[..|sources| - 1]), sources[|sources| - 1]).after
  }

  /** The turn machine does not move the cursor: a run's places are those of the reading alone. */
  lemma {:induction false} ScanAllAdvances(rules: Rules, classify: Classifier, m: Machine, sources: seq<Source>)
    ensures ScanAll(rules, classify, m, sources).place == AdvanceAll(m.place, sources).0
  {
    if sources != [] {
      ScanAllAdvances(rules, classify, m, sources[..|sources| - 1]);
    }
  }

  lemma OneMoreSuccess(rules: Rules, classify: Classifier, m: Machine, source: Source)
    requires m.turn.provider == OpenCode && m.turn.pending.None? && Succeeds(m.place, source)
    ensures
      var after := ScanOnce(rules, classify, m, source).after;
      after.turn.provider == OpenCode && after.turn.pending.None?
  {
    SuccessLeavesAnIdleOnlyUnread(rules, classify, m, source);
  }

  ghost predicate AllSucceed(p: Place, sources: seq<Source>) {
    forall k | 0 <= k < |sources| :: Succeeds(AdvanceAll(p, sources[..k]).0, sources[k])
  }

  lemma FrontSucceeds(p: Place, sources: seq<Source>)
    requires sources != [] && AllSucceed(p, sources)
    ensures
      var front, last := sources[..|sources| - 1], sources[|sources| - 1];
      AllSucceed(p, front) && Succeeds(AdvanceAll(p, front).0, last)
  {
    var front := sources[..|sources| - 1];
    forall k | 0 <= k < |front| ensures Succeeds(AdvanceAll(p, front[..k]).0, front[k]) {
      assert front[..k] == sources[..k] && front[k] == sources[k];
    }
  }

  /** A run whose scans all succeed never leaves an idle pending. */
  lemma {:induction false} SuccessfulRunsLeaveNoIdle(rules: Rules, classify: Classifier, m: Machine, sources: seq<Source>)
    requires m.turn.provider == OpenCode && m.turn.pending.None?
    requires AllSucceed(m.place, sources)
    ensures
      var after := ScanAll(rules, classify, m, sources);
      after.turn.provider == OpenCode && after.turn.pending.None?
  {
    if sources != [] {
      var front, last := sources[..|sources| - 1], sources[|sources| - 1];
      FrontSucceeds(m.place, sources);
      SuccessfulRunsLeaveNoIdle(rules, classify, m, front);
      ScanAllAdvances(rules, classify, m, front);
      OneMoreSuccess(rules, classify, ScanAll(rules, classify, m, front), last);
    }
  }

  /** A line as it stands in the file: not empty, not too long, and ending where its text does. */
  predicate WholeLine(line: seq<byte>) {
    0 < |line| <= MAX_PARTIAL_LINE_BYTES && NEWLINE !in line && line[|line| - 1] != RETURN
  }

  lemma {:induction false} PartOfLine(line: seq<byte>, k: nat)
    requires WholeLine(line) && k <= |line|
    ensures FeedAll(FRESH_LINE, line[..k]) == (Framer(line[..k], false), [])
  {
    var none: seq<seq<byte>> := [];
    assert none + none == none;
    if k > 0 {
      PartOfLine(line, k - 1);
      assert line[..k] == line[..k - 1] + [line[k - 1]] && line[k - 1] in line;
      FeedOne(FRESH_LINE, line[..k - 1], line[k - 1]);
    }
  }

  lemma LineIsHandedOver(line: seq<byte>)
    requires WholeLine(line)
    ensures FeedAll(FRESH_LINE, line + [NEWLINE]) == (FRESH_LINE, [line])
  {
    var none: seq<seq<byte>> := [];
    PartOfLine(line, |line|);
    assert line[..|line|] == line && none + [line] == [line];
    FeedOne(FRESH_LINE, line, NEWLINE);
    assert StripReturns(line) == line;
  }

  /** A file whose reads returned these pieces and then an error. */
  function BrokenOff(length: nat, chunks: seq<seq<byte>>): Source {
    Source(Some(length), true, chunks, false)
  }

  function AtItsEnd(length: nat): Source {
    Source(Some(length), true, [], true)
  }

  /**
   But a read error can: let a scan read, in any pieces, a line that reports an
   idle and then fail; the next scan, finding nothing new, succeeds and leaves
   the idle where it was.
   */
  lemma IdleSurvivesASuccessfulScan(
    rules: Rules, classify: Classifier, m: Machine, line: seq<byte>, chunks: seq<seq<byte>>, at: nat, session: Option<string>,
    length: nat, broken: Scan)
    requires m.turn.provider == OpenCode && m.place.framer == FRESH_LINE
    requires WholeLine(line) && classify(line) == Some(OpenCodeStatusIdle(at, session))
    requires Flatten(chunks) == line + [NEWLINE] && length == m.place.cursor + |line| + 1
    requires broken == ScanOnce(rules, classify, m, BrokenOff(length, chunks))
    ensures
      var idle := ScanOnce(rules, classify, broken.after, AtItsEnd(length));
      && !broken.ok && broken.lines == [line]
      && idle.ok && idle.after.turn.pending == Some(Pending(at, session))
  {
    BrokenScanLeavesAnIdle(rules, classify, m, line, chunks, at, session, length, broken);
    NothingNew(rules, classify, broken.after, length);
  }

  lemma BrokenScanLeavesAnIdle(
    rules: Rules, classify: Classifier, m: Machine, line: seq<byte>, chunks: seq<seq<byte>>, at: nat, session: Option<string>,
    length: nat, broken: Scan)
    requires m.turn.provider == OpenCode && m.place.framer == FRESH_LINE
    requires WholeLine(line) && classify(line) == Some(OpenCodeStatusIdle(at, session))
    requires Flatten(chunks) == line + [NEWLINE] && length == m.place.cursor + |line| + 1
    requires broken == ScanOnce(rules, classify, m, BrokenOff(length, chunks))
    ensures !broken.ok && broken.lines == [line] && broken.after.place.cursor == length
    ensures broken.after.turn.pending == Some(Pending(at, session))
  {
    BrokenScanHandsOver(rules, classify, m, line, chunks, length);
    OneLineHandled(rules, classify, m.turn, line, at, session);
  }

  lemma BrokenScanHandsOver(rules: Rules, classify: Classifier, m: Machine, line: seq<byte>, chunks: seq<seq<byte>>, length: nat)
    requires m.place.framer == FRESH_LINE && WholeLine(line) && Flatten(chunks) == line + [NEWLINE]
    requires length == m.place.cursor + |line| + 1
    ensures
      var broken := ScanOnce(rules, classify, m, BrokenOff(length, chunks));
      && !broken.ok && broken.lines == [line] && broken.after.place.cursor == length
      && broken.after.turn == HandleAll(Handling(rules, classify), m.turn, [line]).0
  {
    LineIsHandedOver(line);
  }

  lemma OneLineHandled(rules: Rules, classify: Classifier, t: Turn, line: seq<byte>, at: nat, session: Option<string>)
    requires t.provider == OpenCode && classify(line) == Some(OpenCodeStatusIdle(at, session))
    ensures HandleAll(Handling(rules, classify), t, [line]).0.pending == Some(Pending(at, session))
  {
    HandleOne(Handling(rules, classify), t, [], line);
    assert [] + [line] == [line];
    assert Handling(rules, classify)(t, line).0.pending == Some(Pending(at, session));
  }

  lemma NothingNew(rules: Rules, classify: Classifier, m: Machine, length: nat)
    requires m.place.cursor == length
    ensures
      var idle := ScanOnce(rules, classify, m, AtItsEnd(length));
      idle.ok && idle.after == m
  {
  }

  // ----- the registration -----

  class Registration {
    const rules: Rules
    const classify: Classifier
    const provider: Provider
    var cursor: nat
    var partialLine: seq<byte>
    var dropping: bool
    var sessionId: Option<string>
    var turnActive: bool
    var turnId: Option<string>
    var notificationBody: Option<string>
    var pendingIdle: Option<Pending>
    var dedupeKeys: set<string>
    var dedupeOrder: seq<string>
    /** What went to the event sink. */
    var sent: seq<Emission>

    constructor (rules: Rules, classify: Classifier, provider: Provider, cursor: nat)
      ensures View() == Machine(Place(cursor, FRESH_LINE), Turn(provider, None, false, None, None, None, NO_KEYS))
      ensures this.rules == rules && this.classify == classify && sent == []
    {
      this.rules, this.classify, this.provider, this.cursor := rules, classify, provider, cursor;
      partialLine, dropping := [], false;
      sessionId, turnActive, turnId, notificationBody, pendingIdle := None, false, None, None, None;
      dedupeKeys, dedupeOrder, sent := {}, [], [];
    }

    function State(): Turn
      reads this
    {
      Turn(provider, sessionId, turnActive, turnId, notificationBody, pendingIdle, Window(dedupeKeys, dedupeOrder))
    }

    function Line(): Framer
      reads this
    {
      Framer(partialLine, dropping)
    }

    function View(): Machine
      reads this
    {
      Machine(Place(cursor, Line()), State())
    }

    method RememberDedupeKey(key: string) returns (isNew: bool)
      modifies `dedupeKeys, `dedupeOrder
      ensures Window(dedupeKeys, dedupeOrder) == Remember(old(Window(dedupeKeys, dedupeOrder)), key)
      ensures isNew == (key !in old(dedupeKeys))
    {
      if key in dedupeKeys {
        return false;
      }
      if |dedupeOrder| == RECENT_DEDUPE_KEYS {
        var oldest := dedupeOrder[0];
        dedupeOrder := dedupeOrder[1..];
        dedupeKeys := dedupeKeys - {oldest};
      }
      dedupeKeys := dedupeKeys + {key};
      dedupeOrder := dedupeOrder + [key];
      return true;
    }

    method ApplySignal(signal: Signal)
      modifies this
      ensures State() == Apply(rules, old(State()), signal).turn
      ensures sent == old(sent) + Apply(rules, old(State()), signal).sent
      ensures unchanged(`cursor, `partialLine, `dropping)
      decreases if signal.Notification? then 0 else 2
    {
      match signal
      case Session(id) =>
        sessionId := Some(id);
      case AssistantText(text) =>
        var body := rules.normalise(text);
        if body.Some? {
          notificationBody := body;
          FlushPendingOpenCodeIdle();
        }
      case OpenCodeStatusIdle(occurredAt, session) =>
        if session.Some? {
          sessionId := session;
        }
        pendingIdle := Some(Pending(occurredAt, session));
      case TurnStarted(turn, session) =>
        FlushPendingOpenCodeIdle();
        if session.Some? {
          sessionId := session;
        }
        turnActive := true;
        turnId := turn;
        notificationBody := None;
      case TurnEnded =>
        turnActive := false;
        turnId := None;
        notificationBody := None;
        pendingIdle := None;
      case Notification(_, _, _, _, _, _, _, _, _) =>
        SendNotification(signal);
      case Irrelevant =>
    }

    /** The end of the notification arm. */
    method Send(signal: Signal, body: Option<string>)
      requires signal.Notification?
      modifies `dedupeKeys, `dedupeOrder, `sent
      ensures State() == Deliver(old(State()), signal, body, 0).turn
      ensures sent == old(sent) + Deliver(old(State()), signal, body, 0).sent
    {
      if signal.dedupeKey.Some? {
        var isNew := RememberDedupeKey(signal.dedupeKey.value);
        if !isNew {
          assert sent + [] == sent;
          return;
        }
      }
      sent := sent + [Emission(sessionId, signal.reason, body, signal.occurredAt, signal.dedupeKey)];
    }

    method EndTurn() returns (buffered: Option<string>)
      modifies `turnActive, `turnId, `pendingIdle, `notificationBody
      ensures State() == AfterEnding(old(State()), true)
      ensures buffered == old(notificationBody)
    {
      turnActive := false;
      turnId := None;
      pendingIdle := None;
      buffered := notificationBody;
      notificationBody := None;
    }

    /** The notification arm. */
    method SendNotification(signal: Signal)
      requires signal.Notification?
      modifies this
      ensures State() == Notify(rules, old(State()), signal).turn
      ensures sent == old(sent) + Notify(rules, old(State()), signal).sent
      ensures unchanged(`cursor, `partialLine, `dropping)
      decreases 0, 0
    {
      ghost var before := State();
      if signal.sessionId.Some? {
        sessionId := signal.sessionId;
      }
      if (turnId.Some? && signal.turnId.Some? && turnId != signal.turnId) || (signal.requiresTurn && !turnActive) {
        assert sent + [] == sent && !Passes(before, signal);
        return;
      }
      assert Passes(before, signal);
      var buffered: Option<string> := None;
      if signal.endsTurn {
        buffered := EndTurn();
      }
      var transcript := if signal.reason == TurnComplete || signal.reason == AgentError then signal.transcript else None;
      var own := if signal.body.Some? then rules.normalise(signal.body.value) else None;
      var body := Or(own, Or(transcript, Or(buffered, ActionBody(signal.reason))));
      assert body == BodyOf(rules, before, signal);
      Send(signal, body);
    }

    method FlushPendingOpenCodeIdle()
      modifies this
      ensures State() == Flush(rules, old(State())).turn
      ensures sent == old(sent) + Flush(rules, old(State())).sent
      ensures unchanged(`cursor, `partialLine, `dropping)
      decreases 1
    {
      FlushIsOneNotification(rules, State());
      if provider != OpenCode {
        return;
      }
      if pendingIdle.Some? {
        var pending := pendingIdle.value;
        pendingIdle := None;
        var completion := OpenCodeCompletion(rules, pending.occurredAt, pending.sessionId);
        ApplyUnfolds(rules, State(), completion);
        ApplySignal(completion);
      }
    }

    /** Ends the line in hand; `line` is what the classifier was given, if anything. */
    method FinishLine() returns (line: Option<seq<byte>>)
      modifies this
      ensures Line() == Feed(old(Line()), NEWLINE).0
      ensures Feed(old(Line()), NEWLINE).1 == if line.Some? then [line.value] else []
      ensures line.None? ==> State() == old(State()) && sent == old(sent)
      ensures line.Some? ==>
        var e := Handling(rules, classify)(old(State()), line.value);
        State() == e.0 && sent == old(sent) + e.1
      ensures unchanged(`cursor)
    {
      line := None;
      if dropping {
        dropping := false;
        return;
      }
      while partialLine != [] && partialLine[|partialLine| - 1] == RETURN
        invariant StripReturns(partialLine) == StripReturns(old(partialLine))
        invariant State() == old(State()) && sent == old(sent) && cursor == old(cursor) && !dropping
        decreases |partialLine|
      {
        partialLine := partialLine[..|partialLine| - 1];
      }
      if partialLine == [] {
        return;
      }
      line := Some(partialLine);
      partialLine := [];
      var signal := classify(line.value);
      if signal.Some? {
        ApplySignal(signal.value);
      }
    }

    /** The loop over one read's bytes. */
    method Consume(bytes: seq<byte>) returns (lines: seq<seq<byte>>)
      modifies this
      ensures (Line(), lines) == FeedAll(old(Line()), bytes)
      ensures
        var e := HandleAll(Handling(rules, classify), old(State()), lines);
        State() == e.0 && sent == old(sent) + e.1
      ensures unchanged(`cursor)
    {
      lines := [];
      ghost var line0, turn0, handle := Line(), State(), Handling(rules, classify);
      for i := 0 to |bytes|
        invariant Line() == FeedAll(line0, bytes[..i]).0 && lines == FeedAll(line0, bytes[..i]).1
        invariant State() == HandleAll(handle, turn0, lines).0
        invariant sent == old(sent) + HandleAll(handle, turn0, lines).1
        invariant cursor == old(cursor)
      {
        FeedOne(line0, bytes[..i], bytes[i]);
        assert bytes[..i + 1] == bytes[..i] + [bytes[i]];
        if bytes[i] == NEWLINE {
          var line := FinishLine();
          assert lines + [] == lines;
          if line.Some? {
            HandleOne(handle, turn0, lines, line.value);
            ghost var past := HandleAll(handle, turn0, lines);
            Regroup(old(sent), past.1, handle(past.0, line.value).1);
            lines := lines + [line.value];
          }
        } else if dropping {
          assert lines + [] == lines;
        } else if |partialLine| < MAX_PARTIAL_LINE_BYTES {
          partialLine := partialLine + [bytes[i]];
        } else {
          partialLine := [];
          dropping := true;
        }
      }
      assert bytes[..|bytes|] == bytes;
    }

    /** The loop over the reads. */
    method ReadAll(chunks: seq<seq<byte>>) returns (lines: seq<seq<byte>>)
      modifies this
      ensures cursor == old(cursor) + |Flatten(chunks)|
      ensures (Line(), lines) == FeedAll(old(Line()), Flatten(chunks))
      ensures
        var e := HandleAll(Handling(rules, classify), old(State()), lines);
        State() == e.0 && sent == old(sent) + e.1
    {
      lines := [];
      ghost var line0, turn0, handle := Line(), State(), Handling(rules, classify);
      for i := 0 to |chunks|
        invariant cursor == old(cursor) + |Flatten(chunks[..i])|
        invariant Line() == FeedAll(line0, Flatten(chunks[..i])).0 && lines == FeedAll(line0, Flatten(chunks[..i])).1
        invariant State() == HandleAll(handle, turn0, lines).0
        invariant sent == old(sent) + HandleAll(handle, turn0, lines).1
      {
        assert chunks[..i + 1] == chunks[..i] + [chunks[i]];
        FlattenOne(chunks[..i], chunks[i]);
        FeedConcat(line0, Flatten(chunks[..i]), chunks[i]);
        cursor := cursor + |chunks[i]|;
        ghost var line1, turn1 := Line(), State();
        var more := Consume(chunks[i]);
        assert more == FeedAll(line1, chunks[i]).1;
        HandleConcat(handle, turn0, lines, more);
        Regroup(old(sent), HandleAll(handle, turn0, lines).1, HandleAll(handle, turn1, more).1);
        lines := lines + more;
      }
      assert chunks[..|chunks|] == chunks;
    }

    /** The file is shorter than what was read of it: go on from its end, with no line and no turn in hand. */
    method Restart(length: nat)
      modifies this
      ensures View() == Machine(Place(length, FRESH_LINE), Reset(old(State())))
      ensures unchanged(`sent)
    {
      cursor := length;
      partialLine := [];
      dropping := false;
      turnActive := false;
      turnId := None;
      pendingIdle := None;
    }

    /** The read loop and the flush at its end. */
    method ReadOn(source: Source) returns (lines: seq<seq<byte>>)
      requires Readable(cursor, source)
      modifies this
      ensures
        var scan := ScanOnce(rules, classify, old(View()), source);
        View() == scan.after && lines == scan.lines && sent == old(sent) + scan.sent
    {
      lines := ReadAll(source.chunks);
      if source.complete {
        FlushPendingOpenCodeIdle();
        ghost var handled := HandleAll(Handling(rules, classify), old(State()), lines);
        Regroup(old(sent), handled.1, Flush(rules, handled.0).sent);
      }
    }

    method ScanSource(source: Source) returns (ok: bool, lines: seq<seq<byte>>)
      requires forall chunk | chunk in source.chunks :: 0 < |chunk| <= READ_BUFFER_BYTES
      modifies this
      ensures
        var scan := ScanOnce(rules, classify, old(View()), source);
        && View() == scan.after && lines == scan.lines && ok == scan.ok
        && sent == old(sent) + scan.sent
    {
      assert sent + [] == sent;
      if source.length.None? {
        return false, [];
      }
      if source.length.value < cursor {
        Restart(source.length.value);
        return true, [];
      }
      if source.length.value == cursor {
        return true, [];
      }
      if !source.readable {
        return false, [];
      }
      lines := ReadOn(source);
      return source.complete, lines;
    }
  }
}
