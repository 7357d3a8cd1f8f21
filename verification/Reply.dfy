/** Picking the protocol block out of an agent's reply. */
module Reply {
  import opened Wrappers
  import opened Text
  import opened Substrings

  // ----- lines -----

  function ChunkLength(text: string): (n: nat)
    requires text != ""
    ensures 0 < n <= |text|
  {
    if NewlineAt(text) == |text| then |text| else NewlineAt(text) + 1
  }

  /** `split_inclusive('\n')`: the lines, each with the newline that ends it. */
  function Chunks(text: string): seq<string>
    decreases |text|
  {
    if text == "" then [] else [text[..ChunkLength(text)]] + Chunks(text[ChunkLength(text)..])
  }

  /** Where the `i`-th chunk starts. */
  function Start(chunks: seq<string>, i: nat): nat
    requires i <= |chunks|
  {
    if i == 0 then 0 else |chunks[0]| + Start(chunks[1..], i - 1)
  }

  lemma {:induction false} StartStep(chunks: seq<string>, i: nat)
    requires i < |chunks|
    ensures Start(chunks, i + 1) == Start(chunks, i) + |chunks[i]|
  {
    if i > 0 {
      StartStep(chunks[1..], i - 1);
    }
  }

  lemma {:induction false} StartsIncrease(chunks: seq<string>, i: nat, j: nat)
    requires i <= j <= |chunks|
    ensures Start(chunks, i) <= Start(chunks, j)
    decreases j - i
  {
    if i < j {
      StartStep(chunks, j - 1);
      StartsIncrease(chunks, i, j - 1);
    }
  }

  /** Each chunk is the text's own part at its start. */
  ghost predicate Cut(text: string, chunks: seq<string>) {
    forall i | 0 <= i < |chunks| :: OccursAt(text, chunks[i], Start(chunks, i))
  }

  lemma PartShift(text: string, n: nat, part: string, at: nat)
    requires n <= |text| && OccursAt(text[n..], part, at)
    ensures OccursAt(text, part, n + at)
  {
    assert text[n + at..n + at + |part|] == text[n..][at..at + |part|];
  }

  lemma CutCons(text: string, n: nat, rest: seq<string>)
    requires n <= |text| && Cut(text[n..], rest)
    ensures Cut(text, [text[..n]] + rest)
  {
    var chunks := [text[..n]] + rest;
    assert chunks[1..] == rest;
    forall i | 0 <= i < |chunks| ensures OccursAt(text, chunks[i], Start(chunks, i)) {
      if i > 0 {
        assert OccursAt(text[n..], rest[i - 1], Start(rest, i - 1));
        PartShift(text, n, rest[i - 1], Start(rest, i - 1));
      }
    }
  }

  lemma {:induction false} ChunksAreTheText(text: string)
    ensures Cut(text, Chunks(text))
    decreases |text|
  {
    if text != "" {
      ChunksAreTheText(text[ChunkLength(text)..]);
      CutCons(text, ChunkLength(text), Chunks(text[ChunkLength(text)..]));
    }
  }

  function Line(chunk: string): string {
    if chunk != "" && (chunk[|chunk| - 1] == '\r' || chunk[|chunk| - 1] == '\n') then Line(chunk[..|chunk| - 1]) else chunk
  }

  lemma {:induction false} LineStartsChunk(chunk: string)
    ensures Line(chunk) <= chunk
  {
    if chunk != "" && (chunk[|chunk| - 1] == '\r' || chunk[|chunk| - 1] == '\n') {
      LineStartsChunk(chunk[..|chunk| - 1]);
    }
  }

  // ----- markers -----

  /** A marker alone on its line, with at most white space and one quote sign around it. */
  predicate Standalone(line: string, marker: string) {
    var trimmed := Trim(line);
    trimmed == marker || (trimmed != "" && trimmed[0] == '>' && Trim(trimmed[1..]) == marker)
  }

  lemma {:induction false} TrimStartIsSuffix(s: string)
    ensures |TrimStart(s)| <= |s| && TrimStart(s) == s[|s| - |TrimStart(s)|..]
  {
    if s != "" && IsWhite(s[0]) {
      TrimStartIsSuffix(s[1..]);
    }
  }

  lemma TrimmedOccurs(s: string) returns (at: nat)
    ensures OccursAt(s, Trim(s), at)
  {
    TrimStartIsSuffix(s);
    TrimEndFacts(TrimStart(s));
    at := |s| - |TrimStart(s)|;
    assert s[at..at + |Trim(s)|] == TrimStart(s)[..|Trim(s)|];
  }

  lemma StandaloneOccurs(line: string, marker: string)
    requires Standalone(line, marker)
    ensures Contains(line, marker)
  {
    var trimmed := Trim(line);
    var at := TrimmedOccurs(line);
    if trimmed != marker {
      var inner := TrimmedOccurs(trimmed[1..]);
      OccursShift(trimmed, marker, inner);
      OccursWithin(line, trimmed, at, marker, inner + 1);
    }
  }

  lemma OccursWithin(line: string, part: string, at: nat, marker: string, m: nat)
    requires OccursAt(line, part, at) && OccursAt(part, marker, m)
    ensures OccursAt(line, marker, at + m)
  {
    var found, inner := line[at..at + |part|], part[m..m + |marker|];
    assert forall k | 0 <= k < |marker| :: inner[k] == part[m + k] == found[m + k] == line[at + m + k];
    assert line[at + m..at + m + |marker|] == inner;
  }

  function StandaloneMarkerOffset(line: string, marker: string): (r: Option<nat>)
    ensures r.Some? <==> Standalone(line, marker)
    ensures r.Some? ==> FirstAt(line, marker, 0, r.value)
  {
    if Standalone(line, marker) then
      StandaloneOccurs(line, marker);
      Find(line, marker)
    else None
  }

  // ----- marker lines -----

  datatype Mark = Plain | Opening(at: nat) | Closing(at: nat)

  /** A chunk's place in the text, and the marker it is, if it is one. */
  datatype Row = Row(start: nat, length: nat, mark: Mark)

  /** A line is tried as an opening one first. */
  function MarkOf(chunk: string, open: string, close: string): Mark {
    var opening, closing := StandaloneMarkerOffset(Line(chunk), open), StandaloneMarkerOffset(Line(chunk), close);
    if opening.Some? then Opening(opening.value) else if closing.Some? then Closing(closing.value) else Plain
  }

  type Marker = string -> Mark

  function MarkerFor(open: string, close: string): Marker {
    (chunk: string) => MarkOf(chunk, open, close)
  }

  function Rows(chunks: seq<string>, marker: Marker): (rows: seq<Row>)
    ensures |rows| == |chunks|
    ensures forall k | 0 <= k < |rows| :: rows[k] == Row(Start(chunks, k), |chunks[k]|, marker(chunks[k]))
  {
    seq(|chunks|, k requires 0 <= k < |chunks| => Row(Start(chunks, k), |chunks[k]|, marker(chunks[k])))
  }

  /** A marker that is found is there. */
  ghost predicate Finds(marker: Marker, chunk: string, open: string, close: string) {
    var mark := marker(chunk);
    && (mark.Opening? ==> OccursAt(chunk, open, mark.at))
    && (mark.Closing? ==> OccursAt(chunk, close, mark.at))
  }

  ghost predicate FindsAll(marker: Marker, open: string, close: string) {
    forall chunk :: Finds(marker, chunk, open, close)
  }

  lemma OccursInLine(chunk: string, marker: string, at: nat)
    requires OccursAt(Line(chunk), marker, at)
    ensures OccursAt(chunk, marker, at)
  {
    LineStartsChunk(chunk);
    assert Line(chunk)[at..at + |marker|] == chunk[at..at + |marker|];
  }

  lemma MarkersAreFound(open: string, close: string)
    ensures FindsAll(MarkerFor(open, close), open, close)
  {
    forall chunk ensures Finds(MarkerFor(open, close), chunk, open, close) {
      var mark := MarkOf(chunk, open, close);
      if mark.Opening? {
        OccursInLine(chunk, open, mark.at);
      } else if mark.Closing? {
        OccursInLine(chunk, close, mark.at);
      }
    }
  }

  /** A marker row's marker is in the text, inside the row. */
  ghost predicate RowFits(text: string, row: Row, open: string, close: string) {
    && row.start + row.length <= |text|
    && (row.mark.Opening? ==> row.mark.at + |open| <= row.length && OccursAt(text, open, row.start + row.mark.at))
    && (row.mark.Closing? ==> row.mark.at + |close| <= row.length && OccursAt(text, close, row.start + row.mark.at))
  }

  lemma RowsFit(text: string, chunks: seq<string>, marker: Marker, open: string, close: string, k: nat)
    requires k < |chunks| && Cut(text, chunks) && FindsAll(marker, open, close)
    ensures RowFits(text, Rows(chunks, marker)[k], open, close)
  {
    var row := Rows(chunks, marker)[k];
    assert OccursAt(text, chunks[k], row.start) && Finds(marker, chunks[k], open, close);
    if row.mark.Opening? {
      OccursWithin(text, chunks[k], row.start, open, row.mark.at);
    } else if row.mark.Closing? {
      OccursWithin(text, chunks[k], row.start, close, row.mark.at);
    }
  }

  lemma RowsInOrder(chunks: seq<string>, marker: Marker, i: nat, j: nat)
    requires i < j < |chunks|
    ensures Rows(chunks, marker)[i].start + Rows(chunks, marker)[i].length <= Rows(chunks, marker)[j].start
  {
    StartStep(chunks, i);
    StartsIncrease(chunks, i + 1, j);
  }

  // ----- what is to be selected -----

  datatype Block = Block(raw: string, body: string, complete: bool)

  predicate IsOpen(rows: seq<Row>, i: int) {
    0 <= i < |rows| && rows[i].mark.Opening?
  }

  predicate IsClose(rows: seq<Row>, i: int) {
    0 <= i < |rows| && rows[i].mark.Closing?
  }

  ghost predicate Quiet(rows: seq<Row>, i: int, j: int) {
    forall k | i < k < j :: !IsOpen(rows, k) && !IsClose(rows, k)
  }

  /** An opening and a closing line with no marker line between them. */
  ghost predicate Pairs(rows: seq<Row>, i: int, j: int) {
    i < j && IsOpen(rows, i) && IsClose(rows, j) && Quiet(rows, i, j)
  }

  ghost predicate Matched(rows: seq<Row>, j: int) {
    exists i :: Pairs(rows, i, j)
  }

  ghost predicate LastPair(rows: seq<Row>, i: int, j: int) {
    Pairs(rows, i, j) && forall k | j < k :: !Matched(rows, k)
  }

  ghost predicate LastOpen(rows: seq<Row>, i: int) {
    IsOpen(rows, i) && forall k | i < k :: !IsOpen(rows, k)
  }

  function Slice(text: string, from: nat, to: nat): string {
    if from <= to <= |text| then text[from..to] else ""
  }

  /** A slice that is in bounds. */
  function Part(text: string, from: nat, to: nat): (part: string)
    requires from <= to <= |text|
    ensures part == Slice(text, from, to)
  {
    text[from..to]
  }

  function PairBlock(text: string, first: Row, last: Row, close: string): Block
    requires first.mark.Opening? && last.mark.Closing?
  {
    Block(Slice(text, first.start + first.mark.at, last.start + last.mark.at + |close|),
          Slice(text, first.start + first.length, last.start), true)
  }

  function TailBlock(text: string, row: Row): Block
    requires row.mark.Opening?
  {
    Block(Slice(text, row.start + row.mark.at, |text|), Slice(text, row.start + row.length, |text|), false)
  }

  /** The last pair if there is any, else the tail from the last opening line, else nothing. */
  ghost predicate Selects(text: string, rows: seq<Row>, close: string, r: Option<Block>) {
    if exists j :: Matched(rows, j) then
      exists i, j :: LastPair(rows, i, j) && r == Some(PairBlock(text, rows[i], rows[j], close))
    else if exists i :: IsOpen(rows, i) then
      exists i :: LastOpen(rows, i) && r == Some(TailBlock(text, rows[i]))
    else r == None
  }

  lemma PairIsUnique(rows: seq<Row>, i: int, k: int, j: int)
    requires Pairs(rows, i, j) && Pairs(rows, k, j)
    ensures i == k
  {
    assert i < k ==> !IsOpen(rows, k);
    assert k < i ==> !IsOpen(rows, i);
  }

  lemma LastPairIsUnique(rows: seq<Row>, i: int, j: int, k: int, l: int)
    requires LastPair(rows, i, j) && LastPair(rows, k, l)
    ensures i == k && j == l
  {
    assert Matched(rows, j) && Matched(rows, l);
    PairIsUnique(rows, i, k, j);
  }

  /** There is one right answer. */
  lemma SelectionIsUnique(text: string, rows: seq<Row>, close: string, r: Option<Block>, s: Option<Block>)
    requires Selects(text, rows, close, r) && Selects(text, rows, close, s)
    ensures r == s
  {
    if exists j :: Matched(rows, j) {
      var i, j :| LastPair(rows, i, j) && r == Some(PairBlock(text, rows[i], rows[j], close));
      var k, l :| LastPair(rows, k, l) && s == Some(PairBlock(text, rows[k], rows[l], close));
      LastPairIsUnique(rows, i, j, k, l);
    }
  }

  lemma PairBounds(text: string, chunks: seq<string>, marker: Marker, open: string, close: string, i: nat, j: nat)
    requires Cut(text, chunks) && FindsAll(marker, open, close) && Pairs(Rows(chunks, marker), i, j)
    ensures
      var rows := Rows(chunks, marker);
      var first, last := rows[i], rows[j];
      && first.start + first.mark.at + |open| <= first.start + first.length <= last.start
      && last.start <= last.start + last.mark.at + |close| <= |text|
      && OccursAt(text, open, first.start + first.mark.at) && OccursAt(text, close, last.start + last.mark.at)
  {
    RowsFit(text, chunks, marker, open, close, i);
    RowsFit(text, chunks, marker, open, close, j);
    RowsInOrder(chunks, marker, i, j);
  }

  lemma SliceEnds(text: string, from: nat, to: nat, open: string, close: string)
    requires from + |open| <= to - |close| && to <= |text|
    requires OccursAt(text, open, from) && OccursAt(text, close, to - |close|)
    ensures
      var s := Slice(text, from, to);
      open <= s && |close| <= |s| && s[|s| - |close|..] == close
  {
    assert text[from..to][..|open|] == text[from..from + |open|];
    assert text[from..to][to - from - |close|..] == text[to - |close|..to];
  }

  ghost predicate Delimited(block: Block, open: string, close: string) {
    open <= block.raw && (block.complete ==> |close| <= |block.raw| && block.raw[|block.raw| - |close|..] == close)
  }

  lemma PairIsDelimited(text: string, chunks: seq<string>, marker: Marker, open: string, close: string, i: nat, j: nat)
    requires Cut(text, chunks) && FindsAll(marker, open, close) && Pairs(Rows(chunks, marker), i, j)
    ensures Delimited(PairBlock(text, Rows(chunks, marker)[i], Rows(chunks, marker)[j], close), open, close)
  {
    var first, last := Rows(chunks, marker)[i], Rows(chunks, marker)[j];
    PairBounds(text, chunks, marker, open, close, i, j);
    SliceEnds(text, first.start + first.mark.at, last.start + last.mark.at + |close|, open, close);
  }

  lemma TailIsDelimited(text: string, chunks: seq<string>, marker: Marker, open: string, close: string, i: nat)
    requires Cut(text, chunks) && FindsAll(marker, open, close) && IsOpen(Rows(chunks, marker), i)
    ensures Delimited(TailBlock(text, Rows(chunks, marker)[i]), open, close)
  {
    var row := Rows(chunks, marker)[i];
    RowsFit(text, chunks, marker, open, close, i);
    assert text[row.start + row.mark.at..|text|][..|open|] == text[row.start + row.mark.at..row.start + row.mark.at + |open|];
  }

  /** What is selected begins with the opening marker and, when complete, ends with the closing one. */
  lemma SelectionIsDelimited(text: string, chunks: seq<string>, marker: Marker, open: string, close: string, block: Block)
    requires Cut(text, chunks) && FindsAll(marker, open, close) && Selects(text, Rows(chunks, marker), close, Some(block))
    ensures Delimited(block, open, close)
  {
    var rows := Rows(chunks, marker);
    if exists j :: Matched(rows, j) {
      var i, j :| LastPair(rows, i, j) && Some(block) == Some(PairBlock(text, rows[i], rows[j], close));
      PairIsDelimited(text, chunks, marker, open, close, i, j);
    } else {
      var i :| LastOpen(rows, i) && Some(block) == Some(TailBlock(text, rows[i]));
      TailIsDelimited(text, chunks, marker, open, close, i);
    }
  }

  /**
   A closing line is matched exactly when some opening line comes before it with
   no matched closing line in between: the pairing the code keeps as it goes.
   */
  lemma {:induction false} MatchedExactly(rows: seq<Row>, j: nat)
    ensures Matched(rows, j) <==>
            IsClose(rows, j) && exists i :: i < j && IsOpen(rows, i) && forall k | i < k < j :: !Matched(rows, k)
  {
    if Matched(rows, j) {
      var i :| Pairs(rows, i, j);
      assert forall k | i < k < j :: !IsClose(rows, k);
    }
    if IsClose(rows, j) && exists i :: i < j && IsOpen(rows, i) && forall k | i < k < j :: !Matched(rows, k) {
      var i :| i < j && IsOpen(rows, i) && forall k | i < k < j :: !Matched(rows, k);
      OpenIsMatched(rows, i, j);
    }
  }

  lemma {:induction false} OpenIsMatched(rows: seq<Row>, i: nat, j: nat)
    requires i < j && IsOpen(rows, i) && IsClose(rows, j)
    requires forall k | i < k < j :: !Matched(rows, k)
    ensures Matched(rows, j)
    decreases j - i
  {
    if Quiet(rows, i, j) {
      assert Pairs(rows, i, j);
    } else {
      var k :| i < k < j && (IsOpen(rows, k) || IsClose(rows, k));
      if IsOpen(rows, k) {
        OpenIsMatched(rows, k, j);
      } else {
        OpenIsMatched(rows, i, k);
      }
    }
  }

  // ----- the selection -----

  /** Where the loop stands before row `n`: the opening line in hand, and the last pair so far. */
  ghost predicate Tracks(rows: seq<Row>, n: nat, current: Option<nat>, last: Option<(nat, nat)>)
    requires n <= |rows|
  {
    && (current.Some? ==> current.value < n && IsOpen(rows, current.value) && Quiet(rows, current.value, n))
    && (current.None? ==> forall k | k < n && IsOpen(rows, k) :: !Quiet(rows, k, n))
    && (last.Some? ==> last.value.1 < n && Pairs(rows, last.value.0, last.value.1)
                       && forall k | last.value.1 < k < n :: !Matched(rows, k))
    && (last.None? ==> forall k | k < n :: !Matched(rows, k))
    && (last.None? && current.None? ==> forall k | k < n :: !IsOpen(rows, k))
  }

  lemma TrackOpening(rows: seq<Row>, n: nat, current: Option<nat>, last: Option<(nat, nat)>)
    requires n < |rows| && Tracks(rows, n, current, last) && rows[n].mark.Opening?
    ensures Tracks(rows, n + 1, Some(n), last)
  {
  }

  lemma TrackPair(rows: seq<Row>, n: nat, current: nat, last: Option<(nat, nat)>)
    requires n < |rows| && Tracks(rows, n, Some(current), last) && rows[n].mark.Closing?
    ensures Pairs(rows, current, n) && Tracks(rows, n + 1, None, Some((current, n)))
  {
    assert IsClose(rows, n);
    assert forall k | k < n + 1 && IsOpen(rows, k) :: k != n;
  }

  lemma TrackOther(rows: seq<Row>, n: nat, current: Option<nat>, last: Option<(nat, nat)>)
    requires n < |rows| && Tracks(rows, n, current, last)
    requires rows[n].mark.Plain? || (rows[n].mark.Closing? && current.None?)
    ensures Tracks(rows, n + 1, current, last)
  {
    assert !Matched(rows, n);
    forall k | k < n + 1 && IsOpen(rows, k) && current.None? ensures !Quiet(rows, k, n + 1) {
      var c :| k < c < n && (IsOpen(rows, c) || IsClose(rows, c));
    }
  }

  lemma TracksToTheEnd(text: string, rows: seq<Row>, close: string, current: Option<nat>, last: Option<(nat, nat)>)
    requires Tracks(rows, |rows|, current, last)
    ensures last.Some? ==> Selects(text, rows, close, Some(PairBlock(text, rows[last.value.0], rows[last.value.1], close)))
    ensures last.None? && current.Some? ==> Selects(text, rows, close, Some(TailBlock(text, rows[current.value])))
    ensures last.None? && current.None? ==> Selects(text, rows, close, None)
  {
    if last.Some? {
      assert Matched(rows, last.value.1) && LastPair(rows, last.value.0, last.value.1);
    } else if current.Some? {
      assert forall j :: Matched(rows, j) ==> 0 <= j < |rows|;
      assert LastOpen(rows, current.value);
    }
  }

  /** The opening line in hand after `n` rows, and the last pair. */
  datatype Progress = Progress(current: Option<nat>, last: Option<(nat, nat)>)

  /** Progress names rows of the right kinds. */
  predicate Sound(rows: seq<Row>, p: Progress) {
    && (p.current.Some? ==> p.current.value < |rows| && rows[p.current.value].mark.Opening?)
    && (p.last.Some? ==>
          && p.last.value.0 < |rows| && rows[p.last.value.0].mark.Opening?
          && p.last.value.1 < |rows| && rows[p.last.value.1].mark.Closing?)
  }

  function ProgressAt(rows: seq<Row>, n: nat): (p: Progress)
    requires n <= |rows|
    ensures Sound(rows, p)
  {
    if n == 0 then Progress(None, None) else NextProgress(rows[n - 1].mark, n - 1, ProgressAt(rows, n - 1))
  }

  function NextProgress(mark: Mark, n: nat, p: Progress): Progress {
    if mark.Opening? then p.(current := Some(n))
    else if mark.Closing? && p.current.Some? then Progress(None, Some((p.current.value, n)))
    else p
  }

  function OpenOf(rows: seq<Row>, p: Progress): Option<(nat, nat)>
    requires Sound(rows, p)
  {
    if p.current.None? then None else Some(OpenBounds(rows[p.current.value]))
  }

  ghost predicate Holds(text: string, rows: seq<Row>, close: string, p: Progress, block: Option<Block>)
    requires Sound(rows, p)
  {
    block == if p.last.None? then None else Some(PairBlock(text, rows[p.last.value.0], rows[p.last.value.1], close))
  }

  lemma TrackRow(rows: seq<Row>, n: nat, p: Progress)
    requires n < |rows| && Tracks(rows, n, p.current, p.last)
    ensures
      var next := NextProgress(rows[n].mark, n, p);
      Tracks(rows, n + 1, next.current, next.last)
  {
    if rows[n].mark.Opening? {
      TrackOpening(rows, n, p.current, p.last);
    } else if rows[n].mark.Closing? && p.current.Some? {
      TrackPair(rows, n, p.current.value, p.last);
    } else {
      TrackOther(rows, n, p.current, p.last);
    }
  }

  lemma {:induction false} ProgressTracks(rows: seq<Row>, n: nat)
    requires n <= |rows|
    ensures Tracks(rows, n, ProgressAt(rows, n).current, ProgressAt(rows, n).last)
  {
    if n > 0 {
      ProgressTracks(rows, n - 1);
      TrackRow(rows, n - 1, ProgressAt(rows, n - 1));
    }
  }

  /** A closing row with an opening line in hand makes a pair, within bounds. */
  lemma ProgressBounds(text: string, chunks: seq<string>, marker: Marker, open: string, close: string, n: nat)
    requires Cut(text, chunks) && FindsAll(marker, open, close) && n < |chunks|
    requires Rows(chunks, marker)[n].mark.Closing? && ProgressAt(Rows(chunks, marker), n).current.Some?
    ensures
      var rows := Rows(chunks, marker);
      var (rawStart, bodyStart) := OpenBounds(rows[ProgressAt(rows, n).current.value]);
      && rawStart <= bodyStart <= rows[n].start
      && rows[n].start + rows[n].mark.at + |close| <= |text|
  {
    var rows := Rows(chunks, marker);
    ProgressTracks(rows, n);
    var i := ProgressAt(rows, n).current.value;
    TrackPair(rows, n, i, ProgressAt(rows, n).last);
    PairBounds(text, chunks, marker, open, close, i, n);
  }

  /** Where an opening marker starts, and where the line after it does. */
  function OpenBounds(row: Row): (nat, nat)
    requires row.mark.Opening?
  {
    (row.start + row.mark.at, row.start + row.length)
  }

  /** Every slice the loop and the end of the scan take is in bounds. */
  ghost predicate InBounds(text: string, rows: seq<Row>, close: string, n: nat)
    requires n < |rows|
  {
    var row, p := rows[n], ProgressAt(rows, n);
    && row.start + row.length <= |text|
    && (row.mark.Opening? ==> row.mark.at <= row.length)
    && (row.mark.Closing? && p.current.Some? ==>
          var (rawStart, bodyStart) := OpenBounds(rows[p.current.value]);
          rawStart <= bodyStart <= row.start && row.start + row.mark.at + |close| <= |text|)
  }

  ghost predicate AllInBounds(text: string, rows: seq<Row>, close: string) {
    forall n | 0 <= n < |rows| :: InBounds(text, rows, close, n)
  }

  lemma RowsAreInBounds(text: string, chunks: seq<string>, marker: Marker, open: string, close: string)
    requires Cut(text, chunks) && FindsAll(marker, open, close)
    ensures AllInBounds(text, Rows(chunks, marker), close)
  {
    var rows := Rows(chunks, marker);
    forall n | 0 <= n < |rows| ensures InBounds(text, rows, close, n) {
      RowsFit(text, chunks, marker, open, close, n);
      if rows[n].mark.Closing? && ProgressAt(rows, n).current.Some? {
        ProgressBounds(text, chunks, marker, open, close, n);
      }
    }
  }

  /** The two variables of the loop. */
  datatype Carry = Carry(open: Option<(nat, nat)>, complete: Option<Block>)

  function NextCarry(text: string, row: Row, close: string, c: Carry): Carry {
    if row.mark.Opening? then c.(open := Some(OpenBounds(row)))
    else if row.mark.Closing? && c.open.Some? then
      Carry(None, Some(Block(Slice(text, c.open.value.0, row.start + row.mark.at + |close|), Slice(text, c.open.value.1, row.start), true)))
    else c
  }

  function CarryAt(text: string, rows: seq<Row>, close: string, n: nat): Carry
    requires n <= |rows|
  {
    if n == 0 then Carry(None, None) else NextCarry(text, rows[n - 1], close, CarryAt(text, rows, close, n - 1))
  }

  ghost predicate Matches(text: string, rows: seq<Row>, close: string, p: Progress, c: Carry) {
    Sound(rows, p) && c.open == OpenOf(rows, p) && Holds(text, rows, close, p, c.complete)
  }

  lemma {:induction false} CarryIsProgress(text: string, rows: seq<Row>, close: string, n: nat)
    requires n <= |rows|
    ensures Matches(text, rows, close, ProgressAt(rows, n), CarryAt(text, rows, close, n))
  {
    if n > 0 {
      CarryIsProgress(text, rows, close, n - 1);
      CarryStep(text, rows, close, n - 1, ProgressAt(rows, n - 1), CarryAt(text, rows, close, n - 1));
      assert ProgressAt(rows, n) == NextProgress(rows[n - 1].mark, n - 1, ProgressAt(rows, n - 1));
    }
  }

  lemma CarryStep(text: string, rows: seq<Row>, close: string, n: nat, p: Progress, c: Carry)
    requires n < |rows| && Matches(text, rows, close, p, c)
    ensures Matches(text, rows, close, NextProgress(rows[n].mark, n, p), NextCarry(text, rows[n], close, c))
  {
  }

  ghost predicate Fits(text: string, row: Row, close: string, c: Carry) {
    row.mark.Closing? && c.open.Some? ==>
      c.open.value.0 <= c.open.value.1 <= row.start && row.start + row.mark.at + |close| <= |text|
  }

  ghost predicate AllFit(text: string, rows: seq<Row>, close: string) {
    forall n | 0 <= n < |rows| :: FitsAt(text, rows, close, n)
  }

  ghost predicate FitsAt(text: string, rows: seq<Row>, close: string, n: nat)
    requires n < |rows|
  {
    Fits(text, rows[n], close, CarryAt(text, rows, close, n))
  }

  lemma InBoundsFits(text: string, rows: seq<Row>, close: string)
    requires AllInBounds(text, rows, close)
    ensures AllFit(text, rows, close)
  {
    forall n | 0 <= n < |rows| ensures FitsAt(text, rows, close, n) {
      assert InBounds(text, rows, close, n);
      CarryIsProgress(text, rows, close, n);
    }
  }

  /** One line of the loop. */
  method ReadLine(text: string, row: Row, close: string, currentOpen: Option<(nat, nat)>, lastComplete: Option<Block>)
    returns (open': Option<(nat, nat)>, complete': Option<Block>)
    requires Fits(text, row, close, Carry(currentOpen, lastComplete))
    ensures Carry(open', complete') == NextCarry(text, row, close, Carry(currentOpen, lastComplete))
  {
    open', complete' := currentOpen, lastComplete;
    if row.mark.Opening? {
      open' := Some((row.start + row.mark.at, row.start + row.length));
    } else if currentOpen.Some? && row.mark.Closing? {
      var (rawStart, bodyStart) := currentOpen.value;
      complete' := Some(Block(Part(text, rawStart, row.start + row.mark.at + |close|), Part(text, bodyStart, row.start), true));
      open' := None;
    }
  }

  /** The loop over the lines, for any way of telling marker lines. */
  method Scan(text: string, chunks: seq<string>, marker: Marker, close: string)
    returns (currentOpen: Option<(nat, nat)>, lastComplete: Option<Block>)
    requires AllFit(text, Rows(chunks, marker), close)
    ensures Carry(currentOpen, lastComplete) == CarryAt(text, Rows(chunks, marker), close, |chunks|)
  {
    var offset := 0;
    currentOpen, lastComplete := None, None;
    ghost var rows := Rows(chunks, marker);
    for n := 0 to |chunks|
      invariant offset == Start(chunks, n)
      invariant Carry(currentOpen, lastComplete) == CarryAt(text, rows, close, n)
    {
      StartStep(chunks, n);
      var row := Row(offset, |chunks[n]|, marker(chunks[n]));
      assert row == rows[n] && FitsAt(text, rows, close, n);
      currentOpen, lastComplete := ReadLine(text, row, close, currentOpen, lastComplete);
      offset := offset + |chunks[n]|;
    }
  }

  function Answer(text: string, rows: seq<Row>, close: string): Option<Block> {
    var p := ProgressAt(rows, |rows|);
    if p.last.Some? then Some(PairBlock(text, rows[p.last.value.0], rows[p.last.value.1], close))
    else if p.current.Some? then Some(TailBlock(text, rows[p.current.value]))
    else None
  }

  lemma AnswerIsSelected(text: string, rows: seq<Row>, close: string)
    ensures Selects(text, rows, close, Answer(text, rows, close))
  {
    ProgressTracks(rows, |rows|);
    TracksToTheEnd(text, rows, close, ProgressAt(rows, |rows|).current, ProgressAt(rows, |rows|).last);
  }

  /** What the two variables of the loop hold at its end is the answer. */
  lemma CarryAnswers(text: string, rows: seq<Row>, close: string)
    requires AllInBounds(text, rows, close)
    ensures
      var c, answer := CarryAt(text, rows, close, |rows|), Answer(text, rows, close);
      && (c.complete.Some? ==> answer == c.complete)
      && (c.complete.None? && c.open.None? ==> answer == None)
      && (c.complete.None? && c.open.Some? ==>
            var (rawStart, bodyStart) := c.open.value;
            && rawStart <= |text| && bodyStart <= |text|
            && answer == Some(Block(Part(text, rawStart, |text|), Part(text, bodyStart, |text|), false)))
  {
    CarryIsProgress(text, rows, close, |rows|);
    var p := ProgressAt(rows, |rows|);
    if p.current.Some? {
      assert InBounds(text, rows, close, p.current.value);
    }
  }

  method Select(text: string, chunks: seq<string>, marker: Marker, close: string) returns (r: Option<Block>)
    requires AllInBounds(text, Rows(chunks, marker), close)
    ensures r == Answer(text, Rows(chunks, marker), close)
  {
    InBoundsFits(text, Rows(chunks, marker), close);
    var currentOpen, lastComplete := Scan(text, chunks, marker, close);
    CarryAnswers(text, Rows(chunks, marker), close);
    if lastComplete.Some? {
      return lastComplete;
    }
    if currentOpen.Some? {
      var (rawStart, bodyStart) := currentOpen.value;
      return Some(Block(Part(text, rawStart, |text|), Part(text, bodyStart, |text|), false));
    }
    return None;
  }

  method SelectProtocolBlock(text: string, open: string, close: string) returns (r: Option<Block>)
    ensures Selects(text, Rows(Chunks(text), MarkerFor(open, close)), close, r)
    ensures r.Some? ==> Delimited(r.value, open, close)
  {
    ChunksAreTheText(text);
    MarkersAreFound(open, close);
    RowsAreInBounds(text, Chunks(text), MarkerFor(open, close), open, close);
    r := Select(text, Chunks(text), MarkerFor(open, close), close);
    AnswerIsSelected(text, Rows(Chunks(text), MarkerFor(open, close)), close);
    if r.Some? {
      SelectionIsDelimited(text, Chunks(text), MarkerFor(open, close), open, close, r.value);
    }
  }
}
