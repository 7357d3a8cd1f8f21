/**
 When a removal gains something, for a block put anywhere: exactly when the
 text it leaves has its bindings in an inline array. Entries that are tables
 are counted by their headers, and cutting the block out makes one header of
 none nowhere.
 */
module KeybindingExact {
  import opened Wrappers
  import opened Substrings
  import opened TomlLines
  import opened Keybinding
  import opened KeybindingToml

  // ----- entries are headers -----

  function Headers(lines: seq<string>): nat {
    if lines == [] then 0 else (if lines[0] == ENTRY_HEADER then 1 else 0) + Headers(lines[1..])
  }

  /** An inline array is all the bindings there are, and a table header stays away from it. */
  predicate WellRead(d: Document) {
    && (d.inline ==> d.place.Table? && |d.entries| == 1 && |d.entries[0]| == 1)
    && (d.place == LastEntry ==> d.entries != [])
  }

  lemma ReadKeepsWell(d: Document, line: string)
    requires WellRead(d) && Read(d, line).Ok?
    ensures WellRead(Read(d, line).value)
    ensures d.inline ==> Read(d, line).value.inline && Read(d, line).value.entries == d.entries && line != ENTRY_HEADER
    ensures !d.inline && Read(d, line).value.inline ==> d.entries == [] && line != ENTRY_HEADER
    ensures !Read(d, line).value.inline ==>
            |Read(d, line).value.entries| == |d.entries| + if line == ENTRY_HEADER then 1 else 0
  {
  }

  /** Read to an inline array, a text has no table header; otherwise it has one for each entry. */
  lemma {:induction false} EntriesAreHeaders(d: Document, lines: seq<string>)
    requires WellRead(d) && ReadAll(d, lines).Ok?
    ensures
      var end := ReadAll(d, lines).value;
      && WellRead(end) && (d.inline ==> end.inline && end.entries == d.entries)
      && (if end.inline then Headers(lines) == 0 && (d.inline || d.entries == []) else |end.entries| == |d.entries| + Headers(lines))
    decreases |lines|
  {
    if lines != [] {
      ReadKeepsWell(d, lines[0]);
      EntriesAreHeaders(Read(d, lines[0]).value, lines[1..]);
    }
  }

  /** Once a table is there, only the last one can still grow. */
  lemma {:induction false} EarlierStay(d: Document, lines: seq<string>)
    requires d.entries != [] && !d.inline && ReadAll(d, lines).Ok?
    ensures
      var end := ReadAll(d, lines).value;
      && !end.inline && |end.entries| >= |d.entries|
      && forall k | 0 <= k < |d.entries| - 1 :: end.entries[k] == d.entries[k]
    decreases |lines|
  {
    if lines != [] {
      EarlierStay(Read(d, lines[0]).value, lines[1..]);
    }
  }

  // ----- a block in the middle of a line -----

  /** A text is whole lines and what it has of another. */
  lemma {:induction false} CutAtLine(text: string) returns (p: string, q: string)
    ensures text == p + q && WholeLines(p) && '\n' !in q
  {
    if WholeLines(text) {
      p, q := text, "";
    } else {
      var front, last := text[..|text| - 1], text[|text| - 1];
      p, q := CutAtLine(front);
      q := q + [last];
      assert text == front + [last];
    }
  }

  lemma OneRawLine(raw: string)
    requires '\n' !in raw
    ensures Lines(raw + "\n") == [WithoutReturn(raw)] && WholeLines(raw + "\n")
  {
    var text := raw + "\n";
    assert NewlineAt(text) == |raw| by {
      assert text[|raw|] == '\n';
      assert forall k | 0 <= k < |raw| :: text[k] == raw[k];
    }
    LinesAfter(text, |raw|);
    assert text[..|raw|] == raw && text[|raw| + 1..] == "";
  }

  /** The first line of a text as it stands, and the lines after it. */
  function FirstRaw(text: string): string {
    text[..NewlineAt(text)]
  }

  function LaterText(text: string): string {
    if NewlineAt(text) == |text| then "" else text[NewlineAt(text) + 1..]
  }

  function LaterLines(text: string): seq<string> {
    Lines(LaterText(text))
  }

  lemma LinesSplit(text: string)
    requires text != ""
    ensures Lines(text) == [WithoutReturn(FirstRaw(text))] + LaterLines(text)
  {
  }

  lemma {:induction false} NewlineAtAfter(q: string, text: string)
    requires '\n' !in q
    ensures NewlineAt(q + text) == |q| + NewlineAt(text)
  {
    if q == "" {
      assert q + text == text;
    } else {
      assert (q + text)[1..] == q[1..] + text;
      assert q[0] in q && forall c | c in q[1..] :: c in q;
      NewlineAtAfter(q[1..], text);
    }
  }

  /** What a text becomes with something before its first line. */
  lemma MergedLines(q: string, text: string)
    requires '\n' !in q && q != ""
    ensures Lines(q + text) == [WithoutReturn(q + FirstRaw(text))] + LaterLines(text)
  {
    LinesSplit(q + text);
    MergedParts(q, text, q + text);
  }

  lemma MergedParts(q: string, text: string, whole: string)
    requires '\n' !in q && whole == q + text
    ensures FirstRaw(whole) == q + FirstRaw(text) && LaterText(whole) == LaterText(text)
  {
    NewlineAtAfter(q, text);
    MergedAt(q, text, whole, NewlineAt(text), NewlineAt(whole));
  }

  lemma MergedAt(q: string, text: string, whole: string, n: nat, m: nat)
    requires whole == q + text && n == NewlineAt(text) && m == NewlineAt(whole) == |q| + n
    ensures FirstRaw(whole) == q + FirstRaw(text) && LaterText(whole) == LaterText(text)
  {
    CutAfter(q, text, whole, n);
  }

  lemma CutAfter(q: string, text: string, whole: string, n: nat)
    requires whole == q + text && n <= |text|
    ensures whole[..|q| + n] == q + text[..n]
    ensures n < |text| ==> whole[|q| + n + 1..] == text[n + 1..]
  {
  }

  // ----- the line the block starts in -----

  /** What a block's first line adds to the line it starts in, and the rest of the block. */
  function FirstAdded(n: nat): string {
    if n == 0 then MARKER else ""
  }

  function RestAdded(n: nat, key: string): seq<string> {
    if n == 0 then [ENTRY_HEADER] + Ours(key) else BlockWith(n - 1, key)
  }

  lemma BlockInTwo(n: nat, key: string)
    ensures BlockWith(n, key) == [FirstAdded(n)] + RestAdded(n, key)
  {
    if n == 0 {
      assert Blanks(0) + BlockLines(key) == BlockLines(key);
      assert BlockLines(key) == [MARKER] + ([ENTRY_HEADER] + Ours(key));
    } else {
      assert Blanks(n) + BlockLines(key) == [""] + (Blanks(n - 1) + BlockLines(key));
    }
  }

  /** The line the block starts in, as it is with the block. */
  function Started(q: string, n: nat, nl: string): string {
    if nl == CRLF then q + FirstAdded(n) else WithoutReturn(q + FirstAdded(n))
  }

  lemma StartedLine(q: string, n: nat, nl: string)
    requires '\n' !in q && (nl == LF || nl == CRLF)
    ensures Lines(q + FirstAdded(n) + nl) == [Started(q, n, nl)] && WholeLines(q + FirstAdded(n) + nl)
  {
    MarkerIsOneLine();
    var raw := if nl == CRLF then q + FirstAdded(n) + "\r" else q + FirstAdded(n);
    assert '\n' !in FirstAdded(n);
    OneRawLine(raw);
    assert q + FirstAdded(n) + nl == raw + "\n";
    if nl == CRLF {
      assert raw[..|raw| - 1] == q + FirstAdded(n);
    }
  }

  lemma RestIsPlain(n: nat, key: string)
    requires '\n' !in key
    ensures AllPlain(RestAdded(n, key))
  {
    BlockIsPlain(key);
    BlanksArePlain(n, BlockLines(key));
    BlockInTwo(n, key);
    var whole, rest := BlockWith(n, key), RestAdded(n, key);
    forall k | 0 <= k < |rest| ensures PlainLine(rest[k]) {
      assert whole[k + 1] == rest[k];
    }
  }

  lemma RestReads(d: Document, n: nat, key: string)
    ensures ReadAll(d, RestAdded(n, key)) ==
            if d.inline then Err("keys.command is an inline array")
            else Ok(Document(LastEntry, false, d.entries + [Ours(key)]))
  {
    if n == 0 {
      BlockIsRead(d, key);
      ReadCons(d, MARKER, [ENTRY_HEADER] + Ours(key));
      assert BlockLines(key) == [MARKER] + ([ENTRY_HEADER] + Ours(key));
      MarkerIsAComment();
    } else {
      BlanksAreSkipped(d, n - 1, BlockLines(key));
      BlockIsRead(d, key);
    }
  }

  lemma MarkerIsAComment()
    ensures MARKER != "" && MARKER[0] == '#' && MARKER[|MARKER| - 1] == '.'
  {
    var rest := OWNER + PURPOSE;
    assert MARKER == rest + REMEDY && MARKER[|MARKER| - 1] == REMEDY[|REMEDY| - 1];
    assert MARKER[0] == OWNER[0];
  }

  // ----- no header comes of cutting -----

  function IsEntryHeader(line: string): nat {
    if line == ENTRY_HEADER then 1 else 0
  }

  lemma HeadersOne(line: string, rest: seq<string>)
    ensures Headers([line] + rest) == IsEntryHeader(line) + Headers(rest)
  {
    assert ([line] + rest)[1..] == rest;
  }

  /** A line that opens a bracket and does not end in one is no line of the subset, nor is a lone closing one. */
  lemma Unreadable(d: Document, line: string)
    requires (line != "" && line[0] == '[' && line[|line| - 1] != ']') || line == "]"
    ensures Read(d, line).Err?
  {
    assert ENTRY_HEADER[15] == ']' && |ENTRY_HEADER| == 16;
  }

  lemma EntryHeaderBrackets()
    ensures |ENTRY_HEADER| == 16 && ENTRY_HEADER[0] == '[' && ENTRY_HEADER[15..] == "]"
    ensures forall k | 0 <= k < 14 :: ENTRY_HEADER[k] != ']'
    ensures '\r' !in ENTRY_HEADER
  {
  }

  /** Two readable lines that make a header together: the first one is it. */
  lemma HeaderInTwo(d: Document, e: Document, q: string, y: string)
    requires q != "" && q + y == ENTRY_HEADER && Read(d, q).Ok? && (y != "" ==> Read(e, y).Ok?)
    ensures q == ENTRY_HEADER
  {
    EntryHeaderBrackets();
    if y != "" {
      var m := |q|;
      assert q[0] == ENTRY_HEADER[0] && q[m - 1] == ENTRY_HEADER[m - 1];
      if q[m - 1] != ']' {
        Unreadable(d, q);
      } else {
        assert m == 15;
        assert y == ENTRY_HEADER[15..];
        Unreadable(e, y);
      }
    }
  }

  /** The line the block starts in is the line without the block, if it begins like a header and can be read. */
  lemma StartedIsAsBefore(d: Document, q: string, n: nat, nl: string)
    requires q != "" && q[0] == '[' && Read(d, Started(q, n, nl)).Ok?
    ensures Started(q, n, nl) == if nl == CRLF then q else WithoutReturn(q)
  {
    var line := q + FirstAdded(n);
    if n == 0 {
      MarkerIsAComment();
      assert line[|line| - 1] == MARKER[|MARKER| - 1] && line[0] == '[';
      Unreadable(d, line);
    } else {
      assert line == q;
    }
  }

  lemma MergedHeader(d: Document, e: Document, q: string, n: nat, nl: string, raw: string)
    requires q != "" && Read(d, Started(q, n, nl)).Ok?
    requires raw != "" ==> Read(e, WithoutReturn(raw)).Ok?
    requires WithoutReturn(q + raw) == ENTRY_HEADER
    ensures Started(q, n, nl) == ENTRY_HEADER
  {
    EntryHeaderBrackets();
    assert q[0] == (q + raw)[0] == ENTRY_HEADER[0];
    StartedIsAsBefore(d, q, n, nl);
    var y := WithoutReturn(raw);
    if raw == "" {
      assert q + raw == q;
      ReturnIsNotRead(d, q, nl);
    } else {
      MergedReturn(q, raw);
      NoReturnBefore(q, y);
      HeaderInTwo(d, e, q, y);
    }
  }

  lemma MergedReturn(q: string, raw: string)
    requires raw != ""
    ensures WithoutReturn(q + raw) == q + WithoutReturn(raw)
  {
    var whole := q + raw;
    assert whole[|whole| - 1] == raw[|raw| - 1];
    assert whole[..|whole| - 1] == q + raw[..|raw| - 1];
  }

  lemma NoReturnBefore(q: string, y: string)
    requires q != "" && q + y == ENTRY_HEADER
    ensures WithoutReturn(q) == q
  {
    EntryHeaderBrackets();
    assert q[|q| - 1] == (q + y)[|q| - 1];
    assert q[|q| - 1] in ENTRY_HEADER;
  }

  lemma ReturnIsNotRead(d: Document, q: string, nl: string)
    requires q != "" && WithoutReturn(q) == ENTRY_HEADER && Read(d, if nl == CRLF then q else ENTRY_HEADER).Ok?
    ensures nl == CRLF ==> q == ENTRY_HEADER
  {
    EntryHeaderBrackets();
    if nl == CRLF && q[|q| - 1] == '\r' {
      assert q[0] == q[..|q| - 1][0];
      Unreadable(d, q);
    }
  }

  /** The text without the block has no more headers than the block's line and what follows. */
  lemma NoHeaderComesOfCutting(d: Document, e: Document, q: string, n: nat, nl: string, post: string)
    requires '\n' !in q && Read(d, Started(q, n, nl)).Ok? && ReadAll(e, Lines(post)).Ok?
    ensures Headers(Lines(q + post)) <= IsEntryHeader(Started(q, n, nl)) + Headers(Lines(post))
  {
    if q == "" {
      assert q + post == post;
    } else {
      var raw, later := FirstRaw(post), LaterLines(post);
      var merged := WithoutReturn(q + raw);
      MergedLines(q, post);
      HeadersOne(merged, later);
      if post != "" {
        LinesSplit(post);
        HeadersOne(WithoutReturn(raw), later);
        ReadCons(e, WithoutReturn(raw), later);
      }
      if merged == ENTRY_HEADER {
        MergedHeader(d, e, q, n, nl, raw);
      }
    }
  }

  lemma AtMostOneMore<E>(a: seq<E>, b: seq<E>, ours: E)
    requires multiset(a) - multiset(b) == multiset{ours}
    ensures 1 <= |a| <= |b| + 1
  {
    var x, y := multiset(a), multiset(b);
    assert x == (x - y) + x * y;
    assert y == (y - x) + y * x;
    assert x * y == y * x;
    assert |x| == |a| && |y| == |b|;
  }

  // ----- an array means one entry before -----

  /** The entry holds the whole line an inline array was read from. */
  ghost predicate Took(entry: Entry, only: Entry) {
    exists k :: 0 <= k < |entry| && IsInline(entry[k]) && InlineEntry(entry[k]) == only
  }

  lemma TookIsLonger(entry: Entry, only: Entry)
    requires Took(entry, only)
    ensures entry != only
  {
    var k :| 0 <= k < |entry| && IsInline(entry[k]) && InlineEntry(entry[k]) == only;
    assert |only| == 1 && |only[0]| < |entry[k]|;
  }

  lemma TookStays(entry: Entry, line: string, only: Entry)
    requires Took(entry, only)
    ensures Took(entry + [line], only)
  {
    var k :| 0 <= k < |entry| && IsInline(entry[k]) && InlineEntry(entry[k]) == only;
    assert (entry + [line])[k] == entry[k];
  }

  /** With the block in place, the array's line went to the last table. */
  ghost predicate Swallows(d: Document, e: Document) {
    && !d.inline && d.entries != [] && e.place.Table? && (d.place == LastEntry || d.place == e.place)
    && (if e.inline then |e.entries| == 1 && Took(d.entries[|d.entries| - 1], e.entries[0]) else e.entries == [])
  }

  lemma SwallowsOne(d: Document, e: Document, line: string)
    requires Swallows(d, e) && line != ENTRY_HEADER && Read(d, line).Ok? && Read(e, line).Ok?
    ensures Swallows(Read(d, line).value, Read(e, line).value)
  {
    if !Skipped(line) && !IsHeader(line) && d.place == LastEntry {
      var last := d.entries[|d.entries| - 1];
      var next := Read(d, line).value;
      assert next.entries[|next.entries| - 1] == last + [line];
      if e.inline {
        TookStays(last, line, e.entries[0]);
      } else if e.place == Table("keys") && IsInline(line) {
        assert (last + [line])[|last|] == line;
        assert Took(last + [line], InlineEntry(line));
      }
    }
  }

  lemma {:induction false} SwallowsAll(d: Document, e: Document, lines: seq<string>)
    requires Swallows(d, e) && Headers(lines) == 0 && ReadAll(d, lines).Ok? && ReadAll(e, lines).Ok?
    ensures Swallows(ReadAll(d, lines).value, ReadAll(e, lines).value)
    decreases |lines|
  {
    if lines != [] {
      SwallowsOne(d, e, lines[0]);
      SwallowsAll(Read(d, lines[0]).value, Read(e, lines[0]).value, lines[1..]);
    }
  }

  lemma ArraysEnd(line: string)
    ensures IsInline(line) ==> line[|line| - 2] == '}'
  {
    if IsInline(line) {
      assert line[|line| - 3..][1] == INLINE_END[1] == '}';
    }
  }

  lemma HeaderTailIsNoArray(d: Document, q: string)
    requires WellRead(d) && !d.inline && d.entries == [] && q != "" && Read(d, q + ENTRY_HEADER).Ok?
    ensures
      var e := Read(d, q + ENTRY_HEADER).value;
      !e.inline && e.entries == [] && e.place.Table?
  {
    var line := q + ENTRY_HEADER;
    assert line[|line| - 2] == ENTRY_HEADER[14] == ']';
    ArraysEnd(line);
    assert |line| > |ENTRY_HEADER|;
  }

  lemma ForeignIsOurs<E>(a: seq<E>, b: seq<E>, ours: E, k: nat)
    requires multiset(a) - multiset(b) == multiset{ours} && k < |a| && a[k] !in b
    ensures a[k] == ours
  {
    assert a[k] in multiset(a) && a[k] !in multiset(b);
    assert a[k] in multiset(a) - multiset(b);
  }

  lemma TwiceLost<E>(a: seq<E>, b: seq<E>, x: E)
    requires |a| == 2 && x !in b
    ensures a[0] == x && a[1] == x ==> (multiset(a) - multiset(b))[x] == 2
  {
    if a[0] == x && a[1] == x {
      assert a == [x, x];
    }
  }

  /** A swallowed header's table would have taken the array's line and be lost too. */
  lemma HeaderIsNotSwallowed(e: Document, q: string, later: seq<string>, ours: Entry, before: seq<Entry>, after: seq<Entry>)
    requires WellRead(e) && !e.inline && e.entries == [] && q != "" && |ours| == 4 && Headers(later) == 0
    requires
      var end := ReadAll(Document(LastEntry, false, [ours, []]), later);
      end.Ok? && end.value.entries == before
    requires
      var end := ReadAll(e, [q + ENTRY_HEADER] + later);
      end.Ok? && end.value.inline && end.value.entries == after
    ensures multiset(before) - multiset(after) != multiset{ours}
  {
    var d := Document(LastEntry, false, [ours, []]);
    ReadCons(e, q + ENTRY_HEADER, later);
    HeaderTailIsNoArray(e, q);
    var e0 := Read(e, q + ENTRY_HEADER).value;
    SwallowsAll(d, e0, later);
    EarlierStay(d, later);
    EntriesAreHeaders(d, later);
    EntriesAreHeaders(e, [q + ENTRY_HEADER] + later);
    assert before[0] == [ours, []][0] == ours && |before| == 2;
    assert after == [after[0]] && |after[0]| == 1;
    if multiset(before) - multiset(after) == multiset{ours} {
      TookIsLonger(before[1], after[0]);
      ForeignIsOurs(before, after, ours, 1);
      TwiceLost(before, after, ours);
    }
  }

  // ----- the exact condition -----

  /** The block's line was a header itself: the block leaves an empty table, which is lost as well. */
  lemma NothingElseIsEmpty(d: Document, lines: seq<string>, ours: Entry, after: seq<Entry>)
    requires d == Document(LastEntry, false, [[], ours]) && ours != [] && ReadAll(d, lines).Ok? && [] !in after
    ensures multiset(ReadAll(d, lines).value.entries) - multiset(after) != multiset{ours}
  {
    EarlierStay(d, lines);
    var before := ReadAll(d, lines).value.entries;
    assert before[0] == d.entries[0] == [];
    if multiset(before) - multiset(after) == multiset{ours} {
      ForeignIsOurs(before, after, ours, 0);
    }
  }

  /** Reading on from the line `x` the block starts in, with the block and without it. */
  ghost predicate Readings(p: Document, q: string, n: nat, nl: string, post: string, ours: Entry, before: Document, after: Document) {
    && WellRead(p) && !p.inline && '\n' !in q && |ours| == 4 && Read(p, Started(q, n, nl)).Ok?
    && ReadAll(Document(LastEntry, false, Read(p, Started(q, n, nl)).value.entries + [ours]), Lines(post)) == Ok(before)
    && ReadAll(p, Lines(q + post)) == Ok(after)
    && multiset(before.entries) - multiset(after.entries) == multiset{ours}
  }

  lemma NoArrayNoGain(p: Document, q: string, n: nat, nl: string, post: string, ours: Entry, before: Document, after: Document)
    requires Readings(p, q, n, nl, post, ours, before, after) && !Read(p, Started(q, n, nl)).value.inline && !after.inline
    ensures |before.entries| == |after.entries| + 1
  {
    var d := Document(LastEntry, false, Read(p, Started(q, n, nl)).value.entries + [ours]);
    ReadKeepsWell(p, Started(q, n, nl));
    EarlierStay(d, Lines(post));
    EntriesAreHeaders(d, Lines(post));
    EntriesAreHeaders(p, Lines(q + post));
    NoHeaderComesOfCutting(p, d, q, n, nl, post);
    AtMostOneMore(before.entries, after.entries, ours);
  }

  /** Left with an array, the text had nothing before it, and only the array in it. */
  lemma ArrayIsAlone(p: Document, q: string, n: nat, nl: string, post: string, ours: Entry, before: Document, after: Document)
    requires Readings(p, q, n, nl, post, ours, before, after) && after.inline
    ensures p.entries == [] && |after.entries| == 1 && |after.entries[0]| == 1 && [] !in after.entries
  {
    EntriesAreHeaders(p, Lines(q + post));
    assert after.entries == [after.entries[0]];
  }

  lemma StartIsNoHeader(p: Document, q: string, n: nat, nl: string, post: string, ours: Entry, before: Document, after: Document)
    requires Readings(p, q, n, nl, post, ours, before, after) && after.inline
    ensures Started(q, n, nl) != ENTRY_HEADER
  {
    ArrayIsAlone(p, q, n, nl, post, ours, before, after);
    if Started(q, n, nl) == ENTRY_HEADER {
      var read := Read(p, ENTRY_HEADER).value;
      assert read.entries == [[]] && read.entries + [ours] == [[], ours];
      NothingElseIsEmpty(Document(LastEntry, false, [[], ours]), Lines(post), ours, after.entries);
    }
  }

  lemma ArrayGains(p: Document, q: string, n: nat, nl: string, post: string, ours: Entry, before: Document, after: Document)
    requires Readings(p, q, n, nl, post, ours, before, after) && !Read(p, Started(q, n, nl)).value.inline && after.inline
    ensures |before.entries| == |after.entries| == 1
  {
    ArrayIsAlone(p, q, n, nl, post, ours, before, after);
    StartIsNoHeader(p, q, n, nl, post, ours, before, after);
    NoSwallowedHeader(p, q, n, nl, post, ours, before, after);
    ReadKeepsWell(p, Started(q, n, nl));
    var d := Document(LastEntry, false, Read(p, Started(q, n, nl)).value.entries + [ours]);
    EarlierStay(d, Lines(post));
    EntriesAreHeaders(d, Lines(post));
  }

  lemma NoSwallowedHeader(p: Document, q: string, n: nat, nl: string, post: string, ours: Entry, before: Document, after: Document)
    requires Readings(p, q, n, nl, post, ours, before, after) && after.inline && Started(q, n, nl) != ENTRY_HEADER
    requires !Read(p, Started(q, n, nl)).value.inline
    ensures Headers(Lines(post)) == 0
  {
    EntriesAreHeaders(p, Lines(q + post));
    if q == "" {
      assert q + post == post;
    } else if post != "" {
      var raw, later := FirstRaw(post), LaterLines(post);
      var y := WithoutReturn(raw);
      MergedLines(q, post);
      LinesSplit(post);
      HeadersOne(WithoutReturn(q + raw), later);
      HeadersOne(y, later);
      if y == ENTRY_HEADER {
        MergedReturn(q, raw);
        ReadCons(Document(LastEntry, false, [ours]), y, later);
        ReadKeepsWell(p, Started(q, n, nl));
        assert [] + [ours] == [ours] && [ours] + [[]] == [ours, []];
        HeaderIsNotSwallowed(p, q, later, ours, before.entries, after.entries);
      }
    }
  }

  lemma CutInTwo(p: string, q: string, n: nat, key: string, nl: string, post: string)
    requires WholeLines(p) && '\n' !in q && '\n' !in key && (nl == LF || nl == CRLF)
    ensures Lines(p + q + Joined(BlockWith(n, key), nl) + post) == Lines(p) + ([Started(q, n, nl)] + (RestAdded(n, key) + Lines(post)))
  {
    var rest := Joined(RestAdded(n, key), nl);
    StartedLine(q, n, nl);
    BlockText(n, key, nl);
    RestIsPlain(n, key);
    LinesOfJoined(RestAdded(n, key), nl);
    CutParts(p, q, FirstAdded(n), nl, rest, Joined(BlockWith(n, key), nl), post);
  }

  lemma LinesWithoutBlock(p: string, q: string, post: string)
    requires WholeLines(p)
    ensures Lines(p + q + post) == Lines(p) + Lines(q + post)
  {
    LinesConcat(p, q + post);
    assert p + q + post == p + (q + post);
  }

  lemma BlockText(n: nat, key: string, nl: string)
    ensures Joined(BlockWith(n, key), nl) == FirstAdded(n) + nl + Joined(RestAdded(n, key), nl)
  {
    BlockInTwo(n, key);
    JoinedCons(FirstAdded(n), RestAdded(n, key), nl);
  }

  lemma CutParts(p: string, q: string, a: string, nl: string, rest: string, appended: string, post: string)
    requires appended == a + nl + rest && WholeLines(p) && WholeLines(q + a + nl) && WholeLines(rest)
    ensures Lines(p + q + appended + post) == Lines(p) + (Lines(q + a + nl) + (Lines(rest) + Lines(post)))
  {
    RegroupText(p, q, a, nl, rest, post);
    LinesOfThree(p, q + a + nl, rest, post);
  }

  lemma LinesOfThree(p: string, head: string, rest: string, post: string)
    requires WholeLines(p) && WholeLines(head) && WholeLines(rest)
    ensures Lines(p + (head + (rest + post))) == Lines(p) + (Lines(head) + (Lines(rest) + Lines(post)))
  {
    LinesConcat(p, head + (rest + post));
    LinesConcat(head, rest + post);
    LinesConcat(rest, post);
  }

  lemma RegroupText(p: string, q: string, a: string, nl: string, rest: string, post: string)
    ensures p + q + (a + nl + rest) + post == p + ((q + a + nl) + (rest + post))
  {
  }

  /** Both readings, from where the block's line starts. */
  lemma ReadInTwo(p: string, q: string, n: nat, key: string, nl: string, post: string)
    requires WholeLines(p) && '\n' !in q && '\n' !in key && (nl == LF || nl == CRLF)
    requires
      var with, without := ReadAll(NO_LINES, Lines(p + q + Joined(BlockWith(n, key), nl) + post)), ReadAll(NO_LINES, Lines(p + q + post));
      with.Ok? && without.Ok? && multiset(with.value.entries) - multiset(without.value.entries) == multiset{Ours(key)}
    ensures
      var with, without := ReadAll(NO_LINES, Lines(p + q + Joined(BlockWith(n, key), nl) + post)), ReadAll(NO_LINES, Lines(p + q + post));
      var d := ReadAll(NO_LINES, Lines(p));
      && d.Ok? && Readings(d.value, q, n, nl, post, Ours(key), with.value, without.value)
      && !Read(d.value, Started(q, n, nl)).value.inline
  {
    var x, more := Started(q, n, nl), RestAdded(n, key) + Lines(post);
    CutInTwo(p, q, n, key, nl, post);
    LinesWithoutBlock(p, q, post);
    ReadConcat(NO_LINES, Lines(p), [x] + more);
    ReadConcat(NO_LINES, Lines(p), Lines(q + post));
    var d := ReadAll(NO_LINES, Lines(p)).value;
    EntriesAreHeaders(NO_LINES, Lines(p));
    ReadCons(d, x, more);
    ReadConcat(Read(d, x).value, RestAdded(n, key), Lines(post));
    RestReads(Read(d, x).value, n, key);
    ReadKeepsWell(d, x);
    OursAreAssignments(key);
  }

  /** The text has its bindings in an inline array under `keys`. */
  predicate BindsInline(text: string) {
    var d := ReadAll(NO_LINES, Lines(text));
    d.Ok? && d.value.inline
  }

  /** All the other entries and no more, unless they are written inline: then that array instead of the only entry. */
  predicate Exactly(before: seq<Entry>, after: seq<Entry>, ours: Entry, inline: bool) {
    && (multiset(before) == multiset(after) + multiset{ours} <==> !inline)
    && (inline ==> before == [ours] && |after| == 1)
  }

  /**
   Wherever the block stands, in a line or between two, and whatever is around
   it: a removal that goes through leaves all the other entries and no more, if
   and only if the text it leaves does not bind inline. If it does, the array is
   what was gained, and the block had been the only entry.
   */
  lemma RemovalGainsExactlyAnArray(existing: string, key: string, pre: string, post: string)
    requires '\n' !in key
    requires RemovalOutcome(Entries, pre + Appended(existing, key) + post, Appended(existing, key), |pre|).Ok?
    ensures Entries(pre + Appended(existing, key) + post).Ok? && Entries(pre + post).Ok?
    ensures Exactly(Entries(pre + Appended(existing, key) + post).value, Entries(pre + post).value, Ours(key), BindsInline(pre + post))
  {
    var n := AppendedIsBlock(existing, key);
    ExactHere(pre, Appended(existing, key), post, n, key, LineEnding(existing));
  }

  lemma ExactHere(pre: string, appended: string, post: string, n: nat, key: string, nl: string)
    requires '\n' !in key && (nl == LF || nl == CRLF)
    requires appended == Joined(BlockWith(n, key), nl) && RemovalOutcome(Entries, pre + appended + post, appended, |pre|).Ok?
    ensures Entries(pre + appended + post).Ok? && Entries(pre + post).Ok?
    ensures Exactly(Entries(pre + appended + post).value, Entries(pre + post).value, Ours(key), BindsInline(pre + post))
  {
    var p, q := CutAtLine(pre);
    ExactFor(pre, appended, post, p, q, n, key, nl);
  }

  lemma ExactFor(pre: string, appended: string, post: string, p: string, q: string, n: nat, key: string, nl: string)
    requires pre == p + q && WholeLines(p) && '\n' !in q && '\n' !in key && (nl == LF || nl == CRLF)
    requires appended == Joined(BlockWith(n, key), nl) && RemovalOutcome(Entries, pre + appended + post, appended, |pre|).Ok?
    ensures Entries(pre + appended + post).Ok? && Entries(pre + post).Ok?
    ensures Exactly(Entries(pre + appended + post).value, Entries(pre + post).value, Ours(key), BindsInline(pre + post))
  {
    BlockReads(n, key, nl);
    WhatSuccessMeans(Entries, pre, appended, post);
    ExactAt(p, q, n, key, nl, post);
    SameCount(Entries(pre + appended + post).value, Entries(pre + post).value, Ours(key));
  }

  lemma SameCount<E>(before: seq<E>, after: seq<E>, ours: E)
    ensures multiset(before) == multiset(after) + multiset{ours} ==> |before| == |after| + 1
  {
    assert |multiset(before)| == |before| && |multiset(after)| == |after|;
  }

  lemma ExactAt(p: string, q: string, n: nat, key: string, nl: string, post: string)
    requires WholeLines(p) && '\n' !in q && '\n' !in key && (nl == LF || nl == CRLF)
    requires
      var with, without := Entries(p + q + Joined(BlockWith(n, key), nl) + post), Entries(p + q + post);
      with.Ok? && without.Ok? && multiset(with.value) - multiset(without.value) == multiset{Ours(key)}
    ensures
      var before := Entries(p + q + Joined(BlockWith(n, key), nl) + post).value;
      var after := Entries(p + q + post).value;
      && (|before| == |after| + 1 <==> !BindsInline(p + q + post))
      && (BindsInline(p + q + post) ==> before == [Ours(key)] && |after| == 1)
  {
    ReadInTwo(p, q, n, key, nl, post);
    ExactFromReadings(p, q, n, key, nl, post);
  }

  lemma ExactFromReadings(p: string, q: string, n: nat, key: string, nl: string, post: string)
    requires
      var with, without := ReadAll(NO_LINES, Lines(p + q + Joined(BlockWith(n, key), nl) + post)), ReadAll(NO_LINES, Lines(p + q + post));
      var d := ReadAll(NO_LINES, Lines(p));
      && with.Ok? && without.Ok? && d.Ok? && Readings(d.value, q, n, nl, post, Ours(key), with.value, without.value)
      && !Read(d.value, Started(q, n, nl)).value.inline
    ensures
      var before := Entries(p + q + Joined(BlockWith(n, key), nl) + post).value;
      var after := Entries(p + q + post).value;
      && (|before| == |after| + 1 <==> !BindsInline(p + q + post))
      && (BindsInline(p + q + post) ==> before == [Ours(key)] && |after| == 1)
  {
    var d := ReadAll(NO_LINES, Lines(p)).value;
    var with, without := ReadAll(NO_LINES, Lines(p + q + Joined(BlockWith(n, key), nl) + post)).value, ReadAll(NO_LINES, Lines(p + q + post)).value;
    if without.inline {
      ArrayGains(d, q, n, nl, post, Ours(key), with, without);
      OnlyEntryIsLost(with.entries, without.entries, Ours(key));
      assert with.entries == [with.entries[0]];
    } else {
      NoArrayNoGain(d, q, n, nl, post, Ours(key), with, without);
    }
  }
}
