/** What splicing the block out does to the entries a config file holds, in the line-based subset of TOML. */
module KeybindingToml {
  import opened Wrappers
  import opened Substrings
  import opened TomlLines
  import opened Keybinding

  // ----- the block, read -----

  /** The assignments of the block. */
  function Ours(key: string): Entry {
    BlockLines(key)[2..]
  }

  lemma {:induction false} JoinedCons(line: string, rest: seq<string>, nl: string)
    ensures Joined([line] + rest, nl) == line + nl + Joined(rest, nl)
  {
    var lines := [line] + rest;
    if rest == [] {
      assert lines[..0] == [] && Joined([], nl) == "";
    } else {
      assert lines[..|lines| - 1] == [line] + rest[..|rest| - 1];
      JoinedCons(line, rest[..|rest| - 1], nl);
    }
  }

  predicate PlainLine(line: string) {
    '\n' !in line && (line == "" || line[|line| - 1] != '\r')
  }

  ghost predicate AllPlain(lines: seq<string>) {
    forall k | 0 <= k < |lines| :: PlainLine(lines[k])
  }

  /** Joined lines read as those lines. */
  lemma {:induction false} LinesOfJoined(lines: seq<string>, nl: string)
    requires AllPlain(lines) && (nl == LF || nl == CRLF)
    ensures Lines(Joined(lines, nl)) == lines && WholeLines(Joined(lines, nl))
  {
    if lines != [] {
      var front, last := lines[..|lines| - 1], lines[|lines| - 1];
      assert PlainLine(last) && lines == front + [last];
      FrontIsPlain(lines);
      LinesOfJoined(front, nl);
      OneLineMore(Joined(front, nl), front, last, nl);
    }
  }

  lemma FrontIsPlain(lines: seq<string>)
    requires lines != [] && AllPlain(lines)
    ensures AllPlain(lines[..|lines| - 1])
  {
  }

  lemma OneLineMore(text: string, lines: seq<string>, last: string, nl: string)
    requires WholeLines(text) && Lines(text) == lines && PlainLine(last) && (nl == LF || nl == CRLF)
    ensures Lines(text + last + nl) == lines + [last] && WholeLines(text + last + nl)
  {
    var ended := last + nl;
    OneWholeLine(last, nl);
    LinesConcat(text, ended);
    assert text + last + nl == text + ended;
    WholeConcat(text, ended);
  }

  lemma WholeConcat(a: string, b: string)
    requires WholeLines(a) && WholeLines(b)
    ensures WholeLines(a + b)
  {
    if b == "" {
      assert a + b == a;
    }
  }

  lemma ShortLinesArePlain()
    ensures PlainLine("[[keys.command]]") && PlainLine("type = \"plugin_action\"") && PlainLine("command = \"open-sidebar\"")
  {
    var a, b, c := "[[keys.command]]", "type = \"plugin_action\"", "command = \"open-sidebar\"";
    assert forall k | 0 <= k < |a| :: a[k] != '\n';
    assert forall k | 0 <= k < |b| :: b[k] != '\n';
    assert forall k | 0 <= k < |c| :: c[k] != '\n';
  }

  lemma DescriptionIsPlain()
    ensures PlainLine(DESCRIBES + TITLE)
  {
    TitleIsOneLine();
    assert forall k | 0 <= k < |DESCRIBES| :: DESCRIBES[k] != '\n';
  }

  lemma TitleIsOneLine()
    ensures '\n' !in TITLE && TITLE != "" && TITLE[|TITLE| - 1] != '\r'
  {
    var a, b := "\"Open the Agent ", "Watcher sidebar\"";
    assert forall k | 0 <= k < |a| :: a[k] != '\n';
    assert forall k | 0 <= k < |b| :: b[k] != '\n' && b[k] != '\r';
    assert TITLE == a + b && TITLE[|TITLE| - 1] == b[|b| - 1];
  }

  lemma KeyLineIsPlain(key: string)
    requires '\n' !in key
    ensures PlainLine("key = \"" + key + "\"")
  {
    var a, c := "key = \"", "\"";
    assert '\n' !in a && '\n' !in c;
  }

  lemma BlockIsPlain(key: string)
    requires '\n' !in key
    ensures AllPlain(BlockLines(key))
  {
    MarkerIsOneLine();
    ShortLinesArePlain();
    DescriptionIsPlain();
    KeyLineIsPlain(key);
  }

  lemma AssignmentIsRead(d: Document, line: string, at: nat)
    requires line != "" && line[0] != '#' && line[0] != '[' && OccursAt(line, " = ", at)
    requires d.place == LastEntry && d.entries != []
    ensures Read(d, line) == Ok(d.(entries := d.entries[..|d.entries| - 1] + [d.entries[|d.entries| - 1] + [line]]))
  {
    assert Contains(line, " = ");
    assert line != ENTRY_HEADER by {
      assert ENTRY_HEADER[0] == '[';
    }
  }

  /** Extending the last entry of a document. */
  lemma ExtendsLast(d: Document, entry: Entry, more: Entry)
    requires d.place == LastEntry
    ensures
      var now := d.(entries := d.entries + [entry]);
      now.entries != [] && now.entries[|now.entries| - 1] == entry && now.entries[..|now.entries| - 1] == d.entries
  {
  }

  lemma EqualsAt(line: string, at: nat)
    requires at + 3 <= |line| && line[at] == ' ' && line[at + 1] == '=' && line[at + 2] == ' '
    requires line[0] != '#' && line[0] != '['
    ensures Assigns(line)
  {
    assert line[at..at + 3] == " = ";
    assert OccursAt(line, " = ", at);
  }

  lemma ReadCons(d: Document, line: string, rest: seq<string>)
    ensures ReadAll(d, [line] + rest) == (var next := Read(d, line); if next.Err? then next else ReadAll(next.value, rest))
  {
    assert ([line] + rest)[1..] == rest;
  }

  lemma {:induction false} AssignmentsAreRead(d: Document, entry: Entry, lines: seq<string>)
    requires d.place == LastEntry
    requires forall k | 0 <= k < |lines| :: Assigns(lines[k])
    ensures ReadAll(d.(entries := d.entries + [entry]), lines) == Ok(d.(entries := d.entries + [entry + lines]))
    decreases |lines|
  {
    var now := d.(entries := d.entries + [entry]);
    if lines == [] {
      assert entry + lines == entry;
    } else {
      assert Assigns(lines[0]);
      var at: nat :| OccursAt(lines[0], " = ", at);
      AssignmentIsRead(now, lines[0], at);
      ExtendsLast(d, entry, []);
      AssignmentsAreRead(d, entry + [lines[0]], lines[1..]);
      assert entry + [lines[0]] + lines[1..] == entry + lines;
    }
  }

  lemma TypeAssigns()
    ensures Assigns("type = \"plugin_action\"")
  {
    EqualsAt("type = \"plugin_action\"", 4);
  }

  lemma CommandAssigns()
    ensures Assigns("command = \"open-sidebar\"")
  {
    EqualsAt("command = \"open-sidebar\"", 7);
  }

  lemma DescriptionAssigns()
    ensures Assigns(DESCRIBES + TITLE)
  {
    ContinuedAssigns(DESCRIBES, TITLE, 11);
  }

  lemma ContinuedAssigns(start: string, rest: string, at: nat)
    requires at + 3 <= |start| && start[0] != '#' && start[0] != '['
    requires start[at] == ' ' && start[at + 1] == '=' && start[at + 2] == ' '
    ensures Assigns(start + rest)
  {
    EqualsAt(start + rest, at);
  }

  lemma AllAssign(lines: seq<string>, a: string, b: string, c: string, d: string)
    requires lines == [a, b, c, d] && Assigns(a) && Assigns(b) && Assigns(c) && Assigns(d)
    ensures |lines| == 4 && forall k | 0 <= k < |lines| :: Assigns(lines[k])
  {
  }

  lemma OursAreAssignments(key: string)
    ensures |Ours(key)| == 4 && forall k | 0 <= k < |Ours(key)| :: Assigns(Ours(key)[k])
  {
    KeyAssigns(key);
    TypeAssigns();
    CommandAssigns();
    DescriptionAssigns();
    var lines := Ours(key);
    AllAssign(lines, lines[0], lines[1], lines[2], lines[3]);
  }

  lemma KeyAssigns(key: string)
    ensures Assigns("key = \"" + key + "\"")
  {
    var start := "key = \"";
    ContinuedAssigns(start, key + "\"", 3);
    assert start + (key + "\"") == start + key + "\"";
  }

  /** An assignment line, wherever its equals sign is. */
  ghost predicate Assigns(line: string) {
    line != "" && line[0] != '#' && line[0] != '[' && Contains(line, " = ")
  }

  /** Reading the block adds one entry, unless `keys.command` is an inline array. */
  lemma BlockIsRead(d: Document, key: string)
    ensures ReadAll(d, BlockLines(key)) ==
            if d.inline then Err("keys.command is an inline array")
            else Ok(Document(LastEntry, false, d.entries + [Ours(key)]))
  {
    var header := d.(place := LastEntry, entries := d.entries + [[]]);
    assert BlockLines(key) == [MARKER] + ([ENTRY_HEADER] + Ours(key));
    assert MARKER[0] == '#' by {
      assert OWNER[0] == '#';
    }
    ReadCons(d, MARKER, [ENTRY_HEADER] + Ours(key));
    ReadCons(d, ENTRY_HEADER, Ours(key));
    if !d.inline {
      OursAreAssignments(key);
      AssignmentsAreRead(d.(place := LastEntry), [], Ours(key));
      assert [] + Ours(key) == Ours(key);
    }
  }

  // ----- with the block and without it -----

  /** Blank lines, as many as the separator before a block can make. */
  function Blanks(n: nat): seq<string> {
    if n == 0 then [] else [""] + Blanks(n - 1)
  }

  /** The lines of a block with its separator. */
  function BlockWith(n: nat, key: string): seq<string> {
    Blanks(n) + BlockLines(key)
  }

  lemma SeparatorIsBlanks(existing: string, nl: string, block: seq<string>) returns (n: nat)
    ensures Separator(existing, nl) + Joined(block, nl) == Joined(Blanks(n) + block, nl)
  {
    if existing == "" {
      n := 0;
      assert Blanks(0) + block == block;
    } else if EndsWith(existing, nl) {
      n := 1;
      assert Blanks(1) + block == [""] + block;
      JoinedCons("", block, nl);
    } else {
      n := 2;
      assert Blanks(2) + block == [""] + ([""] + block);
      JoinedCons("", block, nl);
      JoinedCons("", [""] + block, nl);
      assert nl + nl + Joined(block, nl) == "" + nl + ("" + nl + Joined(block, nl));
    }
  }

  /** What `append_block` adds is the block after none, one or two line ends. */
  lemma AppendedIsBlock(existing: string, key: string) returns (n: nat)
    ensures Appended(existing, key) == Joined(BlockWith(n, key), LineEnding(existing))
  {
    n := SeparatorIsBlanks(existing, LineEnding(existing), BlockLines(key));
  }

  lemma {:induction false} BlanksAreSkipped(d: Document, n: nat, rest: seq<string>)
    ensures ReadAll(d, Blanks(n) + rest) == ReadAll(d, rest)
  {
    if n == 0 {
      assert Blanks(0) + rest == rest;
    } else {
      assert Blanks(n) + rest == [""] + (Blanks(n - 1) + rest);
      ReadCons(d, "", Blanks(n - 1) + rest);
      BlanksAreSkipped(d, n - 1, rest);
    }
  }

  lemma {:induction false} BlanksArePlain(n: nat, rest: seq<string>)
    requires AllPlain(rest)
    ensures AllPlain(Blanks(n) + rest)
  {
    if n == 0 {
      assert Blanks(0) + rest == rest;
    } else {
      BlanksArePlain(n - 1, rest);
      assert Blanks(n) + rest == [""] + (Blanks(n - 1) + rest);
    }
  }

  /** A block's text reads as its lines. */
  lemma BlockReads(n: nat, key: string, nl: string)
    requires '\n' !in key && (nl == LF || nl == CRLF)
    ensures
      var appended := Joined(BlockWith(n, key), nl);
      Lines(appended) == BlockWith(n, key) && WholeLines(appended) && Entries(appended) == Ok([Ours(key)])
  {
    BlockIsPlain(key);
    BlanksArePlain(n, BlockLines(key));
    LinesOfJoined(BlockWith(n, key), nl);
    BlanksAreSkipped(NO_LINES, n, BlockLines(key));
    BlockIsRead(NO_LINES, key);
    assert [] + [Ours(key)] == [Ours(key)];
  }

  /** A text with the block in it, cut where the block starts and ends. */
  lemma AroundTheBlock(pre: string, n: nat, key: string, nl: string, post: string)
    requires WholeLines(pre) && '\n' !in key && (nl == LF || nl == CRLF)
    ensures
      var d := ReadAll(NO_LINES, Lines(pre));
      && ReadAll(NO_LINES, Lines(pre + Joined(BlockWith(n, key), nl) + post)) ==
           (if d.Err? then d
            else if d.value.inline then Err("keys.command is an inline array")
            else ReadAll(Document(LastEntry, false, d.value.entries + [Ours(key)]), Lines(post)))
      && ReadAll(NO_LINES, Lines(pre + post)) == (if d.Err? then d else ReadAll(d.value, Lines(post)))
  {
    var appended := Joined(BlockWith(n, key), nl);
    BlockReads(n, key, nl);
    assert pre + appended + post == pre + (appended + post);
    LinesConcat(pre, appended + post);
    LinesConcat(appended, post);
    LinesConcat(pre, post);
    ReadConcat(NO_LINES, Lines(pre), Lines(appended) + Lines(post));
    ReadConcat(NO_LINES, Lines(pre), Lines(post));
    var d := ReadAll(NO_LINES, Lines(pre));
    if d.Ok? {
      ReadConcat(d.value, BlockWith(n, key), Lines(post));
      BlanksAreSkipped(d.value, n, BlockLines(key));
      BlockIsRead(d.value, key);
    }
  }

  /** What follows, read after the block and without it: one entry more, as long as the two read alike. */
  ghost predicate OneMore(d: Document, e: Document) {
    && !d.inline && !e.inline && |d.entries| == |e.entries| + 1
    && (d.place == e.place || d.place == LastEntry)
    && (e.place == LastEntry ==> e.entries != [])
    && (e.entries == [] ==> |d.entries[0]| >= 4)
  }

  /** Or an inline array that is one only without the block, the block having swallowed its line. */
  ghost predicate Swallowed(d: Document, e: Document) {
    && !d.inline && e.inline && |d.entries| == |e.entries| == 1 && |d.entries[0]| > 4
    && e.place.Table? && (d.place == e.place || d.place == LastEntry)
  }

  lemma ReadTogether(d: Document, e: Document, line: string)
    requires OneMore(d, e) || Swallowed(d, e)
    requires Read(d, line).Ok? && Read(e, line).Ok?
    ensures OneMore(Read(d, line).value, Read(e, line).value) || Swallowed(Read(d, line).value, Read(e, line).value)
  {
    if IsAssignment(line) && line != ENTRY_HEADER && !Skipped(line) && !IsHeader(line) {
      AssignTogether(d, e, line);
    }
  }

  lemma AssignTogether(d: Document, e: Document, line: string)
    requires OneMore(d, e) || Swallowed(d, e)
    requires Assign(d, line).Ok? && Assign(e, line).Ok?
    ensures OneMore(Assign(d, line).value, Assign(e, line).value) || Swallowed(Assign(d, line).value, Assign(e, line).value)
  {
    if d.place == LastEntry {
      var now := Assign(d, line).value;
      assert |now.entries| == |d.entries|;
      assert |d.entries| == 1 ==> now.entries[0] == d.entries[0] + [line];
    }
  }

  lemma {:induction false} ReadAllTogether(d: Document, e: Document, lines: seq<string>)
    requires OneMore(d, e) || Swallowed(d, e)
    requires ReadAll(d, lines).Ok? && ReadAll(e, lines).Ok?
    ensures OneMore(ReadAll(d, lines).value, ReadAll(e, lines).value) || Swallowed(ReadAll(d, lines).value, ReadAll(e, lines).value)
    decreases |lines|
  {
    if lines != [] {
      ReadTogether(d, e, lines[0]);
      ReadAllTogether(Read(d, lines[0]).value, Read(e, lines[0]).value, lines[1..]);
    }
  }

  lemma {:induction false} ReadKeepsPlace(d: Document, lines: seq<string>)
    requires d.place == LastEntry ==> d.entries != []
    ensures ReadAll(d, lines).Ok? ==> ReadAll(d, lines).value.place == LastEntry ==> ReadAll(d, lines).value.entries != []
    decreases |lines|
  {
    if lines != [] && Read(d, lines[0]).Ok? {
      ReadKeepsPlace(Read(d, lines[0]).value, lines[1..]);
    }
  }

  lemma OnlyEntryIsLost(before: seq<Entry>, after: seq<Entry>, ours: Entry)
    requires |before| == 1 && multiset(before) - multiset(after) == multiset{ours}
    ensures before[0] == ours
  {
    assert before == [before[0]];
    assert (multiset(before) - multiset(after))[ours] == 1;
    assert ours in multiset(before);
  }

  /**
   Where what `append_block` added starts at the start of a line, a removal that
   goes through gains nothing, whatever has come to be around it: the entries
   after it are those before it less the block's own.
   */
  lemma RemovalAtALineStartGainsNothing(existing: string, key: string, pre: string, post: string)
    requires WholeLines(pre) && '\n' !in key
    requires RemovalOutcome(Entries, pre + Appended(existing, key) + post, Appended(existing, key), |pre|).Ok?
    ensures Entries(pre + Appended(existing, key) + post).Ok? && Entries(pre + post).Ok?
    ensures multiset(Entries(pre + Appended(existing, key) + post).value) == multiset(Entries(pre + post).value) + multiset{Ours(key)}
  {
    var nl := LineEnding(existing);
    var n := AppendedIsBlock(existing, key);
    BlockReads(n, key, nl);
    WhatSuccessMeans(Entries, pre, Appended(existing, key), post);
    OneFewerAround(pre, n, key, nl, post);
  }

  lemma WhatSuccessMeans<E>(parse: Parser<E>, pre: string, appended: string, post: string)
    requires RemovalOutcome(parse, pre + appended + post, appended, |pre|).Ok?
    ensures parse(appended).Ok? && |parse(appended).value| == 1 && parse(pre + appended + post).Ok? && parse(pre + post).Ok?
    ensures
      var before, after, ours := parse(pre + appended + post).value, parse(pre + post).value, parse(appended).value[0];
      && multiset(before) - multiset(after) == multiset{ours}
      && (|before| == |after| + 1 ==> multiset(before) == multiset(after) + multiset{ours})
  {
    var current := pre + appended + post;
    assert Splice(current, |pre|, |appended|) == pre + post;
    RemovalLosesExactlyTheEntry(parse, current, appended, |pre|);
    OneEntryFewerExactly(parse, current, appended, |pre|);
  }

  lemma OneFewerAround(pre: string, n: nat, key: string, nl: string, post: string)
    requires WholeLines(pre) && '\n' !in key && (nl == LF || nl == CRLF)
    requires
      var appended := Joined(BlockWith(n, key), nl);
      && Entries(pre + appended + post).Ok? && Entries(pre + post).Ok?
      && multiset(Entries(pre + appended + post).value) - multiset(Entries(pre + post).value) == multiset{Ours(key)}
    ensures |Entries(pre + Joined(BlockWith(n, key), nl) + post).value| == |Entries(pre + post).value| + 1
  {
    var appended := Joined(BlockWith(n, key), nl);
    OursAreAssignments(key);
    AroundTheBlock(pre, n, key, nl, post);
    OneMoreAfterThePrefix(pre, key, post, Entries(pre + appended + post).value, Entries(pre + post).value);
  }

  lemma OneMoreAfterThePrefix(pre: string, key: string, post: string, before: seq<Entry>, after: seq<Entry>)
    requires
      var d := ReadAll(NO_LINES, Lines(pre));
      && d.Ok? && !d.value.inline
      && var with, without := ReadAll(Document(LastEntry, false, d.value.entries + [Ours(key)]), Lines(post)), ReadAll(d.value, Lines(post));
      with.Ok? && without.Ok? && with.value.entries == before && without.value.entries == after
    requires |Ours(key)| == 4 && multiset(before) - multiset(after) == multiset{Ours(key)}
    ensures |before| == |after| + 1
  {
    var d := ReadAll(NO_LINES, Lines(pre)).value;
    ReadKeepsPlace(NO_LINES, Lines(pre));
    ReadAllTogether(Document(LastEntry, false, d.entries + [Ours(key)]), d, Lines(post));
    if |before| == 1 {
      OnlyEntryIsLost(before, after, Ours(key));
    }
  }

  /** For any parser to which the text around the block reads as it does without it, nothing is gained. */
  lemma LocalParsesGainNothing<E>(parse: Parser<E>, pre: string, appended: string, post: string, a: seq<E>, ours: E, b: seq<E>)
    requires parse(appended) == Ok([ours])
    requires parse(pre + appended + post) == Ok(a + [ours] + b) && parse(pre + post) == Ok(a + b)
    ensures RemovalOutcome(parse, pre + appended + post, appended, |pre|) == Ok(pre + post)
    ensures multiset(a + [ours] + b) == multiset(a + b) + multiset{ours}
  {
    var current := pre + appended + post;
    assert Splice(current, |pre|, |appended|) == pre + post;
    assert multiset(a + [ours] + b) - multiset(a + b) == multiset{ours};
    RemovalLosesExactlyTheEntry(parse, current, appended, |pre|);
  }

  // ----- where something is gained -----

  /** A file whose last line, a comment, has no line end. */
  const UNFINISHED := "[keys]\n# c"

  /** What is written below the block later: another table, with an inline array of its own. */
  function Later(inner: string): string {
    "[other]" + LF + InlineLine(inner) + LF
  }

  predicate NoDouble(text: string) {
    forall i | 0 <= i < |text| - 1 :: !(text[i] == '\n' && text[i + 1] == '\n')
  }

  lemma {:induction false} JoinedHasNoDouble(lines: seq<string>)
    requires forall k | 0 <= k < |lines| :: lines[k] != "" && '\n' !in lines[k]
    ensures NoDouble(Joined(lines, LF))
  {
    if lines != [] {
      var front, last := lines[..|lines| - 1], lines[|lines| - 1];
      assert forall k | 0 <= k < |front| :: front[k] == lines[k];
      JoinedHasNoDouble(front);
      OneMoreNoDouble(Joined(front, LF), last);
    }
  }

  lemma OneMoreNoDouble(text: string, line: string)
    requires NoDouble(text) && line != "" && '\n' !in line
    ensures NoDouble(text + line + LF)
  {
    var whole := text + line + LF;
    forall i | 0 <= i < |whole| - 1 ensures !(whole[i] == '\n' && whole[i + 1] == '\n') {
      if i + 1 < |text| {
        assert whole[i] == text[i] && whole[i + 1] == text[i + 1];
      } else if i + 1 < |text| + |line| {
        assert whole[i + 1] == line[i + 1 - |text|] && line[i + 1 - |text|] in line;
      } else {
        assert whole[i] == line[i - |text|] && line[i - |text|] in line;
      }
    }
  }

  /** Two line ends together stand in one place only. */
  lemma DoubleIsOnce(before: string, after: string, at: nat)
    requires NoDouble(before) && NoDouble(after) && before != "" && before[|before| - 1] != '\n' && after != "" && after[0] != '\n'
    requires at + 1 < |before + "\n\n" + after|
    requires (before + "\n\n" + after)[at] == '\n' && (before + "\n\n" + after)[at + 1] == '\n'
    ensures at == |before|
  {
    var whole, n := before + "\n\n" + after, |before|;
    forall i: nat | i + 1 < |whole| && i != n ensures !(whole[i] == '\n' && whole[i + 1] == '\n') {
      if i + 1 < n {
        assert whole[i] == before[i] && whole[i + 1] == before[i + 1];
      } else if i + 1 == n {
        assert whole[i] == before[n - 1];
      } else if i == n + 1 {
        assert whole[i + 1] == after[0];
      } else {
        assert whole[i] == after[i - n - 2] && whole[i + 1] == after[i - n - 1];
      }
    }
  }

  lemma UnfinishedFacts()
    ensures LineEnding(UNFINISHED) == LF && UNFINISHED != "" && !EndsWith(UNFINISHED, LF)
    ensures NoDouble(UNFINISHED) && UNFINISHED[|UNFINISHED| - 1] != '\n'
    ensures UNFINISHED == "[keys]" + LF + "# c"
  {
    LineEndingIsCrLfExactly(UNFINISHED);
    assert UNFINISHED[6] == '\n' && UNFINISHED[5] == ']';
    assert !EndsWith(UNFINISHED, LF) by {
      assert UNFINISHED[|UNFINISHED| - 1..] == "c";
    }
  }

  lemma OneBlank(block: seq<string>, nl: string)
    ensures Joined(Blanks(1) + block, nl) == nl + Joined(block, nl)
  {
    assert Blanks(1) + block == [""] + block;
    JoinedCons("", block, nl);
  }

  lemma TwoBlanks(block: seq<string>, nl: string)
    ensures Joined(Blanks(2) + block, nl) == nl + nl + Joined(block, nl)
  {
    assert Blanks(2) + block == [""] + (Blanks(1) + block);
    OneBlank(block, nl);
    JoinedCons("", Blanks(1) + block, nl);
    assert nl + (nl + Joined(block, nl)) == nl + nl + Joined(block, nl);
  }

  /** What is appended to a text without a line end, and the whole that makes with what comes later. */
  lemma AppendedToUnfinished(text: string, key: string, later: string)
    requires LineEnding(text) == LF && text != "" && !EndsWith(text, LF)
    ensures Appended(text, key) == LF + LF + Joined(BlockLines(key), LF) == Joined(BlockWith(2, key), LF)
    ensures text + Appended(text, key) + later == (text + LF) + Joined(BlockWith(1, key), LF) + later
  {
    OneBlank(BlockLines(key), LF);
    TwoBlanks(BlockLines(key), LF);
    MoveOne(text, LF, Joined(BlockLines(key), LF), later);
  }

  lemma MoveOne(text: string, nl: string, block: string, later: string)
    ensures text + (nl + nl + block) + later == (text + nl) + (nl + block) + later
  {
  }

  function InlineLine(inner: string): string {
    INLINE_START + inner + INLINE_END
  }

  lemma InlineLineFacts(inner: string)
    requires '\n' !in inner
    ensures PlainLine(InlineLine(inner)) && InlineLine(inner) != "" && IsInline(InlineLine(inner)) && InlineEntry(InlineLine(inner)) == [inner]
    ensures !Skipped(InlineLine(inner)) && InlineLine(inner) != ENTRY_HEADER && !IsHeader(InlineLine(inner)) && IsAssignment(InlineLine(inner))
  {
    var line, start, end := InlineLine(inner), INLINE_START, INLINE_END;
    assert line[0] == start[0] == 'c' && ENTRY_HEADER[0] == '[';
    assert line[7] == start[7] && line[8] == start[8] && line[9] == start[9];
    EqualsAt(line, 7);
    assert line[|line| - 1] == end[|end| - 1];
    assert forall k | 0 <= k < |start| :: start[k] != '\n';
    assert forall k | 0 <= k < |end| :: end[k] != '\n';
    assert line[..|start|] == start && line[|line| - |end|..] == end && line[|start|..|line| - |end|] == inner;
  }

  lemma InlineLineIsRead(d: Document, inner: string)
    requires '\n' !in inner
    ensures d.place.Table? && d.place.name != "keys" ==> Read(d, InlineLine(inner)) == Ok(d)
    ensures d == Document(Table("keys"), false, []) ==> Read(d, InlineLine(inner)) == Ok(Document(Table("keys"), true, [[inner]]))
  {
    InlineLineFacts(inner);
  }

  lemma ShortLines()
    ensures PlainLine("[keys]") && PlainLine("[other]") && PlainLine("# c") && PlainLine("# c[other]")
    ensures Skipped("# c") && Skipped("# c[other]") && "# c" + "[other]" == "# c[other]"
  {
  }

  lemma ShortHeaders(d: Document)
    ensures Read(d, "[keys]") == Ok(d.(place := Table("keys")))
    ensures Read(d, "[other]") == Ok(d.(place := Table("other")))
  {
    assert |ENTRY_HEADER| == 16;
    assert "[keys]"[1..5] == "keys" && "[other]"[1..6] == "other";
  }

  lemma LinesOfTwo(a: string, b: string)
    requires PlainLine(a) && PlainLine(b)
    ensures Lines(a + LF + b + LF) == [a, b] && WholeLines(a + LF + b + LF)
  {
    OneWholeLine(a, LF);
    OneLineMore(a + LF, [a], b, LF);
    assert [a] + [b] == [a, b];
  }

  lemma ReadTwo(d: Document, a: string, b: string)
    requires Read(d, a).Ok?
    ensures ReadAll(d, [a, b]) == Read(Read(d, a).value, b)
  {
    assert [a, b] == [a] + [b] && [b] == [b] + [];
    ReadCons(d, a, [b]);
    ReadCons(Read(d, a).value, b, []);
  }

  /** With the block, a header written below it opens its table. */
  lemma WithTheBlock(text: string, key: string, keys: Document, other: string, line: string, bound: Document, open: Document)
    requires LineEnding(text) == LF && text != "" && !EndsWith(text, LF)
    requires '\n' !in key && PlainLine(other) && PlainLine(line)
    requires WholeLines(text + LF) && ReadAll(NO_LINES, Lines(text + LF)) == Ok(keys) && !keys.inline
    requires bound == Document(LastEntry, false, keys.entries + [Ours(key)])
    requires Read(bound, other) == Ok(open) && Read(open, line) == Ok(open)
    ensures Entries(text + Appended(text, key) + (other + LF + line + LF)) == Ok(open.entries)
  {
    var later := other + LF + line + LF;
    AppendedToUnfinished(text, key, later);
    AroundTheBlock(text + LF, 1, key, LF, later);
    LinesOfTwo(other, line);
    ReadTwo(bound, other, line);
  }

  /** Without it, the header is part of the comment above. */
  lemma WithoutTheBlock(header: string, comment: string, keys: Document, other: string, line: string, end: Document)
    requires PlainLine(header) && PlainLine(comment + other) && PlainLine(line) && Skipped(comment + other)
    requires Read(NO_LINES, header) == Ok(keys) && Read(keys, line) == Ok(end)
    ensures Entries(header + LF + comment + (other + LF + line + LF)) == Ok(end.entries)
  {
    var whole := header + LF + comment + (other + LF + line + LF);
    assert whole == header + LF + ((comment + other) + LF + line + LF);
    OneWholeLine(header, LF);
    LinesConcat(header + LF, (comment + other) + LF + line + LF);
    LinesOfTwo(comment + other, line);
    ReadCons(NO_LINES, header, [comment + other, line]);
    ReadTwo(keys, comment + other, line);
  }

  /** With the block the later inline array belongs to the other table; without it, to `keys`. */
  lemma ReadUnfinished(key: string, inner: string)
    requires '\n' !in key && '\n' !in inner
    ensures Entries(UNFINISHED + Appended(UNFINISHED, key) + Later(inner)) == Ok([Ours(key)])
    ensures Entries(UNFINISHED + Later(inner)) == Ok([[inner]])
  {
    var keys := Document(Table("keys"), false, []);
    var bound, open := Document(LastEntry, false, keys.entries + [Ours(key)]), Document(Table("other"), false, [Ours(key)]);
    var line := InlineLine(inner);
    assert keys.entries + [Ours(key)] == [Ours(key)];
    UnfinishedFacts();
    ShortLines();
    InlineLineFacts(inner);
    UnfinishedIsRead();
    ShortHeaders(NO_LINES);
    ShortHeaders(bound);
    InlineLineIsRead(open, inner);
    InlineLineIsRead(keys, inner);
    WithTheBlock(UNFINISHED, key, keys, "[other]", line, bound, open);
    WithoutTheBlock("[keys]", "# c", keys, "[other]", line, Document(Table("keys"), true, [[inner]]));
  }

  lemma UnfinishedIsRead()
    ensures WholeLines(UNFINISHED + LF) && ReadAll(NO_LINES, Lines(UNFINISHED + LF)) == Ok(Document(Table("keys"), false, []))
  {
    UnfinishedFacts();
    ShortLines();
    ShortHeaders(NO_LINES);
    LinesOfTwo("[keys]", "# c");
    ReadTwo(NO_LINES, "[keys]", "# c");
  }

  lemma DoubleMarksThePlace(text: string, block: string, later: string)
    requires NoDouble(text) && text != "" && text[|text| - 1] != '\n'
    requires NoDouble(block + later) && block + later != "" && (block + later)[0] != '\n'
    ensures OnlyAt(text + (LF + LF + block) + later, LF + LF + block, |text|)
  {
    var appended := LF + LF + block;
    var current := text + appended + later;
    assert current == text + "\n\n" + (block + later);
    assert OccursAt(current, appended, |text|);
    forall at: nat | OccursAt(current, appended, at) ensures at == |text| {
      var part := current[at..at + |appended|];
      assert part[0] == current[at] && part[1] == current[at + 1] && appended[0] == appended[1] == '\n';
      DoubleIsOnce(text, block + later, at);
    }
  }

  lemma OnlyWhereItWasPut(key: string, inner: string)
    requires '\n' !in key && '\n' !in inner
    ensures OnlyAt(UNFINISHED + Appended(UNFINISHED, key) + Later(inner), Appended(UNFINISHED, key), |UNFINISHED|)
  {
    UnfinishedFacts();
    AppendedToUnfinished(UNFINISHED, key, Later(inner));
    RestHasNoDouble(key, inner);
    DoubleMarksThePlace(UNFINISHED, Joined(BlockLines(key), LF), Later(inner));
  }

  lemma RestHasNoDouble(key: string, inner: string)
    requires '\n' !in key && '\n' !in inner
    ensures
      var rest := Joined(BlockLines(key), LF) + Later(inner);
      NoDouble(rest) && rest != "" && rest[0] != '\n'
  {
    JoinedBlockHasNoDouble(key);
    ShortLines();
    InlineLineFacts(inner);
    TwoMoreNoDouble(Joined(BlockLines(key), LF), "[other]", InlineLine(inner));
  }

  lemma JoinedBlockHasNoDouble(key: string)
    requires '\n' !in key
    ensures
      var block := Joined(BlockLines(key), LF);
      NoDouble(block) && block != "" && block[0] != '\n'
  {
    BlockIsPlain(key);
    BlockLinesAreNotEmpty(key);
    JoinedHasNoDouble(BlockLines(key));
    JoinedStarts(BlockLines(key), LF);
    MarkerIsOneLine();
    StartsAlike(Joined(BlockLines(key), LF), MARKER);
  }

  lemma StartsAlike(text: string, start: string)
    requires start != "" && |start| <= |text| && text[..|start|] == start
    ensures text[0] == start[0]
  {
    assert text[..|start|][0] == text[0];
  }

  lemma TwoMoreNoDouble(text: string, a: string, b: string)
    requires NoDouble(text) && text != "" && text[0] != '\n' && a != "" && b != "" && '\n' !in a && '\n' !in b
    ensures
      var rest := text + (a + LF + b + LF);
      NoDouble(rest) && rest != "" && rest[0] != '\n'
  {
    OneMoreNoDouble(text, a);
    OneMoreNoDouble(text + a + LF, b);
    assert text + (a + LF + b + LF) == text + a + LF + b + LF;
  }

  lemma BlockLinesAreNotEmpty(key: string)
    ensures forall k | 0 <= k < |BlockLines(key)| :: BlockLines(key)[k] != ""
  {
    MarkerIsOneLine();
  }

  /**
   Elsewhere something can be gained: bind a key in a file that ends in an
   unfinished comment under `[keys]`, write a table with an inline `command`
   array below it, and unbind. The header of that table is now part of the
   comment, and the array has become the file's bindings. The removal goes
   through, whatever the key and whatever the array binds.
   */
  lemma RemovalElsewhereCanGain(key: string, inner: string)
    requires '\n' !in key && '\n' !in inner
    ensures
      var appended := Appended(UNFINISHED, key);
      var current := UNFINISHED + appended + Later(inner);
      && OnlyAt(current, appended, |UNFINISHED|)
      && RemovalOutcome(Entries, current, appended, |UNFINISHED|) == Ok(UNFINISHED + Later(inner))
      && Entries(current) == Ok([Ours(key)])
      && Entries(UNFINISHED + Later(inner)) == Ok([[inner]])
  {
    OnlyWhereItWasPut(key, inner);
    UnfinishedFacts();
    AppendedToUnfinished(UNFINISHED, key, Later(inner));
    BlockReads(2, key, LF);
    ReadUnfinished(key, inner);
    OursAreAssignments(key);
    OneForAnother(Entries, UNFINISHED, Appended(UNFINISHED, key), Later(inner), Ours(key), [inner]);
  }

  /** A removal that takes one entry and brings another goes through. */
  lemma OneForAnother<E>(parse: Parser<E>, pre: string, appended: string, post: string, ours: E, other: E)
    requires parse(appended) == Ok([ours]) && parse(pre + appended + post) == Ok([ours]) && parse(pre + post) == Ok([other])
    requires ours != other
    ensures RemovalOutcome(parse, pre + appended + post, appended, |pre|) == Ok(pre + post)
  {
    assert Splice(pre + appended + post, |pre|, |appended|) == pre + post;
    assert multiset([ours]) - multiset([other]) == multiset{ours};
    RemovalLosesExactlyTheEntry(parse, pre + appended + post, appended, |pre|);
  }
}
