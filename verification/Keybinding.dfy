/**
 Adding the managed keybinding to a config file's text and splicing it out
 again. The TOML parser is a parameter: a function from text to entries.
 */
module Keybinding {
  import opened Wrappers
  import opened Substrings

  const OWNER := "# herdr-agent-watcher: "
  const PURPOSE := "managed keybinding. "
  const REMEDY := "Remove with `unbind-sidebar-key`."
  const MARKER := OWNER + PURPOSE + REMEDY
  const LF := "\n"
  const CRLF := "\r\n"

  // ----- line endings -----

  /** `replace("\r\n", "")` */
  function DropCrLf(text: string): string {
    if text == [] then []
    else if |text| >= 2 && text[0] == '\r' && text[1] == '\n' then DropCrLf(text[2..])
    else [text[0]] + DropCrLf(text[1..])
  }

  ghost function LineEnding(text: string): string {
    if Contains(text, CRLF) && '\n' !in DropCrLf(text) then CRLF else LF
  }

  ghost predicate AllCrLf(text: string) {
    forall i | 0 <= i < |text| && text[i] == '\n' :: i > 0 && text[i - 1] == '\r'
  }

  lemma {:induction false} DropCrLfLeavesLoneNewlines(text: string)
    ensures '\n' !in DropCrLf(text) <==> AllCrLf(text)
  {
    if text == [] {
    } else if |text| >= 2 && text[0] == '\r' && text[1] == '\n' {
      var rest := text[2..];
      DropCrLfLeavesLoneNewlines(rest);
      assert forall i | 2 <= i < |text| :: text[i] == rest[i - 2];
      if AllCrLf(text) {
        forall i | 0 <= i < |rest| && rest[i] == '\n' ensures i > 0 && rest[i - 1] == '\r' {
          assert text[i + 2] == '\n';
        }
      } else {
        var i :| 0 <= i < |text| && text[i] == '\n' && !(i > 0 && text[i - 1] == '\r');
        assert i >= 2 && rest[i - 2] == '\n';
      }
    } else {
      var rest := text[1..];
      DropCrLfLeavesLoneNewlines(rest);
      assert forall i | 1 <= i < |text| :: text[i] == rest[i - 1];
      if AllCrLf(text) {
        forall i | 0 <= i < |rest| && rest[i] == '\n' ensures i > 0 && rest[i - 1] == '\r' {
          assert text[i + 1] == '\n';
        }
      } else if text[0] != '\n' {
        var i :| 0 <= i < |text| && text[i] == '\n' && !(i > 0 && text[i - 1] == '\r');
        assert i >= 1 && rest[i - 1] == '\n';
      }
    }
  }

  /** CRLF exactly when there is a newline and every newline has its return. */
  lemma LineEndingIsCrLfExactly(text: string)
    ensures LineEnding(text) == CRLF <==> '\n' in text && AllCrLf(text)
  {
    DropCrLfLeavesLoneNewlines(text);
    if Contains(text, CRLF) {
      var at: nat :| OccursAt(text, CRLF, at);
      assert text[at + 1] == text[at..at + 2][1] == '\n';
    }
    if '\n' in text && AllCrLf(text) {
      var i :| 0 <= i < |text| && text[i] == '\n';
      assert OccursAt(text, CRLF, i - 1);
    }
  }

  // ----- appending -----

  const DESCRIBES := "description = "
  const TITLE := "\"Open the Agent " + "Watcher sidebar\""

  function BlockLines(key: string): seq<string> {
    [MARKER, "[[keys.command]]", "key = \"" + key + "\"", "type = \"plugin_action\"", "command = \"open-sidebar\"",
     DESCRIBES + TITLE]
  }

  function Joined(lines: seq<string>, nl: string): string {
    if lines == [] then "" else Joined(lines[..|lines| - 1], nl) + lines[|lines| - 1] + nl
  }

  predicate EndsWith(text: string, end: string) {
    |end| <= |text| && text[|text| - |end|..] == end
  }

  function Separator(existing: string, nl: string): string {
    if existing == "" then "" else if EndsWith(existing, nl) then nl else nl + nl
  }

  /** The bytes `append_block` adds. */
  ghost function Appended(existing: string, key: string): string {
    var nl := LineEnding(existing);
    Separator(existing, nl) + Joined(BlockLines(key), nl)
  }

  method FindLineEnding(text: string) returns (nl: string)
    ensures nl == LineEnding(text)
  {
    var crlf := Search(text, CRLF);
    nl := if crlf && '\n' !in DropCrLf(text) then CRLF else LF;
  }

  method AppendBlock(existing: string, key: string) returns (whole: string, appended: string)
    ensures appended == Appended(existing, key)
    ensures whole == existing + appended
  {
    var nl := FindLineEnding(existing);
    appended := "";
    if existing != "" && !EndsWith(existing, nl) {
      appended := appended + nl;
    }
    if existing != "" {
      appended := appended + nl;
    }
    assert appended == Separator(existing, nl);
    appended := PushLines(appended, BlockLines(key), nl);
    whole := existing + appended;
  }

  method PushLines(start: string, lines: seq<string>, nl: string) returns (text: string)
    ensures text == start + Joined(lines, nl)
  {
    text := start;
    for i := 0 to |lines|
      invariant text == start + Joined(lines[..i], nl)
    {
      assert lines[..i + 1][..i] == lines[..i];
      text := text + lines[i];
      text := text + nl;
    }
    assert lines[..|lines|] == lines;
  }

  // ----- removing -----

  datatype Refusal =
    | NotThere
    | Repeated
    | Corrupt(entries: nat)
    | Unparsed(message: string)
    | NotTheBlock
    | WrongEntries(entries: nat)

  type Parser<!E> = string -> Result<seq<E>, string>

  function Splice(text: string, at: nat, length: nat): string
    requires at + length <= |text|
  {
    text[..at] + text[at + length..]
  }

  /** Taking out of `gone` the first element equal to `entry`, if there is one. */
  function Without<E(==)>(gone: seq<E>, entry: E): seq<E> {
    if gone == [] then [] else if gone[0] == entry then gone[1..] else [gone[0]] + Without(gone[1..], entry)
  }

  function Minus<E(==)>(before: seq<E>, after: seq<E>): seq<E> {
    if after == [] then before else Without(Minus(before, after[..|after| - 1]), after[|after| - 1])
  }

  /** Where the next match is looked for: matches do not overlap, and an empty one advances by a character. */
  function After(at: nat, part: string): nat {
    at + if part == "" then 1 else |part|
  }

  /** The one place `part` matches at. */
  ghost predicate OnlyAt(text: string, part: string, at: nat) {
    FirstAt(text, part, 0, at) && forall k: nat | After(at, part) <= k :: !OccursAt(text, part, k)
  }

  ghost predicate Unique(text: string, part: string) {
    exists at: nat :: OnlyAt(text, part, at)
  }

  /** What `remove_block` makes of the one occurrence: the text without it, or why not. */
  function RemovalOutcome<E(==)>(parse: Parser<E>, current: string, appended: string, at: nat): Result<string, Refusal>
    requires at + |appended| <= |current|
  {
    var out := Splice(current, at, |appended|);
    var block, before, after := parse(appended), parse(current), parse(out);
    if block.Err? then Err(Unparsed(block.error))
    else if |block.value| != 1 then Err(Corrupt(|block.value|))
    else if before.Err? then Err(Unparsed(before.error))
    else if after.Err? then Err(Unparsed(after.error))
    else
      var gone := Minus(before.value, after.value);
      if gone == [block.value[0]] then Ok(out)
      else if gone == [] then Err(NotTheBlock)
      else Err(WrongEntries(|gone|))
  }

  method RemoveBlock<E(==)>(parse: Parser<E>, current: string, appended: string) returns (r: Result<string, Refusal>)
    ensures r == Err(NotThere) <==> !Contains(current, appended)
    ensures r == Err(Repeated) <==> Contains(current, appended) && !Unique(current, appended)
    ensures forall at: nat | OnlyAt(current, appended, at) :: r == RemovalOutcome(parse, current, appended, at)
  {
    var first := FindFrom(current, appended, 0);
    if first.None? {
      return Err(NotThere);
    }
    var at := first.value;
    var second := FindFrom(current, appended, After(at, appended));
    if second.Some? {
      return Err(Repeated);
    }
    assert OnlyAt(current, appended, at);
    var out := Splice(current, at, |appended|);
    var block := parse(appended);
    if block.Err? {
      return Err(Unparsed(block.error));
    }
    if |block.value| != 1 {
      return Err(Corrupt(|block.value|));
    }
    var ours := block.value[0];
    var before := parse(current);
    if before.Err? {
      return Err(Unparsed(before.error));
    }
    var after := parse(out);
    if after.Err? {
      return Err(Unparsed(after.error));
    }
    var gone := Subtract(before.value, after.value);
    if |gone| == 1 && gone[0] == ours {
      assert gone == [ours];
      return Ok(out);
    }
    if gone == [] {
      return Err(NotTheBlock);
    }
    return Err(WrongEntries(|gone|));
  }

  lemma PassedOver<E>(gone: seq<E>, entry: E, k: nat)
    requires k < |gone| && gone[k] != entry
    ensures gone[..k] + Without(gone[k..], entry) == gone[..k + 1] + Without(gone[k + 1..], entry)
  {
    assert gone[k..][1..] == gone[k + 1..];
    assert gone[..k] + ([gone[k]] + Without(gone[k + 1..], entry)) == gone[..k + 1] + Without(gone[k + 1..], entry);
  }

  lemma FoundAt<E>(gone: seq<E>, entry: E, k: nat)
    requires k <= |gone| && (k < |gone| ==> gone[k] == entry)
    ensures gone[..k] + Without(gone[k..], entry) == if k < |gone| then gone[..k] + gone[k + 1..] else gone
  {
    if k < |gone| {
      assert gone[k..][1..] == gone[k + 1..];
    }
  }

  /** The loop that takes every surviving entry out of those there were. */
  method Subtract<E(==)>(before: seq<E>, after: seq<E>) returns (gone: seq<E>)
    ensures gone == Minus(before, after)
  {
    gone := before;
    for i := 0 to |after|
      invariant gone == Minus(before, after[..i])
    {
      assert after[..i + 1][..i] == after[..i];
      var k := 0;
      while k < |gone| && gone[k] != after[i]
        invariant 0 <= k <= |gone|
        invariant Without(gone, after[i]) == gone[..k] + Without(gone[k..], after[i])
      {
        PassedOver(gone, after[i], k);
        k := k + 1;
      }
      FoundAt(gone, after[i], k);
      if k < |gone| {
        gone := gone[..k] + gone[k + 1..];
      }
    }
    assert after[..|after|] == after;
  }

  // ----- what a removal loses -----

  lemma {:induction false} WithoutMultiset<E>(gone: seq<E>, entry: E)
    ensures multiset(Without(gone, entry)) == multiset(gone) - multiset{entry}
  {
    if gone != [] {
      assert gone == [gone[0]] + gone[1..];
      if gone[0] != entry {
        WithoutMultiset(gone[1..], entry);
      }
    }
  }

  lemma MultisetSnoc<E>(s: seq<E>)
    requires s != []
    ensures multiset(s) == multiset(s[..|s| - 1]) + multiset{s[|s| - 1]}
  {
    assert s == s[..|s| - 1] + [s[|s| - 1]];
  }

  lemma {:induction false} MinusMultiset<E>(before: seq<E>, after: seq<E>)
    ensures multiset(Minus(before, after)) == multiset(before) - multiset(after)
  {
    if after != [] {
      var front, last := after[..|after| - 1], after[|after| - 1];
      MinusMultiset(before, front);
      WithoutMultiset(Minus(before, front), last);
      MultisetSnoc(after);
      SubtractTwice(multiset(before), multiset(front), multiset{last});
    }
  }

  lemma SubtractTwice<E>(a: multiset<E>, b: multiset<E>, c: multiset<E>)
    ensures a - b - c == a - (b + c)
  {
  }

  lemma SingletonMultiset<E>(s: seq<E>, x: E)
    ensures s == [x] <==> multiset(s) == multiset{x}
  {
    if multiset(s) == multiset{x} {
      assert |s| == |multiset(s)| == 1;
      assert s == [s[0]] && s[0] in multiset(s);
    }
  }

  /** The parses the removal depends on. */
  ghost predicate Parses<E>(parse: Parser<E>, current: string, appended: string, at: nat)
    requires at + |appended| <= |current|
  {
    && parse(appended).Ok? && |parse(appended).value| == 1
    && parse(current).Ok? && parse(Splice(current, at, |appended|)).Ok?
  }

  /**
   A removal goes through exactly when the texts parse, the block to one entry,
   and what is there before but not after is, as a multiset, that entry; and
   then it cuts out that one occurrence and nothing else.
   */
  lemma RemovalLosesExactlyTheEntry<E>(parse: Parser<E>, current: string, appended: string, at: nat)
    requires at + |appended| <= |current|
    ensures
      var r := RemovalOutcome(parse, current, appended, at);
      && (r.Ok? <==> Parses(parse, current, appended, at)
                     && multiset(parse(current).value) - multiset(parse(Splice(current, at, |appended|)).value)
                        == multiset{parse(appended).value[0]})
      && (r.Ok? ==> r.value == current[..at] + current[at + |appended|..])
  {
    if Parses(parse, current, appended, at) {
      var before, after := parse(current).value, parse(Splice(current, at, |appended|)).value;
      MinusMultiset(before, after);
      SingletonMultiset(Minus(before, after), parse(appended).value[0]);
    }
  }

  lemma DifferenceIsEverything<E>(before: multiset<E>, after: multiset<E>, ours: E)
    requires before - after == multiset{ours}
    ensures before == after + multiset{ours} <==> |before| == |after| + 1
  {
    if |before| == |after| + 1 {
      assert before == (before - after) + before * after;
      assert after == (after - before) + after * before;
      assert before * after == after * before;
      assert |after - before| == 0;
    }
  }

  /**
   The check is on what is lost, not on what is gained: the entries after are
   those before less the one removed exactly when there is one fewer.
   */
  lemma OneEntryFewerExactly<E>(parse: Parser<E>, current: string, appended: string, at: nat)
    requires at + |appended| <= |current| && RemovalOutcome(parse, current, appended, at).Ok?
    ensures
      var before, after := parse(current).value, parse(RemovalOutcome(parse, current, appended, at).value).value;
      multiset(before) == multiset(after) + multiset{parse(appended).value[0]} <==> |before| == |after| + 1
  {
    RemovalLosesExactlyTheEntry(parse, current, appended, at);
    var before, after := parse(current).value, parse(Splice(current, at, |appended|)).value;
    DifferenceIsEverything(multiset(before), multiset(after), parse(appended).value[0]);
    assert |multiset(before)| == |before| && |multiset(after)| == |after|;
  }

  // ----- the round trip -----

  lemma JoinedStarts(lines: seq<string>, nl: string)
    requires lines != []
    ensures |Joined(lines, nl)| >= |lines[0]| && Joined(lines, nl)[..|lines[0]|] == lines[0]
  {
    if |lines| == 1 {
      assert lines[..0] == [] && Joined(lines, nl) == "" + lines[0] + nl;
    } else {
      JoinedStarts(lines[..|lines| - 1], nl);
    }
  }

  ghost predicate OneLine(text: string) {
    forall k | 0 <= k < |text| :: text[k] != '\n' && text[k] != '\r'
  }

  lemma OwnerIsOneLine()
    ensures OneLine(OWNER)
  {
  }

  lemma PurposeIsOneLine()
    ensures OneLine(PURPOSE)
  {
  }

  lemma RemedyIsOneLine()
    ensures OneLine(REMEDY)
  {
  }

  lemma OneLineConcat(a: string, b: string)
    requires OneLine(a) && OneLine(b)
    ensures OneLine(a + b)
  {
  }

  lemma MarkerIsOneLine()
    ensures OneLine(MARKER) && MARKER != ""
  {
    OwnerIsOneLine();
    PurposeIsOneLine();
    RemedyIsOneLine();
    OneLineConcat(OWNER, PURPOSE);
    OneLineConcat(OWNER + PURPOSE, REMEDY);
  }

  lemma {:induction false} SeparatorIsNewlines(existing: string, nl: string)
    requires nl == LF || nl == CRLF
    ensures forall c | c in Separator(existing, nl) :: c == '\n' || c == '\r'
    ensures Separator(existing, nl) == "" <==> existing == ""
  {
  }

  /** Before its own place the marker occurs nowhere: not in what precedes it, and not across the line ends. */
  lemma MarkerOccursNoEarlier(existing: string, separator: string, marker: string, rest: string, q: nat)
    requires !Contains(existing, marker) && marker != ""
    requires forall c | c in separator :: c !in marker
    requires (separator == "" <==> existing == "") && q < |existing| + |separator|
    ensures !OccursAt(existing + (separator + marker + rest), marker, q)
  {
    var whole := existing + (separator + marker + rest);
    if q + |marker| <= |existing| {
      assert whole[q..q + |marker|] == existing[q..q + |marker|];
      assert !OccursAt(existing, marker, q);
    } else {
      var j := if q < |existing| then |existing| else q;
      assert whole[j] == separator[j - |existing|];
      assert marker[j - q] in marker && separator[j - |existing|] in separator;
      assert q + |marker| <= |whole| ==> whole[q..q + |marker|][j - q] == whole[j];
    }
  }

  lemma OccurrenceOfPart(whole: string, before: string, part: string, rest: string, at: nat)
    requires OccursAt(whole, before + part + rest, at)
    ensures OccursAt(whole, part, at + |before|)
  {
    var all, from := before + part + rest, at + |before|;
    assert whole[from..from + |part|] == whole[at..at + |all|][|before|..|before| + |part|];
    assert all[|before|..|before| + |part|] == part;
  }

  /** A block that begins with a one-line marker the text does not hold occurs once in it after it is appended. */
  lemma LinesOccurOnce(existing: string, separator: string, marker: string, rest: string)
    requires !Contains(existing, marker) && marker != "" && OneLine(marker)
    requires forall c | c in separator :: c == '\n' || c == '\r'
    requires separator == "" <==> existing == ""
    ensures OnlyAt(existing + (separator + marker + rest), separator + marker + rest, |existing|)
  {
    var appended := separator + marker + rest;
    var whole := existing + appended;
    assert OccursAt(whole, appended, |existing|);
    forall at: nat | at < |existing| ensures !OccursAt(whole, appended, at) {
      MarkerOccursNoEarlier(existing, separator, marker, rest, at + |separator|);
      if OccursAt(whole, appended, at) {
        OccurrenceOfPart(whole, separator, marker, rest, at);
      }
    }
  }

  lemma {:induction false} BlockStartsWithMarker(lines: seq<string>, nl: string, separator: string) returns (rest: string)
    requires lines != []
    ensures separator + Joined(lines, nl) == separator + lines[0] + rest
  {
    JoinedStarts(lines, nl);
    rest := Joined(lines, nl)[|lines[0]|..];
    assert Joined(lines, nl) == lines[0] + rest;
  }

  /** In a text without the marker the block occurs once it is appended, and only where it was put. */
  lemma BlockOccursOnce(existing: string, key: string)
    requires !Contains(existing, MARKER)
    ensures OnlyAt(existing + Appended(existing, key), Appended(existing, key), |existing|)
  {
    var nl := LineEnding(existing);
    MarkerIsOneLine();
    SeparatorIsNewlines(existing, nl);
    var rest := BlockStartsWithMarker(BlockLines(key), nl, Separator(existing, nl));
    LinesOccurOnce(existing, Separator(existing, nl), MARKER, rest);
  }

  /**
   For every text without the marker and every key, removing the appended bytes
   gives the original text back if and only if the parser sees the block as one
   entry and, as a multiset, that entry is what the text loses with it.
   */
  lemma RemoveUndoesAppend<E>(parse: Parser<E>, existing: string, key: string)
    requires !Contains(existing, MARKER)
    ensures
      var appended := Appended(existing, key);
      && OnlyAt(existing + appended, appended, |existing|)
      && (RemovalOutcome(parse, existing + appended, appended, |existing|) == Ok(existing) <==>
            && parse(appended).Ok? && |parse(appended).value| == 1
            && parse(existing + appended).Ok? && parse(existing).Ok?
            && multiset(parse(existing + appended).value) - multiset(parse(existing).value) == multiset{parse(appended).value[0]})
  {
    var appended := Appended(existing, key);
    BlockOccursOnce(existing, key);
    assert Splice(existing + appended, |existing|, |appended|) == existing;
    RemovalLosesExactlyTheEntry(parse, existing + appended, appended, |existing|);
  }
}
