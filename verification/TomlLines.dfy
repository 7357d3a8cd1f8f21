/**
 A line-based subset of TOML, enough to say what a config file binds: blank
 lines, comments, table headers, `[[keys.command]]` headers, assignments, and
 `command` under `[keys]` as an inline array of one inline table. A value is
 taken as the text of its line, and repeated names are not looked for.
 */
module TomlLines {
  import opened Wrappers
  import opened Substrings

  // ----- lines -----

  function WithoutReturn(line: string): string {
    if line != "" && line[|line| - 1] == '\r' then line[..|line| - 1] else line
  }

  /** A newline, with or without a return before it, ends a line; nothing is no line. */
  function Lines(text: string): seq<string>
    decreases |text|
  {
    if text == "" then []
    else
      var n := NewlineAt(text);
      [WithoutReturn(text[..n])] + if n == |text| then [] else Lines(text[n + 1..])
  }

  predicate WholeLines(text: string) {
    text == "" || text[|text| - 1] == '\n'
  }

  lemma {:induction false} NewlineAtConcat(a: string, b: string)
    requires NewlineAt(a) < |a|
    ensures NewlineAt(a + b) == NewlineAt(a)
  {
    if a[0] != '\n' {
      assert (a + b)[1..] == a[1..] + b;
      NewlineAtConcat(a[1..], b);
    }
  }

  lemma LinesAfter(text: string, n: nat)
    requires n == NewlineAt(text) < |text|
    ensures Lines(text) == [WithoutReturn(text[..n])] + Lines(text[n + 1..])
  {
  }

  lemma LastOfRest(a: string, n: nat)
    requires WholeLines(a) && a != "" && n == NewlineAt(a)
    ensures n < |a| && WholeLines(a[n + 1..])
  {
    assert a[|a| - 1] == '\n';
  }

  /** A text of whole lines and what follows it are read one after the other. */
  lemma {:induction false} LinesConcat(a: string, b: string)
    requires WholeLines(a)
    ensures Lines(a + b) == Lines(a) + Lines(b)
    decreases |a|
  {
    if a == "" {
      assert a + b == b;
    } else {
      var whole, n := a + b, NewlineAt(a);
      LastOfRest(a, n);
      NewlineAtConcat(a, b);
      assert whole[..n] == a[..n] && whole[n + 1..] == a[n + 1..] + b;
      LinesConcat(a[n + 1..], b);
      LinesAfter(a, n);
      LinesAfter(whole, n);
      Regroup(WithoutReturn(a[..n]), Lines(a[n + 1..]), Lines(b));
    }
  }

  lemma Regroup<T>(x: T, a: seq<T>, b: seq<T>)
    ensures [x] + a + b == [x] + (a + b)
  {
  }

  lemma OneWholeLine(line: string, nl: string)
    requires '\n' !in line && (line == "" || line[|line| - 1] != '\r') && (nl == "\n" || nl == "\r\n")
    ensures Lines(line + nl) == [line] && WholeLines(line + nl)
  {
    var stored := if nl == "\n" then line else line + "\r";
    var text := line + nl;
    assert text == stored + "\n" && '\n' !in stored;
    assert NewlineAt(text) == |stored| by {
      assert text[|stored|] == '\n';
      assert forall k | 0 <= k < |stored| :: text[k] == stored[k];
    }
    LinesAfter(text, |stored|);
    assert text[..|stored|] == stored && text[|stored| + 1..] == "";
    assert WithoutReturn(stored) == line;
  }

  // ----- what the lines say -----

  /** A table, as the assignments it holds. */
  type Entry = seq<string>

  /** Where an assignment goes. */
  datatype Place = Table(name: string) | LastEntry

  datatype Document = Document(place: Place, inline: bool, entries: seq<Entry>)

  const NO_LINES := Document(Table(""), false, [])

  const ENTRY_HEADER := "[[keys.command]]"
  const INLINE_START := "command = [{ "
  const INLINE_END := " }]"

  predicate IsInline(line: string) {
    INLINE_START <= line && |line| >= |INLINE_START| + |INLINE_END| && line[|line| - |INLINE_END|..] == INLINE_END
  }

  function InlineEntry(line: string): Entry
    requires IsInline(line)
  {
    [line[|INLINE_START|..|line| - |INLINE_END|]]
  }

  predicate Skipped(line: string) {
    line == "" || line[0] == '#'
  }

  predicate IsHeader(line: string) {
    line != "" && line[0] == '[' && line[|line| - 1] == ']'
  }

  predicate IsAssignment(line: string) {
    line != "" && line[0] != '#' && line[0] != '[' && Find(line, " = ").Some?
  }

  /** `keys.command` may be written as entries or as one inline array, but not both. */
  function Assign(d: Document, line: string): Result<Document, string> {
    match d.place
    case LastEntry =>
      if d.entries == [] then Err("no entry to assign to")
      else Ok(d.(entries := d.entries[..|d.entries| - 1] + [d.entries[|d.entries| - 1] + [line]]))
    case Table(name) =>
      if name != "keys" || !IsInline(line) then Ok(d)
      else if d.entries != [] || d.inline then Err("keys.command is already there")
      else Ok(d.(inline := true, entries := [InlineEntry(line)]))
  }

  function Read(d: Document, line: string): Result<Document, string> {
    if Skipped(line) then Ok(d)
    else if line == ENTRY_HEADER then
      if d.inline then Err("keys.command is an inline array") else Ok(d.(place := LastEntry, entries := d.entries + [[]]))
    else if IsHeader(line) then Ok(d.(place := Table(line[1..|line| - 1])))
    else if IsAssignment(line) then Assign(d, line)
    else Err("not a line of this subset")
  }

  function ReadAll(d: Document, lines: seq<string>): Result<Document, string>
    decreases |lines|
  {
    if lines == [] then Ok(d)
    else
      var next := Read(d, lines[0]);
      if next.Err? then next else ReadAll(next.value, lines[1..])
  }

  /** The entries of `keys.command`. */
  function Entries(text: string): Result<seq<Entry>, string> {
    var d := ReadAll(NO_LINES, Lines(text));
    if d.Err? then Err(d.error) else Ok(d.value.entries)
  }

  lemma {:induction false} ReadConcat(d: Document, a: seq<string>, b: seq<string>)
    ensures ReadAll(d, a + b) ==
            var first := ReadAll(d, a);
            if first.Err? then first else ReadAll(first.value, b)
    decreases |a|
  {
    if a == [] {
      assert a + b == b;
    } else {
      assert (a + b)[1..] == a[1..] + b;
      if Read(d, a[0]).Ok? {
        ReadConcat(Read(d, a[0]).value, a[1..], b);
      }
    }
  }
}
