/**
 What a shell makes of the commands the installation writes. The splitter knows
 spaces, single quotes and backslashes; a command with anything else a shell
 would act on outside quotes is not split at all.
 */
module ShellWords {
  import opened Wrappers
  import opened Json
  import opened BridgeSettings
  import opened BridgeRoundTrip

  datatype Mode = Plain | Quoted | Escaped

  const SPECIAL := "\"$`;&|<>()*?[]{}#~!=%"

  /** A character that stands for itself outside quotes. */
  predicate Ordinary(c: char) {
    c != ' ' && c != '\'' && c != '\\' && c > ' ' && c !in SPECIAL
  }

  /** The words of a command, `word` being the one begun. */
  function Words(text: string, word: Option<string>, mode: Mode): Option<seq<string>>
    decreases |text|
  {
    var begun := word.GetOr("");
    if text == "" then
      if mode == Plain then Some(if word.Some? then [word.value] else []) else None
    else
      var c, rest := text[0], text[1..];
      match mode
      case Quoted => if c == '\'' then Words(rest, Some(begun), Plain) else Words(rest, Some(begun + [c]), Quoted)
      case Escaped => Words(rest, Some(begun + [c]), Plain)
      case Plain =>
        if c == '\'' then Words(rest, Some(begun), Quoted)
        else if c == '\\' then Words(rest, Some(begun), Escaped)
        else if c == ' ' then
          var more := Words(rest, None, Plain);
          if more.None? then None else Some((if word.Some? then [word.value] else []) + more.value)
        else if Ordinary(c) then Words(rest, Some(begun + [c]), Plain)
        else None
  }

  function Split(command: string): Option<seq<string>> {
    Words(command, None, Plain)
  }

  lemma OneChar(c: char, rest: string, word: Option<string>, mode: Mode)
    ensures ([c] + rest)[0] == c && ([c] + rest)[1..] == rest
    ensures mode == Quoted && c != '\'' ==> Words([c] + rest, word, mode) == Words(rest, Some(word.GetOr("") + [c]), Quoted)
    ensures mode == Quoted && c == '\'' ==> Words([c] + rest, word, mode) == Words(rest, Some(word.GetOr("")), Plain)
    ensures mode == Escaped ==> Words([c] + rest, word, mode) == Words(rest, Some(word.GetOr("") + [c]), Plain)
    ensures mode == Plain && c == '\'' ==> Words([c] + rest, word, mode) == Words(rest, Some(word.GetOr("")), Quoted)
    ensures mode == Plain && c == '\\' ==> Words([c] + rest, word, mode) == Words(rest, Some(word.GetOr("")), Escaped)
  {
  }

  /** A quote inside quotes is written by leaving them for it. */
  lemma EscapedQuote(rest: string, word: string)
    ensures Words("'\\''" + rest, Some(word), Quoted) == Words(rest, Some(word + ['\'']), Quoted)
  {
    assert "'\\''" + rest == ['\''] + (['\\'] + (['\''] + (['\''] + rest)));
    OneChar('\'', ['\\'] + (['\''] + (['\''] + rest)), Some(word), Quoted);
    OneChar('\\', ['\''] + (['\''] + rest), Some(word), Plain);
    OneChar('\'', ['\''] + rest, Some(word), Escaped);
    OneChar('\'', rest, Some(word + ['\'']), Plain);
  }

  lemma EscapedOneMore(text: string, rest: string)
    requires text != ""
    ensures Escape(text) + "'" + rest == (if text[0] == '\'' then "'\\''" else [text[0]]) + (Escape(text[1..]) + "'" + rest)
  {
  }

  lemma {:induction false} QuotedText(text: string, rest: string, word: string)
    ensures Words(Escape(text) + "'" + rest, Some(word), Quoted) == Words(rest, Some(word + text), Plain)
    decreases |text|
  {
    if text == "" {
      NothingEscaped(rest);
      OneChar('\'', rest, Some(word), Quoted);
      assert word + text == word;
    } else {
      var after := Escape(text[1..]) + "'" + rest;
      QuotedText(text[1..], rest, word + [text[0]]);
      EscapedOneMore(text, rest);
      if text[0] == '\'' {
        EscapedQuote(after, word);
      } else {
        OneChar(text[0], after, Some(word), Quoted);
      }
      OneMoreSaid(word, text);
    }
  }

  lemma NothingEscaped(rest: string)
    ensures Escape("") + "'" + rest == ['\''] + rest
  {
  }

  lemma OneMoreSaid(word: string, text: string)
    requires text != ""
    ensures word + [text[0]] + text[1..] == word + text
  {
  }

  /** Whatever text is quoted, the shell reads it back as one word. */
  lemma QuotedWord(text: string, rest: string)
    ensures Words(ShellQuote(text) + rest, None, Plain) == Words(rest, Some(text), Plain)
  {
    var after := Escape(text) + "'" + rest;
    assert ShellQuote(text) + rest == ['\''] + after;
    OneChar('\'', after, None, Plain);
    QuotedText(text, rest, "");
    assert "" + text == text;
  }

  lemma OneWord(text: string)
    ensures Split(ShellQuote(text)) == Some([text])
  {
    QuotedWord(text, "");
    assert ShellQuote(text) + "" == ShellQuote(text);
  }

  lemma NextWord(text: string, rest: string)
    ensures Words(ShellQuote(text) + " " + rest, None, Plain) ==
            (var more := Words(rest, None, Plain); if more.None? then None else Some([text] + more.value))
  {
    assert ShellQuote(text) + " " + rest == ShellQuote(text) + (" " + rest);
    QuotedWord(text, " " + rest);
    assert (" " + rest)[1..] == rest;
  }

  lemma ThreeWords(a: string, b: string, c: string)
    ensures Split(ShellQuote(a) + " " + ShellQuote(b) + " " + ShellQuote(c)) == Some([a, b, c])
  {
    assert ShellQuote(a) + " " + ShellQuote(b) + " " + ShellQuote(c) == ShellQuote(a) + " " + (ShellQuote(b) + " " + ShellQuote(c));
    OneWord(c);
    NextWord(b, ShellQuote(c));
    NextWord(a, ShellQuote(b) + " " + ShellQuote(c));
    assert [a] + ([b] + [c]) == [a, b, c];
  }

  // ----- what is installed -----

  /** A settings object that runs a command of these words. */
  ghost predicate RunsWords(v: Value, words: seq<string>) {
    && At(v, "type") == Str("command")
    && At(v, "command").Str? && Split(At(v, "command").text) == Some(words)
  }

  /** A hook for the tools the matcher names, or all there are, that runs the one command. */
  ghost predicate Fires(entry: Value, matcher: Option<string>, words: seq<string>) {
    && Get(entry, "matcher") == (if matcher.Some? then Some(Str(matcher.value)) else None)
    && At(entry, "hooks").Arr? && |At(entry, "hooks").items| == 1
    && RunsWords(At(entry, "hooks").items[0], words)
  }

  ghost predicate FiresOn(settings: Fields, event: string, matcher: Option<string>, words: seq<string>) {
    var listed := At(At(Obj(settings), "hooks"), event);
    listed.Arr? && exists entry :: entry in listed.items && Fires(entry, matcher, words)
  }

  lemma EntryFires(attention: string, e: Event)
    ensures Fires(HookEntry(attention, e), e.matcher, [attention, e.name, e.mode])
  {
    ThreeWords(attention, e.name, e.mode);
  }

  lemma InstalledEventFires(path: string, settings: Fields, prior: Prior, statusline: string, attention: string, events: seq<Event>, e: Event)
    requires DistinctNames(events) && e in events
    requires
      var r := Enable(path, settings, prior, statusline, attention, events);
      r.Ok? && r.value.1.Some?
    ensures
      var after := Enable(path, settings, prior, statusline, attention, events).value.0;
      FiresOn(after, e.name, e.matcher, [attention, e.name, e.mode])
  {
    var table := HooksOf(settings);
    InstallFacts(table, attention, events);
    EntryFires(attention, e);
    var i := InstallAll(table, attention, events).value;
    assert InstalledAt(table, attention, i, e);
    assert HookEntry(attention, e) in i.table[e.name].items;
  }

  predicate IsOfFive(event: string) {
    event == "UserPromptSubmit" || event == "Stop" || event == "StopFailure" || event == "PermissionRequest" || event == "PreToolUse"
  }

  ghost predicate OthersAsBefore(before: Fields, after: Fields) {
    && (forall event | !IsOfFive(event) ::
          At(At(Obj(after), "hooks"), event) == At(At(Obj(before), "hooks"), event))
    && (forall key | key != "statusLine" && key != "hooks" :: Get(Obj(after), key) == Get(Obj(before), key))
  }

  lemma OnlyFiveNames(event: string)
    requires Names(EVENTS, event)
    ensures IsOfFive(event)
  {
    var e :| e in EVENTS && e.name == event;
    var i :| 0 <= i < |EVENTS| && EVENTS[i] == e;
    assert |EVENTS| == 5 && (i == 0 || i == 1 || i == 2 || i == 3 || i == 4);
  }

  lemma UnnamedUntouched(path: string, settings: Fields, prior: Prior, statusline: string, attention: string, events: seq<Event>,
                         event: string)
    requires DistinctNames(events) && !Names(events, event)
    requires
      var r := Enable(path, settings, prior, statusline, attention, events);
      r.Ok? && r.value.1.Some?
    ensures
      var after := Enable(path, settings, prior, statusline, attention, events).value.0;
      At(At(Obj(after), "hooks"), event) == At(At(Obj(settings), "hooks"), event)
  {
    var table := HooksOf(settings);
    InstallFacts(table, attention, events);
    assert UntouchedAt(table, InstallAll(table, attention, events).value, event);
  }

  lemma OthersUntouched(path: string, settings: Fields, prior: Prior, statusline: string, attention: string)
    requires
      var r := Enable(path, settings, prior, statusline, attention, EVENTS);
      r.Ok? && r.value.1.Some?
    ensures OthersAsBefore(settings, Enable(path, settings, prior, statusline, attention, EVENTS).value.0)
  {
    var after := Enable(path, settings, prior, statusline, attention, EVENTS).value.0;
    EventNamesAreDistinct();
    forall event | !IsOfFive(event) ensures At(At(Obj(after), "hooks"), event) == At(At(Obj(settings), "hooks"), event) {
      if Names(EVENTS, event) {
        OnlyFiveNames(event);
      } else {
        UnnamedUntouched(path, settings, prior, statusline, attention, EVENTS, event);
      }
    }
  }

  ghost predicate EventFires(after: Fields, attention: string, e: Event) {
    FiresOn(after, e.name, e.matcher, [attention, e.name, e.mode])
  }

  /** The five events, each with its script's arguments and the tools it is for. */
  ghost predicate FiveFire(after: Fields, attention: string) {
    && FiresOn(after, "UserPromptSubmit", None, [attention, "UserPromptSubmit", "name-only"])
    && FiresOn(after, "Stop", None, [attention, "Stop", "append"])
    && FiresOn(after, "StopFailure", None, [attention, "StopFailure", "append"])
    && FiresOn(after, "PermissionRequest", None, [attention, "PermissionRequest", "append"])
    && FiresOn(after, "PreToolUse", Some("AskUserQuestion"), [attention, "PreToolUse", "append"])
  }

  lemma AllFiveFire(after: Fields, attention: string)
    requires forall e | e in EVENTS :: EventFires(after, attention, e)
    ensures FiveFire(after, attention)
  {
    FiveEvents();
    assert EventFires(after, attention, Event("UserPromptSubmit", "name-only", None));
    assert EventFires(after, attention, Event("Stop", "append", None));
    assert EventFires(after, attention, Event("StopFailure", "append", None));
    assert EventFires(after, attention, Event("PermissionRequest", "append", None));
    assert EventFires(after, attention, Event("PreToolUse", "append", Some("AskUserQuestion")));
  }

  lemma StatusLineRuns(after: Fields, statusline: string)
    requires Get(Obj(after), "statusLine") == Some(StatusLine(statusline))
    ensures RunsWords(At(Obj(after), "statusLine"), [statusline])
    ensures At(At(Obj(after), "statusLine"), "refreshInterval") == Int(5)
  {
    OneWord(statusline);
  }

  /**
   After an installation each of the five events runs the attention script, at
   whatever path, with the event's name and mode as its two arguments; only the
   tool event is narrowed, to the one tool; and the status line runs its script
   every five seconds. No other event and no other setting has changed.
   */
  lemma WhatTheInstallationRuns(path: string, settings: Fields, prior: Prior, statusline: string, attention: string)
    ensures
      var r := Enable(path, settings, prior, statusline, attention, EVENTS);
      r.Ok? && r.value.1.Some? ==>
        var after := r.value.0;
        && FiveFire(after, attention)
        && RunsWords(At(Obj(after), "statusLine"), [statusline])
        && At(At(Obj(after), "statusLine"), "refreshInterval") == Int(5)
        && OthersAsBefore(settings, after)
  {
    var r := Enable(path, settings, prior, statusline, attention, EVENTS);
    EventNamesAreDistinct();
    if r.Ok? && r.value.1.Some? {
      forall e | e in EVENTS ensures EventFires(r.value.0, attention, e) {
        InstalledEventFires(path, settings, prior, statusline, attention, EVENTS, e);
      }
      AllFiveFire(r.value.0, attention);
      assert Get(Obj(r.value.0), "statusLine") == Some(StatusLine(statusline));
      StatusLineRuns(r.value.0, statusline);
      OthersUntouched(path, settings, prior, statusline, attention);
    }
  }

  lemma FiveEvents()
    ensures Event("UserPromptSubmit", "name-only", None) in EVENTS && Event("Stop", "append", None) in EVENTS
    ensures Event("StopFailure", "append", None) in EVENTS && Event("PermissionRequest", "append", None) in EVENTS
    ensures Event("PreToolUse", "append", Some("AskUserQuestion")) in EVENTS
  {
    assert EVENTS[0] in EVENTS && EVENTS[1] in EVENTS && EVENTS[2] in EVENTS && EVENTS[3] in EVENTS && EVENTS[4] in EVENTS;
  }
}
