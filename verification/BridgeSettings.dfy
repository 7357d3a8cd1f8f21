/**
 Installing the bridge into a user's settings and taking it out again: the
 edits `enable` and `disable` make to the parsed document, and the record that
 connects them.
 */
module BridgeSettings {
  import opened Wrappers
  import opened Sequences
  import opened Json
  import opened Substrings

  datatype Event = Event(name: string, mode: string, matcher: Option<string>)

  const EVENTS: seq<Event> := [
    Event("UserPromptSubmit", "name-only", None),
    Event("Stop", "append", None),
    Event("StopFailure", "append", None),
    Event("PermissionRequest", "append", None),
    Event("PreToolUse", "append", Some("AskUserQuestion"))
  ]

  datatype Record = Record(
    settingsPath: string,
    previous: Option<Value>,
    installed: Value,
    hooks: seq<(string, Value)>,
    createdKeys: seq<string>,
    createdObject: bool)

  datatype Failure = RecordUnreadable | RecordMissing | HooksNotAnObject | NotAnArray(event: string)

  /** What is found at the record's path. */
  datatype Prior = Absent | Unreadable | Present

  // ----- quoting -----

  function Escape(text: string): string {
    if text == [] then []
    else (if text[0] == '\'' then "'\\''" else [text[0]]) + Escape(text[1..])
  }

  function ShellQuote(text: string): string {
    "'" + Escape(text) + "'"
  }

  lemma {:induction false} EscapeIsIdentity(text: string)
    requires '\'' !in text
    ensures Escape(text) == text
  {
    if text != [] {
      EscapeIsIdentity(text[1..]);
      assert text == [text[0]] + text[1..];
    }
  }

  lemma QuotedContainsText(text: string)
    requires '\'' !in text
    ensures Contains(ShellQuote(text), text)
  {
    EscapeIsIdentity(text);
    assert OccursAt(ShellQuote(text), text, 1);
  }

  // ----- what is installed -----

  function StatusLine(statusline: string): Value {
    Obj(map["type" := Str("command"), "command" := Str(ShellQuote(statusline)), "refreshInterval" := Int(5)])
  }

  function HookEntry(attention: string, e: Event): Value {
    var command := ShellQuote(attention) + " " + ShellQuote(e.name) + " " + ShellQuote(e.mode);
    var hooks := Arr([Obj(map["type" := Str("command"), "command" := Str(command)])]);
    if e.matcher.Some? then Obj(map["matcher" := Str(e.matcher.value), "hooks" := hooks])
    else Obj(map["hooks" := hooks])
  }

  /** The command the document runs for its status line, if it names one. */
  function Command(settings: Fields): Option<string> {
    AsStr(At(At(Obj(settings), "statusLine"), "command"))
  }

  ghost predicate Already(settings: Fields, statusline: string) {
    Command(settings).Some? && Contains(Command(settings).value, statusline)
  }

  // ----- enable -----

  datatype Install = Install(table: Fields, hooks: seq<(string, Value)>, createdKeys: seq<string>)

  function ItemsAt(table: Fields, key: string): seq<Value> {
    if key in table && table[key].Arr? then table[key].items else []
  }

  function InstallOne(i: Install, attention: string, e: Event): Result<Install, Failure> {
    var entry := HookEntry(attention, e);
    if e.name in i.table && !i.table[e.name].Arr? then Err(NotAnArray(e.name))
    else if entry in ItemsAt(i.table, e.name) then Ok(i)
    else
      Ok(Install(
        i.table[e.name := Arr(ItemsAt(i.table, e.name) + [entry])],
        i.hooks + [(e.name, entry)],
        if e.name in i.table then i.createdKeys else i.createdKeys + [e.name]))
  }

  function InstallAll(table: Fields, attention: string, events: seq<Event>): Result<Install, Failure> {
    if events == [] then Ok(Install(table, [], []))
    else
      var past := InstallAll(table, attention, events[..|events| - 1]);
      if past.Err? then past else InstallOne(past.value, attention, events[|events| - 1])
  }

  function HooksOf(settings: Fields): Fields {
    if "hooks" in settings && settings["hooks"].Obj? then settings["hooks"].fields else map[]
  }

  /** The document and the record afterwards; no record when nothing was to be done. */
  ghost function Enable(path: string, settings: Fields, prior: Prior, statusline: string, attention: string,
    events: seq<Event>)
    : Result<(Fields, Option<Record>), Failure>
  {
    if prior.Unreadable? then Err(RecordUnreadable)
    else if Already(settings, statusline) then
      if prior.Present? then Ok((settings, None)) else Err(RecordMissing)
    else if "hooks" in settings && !settings["hooks"].Obj? then Err(HooksNotAnObject)
    else
      var installed := InstallAll(HooksOf(settings), attention, events);
      if installed.Err? then Err(installed.error)
      else
        var i := installed.value;
        Ok((
          settings["statusLine" := StatusLine(statusline)]["hooks" := Obj(i.table)],
          Some(Record(path, Get(Obj(settings), "statusLine"), StatusLine(statusline), i.hooks, i.createdKeys, "hooks" !in settings))))
  }

  /** The loop over the events. */
  method InstallHooks(before: Fields, attention: string, events: seq<Event>) returns (r: Result<Install, Failure>)
    ensures r == InstallAll(before, attention, events)
  {
    var table := before;
    var hooks: seq<(string, Value)> := [];
    var createdKeys: seq<string> := [];
    for n := 0 to |events|
      invariant InstallAll(before, attention, events[..n]) == Ok(Install(table, hooks, createdKeys))
    {
      InstallUnfolds(before, attention, events, n);
      var e := events[n];
      var entry := HookEntry(attention, e);
      var createdKey := e.name !in table;
      var items: seq<Value> := [];
      if !createdKey {
        if !table[e.name].Arr? {
          InstallFails(before, attention, events, n + 1);
          return Err(NotAnArray(e.name));
        }
        items := table[e.name].items;
      }
      if entry !in items {
        table := table[e.name := Arr(items + [entry])];
        hooks := hooks + [(e.name, entry)];
        if createdKey {
          createdKeys := createdKeys + [e.name];
        }
      }
    }
    assert events[..|events|] == events;
    return Ok(Install(table, hooks, createdKeys));
  }

  method EnableSettings(path: string, before: Fields, prior: Prior, statusline: string, attention: string,
    events: seq<Event>)
    returns (r: Result<(Fields, Option<Record>), Failure>)
    ensures r == Enable(path, before, prior, statusline, attention, events)
  {
    var settings := before;
    if prior.Unreadable? {
      return Err(RecordUnreadable);
    }
    var command := Command(settings);
    var already := false;
    if command.Some? {
      already := Search(command.value, statusline);
    }
    if already {
      return if prior.Present? then Ok((settings, None)) else Err(RecordMissing);
    }
    var previous := Get(Obj(settings), "statusLine");
    settings := settings["statusLine" := StatusLine(statusline)];
    var createdObject := "hooks" !in settings;
    if createdObject {
      settings := settings["hooks" := Obj(map[])];
    }
    if !settings["hooks"].Obj? {
      return Err(HooksNotAnObject);
    }
    var installed := InstallHooks(settings["hooks"].fields, attention, events);
    if installed.Err? {
      return Err(installed.error);
    }
    settings := settings["hooks" := Obj(installed.value.table)];
    assert settings == before["statusLine" := StatusLine(statusline)]["hooks" := Obj(installed.value.table)];
    return Ok((settings, Some(Record(path, previous, StatusLine(statusline), installed.value.hooks, installed.value.createdKeys, createdObject))));
  }

  lemma InstallUnfolds(table: Fields, attention: string, events: seq<Event>, n: nat)
    requires n < |events|
    ensures
      var past := InstallAll(table, attention, events[..n]);
      InstallAll(table, attention, events[..n + 1]) == if past.Err? then past else InstallOne(past.value, attention, events[n])
  {
    assert events[..n + 1][..n] == events[..n];
  }

  /** The first event that cannot take an entry is the error, whatever follows it. */
  lemma {:induction false} InstallFails(table: Fields, attention: string, events: seq<Event>, n: nat)
    requires n <= |events| && InstallAll(table, attention, events[..n]).Err?
    ensures InstallAll(table, attention, events) == InstallAll(table, attention, events[..n])
    decreases |events| - n
  {
    if n < |events| {
      InstallUnfolds(table, attention, events, n);
      InstallFails(table, attention, events, n + 1);
    } else {
      assert events[..n] == events;
    }
  }

  // ----- disable -----

  function RetainAll(table: Fields, hooks: seq<(string, Value)>): Fields {
    if hooks == [] then table
    else
      var past, (event, entry) := RetainAll(table, hooks[..|hooks| - 1]), hooks[|hooks| - 1];
      if event in past && past[event].Arr? then past[event := Arr(Filter(x => x != entry, past[event].items))] else past
  }

  function DropEmpty(table: Fields, keys: seq<string>): Fields {
    if keys == [] then table
    else
      var past, event := DropEmpty(table, keys[..|keys| - 1]), keys[|keys| - 1];
      if event in past && past[event] == Arr([]) then past - {event} else past
  }

  function RestoreStatusLine(settings: Fields, record: Record): Fields {
    if Get(Obj(settings), "statusLine") != Some(record.installed) then settings
    else if record.previous.Some? then settings["statusLine" := record.previous.value]
    else settings - {"statusLine"}
  }

  function Disable(settings: Fields, record: Record): Fields {
    var restored := RestoreStatusLine(settings, record);
    if "hooks" in restored && restored["hooks"].Obj? then
      var table := DropEmpty(RetainAll(restored["hooks"].fields, record.hooks), record.createdKeys);
      if record.createdObject && table == map[] then restored - {"hooks"} else restored["hooks" := Obj(table)]
    else restored
  }

  method DisableSettings(before: Fields, record: Record) returns (settings: Fields)
    ensures settings == Disable(before, record)
  {
    settings := before;
    if Get(Obj(settings), "statusLine") == Some(record.installed) {
      match record.previous {
        case Some(previous) => settings := settings["statusLine" := previous];
        case None => settings := settings - {"statusLine"};
      }
    }
    if "hooks" in settings && settings["hooks"].Obj? {
      var hooks := settings["hooks"].fields;
      ghost var found := hooks;
      for n := 0 to |record.hooks|
        invariant hooks == RetainAll(found, record.hooks[..n])
      {
        assert record.hooks[..n + 1][..n] == record.hooks[..n];
        var (event, entry) := record.hooks[n];
        if event in hooks && hooks[event].Arr? {
          hooks := hooks[event := Arr(Filter(x => x != entry, hooks[event].items))];
        }
      }
      assert record.hooks[..|record.hooks|] == record.hooks;
      ghost var retained := hooks;
      for n := 0 to |record.createdKeys|
        invariant hooks == DropEmpty(retained, record.createdKeys[..n])
      {
        assert record.createdKeys[..n + 1][..n] == record.createdKeys[..n];
        var event := record.createdKeys[n];
        if event in hooks && hooks[event] == Arr([]) {
          hooks := hooks - {event};
        }
      }
      assert record.createdKeys[..|record.createdKeys|] == record.createdKeys;
      settings := settings["hooks" := Obj(hooks)];
    }
    if record.createdObject && At(Obj(settings), "hooks") == Obj(map[]) {
      settings := settings - {"hooks"};
    }
  }
}
