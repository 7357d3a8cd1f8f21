/** What `enable` and `disable` promise a user's settings. */
module BridgeRoundTrip {
  import opened Wrappers
  import opened Sequences
  import opened Json
  import opened Substrings
  import opened BridgeSettings
  import opened BridgeRecord

  // ----- filters -----

  lemma {:induction false} FilterTwice<T(!new)>(p: T -> bool, q: T -> bool, both: T -> bool, s: seq<T>)
    requires forall x | x in s :: both(x) <==> p(x) && q(x)
    ensures Filter(q, Filter(p, s)) == Filter(both, s)
  {
    if s != [] {
      var front, x := s[..|s| - 1], s[|s| - 1];
      assert x in s;
      FilterTwice(p, q, both, front);
      if p(x) {
        assert Filter(p, s)[..|Filter(p, s)| - 1] == Filter(p, front);
      }
    }
  }

  lemma {:induction false} FilterKeepsAll<T(!new)>(p: T -> bool, s: seq<T>)
    requires forall x | x in s :: p(x)
    ensures Filter(p, s) == s
  {
    if s != [] {
      assert s[|s| - 1] in s;
      FilterKeepsAll(p, s[..|s| - 1]);
    }
  }

  // ----- what disable does to each key -----

  function Unclaimed(hooks: seq<(string, Value)>, event: string): Value -> bool {
    x => (event, x) !in hooks
  }

  function Kept(hooks: seq<(string, Value)>, event: string, v: Value): Value {
    if v.Arr? then Arr(Filter(Unclaimed(hooks, event), v.items)) else v
  }

  lemma {:induction false} RetainAt(table: Fields, hooks: seq<(string, Value)>)
    ensures RetainAll(table, hooks).Keys == table.Keys
    ensures forall k | k in table :: RetainAll(table, hooks)[k] == Kept(hooks, k, table[k])
  {
    if hooks == [] {
      forall k | k in table && table[k].Arr? ensures Kept(hooks, k, table[k]) == table[k] {
        FilterKeepsAll(Unclaimed(hooks, k), table[k].items);
      }
    } else {
      var front, hook := hooks[..|hooks| - 1], hooks[|hooks| - 1];
      RetainAt(table, front);
      forall k | k in table && table[k].Arr? ensures RetainAll(table, hooks)[k] == Kept(hooks, k, table[k]) {
        assert forall x :: (k, x) in hooks <==> (k, x) in front || (k, x) == hook;
        if k == hook.0 {
          FilterTwice(Unclaimed(front, k), x => x != hook.1, Unclaimed(hooks, k), table[k].items);
        } else {
          FilterTwice(Unclaimed(front, k), x => true, Unclaimed(hooks, k), table[k].items);
          FilterKeepsAll(x => true, Filter(Unclaimed(front, k), table[k].items));
        }
      }
    }
  }

  lemma {:induction false} DropEmptyAt(table: Fields, keys: seq<string>)
    ensures forall k :: k in DropEmpty(table, keys) <==> k in table && !(k in keys && table[k] == Arr([]))
    ensures forall k | k in DropEmpty(table, keys) :: DropEmpty(table, keys)[k] == table[k]
  {
    if keys != [] {
      var front, last := keys[..|keys| - 1], keys[|keys| - 1];
      DropEmptyAt(table, front);
      assert forall k :: k in keys <==> k in front || k == last;
    }
  }

  /** What is left of a hooks table. */
  function Cleaned(table: Fields, record: Record): Fields {
    DropEmpty(RetainAll(table, record.hooks), record.createdKeys)
  }

  /** A table cleaned key by key: nothing but recorded entries goes, in whatever order the rest is. */
  ghost predicate CleanedAt(table: Fields, record: Record, after: Fields, k: string) {
    if k !in table then k !in after
    else if k in record.createdKeys && Kept(record.hooks, k, table[k]) == Arr([]) then k !in after
    else k in after && after[k] == Kept(record.hooks, k, table[k])
  }

  /**
   Whatever the user did in between: `disable` touches no key but the status
   line and the hooks; the status line only while it is still the installed one;
   in each event's list it takes out exactly the recorded entries and keeps the
   others in order; a list goes only when it was created and is empty; and
   the hooks object goes only when it was created and nothing is left in it.
   */
  lemma DisableTakesOnlyItsOwn(settings: Fields, record: Record)
    ensures
      var after := Disable(settings, record);
      && (forall k | k != "statusLine" && k != "hooks" :: Get(Obj(after), k) == Get(Obj(settings), k))
      && (Get(Obj(settings), "statusLine") != Some(record.installed) ==>
            Get(Obj(after), "statusLine") == Get(Obj(settings), "statusLine"))
      && (Get(Obj(settings), "statusLine") == Some(record.installed) ==> Get(Obj(after), "statusLine") == record.previous)
      && ("hooks" in settings && settings["hooks"].Obj? ==>
            if record.createdObject && Cleaned(settings["hooks"].fields, record) == map[] then "hooks" !in after
            else "hooks" in after && after["hooks"] == Obj(Cleaned(settings["hooks"].fields, record)))
      && (!("hooks" in settings && settings["hooks"].Obj?) ==> Get(Obj(after), "hooks") == Get(Obj(settings), "hooks"))
  {
    var restored := RestoreStatusLine(settings, record);
    assert forall k | k != "statusLine" :: Get(Obj(restored), k) == Get(Obj(settings), k);
  }

  lemma CleanedKeyByKey(table: Fields, record: Record)
    ensures forall k :: CleanedAt(table, record, Cleaned(table, record), k)
  {
    RetainAt(table, record.hooks);
    DropEmptyAt(RetainAll(table, record.hooks), record.createdKeys);
  }

  // ----- what enable does to each key -----

  ghost predicate DistinctNames(events: seq<Event>) {
    forall i, j | 0 <= i < j < |events| :: events[i].name != events[j].name
  }

  lemma EventNamesAreDistinct()
    ensures DistinctNames(EVENTS)
  {
  }

  ghost predicate Names(events: seq<Event>, key: string) {
    exists e | e in events :: e.name == key
  }

  /** The list each event can be added to. */
  ghost predicate WellShaped(table: Fields, events: seq<Event>) {
    forall e | e in events :: e.name in table ==> table[e.name].Arr?
  }

  ghost predicate InstalledAt(table: Fields, attention: string, i: Install, e: Event) {
    var items, entry := ItemsAt(table, e.name), HookEntry(attention, e);
    && e.name in i.table
    && i.table[e.name] == Arr(if entry in items then items else items + [entry])
    && (forall x :: (e.name, x) in i.hooks <==> x == entry && entry !in items)
    && (e.name in i.createdKeys <==> e.name !in table)
  }

  ghost predicate UntouchedAt(table: Fields, i: Install, k: string) {
    && (k in i.table <==> k in table)
    && (k in table ==> i.table[k] == table[k])
    && (forall x :: (k, x) !in i.hooks)
    && k !in i.createdKeys
  }

  lemma InstallOneElsewhere(table: Fields, i: Install, attention: string, e: Event, k: string)
    requires InstallOne(i, attention, e).Ok? && k != e.name
    ensures UntouchedAt(table, i, k) ==> UntouchedAt(table, InstallOne(i, attention, e).value, k)
  {
  }

  lemma InstalledStays(table: Fields, attention: string, i: Install, e: Event, other: Event)
    requires InstallOne(i, attention, e).Ok? && other.name != e.name
    requires InstalledAt(table, attention, i, other)
    ensures InstalledAt(table, attention, InstallOne(i, attention, e).value, other)
  {
  }

  lemma {:induction false} InstallFacts(table: Fields, attention: string, events: seq<Event>)
    requires DistinctNames(events)
    ensures InstallAll(table, attention, events).Ok? <==> WellShaped(table, events)
    ensures InstallAll(table, attention, events).Ok? ==>
      var i := InstallAll(table, attention, events).value;
      && (forall e | e in events :: InstalledAt(table, attention, i, e))
      && (forall k | !Names(events, k) :: UntouchedAt(table, i, k))
  {
    if events != [] {
      var front, last := events[..|events| - 1], events[|events| - 1];
      assert last in events && forall e | e in front :: e in events;
      InstallFacts(table, attention, front);
      if InstallAll(table, attention, front).Ok? {
        var i := InstallAll(table, attention, front).value;
        assert !Names(front, last.name);
        assert UntouchedAt(table, i, last.name);
        if InstallOne(i, attention, last).Ok? {
          InstallStep(table, attention, front, i, last);
          assert forall e | e in events :: e in front || e == last;
          assert forall k | !Names(events, k) :: !Names(front, k) && k != last.name;
        }
      }
    }
  }

  lemma InstallStep(table: Fields, attention: string, front: seq<Event>, i: Install, last: Event)
    requires InstallOne(i, attention, last).Ok? && !Names(front, last.name)
    requires forall e | e in front :: InstalledAt(table, attention, i, e)
    requires forall k | !Names(front, k) :: UntouchedAt(table, i, k)
    ensures
      var next := InstallOne(i, attention, last).value;
      && (forall e | e in front || e == last :: InstalledAt(table, attention, next, e))
      && (forall k | !Names(front, k) && k != last.name :: UntouchedAt(table, next, k))
  {
    var next := InstallOne(i, attention, last).value;
    forall e | e in front ensures InstalledAt(table, attention, next, e) {
      InstalledStays(table, attention, i, last, e);
    }
    forall k | !Names(front, k) && k != last.name ensures UntouchedAt(table, next, k) {
      InstallOneElsewhere(table, i, attention, last, k);
    }
    assert UntouchedAt(table, i, last.name);
  }

  /** `enable` succeeds exactly when there is nothing to do and a record of it, or every list it needs is one or is missing. */
  lemma EnableSucceedsExactly(path: string, settings: Fields, prior: Prior, statusline: string, attention: string, events: seq<Event>)
    requires DistinctNames(events)
    ensures Enable(path, settings, prior, statusline, attention, events).Ok? <==>
            && !prior.Unreadable?
            && (if Already(settings, statusline) then prior.Present?
                else ("hooks" in settings ==> settings["hooks"].Obj?) && WellShaped(HooksOf(settings), events))
  {
    InstallFacts(HooksOf(settings), attention, events);
  }

  // ----- the round trip -----

  /** Cleaning with the record of an installation gives the table back. */
  lemma TableRestored(table: Fields, attention: string, events: seq<Event>, record: Record)
    requires DistinctNames(events) && InstallAll(table, attention, events).Ok?
    requires
      var i := InstallAll(table, attention, events).value;
      record.hooks == i.hooks && record.createdKeys == i.createdKeys
    ensures Cleaned(InstallAll(table, attention, events).value.table, record) == table
  {
    var i := InstallAll(table, attention, events).value;
    var after := Cleaned(i.table, record);
    InstallFacts(table, attention, events);
    CleanedKeyByKey(i.table, record);
    forall k ensures (k in after <==> k in table) && (k in table ==> after[k] == table[k]) {
      assert CleanedAt(i.table, record, after, k);
      if Names(events, k) {
        var e :| e in events && e.name == k;
        InstalledIsCleaned(table, attention, i, e);
      } else {
        assert UntouchedAt(table, i, k);
        UntouchedIsKept(table, i, k);
      }
    }
  }

  lemma UntouchedIsKept(table: Fields, i: Install, k: string)
    requires UntouchedAt(table, i, k)
    ensures k in table ==> Kept(i.hooks, k, i.table[k]) == table[k]
  {
    if k in table && table[k].Arr? {
      FilterKeepsAll(Unclaimed(i.hooks, k), table[k].items);
    }
  }

  lemma InstalledIsCleaned(table: Fields, attention: string, i: Install, e: Event)
    requires InstalledAt(table, attention, i, e) && (e.name in table ==> table[e.name].Arr?)
    ensures Kept(i.hooks, e.name, i.table[e.name]) == Arr(ItemsAt(table, e.name))
  {
    var items, entry := ItemsAt(table, e.name), HookEntry(attention, e);
    FilterKeepsAll(Unclaimed(i.hooks, e.name), items);
    if entry !in items {
      FilterConcat(Unclaimed(i.hooks, e.name), items, [entry]);
      assert Filter(Unclaimed(i.hooks, e.name), [entry]) == [];
    }
  }

  /** Disabling with the record as it comes back from its file. */
  function DisableFromFile(settings: Fields, record: Record): Fields
  {
    RecordRoundTrip(record);
    Disable(settings, Decode(Encode(record)).value)
  }

  /**
   For every settings object `enable` installs into, `disable` restores it, as a
   JSON value, if and only if its status line was not an explicit null.
   */
  lemma DisableUndoesEnable(path: string, settings: Fields, prior: Prior, statusline: string, attention: string, events: seq<Event>)
    requires DistinctNames(events)
    requires
      var r := Enable(path, settings, prior, statusline, attention, events);
      r.Ok? && r.value.1.Some?
    ensures
      var (after, record) := Enable(path, settings, prior, statusline, attention, events).value;
      DisableFromFile(after, record.value) == settings <==> Get(Obj(settings), "statusLine") != Some(Null)
  {
    var (after, record) := Enable(path, settings, prior, statusline, attention, events).value;
    var i := InstallAll(HooksOf(settings), attention, events).value;
    var stored := record.value.(previous := if record.value.previous == Some(Null) then None else record.value.previous);
    RecordRoundTrip(record.value);
    TableRestored(HooksOf(settings), attention, events, stored);
    RestoredExactly(settings, after, i, stored, statusline);
  }

  /** Undoing one installation, given that its hooks clean up. */
  lemma RestoredExactly(settings: Fields, after: Fields, i: Install, stored: Record, statusline: string)
    requires after == settings["statusLine" := StatusLine(statusline)]["hooks" := Obj(i.table)]
    requires stored.installed == StatusLine(statusline) && stored.createdObject == ("hooks" !in settings)
    requires stored.previous == if Get(Obj(settings), "statusLine") == Some(Null) then None else Get(Obj(settings), "statusLine")
    requires "hooks" in settings ==> settings["hooks"].Obj?
    requires Cleaned(i.table, stored) == HooksOf(settings)
    ensures Disable(after, stored) == settings <==> Get(Obj(settings), "statusLine") != Some(Null)
  {
    var back := Disable(after, stored);
    DisableTakesOnlyItsOwn(after, stored);
    assert forall k | k != "statusLine" && k != "hooks" :: Get(Obj(after), k) == Get(Obj(settings), k);
    assert Get(Obj(back), "hooks") == Get(Obj(settings), "hooks");
    assert Get(Obj(back), "statusLine") == stored.previous;
    if Get(Obj(settings), "statusLine") != Some(Null) {
      SameFields(back, settings);
    }
  }

  lemma SameFields(a: Fields, b: Fields)
    requires forall k :: Get(Obj(a), k) == Get(Obj(b), k)
    ensures a == b
  {
    assert forall k :: (k in a <==> Get(Obj(a), k).Some?) && (k in b <==> Get(Obj(b), k).Some?);
    assert forall k | k in a :: Get(Obj(a), k) == Some(a[k]) && Get(Obj(b), k) == Some(b[k]);
  }

  // ----- enabling again -----

  ghost predicate Holds(table: Fields, attention: string, events: seq<Event>) {
    forall e | e in events :: e.name in table && table[e.name].Arr? && HookEntry(attention, e) in table[e.name].items
  }

  lemma {:induction false} NothingLeftToInstall(table: Fields, attention: string, events: seq<Event>)
    requires Holds(table, attention, events)
    ensures InstallAll(table, attention, events) == Ok(Install(table, [], []))
  {
    if events != [] {
      assert events[|events| - 1] in events;
      NothingLeftToInstall(table, attention, events[..|events| - 1]);
    }
  }

  /**
   Installing over an installation whose status line is no longer recognised
   claims none of the hooks that are already there, so disabling with the new
   record leaves every one of them behind.
   */
  lemma ReinstallingForgetsTheHooks(
    path: string, settings: Fields, prior: Prior, later: Fields, laterPrior: Prior, statusline: string, attention: string,
    events: seq<Event>)
    requires DistinctNames(events) && !laterPrior.Unreadable?
    requires
      var r := Enable(path, settings, prior, statusline, attention, events);
      r.Ok? && r.value.1.Some? && Get(Obj(later), "hooks") == Get(Obj(r.value.0), "hooks")
    requires !Already(later, statusline)
    ensures
      var hooks := Get(Obj(later), "hooks");
      var r := Enable(path, later, laterPrior, statusline, attention, events);
      && r == Ok((later["statusLine" := StatusLine(statusline)],
                  Some(Record(path, Get(Obj(later), "statusLine"), StatusLine(statusline), [], [], false))))
      && Get(Obj(Disable(r.value.0, r.value.1.value)), "hooks") == hooks
      && hooks.Some? && hooks.value.Obj? && Holds(hooks.value.fields, attention, events)
  {
    InstallFacts(HooksOf(settings), attention, events);
    var i := InstallAll(HooksOf(settings), attention, events).value;
    assert Get(Obj(later), "hooks") == Some(Obj(i.table));
    forall e | e in events
      ensures e.name in i.table && i.table[e.name].Arr? && HookEntry(attention, e) in i.table[e.name].items
    {
      assert InstalledAt(HooksOf(settings), attention, i, e);
    }
    NothingLeftToInstall(i.table, attention, events);
    assert later["statusLine" := StatusLine(statusline)]["hooks" := Obj(i.table)] == later["statusLine" := StatusLine(statusline)];
  }

  /**
   Enabling twice is the no-op it is meant to be if and only if the quoted
   command still contains the script's path; otherwise the second record takes
   the first status line for the user's, and disabling then removes nothing.
   */
  lemma EnablingTwice(path: string, settings: Fields, prior: Prior, statusline: string, attention: string, events: seq<Event>)
    requires DistinctNames(events)
    requires
      var r := Enable(path, settings, prior, statusline, attention, events);
      r.Ok? && r.value.1.Some?
    ensures
      var after := Enable(path, settings, prior, statusline, attention, events).value.0;
      var again := Enable(path, after, Present, statusline, attention, events);
      && (again == Ok((after, None)) <==> Contains(ShellQuote(statusline), statusline))
      && (!Contains(ShellQuote(statusline), statusline) ==>
            again.Ok? && again.value.0 == after && again.value.1.Some? && Disable(after, again.value.1.value) == after)
  {
    var after := Enable(path, settings, prior, statusline, attention, events).value.0;
    assert Command(after) == Some(ShellQuote(statusline));
    if !Contains(ShellQuote(statusline), statusline) {
      ReinstallingForgetsTheHooks(path, settings, prior, after, Present, statusline, attention, events);
      assert after["statusLine" := StatusLine(statusline)] == after;
      var record := Enable(path, after, Present, statusline, attention, events).value.1.value;
      assert Get(Obj(Disable(after, record)), "hooks") == Get(Obj(after), "hooks");
      DisableTakesOnlyItsOwn(after, record);
      SameFields(Disable(after, record), after);
    }
  }

  /** A path without a quote is safe; a path with one need not be. */
  lemma WhichPathsAreRecognised(statusline: string)
    ensures '\'' !in statusline ==> Contains(ShellQuote(statusline), statusline)
    ensures !Contains(ShellQuote("a'b"), "a'b")
  {
    if '\'' !in statusline {
      QuotedContainsText(statusline);
    }
    assert Escape("b") == "b" && "'b"[1..] == "b" && "a'b"[1..] == "'b" && "b"[1..] == "";
    assert Escape("'b") == "'\\''b";
    assert Escape("a'b") == "a'\\''b";
    var quoted := ShellQuote("a'b");
    assert quoted == "'a'\\''b'";
    forall at: nat | at + 3 <= |quoted| ensures !OccursAt(quoted, "a'b", at) {
      assert quoted[at..at + 3][0] == quoted[at] && quoted[at..at + 3][2] == quoted[at + 2];
    }
  }

  // ----- the five events -----

  /** What the code installs: the round trip for its own five events. */
  lemma DisableUndoesEnableOfAllFive(path: string, settings: Fields, prior: Prior, statusline: string, attention: string)
    ensures
      var r := Enable(path, settings, prior, statusline, attention, EVENTS);
      r.Ok? && r.value.1.Some? ==>
        var (after, record) := r.value;
        DisableFromFile(after, record.value) == settings <==> Get(Obj(settings), "statusLine") != Some(Null)
  {
    var r := Enable(path, settings, prior, statusline, attention, EVENTS);
    EventNamesAreDistinct();
    if r.Ok? && r.value.1.Some? {
      DisableUndoesEnable(path, settings, prior, statusline, attention, EVENTS);
    }
  }

  /** And what enabling them twice comes to. */
  lemma EnablingAllFiveTwice(path: string, settings: Fields, prior: Prior, statusline: string, attention: string)
    ensures
      var r := Enable(path, settings, prior, statusline, attention, EVENTS);
      r.Ok? && r.value.1.Some? ==>
        var after := r.value.0;
        var again := Enable(path, after, Present, statusline, attention, EVENTS);
        && (again == Ok((after, None)) <==> Contains(ShellQuote(statusline), statusline))
        && (!Contains(ShellQuote(statusline), statusline) ==>
              again.Ok? && again.value.0 == after && again.value.1.Some? && Disable(after, again.value.1.value) == after)
  {
    var r := Enable(path, settings, prior, statusline, attention, EVENTS);
    EventNamesAreDistinct();
    if r.Ok? && r.value.1.Some? {
      EnablingTwice(path, settings, prior, statusline, attention, EVENTS);
    }
  }
}
