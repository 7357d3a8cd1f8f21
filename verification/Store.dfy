/**
 The telemetry store. Every public operation runs under one lock for its whole
 body, so each is one atomic step; `Exec` is what the step does to the guarded
 state, and the class below does it in place.
 */
module Store {
  import opened Wrappers
  import opened Json
  import opened Sequences
  import opened Text
  import opened Cards

  const SUBSCRIBER_BUFFER: nat := 256

  datatype Update = Update(number: nat, paneId: string, telemetry: Option<Card>)

  /** One subscriber's bounded queue. Its sender lives as long as the subscription is listed. */
  datatype Channel = Channel(queue: seq<Update>, receiverAlive: bool)

  datatype Inner = Inner(
    panes: map<string, Card>,
    number: nat,
    nextSubId: nat,
    subscribers: seq<nat>,
    channels: map<nat, Channel>)

  const EMPTY := Inner(map[], 0, 0, [], map[])

  datatype Op =
    | SetAgent(pane: string, agent: string)
    | SetPaneListCwd(pane: string, cwd: Option<string>)
    | SetPanePosition(pane: string, position: nat)
    | SetPaneWorkspace(pane: string, workspace: Option<string>)
    | ReplaceSession(pane: string, agent: string)
    | Record(pane: string, event: Event, payload: Value)
    | Remove(pane: string)
    | SubscribeFull
    | Unsubscribe(id: nat)

  // ----- what each operation does -----

  predicate Accepts(channels: map<nat, Channel>, id: nat) {
    id in channels && channels[id].receiverAlive && |channels[id].queue| < SUBSCRIBER_BUFFER
  }

  function Push(ch: Channel, u: Update): Channel {
    ch.(queue := ch.queue + [u])
  }

  /** A subscriber whose queue is full, or whose reader is gone, is dropped instead of waited for. */
  function Broadcast(s: Inner, u: Update): Inner {
    s.(subscribers := Filter(id => Accepts(s.channels, id), s.subscribers),
       channels := Offered(s.channels, u, s.subscribers))
  }

  function Offered(channels: map<nat, Channel>, u: Update, ids: seq<nat>): map<nat, Channel> {
    map id | id in channels :: if id in ids && Accepts(channels, id) then Push(channels[id], u) else channels[id]
  }

  function Publish(s: Inner, pane: string, card: Card): Inner {
    var stamped := card.(updatedSeq := s.number + 1);
    Broadcast(s.(number := s.number + 1, panes := s.panes[pane := stamped]),
              Update(s.number + 1, pane, Some(stamped)))
  }

  function Commit(s: Inner, pane: string, o: Outcome): Inner {
    if o.changed then Publish(s, pane, o.card) else s.(panes := s.panes[pane := o.card])
  }

  function AgentEdit(c: Card, agent: string, created: bool): Outcome {
    Outcome(c.(agent := Some(agent)), c.agent != Some(agent) || created)
  }

  function CwdEdit(c: Card, cwd: string): Outcome {
    if c.cwdSource == Transcript || (c.cwd == Some(cwd) && c.cwdSource == PaneList) then Outcome(c, false)
    else Outcome(c.(cwd := Some(cwd), cwdSource := PaneList), true)
  }

  function PositionEdit(c: Card, position: nat): Outcome {
    Outcome(c.(position := Some(position)), c.position != Some(position))
  }

  function WorkspaceEdit(c: Card, workspace: Option<string>): Outcome {
    Outcome(c.(workspaceId := workspace), c.workspaceId != workspace)
  }

  function NonEmpty(s: Option<string>): Option<string> {
    if s == Some("") then None else s
  }

  /** A replaced session keeps only the cwd, demoted so the pane list may refresh it. */
  function FreshSession(s: Inner, pane: string, agent: string): Card {
    var carried := if pane in s.panes then s.panes[pane].cwd else None;
    DEFAULT_CARD.(agent := Some(agent), cwd := carried, cwdSource := if carried.Some? then PaneList else Unset)
  }

  function AfterSetAgent(s: Inner, pane: string, agent: string): Inner {
    if pane in s.panes then Commit(s, pane, AgentEdit(s.panes[pane], agent, false))
    else Commit(s, pane, AgentEdit(DEFAULT_CARD, agent, true))
  }

  function AfterSetCwd(s: Inner, pane: string, clean: string): Inner {
    if clean != "" && pane in s.panes then Commit(s, pane, CwdEdit(s.panes[pane], clean)) else s
  }

  function AfterSetPosition(s: Inner, pane: string, position: nat): Inner {
    if pane in s.panes then Commit(s, pane, PositionEdit(s.panes[pane], position)) else s
  }

  function AfterSetWorkspace(s: Inner, pane: string, workspace: Option<string>): Inner {
    if pane in s.panes then Commit(s, pane, WorkspaceEdit(s.panes[pane], NonEmpty(workspace))) else s
  }

  function AfterRecord(s: Inner, pane: string, event: Event, clean: Value): Inner {
    if pane in s.panes then Commit(s, pane, Apply(s.panes[pane], event, clean)) else s
  }

  function AfterRemove(s: Inner, pane: string): Inner {
    if pane in s.panes then
      Broadcast(s.(panes := s.panes - {pane}, number := s.number + 1), Update(s.number + 1, pane, None))
    else s
  }

  function AfterSubscribe(s: Inner): Inner {
    var id := s.nextSubId + 1;
    s.(nextSubId := id, subscribers := s.subscribers + [id], channels := s.channels[id := Channel([], true)])
  }

  function AfterUnsubscribe(s: Inner, id: nat): Inner {
    s.(subscribers := Filter(other => other != id, s.subscribers))
  }

  ghost function Exec(s: Inner, op: Op): Inner {
    match op
    case SetAgent(pane, agent) => AfterSetAgent(s, pane, agent)
    case SetPaneListCwd(pane, cwd) => if cwd.Some? then AfterSetCwd(s, pane, Sanitise(cwd.value)) else s
    case SetPanePosition(pane, position) => AfterSetPosition(s, pane, position)
    case SetPaneWorkspace(pane, workspace) => AfterSetWorkspace(s, pane, workspace)
    case ReplaceSession(pane, agent) => Publish(s, pane, FreshSession(s, pane, agent))
    case Record(pane, event, payload) => AfterRecord(s, pane, event, Normalise(event, payload))
    case Remove(pane) => AfterRemove(s, pane)
    case SubscribeFull => AfterSubscribe(s)
    case Unsubscribe(id) => AfterUnsubscribe(s, id)
  }

  // ----- what every operation keeps -----

  /** Card stamps are distinct and lie in 1..number; subscriptions are distinct and bounded. */
  ghost predicate Valid(s: Inner) {
    && (forall pane | pane in s.panes :: 1 <= s.panes[pane].updatedSeq <= s.number)
    && (forall p, q | p in s.panes && q in s.panes && p != q :: s.panes[p].updatedSeq != s.panes[q].updatedSeq)
    && ValidSubscriptions(s)
  }

  ghost predicate ValidSubscriptions(s: Inner) {
    && Distinct(s.subscribers)
    && (forall id | id in s.subscribers :: id in s.channels)
    && (forall id | id in s.channels :: 1 <= id <= s.nextSubId && |s.channels[id].queue| <= SUBSCRIBER_BUFFER)
  }

  lemma {:induction false} FilterDistinct<T(!new)>(keep: T -> bool, s: seq<T>)
    requires Distinct(s)
    ensures Distinct(Filter(keep, s))
  {
    if s != [] {
      FilterDistinct(keep, s[..|s| - 1]);
      assert s[|s| - 1] !in s[..|s| - 1];
    }
  }

  lemma BroadcastValid(s: Inner, u: Update)
    requires Valid(s)
    ensures Valid(Broadcast(s, u))
  {
    FilterDistinct(id => Accepts(s.channels, id), s.subscribers);
  }

  lemma PublishValid(s: Inner, pane: string, card: Card)
    requires Valid(s)
    ensures Valid(Publish(s, pane, card))
  {
    var stamped := card.(updatedSeq := s.number + 1);
    BroadcastValid(s.(number := s.number + 1, panes := s.panes[pane := stamped]), Update(s.number + 1, pane, Some(stamped)));
  }

  lemma CommitValid(s: Inner, pane: string, o: Outcome)
    requires Valid(s)
    requires o.changed || (pane in s.panes && o.card.updatedSeq == s.panes[pane].updatedSeq)
    ensures Valid(Commit(s, pane, o))
  {
    if o.changed {
      PublishValid(s, pane, o.card);
    }
  }

  function CardOf(s: Inner, pane: string): Card {
    if pane in s.panes then s.panes[pane] else DEFAULT_CARD
  }

  lemma EditValid(s: Inner, pane: string, o: Outcome)
    requires Valid(s) && (o.changed || o.card.updatedSeq == CardOf(s, pane).updatedSeq)
    ensures pane in s.panes ==> Valid(Commit(s, pane, o))
  {
    if pane in s.panes {
      CommitValid(s, pane, o);
    }
  }

  lemma SetAgentValid(s: Inner, pane: string, agent: string)
    requires Valid(s)
    ensures Valid(AfterSetAgent(s, pane, agent))
  {
    CommitValid(s, pane, AgentEdit(CardOf(s, pane), agent, pane !in s.panes));
  }

  lemma RecordValid(s: Inner, pane: string, event: Event, clean: Value)
    requires Valid(s)
    ensures Valid(AfterRecord(s, pane, event, clean))
  {
    if pane in s.panes {
      EventsKeepIdentity(s.panes[pane], event, clean);
      CommitValid(s, pane, Apply(s.panes[pane], event, clean));
    }
  }

  lemma RemoveValid(s: Inner, pane: string)
    requires Valid(s)
    ensures Valid(AfterRemove(s, pane))
  {
    if pane in s.panes {
      BroadcastValid(s.(panes := s.panes - {pane}, number := s.number + 1), Update(s.number + 1, pane, None));
    }
  }

  lemma SubscribeValid(s: Inner)
    requires Valid(s)
    ensures Valid(AfterSubscribe(s))
  {
    assert s.nextSubId + 1 !in s.subscribers;
  }

  lemma UnsubscribeValid(s: Inner, id: nat)
    requires Valid(s)
    ensures Valid(AfterUnsubscribe(s, id))
  {
    FilterDistinct(other => other != id, s.subscribers);
  }

  /** Every operation keeps the stamps distinct and within 1..number. */
  lemma ExecValid(s: Inner, op: Op)
    requires Valid(s)
    ensures Valid(Exec(s, op))
  {
    match op
    case SetAgent(pane, agent) => SetAgentValid(s, pane, agent);
    case SetPaneListCwd(pane, cwd) =>
      if cwd.Some? && Sanitise(cwd.value) != "" {
        EditValid(s, pane, CwdEdit(CardOf(s, pane), Sanitise(cwd.value)));
      }
    case SetPanePosition(pane, position) => EditValid(s, pane, PositionEdit(CardOf(s, pane), position));
    case SetPaneWorkspace(pane, workspace) => EditValid(s, pane, WorkspaceEdit(CardOf(s, pane), NonEmpty(workspace)));
    case ReplaceSession(pane, agent) =>
      PublishValid(s, pane, FreshSession(s, pane, agent));
    case Record(pane, event, payload) =>
      RecordValid(s, pane, event, Normalise(event, payload));
    case Remove(pane) => RemoveValid(s, pane);
    case SubscribeFull => SubscribeValid(s);
    case Unsubscribe(id) => UnsubscribeValid(s, id);
  }

  // ----- the store itself -----

  /** What `normalise_event` does to a payload in place. */
  method NormaliseEvent(event: Event, payload: Value) returns (clean: Value)
    ensures clean == Normalise(event, payload)
  {
    clean := payload;
    match event {
      case AgentStatus => clean := SanitiseField(clean, "modelDisplayName");
      case AgentSessionTitle => clean := SanitiseField(clean, "title");
      case AgentCwd => clean := SanitiseField(clean, "cwd");
      case AgentToolCall => clean := SanitiseCall(clean);
      case AgentReplaySummary =>
        clean := SanitiseField(clean, "cwd");
        var recent := Get(clean, "recentToolCalls");
        if recent.Some? && recent.value.Arr? {
          var calls := NormaliseCalls(recent.value.items);
          clean := Obj(clean.fields["recentToolCalls" := Arr(calls)]);
        }
        var types := Get(clean, "toolCallByType");
        if types.Some? && types.value.Obj? {
          var folded := NormaliseTypes(Sanitise, types.value.fields);
          clean := Obj(clean.fields["toolCallByType" := Obj(folded)]);
        }
      case _ =>
    }
  }

  method NormaliseCalls(raw: seq<Value>) returns (calls: seq<Value>)
    ensures calls == Map(SanitiseCall, raw)
  {
    calls := raw;
    for i := 0 to |raw|
      invariant |calls| == |raw|
      invariant forall k | 0 <= k < i :: calls[k] == SanitiseCall(raw[k])
      invariant forall k | i <= k < |raw| :: calls[k] == raw[k]
    {
      calls := calls[i := SanitiseCall(calls[i])];
    }
  }

  method NormaliseTypes(clean: string -> string, types: Fields) returns (folded: Fields)
    ensures folded == FoldTypes(clean, types)
  {
    ghost var fold := (rest: set<string>) => FoldTypes(clean, types - rest);
    FoldedAtEnds(clean, types);
    forall rest, raw | raw in rest && rest <= types.Keys ensures AddsOne(fold, clean, types, rest, raw) {
      MoreFolded(clean, types, rest, raw);
    }
    folded := FoldKeyByKey(fold, clean, types);
  }

  function WithCount(folded: Fields, name: string, count: nat): Fields {
    if name == "" then folded else folded[name := Int((SlotCount(folded, name) + count) % U64_LIMIT)]
  }

  ghost predicate AddsOne(fold: set<string> -> Fields, clean: string -> string, types: Fields, rest: set<string>, raw: string)
    requires raw in types
  {
    fold(rest - {raw}) == WithCount(fold(rest), clean(raw), CountOf(types[raw]))
  }

  /** The loop over the map's keys, in whatever order they come. */
  method FoldKeyByKey(ghost fold: set<string> -> Fields, clean: string -> string, types: Fields) returns (folded: Fields)
    requires fold(types.Keys) == map[]
    requires forall rest, raw {:trigger AddsOne(fold, clean, types, rest, raw)} | raw in rest && rest <= types.Keys ::
      AddsOne(fold, clean, types, rest, raw)
    ensures folded == fold({})
  {
    folded := map[];
    var rest := types.Keys;
    while rest != {}
      invariant rest <= types.Keys && folded == fold(rest)
      decreases |rest|
    {
      var raw :| raw in rest;
      assert AddsOne(fold, clean, types, rest, raw);
      var name := clean(raw);
      if name != "" {
        folded := folded[name := Int((SlotCount(folded, name) + CountOf(types[raw])) % U64_LIMIT)];
      }
      rest := rest - {raw};
    }
  }

  lemma FoldedAtEnds(clean: string -> string, types: Fields)
    ensures FoldTypes(clean, types - types.Keys) == map[]
    ensures FoldTypes(clean, types - {}) == FoldTypes(clean, types)
  {
    assert types - types.Keys == map[] && types - {} == types;
  }

  lemma MoreFolded(clean: string -> string, types: Fields, rest: set<string>, raw: string)
    requires raw in rest && rest <= types.Keys
    ensures FoldTypes(clean, types - (rest - {raw})) == WithCount(FoldTypes(clean, types - rest), clean(raw), CountOf(types[raw]))
  {
    MoreTypes(clean, types - rest, raw, types[raw]);
    assert (types - rest)[raw := types[raw]] == types - (rest - {raw});
  }

  function SlotCount(folded: Fields, name: string): nat {
    if name in folded then CountOf(folded[name]) else 0
  }

  /** Names other than the new key's keep their counts. */
  lemma MoreElsewhere(clean: string -> string, done: Fields, more: Fields, raw: string)
    requires raw in more && raw !in done && more - {raw} == done
    ensures FoldTypes(clean, more).Keys == FoldTypes(clean, done).Keys + if clean(raw) == "" then {} else {clean(raw)}
    ensures forall n | n in FoldTypes(clean, done) && n != clean(raw) :: FoldTypes(clean, more)[n] == FoldTypes(clean, done)[n]
  {
    assert more.Keys == done.Keys + {raw};
    MoreNames(clean, done.Keys, raw);
    forall n | n in FoldTypes(clean, done) && n != clean(raw) ensures FoldTypes(clean, more)[n] == FoldTypes(clean, done)[n] {
      CleanCountOf(clean, more, n, raw);
    }
  }

  /** Folding one more key in touches only the slot it cleans to. */
  lemma MoreTypes(clean: string -> string, done: Fields, raw: string, v: Value)
    requires raw !in done
    ensures FoldTypes(clean, done[raw := v]) == WithCount(FoldTypes(clean, done), clean(raw), CountOf(v))
  {
    var more := done[raw := v];
    assert more - {raw} == done;
    if clean(raw) != "" {
      MoreSlot(clean, done, more, raw);
    } else {
      MoreElsewhere(clean, done, more, raw);
      SameFields(FoldTypes(clean, more), FoldTypes(clean, done));
    }
  }

  lemma SameFields(a: Fields, b: Fields)
    requires a.Keys == b.Keys && forall n | n in b :: a[n] == b[n]
    ensures a == b
  {
  }

  lemma MoreSlot(clean: string -> string, done: Fields, more: Fields, raw: string)
    requires raw in more && raw !in done && more - {raw} == done && clean(raw) != ""
    ensures FoldTypes(clean, more) ==
            FoldTypes(clean, done)[clean(raw) := Int((SlotCount(FoldTypes(clean, done), clean(raw)) + CountOf(more[raw])) % U64_LIMIT)]
  {
    MoreElsewhere(clean, done, more, raw);
    MoreOfName(clean, done, more, raw);
    MapWith(FoldTypes(clean, done), FoldTypes(clean, more), clean(raw),
            Int((SlotCount(FoldTypes(clean, done), clean(raw)) + CountOf(more[raw])) % U64_LIMIT));
  }

  lemma MapWith(before: Fields, after: Fields, name: string, v: Value)
    requires after.Keys == before.Keys + {name} && after[name] == v
    requires forall n | n in before && n != name :: after[n] == before[n]
    ensures after == before[name := v]
  {
  }

  lemma MoreNames(clean: string -> string, keys: set<string>, raw: string)
    ensures Names(clean, keys + {raw}) == Names(clean, keys) + if clean(raw) == "" then {} else {clean(raw)}
  {
    var names := Names(clean, keys) + if clean(raw) == "" then {} else {clean(raw)};
    forall name ensures name in Names(clean, keys + {raw}) <==> name in names {
      if name in Names(clean, keys) {
        var k :| k in keys && clean(k) == name;
        assert k in keys + {raw};
      }
    }
  }

  lemma MoreOfName(clean: string -> string, done: Fields, more: Fields, raw: string)
    requires raw in more && raw !in done && more - {raw} == done && clean(raw) != ""
    ensures CleanCount(clean, more, clean(raw)) % U64_LIMIT ==
            (SlotCount(FoldTypes(clean, done), clean(raw)) + CountOf(more[raw])) % U64_LIMIT
  {
    var name := clean(raw);
    CleanCountOf(clean, more, name, raw);
    if name !in Names(clean, done.Keys) {
      NoSuchName(clean, done, name);
    } else {
      assert SlotCount(FoldTypes(clean, done), name) == CleanCount(clean, done, name) % U64_LIMIT;
      ModAdd(CleanCount(clean, done, name), CountOf(more[raw]));
    }
  }

  lemma ModAdd(a: nat, b: nat)
    ensures (a % U64_LIMIT + b) % U64_LIMIT == (a + b) % U64_LIMIT
  {
    var q, r := a / U64_LIMIT, (a % U64_LIMIT + b) / U64_LIMIT;
    assert a == q * U64_LIMIT + a % U64_LIMIT;
    assert a + b == (q + r) * U64_LIMIT + (a % U64_LIMIT + b) % U64_LIMIT;
  }

  lemma {:induction false} NoSuchName(clean: string -> string, m: Fields, name: string)
    requires name != "" && name !in Names(clean, m.Keys)
    ensures CleanCount(clean, m, name) == 0
    decreases |m|
  {
    if m != map[] {
      assert clean(AnyKey(m)) != name;
      NoSuchName(clean, m - {AnyKey(m)}, name);
    }
  }

  class TelemetryStore {
    var panes: map<string, Card>
    var number: nat
    var nextSubId: nat
    var subscribers: seq<nat>
    var channels: map<nat, Channel>

    ghost function View(): Inner
      reads this
    {
      Inner(panes, number, nextSubId, subscribers, channels)
    }

    constructor ()
      ensures View() == EMPTY
    {
      panes, number, nextSubId, subscribers, channels := map[], 0, 0, [], map[];
    }

    method SetAgent(pane: string, agent: string)
      requires ValidSubscriptions(View())
      modifies this
      ensures View() == Exec(old(View()), Op.SetAgent(pane, agent))
    {
      var created := pane !in panes;
      var entry := if created then DEFAULT_CARD else panes[pane];
      var changed := entry.agent != Some(agent);
      entry := entry.(agent := Some(agent));
      Settle(pane, entry, changed || created);
    }

    method SetPaneListCwd(pane: string, cwd: Option<string>)
      requires ValidSubscriptions(View())
      modifies this
      ensures View() == Exec(old(View()), Op.SetPaneListCwd(pane, cwd))
    {
      if cwd.None? {
        return;
      }
      var clean := Sanitise(cwd.value);
      if clean == "" || pane !in panes {
        return;
      }
      var entry := panes[pane];
      var changed := false;
      if entry.cwdSource != Transcript && (entry.cwd != Some(clean) || entry.cwdSource != PaneList) {
        entry := entry.(cwd := Some(clean), cwdSource := PaneList);
        changed := true;
      }
      Settle(pane, entry, changed);
    }

    method SetPanePosition(pane: string, position: nat)
      requires ValidSubscriptions(View())
      modifies this
      ensures View() == Exec(old(View()), Op.SetPanePosition(pane, position))
    {
      if pane !in panes {
        return;
      }
      var changed := panes[pane].position != Some(position);
      Settle(pane, panes[pane].(position := Some(position)), changed);
    }

    method SetPaneWorkspace(pane: string, workspace: Option<string>)
      requires ValidSubscriptions(View())
      modifies this
      ensures View() == Exec(old(View()), Op.SetPaneWorkspace(pane, workspace))
    {
      var named := if workspace == Some("") then None else workspace;
      if pane !in panes {
        return;
      }
      var changed := panes[pane].workspaceId != named;
      Settle(pane, panes[pane].(workspaceId := named), changed);
    }

    method ReplaceSession(pane: string, agent: string)
      requires ValidSubscriptions(View())
      modifies this
      ensures View() == Exec(old(View()), Op.ReplaceSession(pane, agent))
    {
      var carried := if pane in panes then panes[pane].cwd else None;
      var session := DEFAULT_CARD.(agent := Some(agent), cwd := carried);
      session := session.(cwdSource := if session.cwd.Some? then PaneList else Unset);
      Settle(pane, session, true);
    }

    method Record(pane: string, event: Event, payload: Value)
      requires ValidSubscriptions(View())
      modifies this
      ensures View() == Exec(old(View()), Op.Record(pane, event, payload))
    {
      var clean := NormaliseEvent(event, payload);
      if pane !in panes {
        return;
      }
      var entry, changed := Edit(panes[pane], event, clean);
      Settle(pane, entry, changed);
    }

    method Remove(pane: string)
      requires ValidSubscriptions(View())
      modifies this
      ensures View() == Exec(old(View()), Op.Remove(pane))
    {
      if pane in panes {
        panes := panes - {pane};
        number := number + 1;
        Send(Update(number, pane, None));
      }
    }

    method SubscribeFull() returns (id: nat, seen: nat, snapshot: map<string, Card>)
      modifies this
      ensures View() == Exec(old(View()), Op.SubscribeFull)
      ensures id == nextSubId && seen == number && snapshot == panes
    {
      nextSubId := nextSubId + 1;
      id := nextSubId;
      channels := channels[id := Channel([], true)];
      subscribers := subscribers + [id];
      seen, snapshot := number, panes;
    }

    method Unsubscribe(id: nat)
      modifies this
      ensures View() == Exec(old(View()), Op.Unsubscribe(id))
    {
      var kept: seq<nat> := [];
      for k := 0 to |subscribers|
        invariant subscribers == old(subscribers)
        invariant unchanged(`panes) && unchanged(`number) && unchanged(`nextSubId) && unchanged(`channels)
        invariant kept == Filter(other => other != id, subscribers[..k])
      {
        assert subscribers[..k + 1][..k] == subscribers[..k];
        if subscribers[k] != id {
          kept := kept + [subscribers[k]];
        }
      }
      assert subscribers[..|subscribers|] == subscribers;
      subscribers := kept;
    }

    /** The edited entry goes back in place, and is published when its edit showed. */
    method Settle(pane: string, entry: Card, changed: bool)
      requires ValidSubscriptions(View())
      modifies this
      ensures View() == Commit(old(View()), pane, Outcome(entry, changed))
    {
      panes := panes[pane := entry];
      if changed {
        Stamp(pane);
        assert old(panes)[pane := entry][pane := panes[pane]] == old(panes)[pane := panes[pane]];
      }
    }

    /** The tail shared by every change: the next number, the stamp, the broadcast. */
    method Stamp(pane: string)
      requires ValidSubscriptions(View()) && pane in panes
      modifies this
      ensures View() == Publish(old(View()), pane, old(panes[pane]))
    {
      number := number + 1;
      var entry := panes[pane].(updatedSeq := number);
      panes := panes[pane := entry];
      Send(Update(number, pane, Some(entry)));
    }

    /** `try_send`: a full queue or a dead reader refuses. */
    method TrySend(id: nat, u: Update) returns (taken: bool)
      modifies `channels
      ensures taken == Accepts(old(channels), id)
      ensures channels == if taken then old(channels)[id := Push(old(channels)[id], u)] else old(channels)
    {
      taken := Accepts(channels, id);
      if taken {
        channels := channels[id := Push(channels[id], u)];
      }
    }

    /** `broadcast`: offers the update to each subscriber in turn and keeps those that took it. */
    method Send(u: Update)
      requires ValidSubscriptions(View())
      modifies this
      ensures View() == Broadcast(old(View()), u)
    {
      ghost var before := channels;
      var kept: seq<nat> := [];
      for k := 0 to |subscribers|
        invariant unchanged(`panes) && unchanged(`number) && unchanged(`nextSubId) && unchanged(`subscribers)
        invariant channels == Offered(before, u, subscribers[..k])
        invariant kept == Filter(id => Accepts(before, id), subscribers[..k])
      {
        var id := subscribers[k];
        assert subscribers[..k + 1] == subscribers[..k] + [id];
        OfferOne(before, u, subscribers[..k], id);
        FilterOne(before, subscribers[..k], id);
        var taken := TrySend(id, u);
        if taken {
          kept := kept + [id];
        }
      }
      assert subscribers[..|subscribers|] == subscribers;
      subscribers := kept;
    }
  }

  lemma OfferOne(channels: map<nat, Channel>, u: Update, ids: seq<nat>, id: nat)
    requires id !in ids && id in channels
    ensures
      var now := Offered(channels, u, ids);
      && Accepts(now, id) == Accepts(channels, id)
      && Offered(channels, u, ids + [id]) == if Accepts(now, id) then now[id := Push(now[id], u)] else now
  {
    assert forall other :: other in ids + [id] <==> other in ids || other == id;
  }

  lemma FilterOne(channels: map<nat, Channel>, ids: seq<nat>, id: nat)
    ensures Filter(other => Accepts(channels, other), ids + [id]) ==
            Filter(other => Accepts(channels, other), ids) + if Accepts(channels, id) then [id] else []
  {
    assert (ids + [id])[..|ids|] == ids;
  }

  /** The body of `record`'s closure: edits the entry and says whether that shows. */
  method Edit(before: Card, event: Event, payload: Value) returns (entry: Card, changed: bool)
    ensures Outcome(entry, changed) == Apply(before, event, payload)
  {
    entry, changed := before, false;
    match event {
      case AgentStatus =>
        changed := entry.status != Some(payload);
        entry := entry.(status := Some(payload));
      case AgentSessionTitle =>
        changed := entry.title != Some(payload);
        entry := entry.(title := Some(payload));
      case AgentLifecycle =>
        var phase := AsStr(At(payload, "phase"));
        if phase == Some("running") {
          entry := entry.(cardState := Running);
        } else if phase == Some("idle") && entry.cardState == Running {
          entry := entry.(cardState := Idle);
        }
        changed := before.cardState != entry.cardState || entry.lifecycle != Some(payload);
        entry := entry.(lifecycle := Some(payload));
      case AgentAttention =>
        changed := entry.cardState != Attention;
        entry := entry.(cardState := Attention);
      case AgentNotification =>
        var reason := AsStr(At(payload, "reason"));
        if reason == Some("turn-complete") {
          changed := entry.cardState != Finished;
          entry := entry.(cardState := Finished);
        } else if reason == Some("agent-error") {
          changed := entry.cardState != Error;
          entry := entry.(cardState := Error);
        }
      case AgentCwd =>
        entry, changed := EditCwd(entry, payload);
      case AgentToolCall =>
        entry, changed := EditToolCall(entry, payload);
      case AgentReplaySummary =>
        entry, changed := EditSummary(entry, payload);
      case OtherEvent(_) =>
    }
  }

  method EditCwd(before: Card, payload: Value) returns (entry: Card, changed: bool)
    ensures Outcome(entry, changed) == SetTranscriptCwd(before, payload)
  {
    entry, changed := before, false;
    var cwd := AsStr(At(payload, "cwd"));
    if cwd.Some? && (entry.cwd != cwd || entry.cwdSource != Transcript) {
      entry := entry.(cwd := cwd, cwdSource := Transcript);
      changed := true;
    }
  }

  /** The ring: the oldest calls go until what is left fits. */
  method DropOldest(whole: seq<Value>) returns (calls: seq<Value>)
    ensures calls == LastN(whole, TOOL_CALL_RING)
  {
    calls := whole;
    while |calls| > TOOL_CALL_RING
      invariant |calls| <= |whole| && calls == whole[|whole| - |calls|..]
      invariant |calls| >= TOOL_CALL_RING || calls == whole
    {
      calls := calls[1..];
    }
  }

  method EditToolCall(before: Card, payload: Value) returns (entry: Card, changed: bool)
    ensures Outcome(entry, changed) == RecordToolCall(before, payload)
  {
    entry, changed := before, false;
    var status := AsStr(At(payload, "status"));
    if status == Some("running") {
      var id := AsStr(At(payload, "toolUseId"));
      if id.Some? && id.value !in entry.settledTools {
        entry := entry.(openTools := entry.openTools + {id.value});
      }
    } else if status == Some("done") || status == Some("failed") {
      var id := AsStr(At(payload, "toolUseId")).GetOr("");
      if id == "" || id in entry.settledTools {
        return;
      }
      entry := entry.(settledTools := entry.settledTools + {id}, openTools := entry.openTools - {id});
      var tool := ToolName(payload);
      var calls := DropOldest(entry.toolCalls + [payload]);
      entry := entry.(toolCalls := calls,
                      toolCallTotal := entry.toolCallTotal + 1,
                      toolCounts := Bump(entry.toolCounts, tool));
      changed := true;
    }
  }

  method EditSummary(before: Card, payload: Value) returns (entry: Card, changed: bool)
    ensures Outcome(entry, changed) == ApplySummary(before, payload)
  {
    entry, changed := before, false;
    var total := AsU64(At(payload, "toolCallTotal"));
    if total.Some? && entry.toolCallTotal != total.value {
      entry := entry.(toolCallTotal := total.value);
      changed := true;
    }
    var types := At(payload, "toolCallByType");
    if types.Obj? {
      var counts := Counts(types.fields);
      if entry.toolCounts != counts {
        entry := entry.(toolCounts := counts);
        changed := true;
      }
    }
    var recent := At(payload, "recentToolCalls");
    if recent.Arr? {
      var calls := Reverse(Take(recent.items, TOOL_CALL_RING));
      if entry.toolCalls != calls {
        entry := entry.(toolCalls := calls);
        changed := true;
      }
      entry := entry.(settledTools := entry.settledTools + IdsOf(entry.toolCalls));
    }
    assert entry == SummaryTools(before, payload);
    var moved;
    entry, moved := EditCwd(entry, payload);
    changed := changed || moved;
  }
}
