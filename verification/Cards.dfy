/**
 The telemetry card of one pane, what each recorded event does to it, and the
 part of it that travels to a subscriber.
 */
module Cards {
  import opened Wrappers
  import opened Json
  import opened Sequences
  import opened Text

  const TOOL_CALL_RING: nat := 50

  datatype CardState = Idle | Running | Attention | Finished | Error

  datatype CwdSource = Unset | PaneList | Transcript

  datatype Card = Card(
    agent: Option<string>,
    cwd: Option<string>,
    cwdSource: CwdSource,
    position: Option<nat>,
    workspaceId: Option<string>,
    toolCounts: map<string, nat>,
    cardState: CardState,
    status: Option<Value>,
    lifecycle: Option<Value>,
    title: Option<Value>,
    toolCalls: seq<Value>,
    toolCallTotal: nat,
    updatedSeq: nat,
    openTools: set<string>,
    settledTools: set<string>)

  const DEFAULT_CARD := Card(None, None, Unset, None, None, map[], Idle, None, None, None, [], 0, 0, {}, {})

  datatype Event =
    | AgentStatus
    | AgentSessionTitle
    | AgentLifecycle
    | AgentAttention
    | AgentNotification
    | AgentCwd
    | AgentToolCall
    | AgentReplaySummary
    | OtherEvent(name: string)

  /** The card after a closure ran on it, and whether the closure reported a change. */
  datatype Outcome = Outcome(card: Card, changed: bool)

  // ----- what a subscriber can see -----

  /**
   The serialised fields. `cwdSource`, `openTools` and `settledTools` are
   skipped, and a present null cannot be told from an absent value once it has
   been through JSON.
   */
  datatype WireCard = WireCard(
    agent: Option<string>,
    cwd: Option<string>,
    position: Option<nat>,
    workspaceId: Option<string>,
    toolCounts: map<string, nat>,
    cardState: CardState,
    status: Option<Value>,
    lifecycle: Option<Value>,
    title: Option<Value>,
    toolCalls: seq<Value>,
    toolCallTotal: nat,
    updatedSeq: nat)

  function NonNull(v: Option<Value>): Option<Value> {
    if v == Some(Null) then None else v
  }

  function Wire(c: Card): WireCard {
    WireCard(c.agent, c.cwd, c.position, c.workspaceId, c.toolCounts, c.cardState, NonNull(c.status),
             NonNull(c.lifecycle), NonNull(c.title), c.toolCalls, c.toolCallTotal, c.updatedSeq)
  }

  // ----- cleaning a payload -----

  function SanitiseField(v: Value, key: string): Value {
    match Get(v, key)
    case Some(Str(text)) => Obj(v.fields[key := Str(Sanitise(text))])
    case _ => v
  }

  function SanitiseCall(call: Value): Value {
    SanitiseField(SanitiseField(call, "tool"), "args")
  }

  function CountOf(v: Value): nat {
    AsU64(v).GetOr(0)
  }

  ghost function AnyKey(m: Fields): (raw: string)
    requires m != map[]
    ensures raw in m
  {
    var raw :| raw in m;
    raw
  }

  function Share(clean: string -> string, m: Fields, name: string, raw: string): nat
    requires raw in m
  {
    if clean(raw) == name then CountOf(m[raw]) else 0
  }

  /** The sum of the counts whose key cleans to `name`. */
  ghost function CleanCount(clean: string -> string, m: Fields, name: string): nat {
    if m == map[] then 0 else Share(clean, m, name, AnyKey(m)) + CleanCount(clean, m - {AnyKey(m)}, name)
  }

  /** The sum does not depend on the order the keys are visited in. */
  lemma {:induction false} CleanCountOf(clean: string -> string, m: Fields, name: string, raw: string)
    requires raw in m
    ensures CleanCount(clean, m, name) == Share(clean, m, name, raw) + CleanCount(clean, m - {raw}, name)
    decreases |m|
  {
    var pick := AnyKey(m);
    if pick != raw {
      CleanCountOf(clean, m - {pick}, name, raw);
      CleanCountOf(clean, m - {raw}, name, pick);
      assert m - {pick} - {raw} == m - {raw} - {pick};
    }
  }

  function Names(clean: string -> string, keys: set<string>): set<string> {
    set raw | raw in keys && clean(raw) != "" :: clean(raw)
  }

  /** Keys that clean to the same non-empty name are folded into one, adding in 64 bits. */
  ghost function FoldTypes(clean: string -> string, m: Fields): Fields {
    map name | name in Names(clean, m.Keys) :: Int(CleanCount(clean, m, name) % U64_LIMIT)
  }

  ghost function FoldTypesField(v: Value): Value {
    match Get(v, "toolCallByType")
    case Some(Obj(types)) => Obj(v.fields["toolCallByType" := Obj(FoldTypes(Sanitise, types))])
    case _ => v
  }

  function SanitiseCallsField(v: Value): Value {
    match Get(v, "recentToolCalls")
    case Some(Arr(calls)) => Obj(v.fields["recentToolCalls" := Arr(Map(SanitiseCall, calls))])
    case _ => v
  }

  ghost function Normalise(event: Event, payload: Value): Value {
    match event
    case AgentStatus => SanitiseField(payload, "modelDisplayName")
    case AgentSessionTitle => SanitiseField(payload, "title")
    case AgentCwd => SanitiseField(payload, "cwd")
    case AgentToolCall => SanitiseCall(payload)
    case AgentReplaySummary => FoldTypesField(SanitiseCallsField(SanitiseField(payload, "cwd")))
    case _ => payload
  }

  // ----- what one event does -----

  function SetStatus(c: Card, payload: Value): Outcome {
    Outcome(c.(status := Some(payload)), c.status != Some(payload))
  }

  function SetTitle(c: Card, payload: Value): Outcome {
    Outcome(c.(title := Some(payload)), c.title != Some(payload))
  }

  function SetLifecycle(c: Card, payload: Value): Outcome {
    var phase := AsStr(At(payload, "phase"));
    var state :=
      if phase == Some("running") then Running
      else if phase == Some("idle") && c.cardState == Running then Idle
      else c.cardState;
    Outcome(c.(cardState := state, lifecycle := Some(payload)), state != c.cardState || c.lifecycle != Some(payload))
  }

  function SetState(c: Card, state: CardState): Outcome {
    Outcome(c.(cardState := state), c.cardState != state)
  }

  function Notify(c: Card, payload: Value): Outcome {
    var reason := AsStr(At(payload, "reason"));
    if reason == Some("turn-complete") then SetState(c, Finished)
    else if reason == Some("agent-error") then SetState(c, Error)
    else Outcome(c, false)
  }

  function SetTranscriptCwd(c: Card, payload: Value): Outcome {
    match AsStr(At(payload, "cwd"))
    case Some(cwd) => Outcome(c.(cwd := Some(cwd), cwdSource := Transcript), c.cwd != Some(cwd) || c.cwdSource != Transcript)
    case None => Outcome(c, false)
  }

  function ToolName(payload: Value): string {
    var tool := AsStr(At(payload, "tool"));
    if tool.None? || tool.value == "" then "unknown" else tool.value
  }

  function Bump(counts: map<string, nat>, tool: string): map<string, nat> {
    counts[tool := (if tool in counts then counts[tool] else 0) + 1]
  }

  function RecordToolCall(c: Card, payload: Value): Outcome {
    var status := AsStr(At(payload, "status"));
    if status == Some("running") then
      match AsStr(At(payload, "toolUseId"))
      case Some(id) => Outcome(if id in c.settledTools then c else c.(openTools := c.openTools + {id}), false)
      case None => Outcome(c, false)
    else if status == Some("done") || status == Some("failed") then
      var id := AsStr(At(payload, "toolUseId")).GetOr("");
      if id == "" || id in c.settledTools then Outcome(c, false)
      else
        Outcome(c.(settledTools := c.settledTools + {id},
                   openTools := c.openTools - {id},
                   toolCalls := LastN(c.toolCalls + [payload], TOOL_CALL_RING),
                   toolCallTotal := c.toolCallTotal + 1,
                   toolCounts := Bump(c.toolCounts, ToolName(payload))),
                true)
    else Outcome(c, false)
  }

  /** The members of a count table that are counts. */
  function Counts(types: Fields): map<string, nat> {
    map tool | tool in types && AsU64(types[tool]).Some? :: AsU64(types[tool]).value
  }

  function IdsOf(calls: seq<Value>): set<string> {
    set call | call in calls && AsStr(At(call, "toolUseId")).Some? :: AsStr(At(call, "toolUseId")).value
  }

  function Take<T>(s: seq<T>, n: nat): seq<T> {
    if |s| <= n then s else s[..n]
  }

  function SummaryTools(c: Card, payload: Value): Card {
    var total := AsU64(At(payload, "toolCallTotal")).GetOr(c.toolCallTotal);
    var types := At(payload, "toolCallByType");
    var counts := if types.Obj? then Counts(types.fields) else c.toolCounts;
    var recent := At(payload, "recentToolCalls");
    if recent.Arr? then
      var calls := Reverse(Take(recent.items, TOOL_CALL_RING));
      c.(toolCallTotal := total, toolCounts := counts, toolCalls := calls, settledTools := c.settledTools + IdsOf(calls))
    else c.(toolCallTotal := total, toolCounts := counts)
  }

  function ApplySummary(c: Card, payload: Value): Outcome {
    var tools := SummaryTools(c, payload);
    var last := SetTranscriptCwd(tools, payload);
    Outcome(last.card,
            tools.toolCallTotal != c.toolCallTotal || tools.toolCounts != c.toolCounts ||
            tools.toolCalls != c.toolCalls || last.changed)
  }

  /** What `record`'s closure does with a payload that is already clean. */
  function Apply(c: Card, event: Event, payload: Value): Outcome {
    match event
    case AgentStatus => SetStatus(c, payload)
    case AgentSessionTitle => SetTitle(c, payload)
    case AgentLifecycle => SetLifecycle(c, payload)
    case AgentAttention => SetState(c, Attention)
    case AgentNotification => Notify(c, payload)
    case AgentCwd => SetTranscriptCwd(c, payload)
    case AgentToolCall => RecordToolCall(c, payload)
    case AgentReplaySummary => ApplySummary(c, payload)
    case OtherEvent(_) => Outcome(c, false)
  }

  lemma SilentToolCall(c: Card, payload: Value)
    requires !RecordToolCall(c, payload).changed
    ensures Wire(RecordToolCall(c, payload).card) == Wire(c)
  {
  }

  lemma SilentCwd(c: Card, payload: Value)
    requires !SetTranscriptCwd(c, payload).changed
    ensures SetTranscriptCwd(c, payload).card == c
  {
  }

  lemma SilentSummary(c: Card, payload: Value)
    requires !ApplySummary(c, payload).changed
    ensures Wire(ApplySummary(c, payload).card) == Wire(c)
  {
    var tools := SummaryTools(c, payload);
    SilentCwd(tools, payload);
    assert tools == c.(settledTools := tools.settledTools);
  }

  /**
   The frame every subscriber relies on: an event that reports no change left
   everything a subscriber can see as it was, though it may have moved ids
   between the private sets.
   */
  lemma SilentEventsAreInvisible(c: Card, event: Event, payload: Value)
    requires !Apply(c, event, payload).changed
    ensures Wire(Apply(c, event, payload).card) == Wire(c)
  {
    match event
    case AgentCwd => SilentCwd(c, payload);
    case AgentToolCall => SilentToolCall(c, payload);
    case AgentReplaySummary => SilentSummary(c, payload);
    case _ =>
  }

  /** No event touches who the card belongs to or where the pane is. */
  lemma EventsKeepIdentity(c: Card, event: Event, payload: Value)
    ensures
      var r := Apply(c, event, payload).card;
      r.agent == c.agent && r.position == c.position && r.workspaceId == c.workspaceId && r.updatedSeq == c.updatedSeq
  {
  }

  // ----- normalising twice -----

  lemma SanitiseFieldIdempotent(v: Value, key: string)
    ensures SanitiseField(SanitiseField(v, key), key) == SanitiseField(v, key)
  {
    match Get(v, key)
    case Some(Str(text)) =>
      SanitiseIdempotent(text);
      var once := v.fields[key := Str(Sanitise(text))];
      assert once[key := Str(Sanitise(text))] == once;
    case _ =>
  }

  lemma SanitiseFieldsCommute(v: Value, a: string, b: string)
    requires a != b
    ensures SanitiseField(SanitiseField(v, a), b) == SanitiseField(SanitiseField(v, b), a)
  {
    if v.Obj? && a in v.fields && v.fields[a].Str? && b in v.fields && v.fields[b].Str? {
      var ca, cb := Str(Sanitise(v.fields[a].text)), Str(Sanitise(v.fields[b].text));
      assert v.fields[a := ca][b := cb] == v.fields[b := cb][a := ca];
    }
  }

  lemma SanitiseCallIdempotent(call: Value)
    ensures SanitiseCall(SanitiseCall(call)) == SanitiseCall(call)
  {
    var once := SanitiseField(call, "tool");
    SanitiseFieldsCommute(once, "args", "tool");
    SanitiseFieldIdempotent(call, "tool");
    SanitiseFieldIdempotent(once, "args");
  }

  /** Once every key is clean, each name has only its own count. */
  lemma {:induction false} CleanCountOfCleanKeys(clean: string -> string, m: Fields, name: string)
    requires forall raw | raw in m :: clean(raw) == raw
    ensures CleanCount(clean, m, name) == if name in m then CountOf(m[name]) else 0
    decreases |m|
  {
    if m != map[] {
      CleanCountOfCleanKeys(clean, m - {AnyKey(m)}, name);
    }
  }

  lemma NamesIdempotent(clean: string -> string, keys: set<string>)
    requires forall raw | raw in keys :: clean(clean(raw)) == clean(raw)
    ensures forall name | name in Names(clean, keys) :: clean(name) == name
    ensures Names(clean, Names(clean, keys)) == Names(clean, keys)
  {
    assert forall name | name in Names(clean, keys) :: clean(name) == name && name != "";
  }

  lemma FoldTypesIdempotent(clean: string -> string, m: Fields)
    requires forall raw | raw in m :: clean(clean(raw)) == clean(raw)
    ensures FoldTypes(clean, FoldTypes(clean, m)) == FoldTypes(clean, m)
  {
    var once := FoldTypes(clean, m);
    NamesIdempotent(clean, m.Keys);
    assert once.Keys == Names(clean, m.Keys);
    forall name | name in once ensures CleanCount(clean, once, name) % U64_LIMIT == CleanCount(clean, m, name) % U64_LIMIT {
      CleanCountOfCleanKeys(clean, once, name);
    }
  }

  /** The sink normalises an event and the store does it again; the second pass is free. */
  lemma NormaliseIdempotent(event: Event, payload: Value)
    ensures Normalise(event, Normalise(event, payload)) == Normalise(event, payload)
  {
    match event
    case AgentStatus => SanitiseFieldIdempotent(payload, "modelDisplayName");
    case AgentSessionTitle => SanitiseFieldIdempotent(payload, "title");
    case AgentCwd => SanitiseFieldIdempotent(payload, "cwd");
    case AgentToolCall => SanitiseCallIdempotent(payload);
    case AgentReplaySummary => SummaryNormaliseIdempotent(payload);
    case _ =>
  }

  lemma CallsIdempotent(calls: seq<Value>)
    ensures Map(SanitiseCall, Map(SanitiseCall, calls)) == Map(SanitiseCall, calls)
  {
    forall i | 0 <= i < |calls|
      ensures Map(SanitiseCall, Map(SanitiseCall, calls))[i] == Map(SanitiseCall, calls)[i]
    {
      SanitiseCallIdempotent(calls[i]);
    }
  }

  /** A clean member stays clean when other members change. */
  lemma SanitiseFieldFixed(v: Value, w: Value, key: string)
    requires SanitiseField(v, key) == v && Get(w, key) == Get(v, key)
    ensures SanitiseField(w, key) == w
  {
    if Get(w, key).Some? && Get(w, key).value.Str? {
      assert v.fields[key] == v.fields[key := Str(Sanitise(v.fields[key].text))][key];
      assert w.fields[key := w.fields[key]] == w.fields;
    }
  }

  lemma SummaryNormaliseIdempotent(payload: Value)
    ensures Normalise(AgentReplaySummary, Normalise(AgentReplaySummary, payload)) == Normalise(AgentReplaySummary, payload)
  {
    var p1 := SanitiseField(payload, "cwd");
    var p2 := SanitiseCallsField(p1);
    var p3 := FoldTypesField(p2);
    assert Get(p3, "cwd") == Get(p1, "cwd");
    SanitiseFieldIdempotent(payload, "cwd");
    SanitiseFieldFixed(p1, p3, "cwd");
    assert SanitiseCallsField(p3) == p3 by {
      assert Get(p3, "recentToolCalls") == Get(p2, "recentToolCalls");
      match Get(p1, "recentToolCalls")
      case Some(Arr(calls)) =>
        CallsIdempotent(calls);
        assert p3.fields["recentToolCalls" := p3.fields["recentToolCalls"]] == p3.fields;
      case _ =>
    }
    assert FoldTypesField(p3) == p3 by {
      match Get(p2, "toolCallByType")
      case Some(Obj(types)) =>
        forall raw | raw in types ensures Sanitise(Sanitise(raw)) == Sanitise(raw) {
          SanitiseIdempotent(raw);
        }
        FoldTypesIdempotent(Sanitise, types);
        assert p3.fields["toolCallByType" := p3.fields["toolCallByType"]] == p3.fields;
      case _ =>
    }
  }
}
