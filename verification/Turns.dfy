/**
 The turn state machine behind notifications: which records open a turn, which
 end one, and how an OpenCode idle waits for the text it should carry.
 */
module Turns {
  import opened Wrappers
  import opened Sequences
  import opened Dedupe

  datatype Provider = ClaudeCode | Codex | Kimi | OpenCode

  datatype Reason = TurnComplete | ApprovalRequested | QuestionRequested | AgentError

  datatype Signal =
    | Session(id: string)
    | AssistantText(text: string)
    | OpenCodeStatusIdle(occurredAt: nat, sessionId: Option<string>)
    | TurnStarted(turnId: Option<string>, sessionId: Option<string>)
    | TurnEnded
    | Notification(reason: Reason, occurredAt: nat, dedupeKey: Option<string>, turnId: Option<string>,
                   sessionId: Option<string>, body: Option<string>, transcript: Option<string>,
                   requiresTurn: bool, endsTurn: bool)
    | Irrelevant

  datatype Pending = Pending(occurredAt: nat, sessionId: Option<string>)

  datatype Turn = Turn(
    provider: Provider,
    sessionId: Option<string>,
    active: bool,
    turnId: Option<string>,
    body: Option<string>,
    pending: Option<Pending>,
    window: Window)

  datatype Emission = Emission(sessionId: Option<string>, reason: Reason, body: Option<string>, occurredAt: nat,
                               dedupeKey: Option<string>)

  /**
   A step's result: the state, what was sent, and two counts the code does not
   keep: how many of the notifications sent needed an active turn, and how many
   turns a notification ended.
   */
  datatype Effect = Effect(turn: Turn, sent: seq<Emission>, needed: nat, ended: nat)

  type Normaliser = string -> Option<string>

  function Or<T>(a: Option<T>, b: Option<T>): Option<T> {
    if a.Some? then a else b
  }

  function ActionBody(reason: Reason): Option<string> {
    match reason
    case ApprovalRequested => Some("Awaiting your approval")
    case QuestionRequested => Some("Awaiting your response")
    case _ => None
  }

  /** The key of an idle without a session is none at all; otherwise it is made of the session and the time. */
  function CompletionKey(occurredAt: nat, sessionId: Option<string>, key: (string, nat) -> string): Option<string> {
    if sessionId.Some? then Some(key(sessionId.value, occurredAt)) else None
  }

  datatype Rules = Rules(normalise: Normaliser, key: (string, nat) -> string)

  function OpenCodeCompletion(rules: Rules, occurredAt: nat, sessionId: Option<string>): Signal {
    Notification(TurnComplete, occurredAt, CompletionKey(occurredAt, sessionId, rules.key), None, sessionId, None, None, true, true)
  }

  predicate Mismatched(t: Turn, s: Signal)
    requires s.Notification?
  {
    t.turnId.Some? && s.turnId.Some? && t.turnId != s.turnId
  }

  /** A notification the turn state lets through. */
  predicate Passes(t: Turn, s: Signal)
    requires s.Notification?
  {
    !Mismatched(t, s) && (s.requiresTurn ==> t.active)
  }

  function BodyOf(rules: Rules, t: Turn, s: Signal): Option<string>
    requires s.Notification?
  {
    var own := if s.body.Some? then rules.normalise(s.body.value) else None;
    var transcript := if s.reason == TurnComplete || s.reason == AgentError then s.transcript else None;
    var buffered := if s.endsTurn then t.body else None;
    Or(own, Or(transcript, Or(buffered, ActionBody(s.reason))))
  }

  function AfterEnding(t: Turn, ends: bool): Turn {
    if ends then t.(active := false, turnId := None, pending := None, body := None) else t
  }

  /** A key already in the window keeps the event back; any other is remembered with it. */
  function Deliver(t: Turn, s: Signal, body: Option<string>, ended: nat): Effect
    requires s.Notification?
  {
    if s.dedupeKey.Some? && s.dedupeKey.value in t.window.keys then Effect(t, [], 0, ended)
    else
      Effect(if s.dedupeKey.Some? then t.(window := Remember(t.window, s.dedupeKey.value)) else t,
             [Emission(t.sessionId, s.reason, body, s.occurredAt, s.dedupeKey)], One(s.requiresTurn), ended)
  }

  function Notify(rules: Rules, t: Turn, s: Signal): Effect
    requires s.Notification?
  {
    var known := t.(sessionId := Or(s.sessionId, t.sessionId));
    if !Passes(t, s) then Effect(known, [], 0, 0)
    else Deliver(AfterEnding(known, s.endsTurn), s, BodyOf(rules, t, s), One(s.endsTurn && t.active))
  }

  function One(b: bool): nat {
    if b then 1 else 0
  }

  function Then(e: Effect, turn: Turn): Effect {
    e.(turn := turn)
  }

  /** `apply_signal` */
  function Apply(rules: Rules, t: Turn, s: Signal): Effect
    decreases if s.Notification? then 0 else 2
  {
    match s
    case Session(id) => Effect(t.(sessionId := Some(id)), [], 0, 0)
    case AssistantText(text) =>
      var body := rules.normalise(text);
      if body.Some? then Flush(rules, t.(body := body)) else Effect(t, [], 0, 0)
    case OpenCodeStatusIdle(occurredAt, sessionId) =>
      Effect(t.(sessionId := Or(sessionId, t.sessionId), pending := Some(Pending(occurredAt, sessionId))), [], 0, 0)
    case TurnStarted(turnId, sessionId) =>
      var e := Flush(rules, t);
      Then(e, e.turn.(sessionId := Or(sessionId, e.turn.sessionId), active := true, turnId := turnId, body := None))
    case TurnEnded => Effect(t.(active := false, turnId := None, body := None, pending := None), [], 0, 0)
    case Notification(_, _, _, _, _, _, _, _, _) => Notify(rules, t, s)
    case Irrelevant => Effect(t, [], 0, 0)
  }

  /** `flush_pending_opencode_idle` */
  function Flush(rules: Rules, t: Turn): Effect
    decreases 1
  {
    if t.provider == OpenCode && t.pending.Some? then
      Apply(rules, t.(pending := None), OpenCodeCompletion(rules, t.pending.value.occurredAt, t.pending.value.sessionId))
    else Effect(t, [], 0, 0)
  }

  /** The recursion between the two is one level deep: a flush is one notification or nothing. */
  lemma FlushIsOneNotification(rules: Rules, t: Turn)
    ensures Flush(rules, t) ==
            if t.provider == OpenCode && t.pending.Some? then
              Notify(rules, t.(pending := None), OpenCodeCompletion(rules, t.pending.value.occurredAt, t.pending.value.sessionId))
            else Effect(t, [], 0, 0)
  {
    if t.pending.Some? {
      var s := OpenCodeCompletion(rules, t.pending.value.occurredAt, t.pending.value.sessionId);
      assert Apply(rules, t.(pending := None), s) == Notify(rules, t.(pending := None), s);
    }
  }

  lemma ApplyUnfolds(rules: Rules, t: Turn, s: Signal)
    ensures s.Notification? ==> Apply(rules, t, s) == Notify(rules, t, s)
    ensures s.AssistantText? ==>
      Apply(rules, t, s) == if rules.normalise(s.text).Some? then Flush(rules, t.(body := rules.normalise(s.text))) else Effect(t, [], 0, 0)
    ensures s.TurnStarted? ==>
      var e := Flush(rules, t);
      Apply(rules, t, s) == Then(e, e.turn.(sessionId := Or(s.sessionId, e.turn.sessionId), active := true, turnId := s.turnId, body := None))
    ensures s.TurnEnded? ==> Apply(rules, t, s).turn == t.(active := false, turnId := None, body := None, pending := None)
  {
  }

  // ----- runs -----

  /** What can happen to a registration: a signal, the end of a scan, or the reset after its file shrank. */
  datatype Happening = Seen(signal: Signal) | ScanEnd | Shrunk

  function Reset(t: Turn): Turn {
    t.(active := false, turnId := None, pending := None)
  }

  function Happen(rules: Rules, t: Turn, h: Happening): Effect {
    match h
    case Seen(s) => Apply(rules, t, s)
    case ScanEnd => Flush(rules, t)
    case Shrunk => Effect(Reset(t), [], 0, 0)
  }

  function Run(rules: Rules, t: Turn, hs: seq<Happening>): Effect {
    if hs == [] then Effect(t, [], 0, 0)
    else
      var past := Run(rules, t, hs[..|hs| - 1]);
      var e := Happen(rules, past.turn, hs[|hs| - 1]);
      Effect(e.turn, past.sent + e.sent, past.needed + e.needed, past.ended + e.ended)
  }

  function Starts(hs: seq<Happening>): nat {
    if hs == [] then 0
    else Starts(hs[..|hs| - 1]) + if hs[|hs| - 1].Seen? && hs[|hs| - 1].signal.TurnStarted? then 1 else 0
  }

  /** What every classifier guarantees: a signal that needs an active turn also ends it. */
  ghost predicate EndsWhatItNeeds(h: Happening) {
    h.Seen? && h.signal.Notification? && h.signal.requiresTurn ==> h.signal.endsTurn
  }

  lemma OneHappening(rules: Rules, t: Turn, h: Happening)
    requires EndsWhatItNeeds(h)
    ensures
      var e := Happen(rules, t, h);
      && e.needed <= e.ended
      && e.ended + One(e.turn.active) <= One(t.active) + One(h.Seen? && h.signal.TurnStarted?)
      && e.turn.provider == t.provider
  {
    FlushIsOneNotification(rules, t);
    if h.Seen? {
      ApplyUnfolds(rules, t, h.signal);
      if h.signal.AssistantText? {
        FlushIsOneNotification(rules, t.(body := rules.normalise(h.signal.text)));
      }
    }
  }

  /**
   Over every sequence of signals and every placement of scan ends and resets,
   the notifications sent that need an active turn are at most the turns ended,
   and the turns ended, with the one still open, are at most the turns started
   and the one open at the beginning.
   */
  lemma {:induction false} NotificationsNeverOutnumberTurns(rules: Rules, t: Turn, hs: seq<Happening>)
    requires forall h | h in hs :: EndsWhatItNeeds(h)
    ensures
      var e := Run(rules, t, hs);
      && e.needed <= e.ended
      && e.ended + One(e.turn.active) <= One(t.active) + Starts(hs)
      && e.turn.provider == t.provider
  {
    if hs != [] {
      assert hs[|hs| - 1] in hs;
      NotificationsNeverOutnumberTurns(rules, t, hs[..|hs| - 1]);
      OneHappening(rules, Run(rules, t, hs[..|hs| - 1]).turn, hs[|hs| - 1]);
    }
  }

  /** Without that guarantee one turn can carry any number of notifications. */
  lemma TheGuaranteeIsNeeded(rules: Rules, t: Turn)
    requires t.active && t.turnId.None?
    ensures
      var s := Notification(TurnComplete, 0, None, None, None, None, None, true, false);
      Run(rules, t, [Seen(s), Seen(s)]).needed == 2 > One(t.active) + Starts([Seen(s), Seen(s)])
  {
    var s := Notification(TurnComplete, 0, None, None, None, None, None, true, false);
    var hs := [Seen(s), Seen(s)];
    assert hs[..1] == [Seen(s)] && [Seen(s)][..0] == [];
    assert Starts(hs[..1]) == 0;
    ApplyUnfolds(rules, t, s);
    assert Run(rules, t, []) == Effect(t, [], 0, 0);
    var once := Run(rules, t, hs[..1]);
    assert once.needed == 1 && once.turn.active && once.turn.turnId.None?;
    ApplyUnfolds(rules, once.turn, s);
  }

  /** A scan end leaves no idle waiting; a provider other than OpenCode never has one. */
  lemma FlushLeavesNothingPending(rules: Rules, t: Turn)
    requires t.provider == OpenCode || t.pending.None?
    ensures Flush(rules, t).turn.pending.None?
  {
    FlushIsOneNotification(rules, t);
  }

  // ----- deferral against the eager machine -----

  /** The records OpenCode's classifier can produce: no turn ids, and needing a turn is ending it. */
  ghost predicate FromOpenCode(h: Happening) {
    match h
    case Seen(TurnEnded) => false
    case Seen(TurnStarted(turnId, _)) => turnId.None?
    case Seen(Notification(_, _, _, turnId, _, _, _, requires_, ends)) => turnId.None? && requires_ == ends
    case Shrunk => false
    case _ => true
  }

  /** The machine without deferral: an idle is a completion on the spot. */
  function Eager(rules: Rules, h: Happening): Happening {
    match h
    case Seen(OpenCodeStatusIdle(occurredAt, sessionId)) => Seen(OpenCodeCompletion(rules, occurredAt, sessionId))
    case _ => h
  }

  function EagerAll(rules: Rules, hs: seq<Happening>): seq<Happening> {
    Map(h => Eager(rules, h), hs)
  }

  /** A deferred idle on an open turn counts as the end it will become. */
  ghost predicate Defers(d: Effect, e: Effect) {
    && d.turn.provider == e.turn.provider == OpenCode
    && d.turn.turnId.None? && e.turn.turnId.None? && e.turn.pending.None?
    && e.turn.active == (d.turn.active && d.turn.pending.None?)
    && e.ended == d.ended + One(d.turn.active && d.turn.pending.Some?)
  }

  /** What a step adds to the turns ended before it. */
  function Added(past: Effect, step: Effect): Effect {
    Effect(step.turn, [], 0, past.ended + step.ended)
  }

  lemma FlushDefers(rules: Rules, d: Effect, e: Effect)
    requires Defers(d, e)
    ensures Defers(Added(d, Flush(rules, d.turn)), Added(e, Flush(rules, e.turn)))
    ensures Flush(rules, d.turn).turn.pending.None?
  {
    FlushIsOneNotification(rules, d.turn);
    FlushIsOneNotification(rules, e.turn);
  }

  lemma TextDefers(rules: Rules, d: Effect, e: Effect, text: string)
    requires Defers(d, e)
    ensures Defers(Added(d, Apply(rules, d.turn, AssistantText(text))), Added(e, Apply(rules, e.turn, AssistantText(text))))
  {
    var body := rules.normalise(text);
    ApplyUnfolds(rules, d.turn, AssistantText(text));
    ApplyUnfolds(rules, e.turn, AssistantText(text));
    FlushDefers(rules, d.(turn := d.turn.(body := body)), e.(turn := e.turn.(body := body)));
  }

  lemma StartDefers(rules: Rules, d: Effect, e: Effect, s: Signal)
    requires Defers(d, e) && s.TurnStarted? && s.turnId.None?
    ensures Defers(Added(d, Apply(rules, d.turn, s)), Added(e, Apply(rules, e.turn, s)))
  {
    ApplyUnfolds(rules, d.turn, s);
    ApplyUnfolds(rules, e.turn, s);
    FlushDefers(rules, d, e);
  }

  lemma IdleDefers(rules: Rules, d: Effect, e: Effect, s: Signal)
    requires Defers(d, e) && s.OpenCodeStatusIdle?
    ensures Defers(Added(d, Apply(rules, d.turn, s)), Added(e, Apply(rules, e.turn, OpenCodeCompletion(rules, s.occurredAt, s.sessionId))))
  {
    ApplyUnfolds(rules, e.turn, OpenCodeCompletion(rules, s.occurredAt, s.sessionId));
  }

  lemma NotificationDefers(rules: Rules, d: Effect, e: Effect, s: Signal)
    requires Defers(d, e) && s.Notification? && s.turnId.None? && s.requiresTurn == s.endsTurn
    ensures Defers(Added(d, Apply(rules, d.turn, s)), Added(e, Apply(rules, e.turn, s)))
  {
    ApplyUnfolds(rules, d.turn, s);
    ApplyUnfolds(rules, e.turn, s);
  }

  lemma OneDeferral(rules: Rules, d: Effect, e: Effect, h: Happening)
    requires Defers(d, e) && FromOpenCode(h)
    ensures Defers(Added(d, Happen(rules, d.turn, h)), Added(e, Happen(rules, e.turn, Eager(rules, h))))
  {
    match h
    case ScanEnd => FlushDefers(rules, d, e);
    case Seen(s) =>
      match s {
        case AssistantText(text) => TextDefers(rules, d, e, text);
        case TurnStarted(_, _) => StartDefers(rules, d, e, s);
        case OpenCodeStatusIdle(_, _) => IdleDefers(rules, d, e, s);
        case Notification(_, _, _, _, _, _, _, _, _) => NotificationDefers(rules, d, e, s);
        case Session(_) =>
        case Irrelevant =>
        case TurnEnded =>
      }
    case Shrunk =>
  }

  lemma {:induction false} DeferralTracks(rules: Rules, t: Turn, hs: seq<Happening>)
    requires t.provider == OpenCode && t.turnId.None? && t.pending.None?
    requires forall h | h in hs :: FromOpenCode(h)
    ensures Defers(Run(rules, t, hs), Run(rules, t, EagerAll(rules, hs)))
  {
    if hs != [] {
      var front, h := hs[..|hs| - 1], hs[|hs| - 1];
      assert h in hs;
      DeferralTracks(rules, t, front);
      assert EagerAll(rules, hs)[..|hs| - 1] == EagerAll(rules, front);
      OneDeferral(rules, Run(rules, t, front), Run(rules, t, EagerAll(rules, front)), h);
    }
  }

  /**
   Deferring neither loses a completion nor invents one: after any OpenCode
   records and any scan ends, flushing what is pending leaves the same turn open
   or closed, and the same number of turns ended, as completing every idle at
   once would have.
   */
  lemma DeferralIsFaithful(rules: Rules, t: Turn, hs: seq<Happening>)
    requires t.provider == OpenCode && t.turnId.None? && t.pending.None?
    requires forall h | h in hs :: FromOpenCode(h)
    ensures
      var late, now := Run(rules, t, hs + [ScanEnd]), Run(rules, t, EagerAll(rules, hs));
      late.turn.active == now.turn.active && late.ended == now.ended && late.turn.pending.None?
  {
    DeferralTracks(rules, t, hs);
    assert (hs + [ScanEnd])[..|hs|] == hs;
    FlushIsOneNotification(rules, Run(rules, t, hs).turn);
  }

  /** And what it is for: the completion of a deferred idle carries the text that arrived after it. */
  lemma DeferredCompletionCarriesTheText(rules: Rules, t: Turn, text: string)
    requires t.provider == OpenCode && t.active && t.pending.Some?
    requires rules.normalise(text).Some?
    requires
      var key := CompletionKey(t.pending.value.occurredAt, t.pending.value.sessionId, rules.key);
      key.Some? ==> key.value !in t.window.keys
    ensures
      var e := Apply(rules, t, AssistantText(text));
      && |e.sent| == 1
      && e.sent[0].body == rules.normalise(text)
      && e.sent[0].reason == TurnComplete && e.sent[0].occurredAt == t.pending.value.occurredAt
      && e.needed == e.ended == 1 && !e.turn.active && e.turn.pending.None?
  {
    FlushIsOneNotification(rules, t.(body := rules.normalise(text)));
  }
}
