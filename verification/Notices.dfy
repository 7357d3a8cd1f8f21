/**
 What a registration sends, over every run of signals, scan ends and resets:
 one notice for each notification its open turn lets through, unless the
 notice's key is among the last 128 sent.
 */
module Notices {
  import opened Wrappers
  import opened Sequences
  import opened Dedupe
  import opened Turns

  // ----- the keys of what was sent -----

  /** The keys of the notices that have one, in order. */
  function KeysOf(sent: seq<Emission>): seq<string> {
    if sent == [] then []
    else KeysOf(sent[..|sent| - 1]) + if sent[|sent| - 1].dedupeKey.Some? then [sent[|sent| - 1].dedupeKey.value] else []
  }

  /** The key is among those of the last 128 notices that had one. */
  predicate Recent(sent: seq<Emission>, key: Option<string>) {
    key.Some? && key.value in LastN(KeysOf(sent), 128)
  }

  ghost predicate NoRepeats(sent: seq<Emission>) {
    forall i | 0 <= i < |sent| :: !Recent(sent[..i], sent[i].dedupeKey)
  }

  /** The window remembers exactly the keys of what was sent. */
  ghost predicate Tracks(w: Window, sent: seq<Emission>) {
    w == RememberAll(KeysOf(sent)) && Accepted(KeysOf(sent)) == KeysOf(sent) && NoRepeats(sent)
  }

  lemma KeysOneMore(sent: seq<Emission>, e: Emission)
    ensures KeysOf(sent + [e]) == if e.dedupeKey.Some? then KeysOf(sent) + [e.dedupeKey.value] else KeysOf(sent)
  {
    assert (sent + [e])[..|sent|] == sent;
    assert KeysOf(sent) + [] == KeysOf(sent);
  }

  lemma RememberOneMore(keys: seq<string>, key: string)
    requires Accepted(keys) == keys && key !in LastN(keys, 128)
    ensures RememberAll(keys + [key]) == Remember(RememberAll(keys), key)
    ensures Accepted(keys + [key]) == keys + [key]
  {
    assert (keys + [key])[..|keys|] == keys;
  }

  lemma NoRepeatsOneMore(sent: seq<Emission>, e: Emission)
    requires NoRepeats(sent) && !Recent(sent, e.dedupeKey)
    ensures NoRepeats(sent + [e])
  {
    var more := sent + [e];
    forall i | 0 <= i < |more| ensures !Recent(more[..i], more[i].dedupeKey) {
      if i < |sent| {
        assert more[..i] == sent[..i] && more[i] == sent[i];
      } else {
        assert more[..i] == sent;
      }
    }
  }

  /** Known to the window is recently sent. */
  lemma KnownIsRecent(w: Window, sent: seq<Emission>, key: Option<string>)
    requires Tracks(w, sent)
    ensures key.Some? && key.value in w.keys <==> Recent(sent, key)
  {
    if key.Some? {
      WindowIsTheLastAccepted(KeysOf(sent), key.value);
    }
  }

  lemma SentOneMore(w: Window, sent: seq<Emission>, e: Emission)
    requires Tracks(w, sent) && !Recent(sent, e.dedupeKey)
    ensures Tracks(if e.dedupeKey.Some? then Remember(w, e.dedupeKey.value) else w, sent + [e])
  {
    KeysOneMore(sent, e);
    NoRepeatsOneMore(sent, e);
    if e.dedupeKey.Some? {
      RememberOneMore(KeysOf(sent), e.dedupeKey.value);
    }
  }

  // ----- where the turn stands -----

  /** The open turn and the id it was given, the idle that waits, the text last said, and the session. */
  datatype Standing = Standing(open: Option<Option<string>>, idle: Option<Pending>, said: Option<string>, session: Option<string>)

  const NOTHING_HEARD := Standing(None, None, None, None)

  function StandingOf(t: Turn): Standing {
    Standing(if t.active then Some(t.turnId) else None, t.pending, t.body, t.sessionId)
  }

  /** The notification names the open turn, or one of the two is not named; and a turn is open if it needs one. */
  predicate Concerns(p: Standing, s: Signal)
    requires s.Notification?
  {
    && (p.open.Some? && p.open.value.Some? && s.turnId.Some? ==> p.open.value == s.turnId)
    && (s.requiresTurn ==> p.open.Some?)
  }

  function Latest(told: Option<string>, known: Option<string>): Option<string> {
    if told.Some? then told else known
  }

  /** Its own text, else the transcript's, else what was said in the turn it ends, else a stock phrase. */
  function Wording(rules: Rules, p: Standing, s: Signal): Option<string>
    requires s.Notification?
  {
    if s.body.Some? && rules.normalise(s.body.value).Some? then rules.normalise(s.body.value)
    else if (s.reason == TurnComplete || s.reason == AgentError) && s.transcript.Some? then s.transcript
    else if s.endsTurn && p.said.Some? then p.said
    else if s.reason == ApprovalRequested then Some("Awaiting your approval")
    else if s.reason == QuestionRequested then Some("Awaiting your response")
    else None
  }

  /** The notice of a notification that is let through. */
  function Notice(rules: Rules, p: Standing, s: Signal): Emission
    requires s.Notification?
  {
    Emission(Latest(s.sessionId, p.session), s.reason, Wording(rules, p, s), s.occurredAt, s.dedupeKey)
  }

  /** An idle that waits is a completed turn, of whatever turn is open. */
  function Completion(rules: Rules, idle: Pending): Signal {
    Notification(TurnComplete, idle.occurredAt,
                 if idle.sessionId.Some? then Some(rules.key(idle.sessionId.value, idle.occurredAt)) else None,
                 None, idle.sessionId, None, None, true, true)
  }

  function AfterNotification(p: Standing, s: Signal): Standing
    requires s.Notification?
  {
    var known := p.(session := Latest(s.sessionId, p.session));
    if Concerns(p, s) && s.endsTurn then known.(open := None, idle := None, said := None) else known
  }

  /** Where it stands once a waiting idle, if there is one, has been dealt with. */
  function Settled(rules: Rules, provider: Provider, p: Standing): Standing {
    if provider == OpenCode && p.idle.Some? then AfterNotification(p.(idle := None), Completion(rules, p.idle.value)) else p
  }

  function Follow(rules: Rules, provider: Provider, p: Standing, h: Happening): Standing {
    match h
    case ScanEnd => Settled(rules, provider, p)
    case Shrunk => p.(open := None, idle := None)
    case Seen(Session(id)) => p.(session := Some(id))
    case Seen(AssistantText(text)) =>
      if rules.normalise(text).Some? then Settled(rules, provider, p.(said := rules.normalise(text))) else p
    case Seen(OpenCodeStatusIdle(at, session)) => p.(idle := Some(Pending(at, session)), session := Latest(session, p.session))
    case Seen(TurnStarted(id, session)) =>
      var past := Settled(rules, provider, p);
      past.(open := Some(id), said := None, session := Latest(session, past.session))
    case Seen(TurnEnded) => p.(open := None, idle := None, said := None)
    case Seen(Irrelevant) => p
    case Seen(Notification(_, _, _, _, _, _, _, _, _)) => AfterNotification(p, h.signal)
  }

  function FollowAll(rules: Rules, provider: Provider, hs: seq<Happening>): Standing {
    if hs == [] then NOTHING_HEARD else Follow(rules, provider, FollowAll(rules, provider, hs[..|hs| - 1]), hs[|hs| - 1])
  }

  /** The notification a happening comes to, if it comes to one, and where the turn stands then. */
  function Raised(rules: Rules, provider: Provider, p: Standing, h: Happening): (r: Option<(Standing, Signal)>)
    ensures r.Some? ==> r.value.1.Notification?
  {
    match h
    case Seen(Notification(_, _, _, _, _, _, _, _, _)) => Some((p, h.signal))
    case Seen(AssistantText(text)) =>
      if rules.normalise(text).Some? then Due(rules, provider, p.(said := rules.normalise(text))) else None
    case Seen(TurnStarted(_, _)) => Due(rules, provider, p)
    case ScanEnd => Due(rules, provider, p)
    case _ => None
  }

  function Due(rules: Rules, provider: Provider, p: Standing): (r: Option<(Standing, Signal)>)
    ensures r.Some? ==> r.value.1.Notification?
  {
    if provider == OpenCode && p.idle.Some? then Some((p.(idle := None), Completion(rules, p.idle.value))) else None
  }

  /** What a happening sends after `sent`. */
  function SentOn(rules: Rules, provider: Provider, p: Standing, sent: seq<Emission>, h: Happening): seq<Emission> {
    Told(rules, Raised(rules, provider, p, h), sent)
  }

  function Told(rules: Rules, raised: Option<(Standing, Signal)>, sent: seq<Emission>): seq<Emission>
    requires raised.Some? ==> raised.value.1.Notification?
  {
    if raised.Some? && Concerns(raised.value.0, raised.value.1) && !Recent(sent, raised.value.1.dedupeKey)
    then [Notice(rules, raised.value.0, raised.value.1)] else []
  }

  // ----- the machine against it -----

  ghost predicate WellTurned(t: Turn) {
    !t.active ==> t.turnId.None?
  }

  lemma SameWording(rules: Rules, t: Turn, s: Signal)
    requires s.Notification?
    ensures BodyOf(rules, t, s) == Wording(rules, StandingOf(t), s)
  {
  }

  lemma SamePassing(t: Turn, s: Signal)
    requires s.Notification? && WellTurned(t)
    ensures Passes(t, s) <==> Concerns(StandingOf(t), s)
  {
  }

  lemma DeliverFollows(t: Turn, s: Signal, body: Option<string>, ended: nat, sent: seq<Emission>)
    requires s.Notification? && WellTurned(t) && Tracks(t.window, sent)
    ensures
      var e := Deliver(t, s, body, ended);
      && WellTurned(e.turn) && e.turn.provider == t.provider && StandingOf(e.turn) == StandingOf(t)
      && e.sent == (if Recent(sent, s.dedupeKey) then [] else [Emission(t.sessionId, s.reason, body, s.occurredAt, s.dedupeKey)])
      && Tracks(e.turn.window, sent + e.sent)
  {
    KnownIsRecent(t.window, sent, s.dedupeKey);
    if Recent(sent, s.dedupeKey) {
      assert sent + [] == sent;
    } else {
      SentOneMore(t.window, sent, Emission(t.sessionId, s.reason, body, s.occurredAt, s.dedupeKey));
    }
  }

  lemma EndingFollows(t: Turn, s: Signal)
    requires s.Notification? && WellTurned(t)
    ensures
      var known := t.(sessionId := Or(s.sessionId, t.sessionId));
      var after := if Passes(t, s) then AfterEnding(known, s.endsTurn) else known;
      && WellTurned(after) && after.provider == t.provider && after.window == t.window
      && StandingOf(after) == AfterNotification(StandingOf(t), s)
  {
    SamePassing(t, s);
  }

  /** The machine did to the turn, and sent, what it should have. */
  ghost predicate Follows(e: Effect, provider: Provider, p: Standing, out: seq<Emission>, sent: seq<Emission>) {
    WellTurned(e.turn) && e.turn.provider == provider && StandingOf(e.turn) == p && e.sent == out && Tracks(e.turn.window, sent + out)
  }

  lemma NotifyFollows(rules: Rules, t: Turn, s: Signal, sent: seq<Emission>)
    requires s.Notification? && WellTurned(t) && Tracks(t.window, sent)
    ensures Follows(Notify(rules, t, s), t.provider, AfterNotification(StandingOf(t), s),
                    if Concerns(StandingOf(t), s) && !Recent(sent, s.dedupeKey) then [Notice(rules, StandingOf(t), s)] else [], sent)
  {
    var known := t.(sessionId := Or(s.sessionId, t.sessionId));
    SamePassing(t, s);
    EndingFollows(t, s);
    if Passes(t, s) {
      SameWording(rules, t, s);
      DeliverFollows(AfterEnding(known, s.endsTurn), s, BodyOf(rules, t, s), One(s.endsTurn && t.active), sent);
    } else {
      assert sent + [] == sent;
    }
  }

  lemma FlushFollows(rules: Rules, t: Turn, sent: seq<Emission>)
    requires WellTurned(t) && Tracks(t.window, sent)
    ensures Follows(Flush(rules, t), t.provider, Settled(rules, t.provider, StandingOf(t)),
                    Told(rules, Due(rules, t.provider, StandingOf(t)), sent), sent)
  {
    FlushIsOneNotification(rules, t);
    if t.provider == OpenCode && t.pending.Some? {
      NotifyFollows(rules, t.(pending := None), OpenCodeCompletion(rules, t.pending.value.occurredAt, t.pending.value.sessionId), sent);
    } else {
      assert sent + [] == sent;
    }
  }

  lemma HappenFollows(rules: Rules, t: Turn, h: Happening, sent: seq<Emission>)
    requires WellTurned(t) && Tracks(t.window, sent)
    ensures Follows(Happen(rules, t, h), t.provider, Follow(rules, t.provider, StandingOf(t), h),
                    SentOn(rules, t.provider, StandingOf(t), sent, h), sent)
  {
    assert sent + [] == sent;
    match h
    case ScanEnd => FlushFollows(rules, t, sent);
    case Shrunk =>
    case Seen(s) =>
      ApplyUnfolds(rules, t, s);
      match s {
        case Notification(_, _, _, _, _, _, _, _, _) => NotifyFollows(rules, t, s, sent);
        case AssistantText(text) =>
          if rules.normalise(text).Some? {
            FlushFollows(rules, t.(body := rules.normalise(text)), sent);
          }
        case TurnStarted(_, _) => FlushFollows(rules, t, sent);
        case Session(_) =>
        case OpenCodeStatusIdle(_, _) =>
        case TurnEnded =>
        case Irrelevant =>
      }
  }

  /** A registration that has heard nothing. */
  function Fresh(provider: Provider): Turn {
    Turn(provider, None, false, None, None, None, NO_KEYS)
  }

  lemma NothingSentYet(provider: Provider)
    ensures WellTurned(Fresh(provider)) && StandingOf(Fresh(provider)) == NOTHING_HEARD && Tracks(Fresh(provider).window, [])
  {
  }

  lemma {:induction false} RunFollows(rules: Rules, provider: Provider, hs: seq<Happening>)
    ensures
      var e := Run(rules, Fresh(provider), hs);
      && WellTurned(e.turn) && e.turn.provider == provider && StandingOf(e.turn) == FollowAll(rules, provider, hs)
      && Tracks(e.turn.window, e.sent)
  {
    NothingSentYet(provider);
    if hs != [] {
      RunFollows(rules, provider, hs[..|hs| - 1]);
      var past := Run(rules, Fresh(provider), hs[..|hs| - 1]);
      HappenFollows(rules, past.turn, hs[|hs| - 1], past.sent);
    }
  }

  /** No notice carries a key that one of the last 128 keyed notices before it carried. */
  lemma NoticesAreNotRepeated(rules: Rules, provider: Provider, hs: seq<Happening>, i: nat)
    requires i < |Run(rules, Fresh(provider), hs).sent|
    ensures
      var sent := Run(rules, Fresh(provider), hs).sent;
      !Recent(sent[..i], sent[i].dedupeKey)
  {
    RunFollows(rules, provider, hs);
  }

  /**
   After any run, a notification that names the open turn or leaves one unnamed,
   and has an open turn if it needs one, is sent exactly when it has no key or
   its key is not among the last 128 sent; any other is not sent at all. A
   waiting idle, once text, a turn's start or a scan's end settles it, is a
   completed turn's notification. Nothing else sends anything.
   */
  lemma WhatIsSent(rules: Rules, provider: Provider, hs: seq<Happening>, h: Happening)
    ensures
      var past := Run(rules, Fresh(provider), hs).sent;
      Run(rules, Fresh(provider), hs + [h]).sent == past + SentOn(rules, provider, FollowAll(rules, provider, hs), past, h)
  {
    var past := Run(rules, Fresh(provider), hs);
    RunFollows(rules, provider, hs);
    HappenFollows(rules, past.turn, h, past.sent);
    assert (hs + [h])[..|hs|] == hs;
  }
}
