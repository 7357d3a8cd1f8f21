/** Which signal each provider's records become, from the fields the classifiers look at. */
module Classifiers {
  import opened Wrappers
  import opened Turns

  /** One parsed record; a record that does not parse has no signal. Texts and times are taken as they come. */
  datatype Record =
    | CodexRecord(recordType: string, payloadId: Option<string>, kind: Option<string>, turnId: Option<string>,
                  approvalId: Option<string>, callId: Option<string>, requestId: Option<string>, name: Option<string>,
                  lastMessage: Option<string>, at: nat)
    | ClaudeHook(hook: string, toolName: Option<string>, toolUseId: Option<string>, sessionId: Option<string>,
                 errorText: Option<string>, transcript: Option<string>, at: nat)
    | ClaudeLine(lineType: Option<string>, userPrompt: bool, message: bool, stopReason: Option<string>, key: Option<string>,
                 messageText: Option<string>, at: nat)
    | KimiRecord(recordType: string, userOrigin: bool, event: bool, eventKind: Option<string>, partKind: Option<string>,
                 partText: Option<string>, finishReason: Option<string>, turnId: Option<string>, key: Option<string>, at: nat)
    | OpenCodeRecord(isEvent: bool, eventType: Option<string>, status: Option<string>, text: Option<string>,
                     sessionId: Option<string>, dataId: Option<string>, errorKey: Option<string>, errorText: Option<string>, at: nat)

  function Ask(reason: Reason, at: nat, key: Option<string>, sessionId: Option<string>, transcript: Option<string>): Signal {
    Notification(reason, at, key, None, sessionId, None, transcript, false, false)
  }

  function Text(text: Option<string>): Signal {
    if text.Some? && text.value != "" then AssistantText(text.value) else Irrelevant
  }

  function ClassifyCodex(r: Record): Signal
    requires r.CodexRecord?
  {
    if r.recordType == "session_meta" then (if r.payloadId.Some? then Session(r.payloadId.value) else Irrelevant)
    else if r.recordType == "response_item" && r.kind == Some("function_call") && r.name == Some("request_user_input") then
      Ask(QuestionRequested, r.at, r.callId, None, None)
    else if r.recordType != "event_msg" then Irrelevant
    else if r.kind == Some("task_started") then TurnStarted(r.turnId, None)
    else if r.kind == Some("task_complete") then
      Notification(TurnComplete, r.at, if r.turnId.Some? then Some("turn:" + r.turnId.value) else None, r.turnId, None,
                   r.lastMessage, None, false, true)
    else if r.kind == Some("turn_aborted") then TurnEnded
    else if r.kind == Some("exec_approval_request") || r.kind == Some("apply_patch_approval_request") || r.kind == Some("request_permissions") then
      Ask(ApprovalRequested, r.at, Or(r.approvalId, r.callId), None, None)
    else if r.kind == Some("elicitation_request") then Ask(QuestionRequested, r.at, r.requestId, None, None)
    else Irrelevant
  }

  function ClassifyClaudeHook(r: Record): Signal
    requires r.ClaudeHook?
  {
    if r.hook == "UserPromptSubmit" then TurnStarted(None, r.sessionId)
    else if r.hook == "Stop" then Notification(TurnComplete, r.at, r.toolUseId, None, r.sessionId, None, r.transcript, true, true)
    else if r.hook == "PermissionRequest" then Ask(ApprovalRequested, r.at, r.toolUseId, r.sessionId, r.transcript)
    else if r.hook == "PreToolUse" && r.toolName == Some("AskUserQuestion") then
      Ask(QuestionRequested, r.at, r.toolUseId, r.sessionId, r.transcript)
    else if r.hook == "StopFailure" then
      Notification(AgentError, r.at, r.toolUseId, None, r.sessionId, r.errorText, r.transcript, false, true)
    else Irrelevant
  }

  function ClassifyClaudeLine(r: Record): Signal
    requires r.ClaudeLine?
  {
    if r.lineType == Some("user") && r.message && r.userPrompt then TurnStarted(None, None)
    else if !r.message || r.lineType != Some("assistant") then Irrelevant
    else if r.stopReason == Some("end_turn") || r.stopReason == Some("stop_sequence") || r.stopReason == Some("max_tokens") then
      Notification(TurnComplete, r.at, if r.key.Some? then Some("turn:" + r.key.value) else None, None, None, r.messageText, None, true, true)
    else Irrelevant
  }

  function ClassifyKimi(r: Record): Signal
    requires r.KimiRecord?
  {
    if r.recordType == "turn.prompt" && r.userOrigin then TurnStarted(None, None)
    else if !r.event || r.recordType != "context.append_loop_event" then Irrelevant
    else if r.eventKind == Some("content.part") && r.partKind == Some("text") then Text(r.partText)
    else if r.eventKind != Some("step.end") || r.finishReason != Some("end_turn") then Irrelevant
    else Notification(TurnComplete, r.at, if r.key.Some? then Some("turn:" + r.key.value) else None, r.turnId, None, None, None, true, true)
  }

  function ClassifyOpenCode(rules: Rules, r: Record): Signal
    requires r.OpenCodeRecord?
  {
    if !r.isEvent then Irrelevant
    else if r.eventType == Some("session.status") && (r.status == Some("busy") || r.status == Some("retry")) then TurnStarted(None, r.sessionId)
    else if r.eventType == Some("session.status") && r.status == Some("idle") then OpenCodeStatusIdle(r.at, r.sessionId)
    else if r.eventType == Some("assistant.text") then Text(r.text)
    else if r.eventType == Some("session.idle") then OpenCodeCompletion(rules, r.at, r.sessionId)
    else if r.eventType == Some("session.error") then
      Notification(AgentError, r.at, Or(r.dataId, r.errorKey), None, r.sessionId, r.errorText, None, true, true)
    else if r.eventType == Some("permission.asked") then Ask(ApprovalRequested, r.at, r.dataId, r.sessionId, None)
    else if r.eventType == Some("question.asked") then Ask(QuestionRequested, r.at, r.dataId, r.sessionId, None)
    else Irrelevant
  }

  function Classify(rules: Rules, r: Record): Signal {
    if r.CodexRecord? then ClassifyCodex(r)
    else if r.ClaudeHook? then ClassifyClaudeHook(r)
    else if r.ClaudeLine? then ClassifyClaudeLine(r)
    else if r.KimiRecord? then ClassifyKimi(r)
    else ClassifyOpenCode(rules, r)
  }

  /**
   Every signal a classifier produces ends the turn it needs; only OpenCode's
   records defer; and OpenCode's name no turn and end none without a notification.
   */
  lemma ClassifiersKeepTheRules(rules: Rules, r: Record)
    ensures EndsWhatItNeeds(Seen(Classify(rules, r)))
    ensures r.OpenCodeRecord? ==> FromOpenCode(Seen(Classify(rules, r)))
    ensures Classify(rules, r).OpenCodeStatusIdle? ==> r.OpenCodeRecord?
  {
  }

  // ----- which records those are -----

  predicate IsIn(text: Option<string>, words: set<string>) {
    text.Some? && text.value in words
  }

  predicate CodexEvent(r: Record, kinds: set<string>) {
    r.CodexRecord? && r.recordType == "event_msg" && IsIn(r.kind, kinds)
  }

  predicate OpenCodeEvent(r: Record, kind: string) {
    r.OpenCodeRecord? && r.isEvent && r.eventType == Some(kind)
  }

  /** The records that report this reason. */
  predicate Reports(r: Record, reason: Reason) {
    match reason
    case TurnComplete =>
      || CodexEvent(r, {"task_complete"})
      || (r.ClaudeHook? && r.hook == "Stop")
      || (r.ClaudeLine? && r.message && r.lineType == Some("assistant") && IsIn(r.stopReason, {"end_turn", "stop_sequence", "max_tokens"}))
      || (r.KimiRecord? && r.event && r.recordType == "context.append_loop_event" && r.eventKind == Some("step.end") &&
          r.finishReason == Some("end_turn"))
      || OpenCodeEvent(r, "session.idle")
    case AgentError => (r.ClaudeHook? && r.hook == "StopFailure") || OpenCodeEvent(r, "session.error")
    case ApprovalRequested =>
      || CodexEvent(r, {"exec_approval_request", "apply_patch_approval_request", "request_permissions"})
      || (r.ClaudeHook? && r.hook == "PermissionRequest")
      || OpenCodeEvent(r, "permission.asked")
    case QuestionRequested =>
      || (r.CodexRecord? && r.recordType == "response_item" && r.kind == Some("function_call") && r.name == Some("request_user_input"))
      || CodexEvent(r, {"elicitation_request"})
      || (r.ClaudeHook? && r.hook == "PreToolUse" && r.toolName == Some("AskUserQuestion"))
      || OpenCodeEvent(r, "question.asked")
  }

  /** The records that start a turn. */
  predicate BeginsTurn(r: Record) {
    || CodexEvent(r, {"task_started"})
    || (r.ClaudeHook? && r.hook == "UserPromptSubmit")
    || (r.ClaudeLine? && r.message && r.lineType == Some("user") && r.userPrompt)
    || (r.KimiRecord? && r.recordType == "turn.prompt" && r.userOrigin)
    || (OpenCodeEvent(r, "session.status") && IsIn(r.status, {"busy", "retry"}))
  }

  lemma CodexWords()
    ensures "session_meta" != "event_msg" && "response_item" != "event_msg" && "session_meta" != "response_item"
    ensures "task_complete" != "task_started" && "elicitation_request" != "request_permissions"
    ensures "elicitation_request" != "exec_approval_request" && "elicitation_request" != "apply_patch_approval_request"
  {
    assert "elicitation_request"[1] != "exec_approval_request"[1] && "elicitation_request"[0] != "apply_patch_approval_request"[0];
  }

  lemma CodexNotifies(r: Record, reason: Reason)
    requires r.CodexRecord?
    ensures ClassifyCodex(r).Notification? && ClassifyCodex(r).reason == reason <==> Reports(r, reason)
    ensures ClassifyCodex(r).TurnStarted? <==> BeginsTurn(r)
  {
    CodexWords();
  }

  lemma ClaudeNotifies(r: Record, reason: Reason)
    requires r.ClaudeHook? || r.ClaudeLine?
    ensures
      var s := if r.ClaudeHook? then ClassifyClaudeHook(r) else ClassifyClaudeLine(r);
      && (s.Notification? && s.reason == reason <==> Reports(r, reason))
      && (s.TurnStarted? <==> BeginsTurn(r))
  {
  }

  lemma KimiNotifies(r: Record, reason: Reason)
    requires r.KimiRecord?
    ensures ClassifyKimi(r).Notification? && ClassifyKimi(r).reason == reason <==> Reports(r, reason)
    ensures ClassifyKimi(r).TurnStarted? <==> BeginsTurn(r)
  {
  }

  lemma OpenCodeNotifies(rules: Rules, r: Record, reason: Reason)
    requires r.OpenCodeRecord?
    ensures ClassifyOpenCode(rules, r).Notification? && ClassifyOpenCode(rules, r).reason == reason <==> Reports(r, reason)
    ensures ClassifyOpenCode(rules, r).TurnStarted? <==> BeginsTurn(r)
    ensures ClassifyOpenCode(rules, r).OpenCodeStatusIdle? <==> OpenCodeEvent(r, "session.status") && r.status == Some("idle")
  {
  }

  /** A record of any provider is a notification of a reason exactly when it reports it, and a turn's start exactly when it begins one. */
  lemma WhichRecordsNotify(rules: Rules, r: Record, reason: Reason)
    ensures Classify(rules, r).Notification? && Classify(rules, r).reason == reason <==> Reports(r, reason)
    ensures Classify(rules, r).TurnStarted? <==> BeginsTurn(r)
  {
    if r.CodexRecord? {
      CodexNotifies(r, reason);
    } else if r.ClaudeHook? || r.ClaudeLine? {
      ClaudeNotifies(r, reason);
    } else if r.KimiRecord? {
      KimiNotifies(r, reason);
    } else {
      OpenCodeNotifies(rules, r, reason);
    }
  }

  /** A registration's life: the records of its lines, the ends of its scans, and the resets of its file. */
  datatype Event = Line(record: Record) | Scanned | Truncated

  function Signals(rules: Rules, events: seq<Event>): seq<Happening> {
    if events == [] then []
    else
      var last := match events[|events| - 1]
        case Line(r) => Seen(Classify(rules, r))
        case Scanned => ScanEnd
        case Truncated => Shrunk;
      Signals(rules, events[..|events| - 1]) + [last]
  }

  lemma {:induction false} SignalsKeepTheRules(rules: Rules, events: seq<Event>)
    ensures forall h | h in Signals(rules, events) :: EndsWhatItNeeds(h)
  {
    if events != [] {
      SignalsKeepTheRules(rules, events[..|events| - 1]);
      if events[|events| - 1].Line? {
        ClassifiersKeepTheRules(rules, events[|events| - 1].record);
      }
    }
  }

  /** So over any records of any provider, and any scan ends, no notification that needs a turn lacks one. */
  lemma RecordsNeverOutnumberTurns(rules: Rules, t: Turn, events: seq<Event>)
    ensures
      var e := Run(rules, t, Signals(rules, events));
      e.needed + One(e.turn.active) <= One(t.active) + Starts(Signals(rules, events))
  {
    SignalsKeepTheRules(rules, events);
    NotificationsNeverOutnumberTurns(rules, t, Signals(rules, events));
  }
}
