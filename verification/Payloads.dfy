/** What cleaning does to a text and to a payload: where it cuts, what it replaces, and what it leaves alone. */
module Payloads {
  import opened Wrappers
  import opened Json
  import opened Sequences
  import opened Text
  import opened Cards

  // ----- a text -----

  predicate Dropped(c: char) {
    IsWhite(c) || IsControl(c)
  }

  /** `r` is `s` from `i` to `j`, each control character a space, with nothing but blanks cut off. */
  ghost predicate IsMiddle(s: string, r: string, i: nat, j: nat) {
    && i <= j <= |s| && |r| == j - i
    && (forall k | 0 <= k < |r| :: r[k] == if IsControl(s[i + k]) then ' ' else s[i + k])
    && (forall k | 0 <= k < i || j <= k < |s| :: Dropped(s[k]))
  }

  lemma {:induction false} TrimStartAt(s: string) returns (i: nat)
    ensures i <= |s| && TrimStart(s) == s[i..] && forall k | 0 <= k < i :: IsWhite(s[k])
  {
    if s != [] && IsWhite(s[0]) {
      var i' := TrimStartAt(s[1..]);
      i := i' + 1;
      assert s[1..][i'..] == s[i..];
      forall k | 0 <= k < i ensures IsWhite(s[k]) {
        assert k > 0 ==> s[k] == s[1..][k - 1];
      }
    } else {
      i := 0;
    }
  }

  lemma {:induction false} TrimEndAt(s: string) returns (j: nat)
    ensures j <= |s| && TrimEnd(s) == s[..j] && forall k | j <= k < |s| :: IsWhite(s[k])
  {
    if s != [] && IsWhite(s[|s| - 1]) {
      j := TrimEndAt(s[..|s| - 1]);
      assert s[..|s| - 1][..j] == s[..j];
      forall k | j <= k < |s| ensures IsWhite(s[k]) {
        assert k < |s| - 1 ==> s[k] == s[..|s| - 1][k];
      }
    } else {
      j := |s|;
      assert s[..j] == s;
    }
  }

  /** Cleaning cuts blanks off the ends and keeps everything between, control characters as spaces. */
  lemma SanitiseKeepsTheMiddle(s: string)
    ensures exists i, j :: IsMiddle(s, Sanitise(s), i, j)
  {
    var blanked := Map(Blank, s);
    var i := TrimStartAt(blanked);
    var rest := TrimStart(blanked);
    var n := TrimEndAt(rest);
    assert Sanitise(s) == blanked[i..][..n] == blanked[i..i + n];
    forall k | 0 <= k < i || i + n <= k < |s| ensures Dropped(s[k]) {
      if k < i {
        assert IsWhite(blanked[k]);
      } else {
        assert rest[k - i] == blanked[k] && IsWhite(blanked[k]);
      }
      assert blanked[k] == Blank(s[k]);
    }
    assert IsMiddle(s, Sanitise(s), i, i + n);
  }

  /** Nothing else does that and starts and ends with no blank. */
  lemma OneMiddle(s: string, a: string, i: nat, j: nat, b: string, m: nat, n: nat)
    requires IsMiddle(s, a, i, j) && IsMiddle(s, b, m, n)
    requires a != "" ==> !Dropped(s[i]) && !Dropped(s[j - 1])
    requires b != "" ==> !Dropped(s[m]) && !Dropped(s[n - 1])
    ensures a == b
  {
    if a != "" && b != "" {
      assert i == m && j == n;
    }
  }

  // ----- a payload -----

  /** The named members that are strings are cleaned; nothing else differs. */
  ghost predicate CleansOnly(raw: Value, clean: Value, keys: set<string>) {
    if !raw.Obj? then clean == raw
    else
      && clean.Obj? && clean.fields.Keys == raw.fields.Keys
      && forall k | k in raw.fields ::
           clean.fields[k] == if k in keys && raw.fields[k].Str? then Str(Sanitise(raw.fields[k].text)) else raw.fields[k]
  }

  lemma OneFieldCleaned(v: Value, key: string)
    ensures CleansOnly(v, SanitiseField(v, key), {key})
  {
  }

  lemma CallCleaned(call: Value)
    ensures CleansOnly(call, SanitiseCall(call), {"tool", "args"})
  {
    assert "tool" != "args";
    OneFieldCleaned(call, "tool");
    OneFieldCleaned(SanitiseField(call, "tool"), "args");
  }

  /** The texts of an event that reach a card are cleaned, and they alone. */
  lemma EventIsCleaned(event: Event, payload: Value)
    requires event != AgentReplaySummary
    ensures CleansOnly(payload, Normalise(event, payload),
                       match event
                       case AgentStatus => {"modelDisplayName"}
                       case AgentSessionTitle => {"title"}
                       case AgentCwd => {"cwd"}
                       case AgentToolCall => {"tool", "args"}
                       case _ => {})
  {
    match event
    case AgentStatus => OneFieldCleaned(payload, "modelDisplayName");
    case AgentSessionTitle => OneFieldCleaned(payload, "title");
    case AgentCwd => OneFieldCleaned(payload, "cwd");
    case AgentToolCall => CallCleaned(payload);
    case _ =>
  }

  /** Each call of a list, in its place, with its tool and arguments cleaned. */
  ghost predicate CallsCleaned(raw: Value, clean: Value) {
    if !raw.Arr? then clean == raw
    else
      && clean.Arr? && |clean.items| == |raw.items|
      && forall k | 0 <= k < |raw.items| :: CleansOnly(raw.items[k], clean.items[k], {"tool", "args"})
  }

  /** The cleaned names that are not blank, each with the sum, in 64 bits, of the counts of the names that clean to it. */
  ghost predicate TypesFolded(raw: Value, clean: Value) {
    if !raw.Obj? then clean == raw
    else
      && clean.Obj?
      && (forall name :: name in clean.fields <==> name != "" && exists key | key in raw.fields :: Sanitise(key) == name)
      && (forall name | name in clean.fields :: clean.fields[name] == Int(CleanCount(Sanitise, raw.fields, name) % 0x1_0000_0000_0000_0000))
  }

  /** Of a summary the cwd, the recent calls and the counts by tool are cleaned, and they alone. */
  lemma SummaryIsCleaned(payload: Value)
    requires payload.Obj?
    ensures
      var clean := Normalise(AgentReplaySummary, payload);
      && clean.Obj? && clean.fields.Keys == payload.fields.Keys
      && (forall k | k in payload.fields ::
            if k == "recentToolCalls" then CallsCleaned(payload.fields[k], clean.fields[k])
            else if k == "toolCallByType" then TypesFolded(payload.fields[k], clean.fields[k])
            else if k == "cwd" && payload.fields[k].Str? then clean.fields[k] == Str(Sanitise(payload.fields[k].text))
            else clean.fields[k] == payload.fields[k])
  {
    assert "cwd" != "recentToolCalls" && "cwd" != "toolCallByType" && "recentToolCalls" != "toolCallByType";
    var one := SanitiseField(payload, "cwd");
    var two := SanitiseCallsField(one);
    var three := FoldTypesField(two);
    OneFieldCleaned(payload, "cwd");
    CallsFieldCleaned(one);
    TypesFieldFolded(two);
    assert three == Normalise(AgentReplaySummary, payload);
  }

  lemma CallsFieldCleaned(v: Value)
    requires v.Obj?
    ensures
      var clean := SanitiseCallsField(v);
      && clean.Obj? && clean.fields.Keys == v.fields.Keys
      && (forall k | k in v.fields && k != "recentToolCalls" :: clean.fields[k] == v.fields[k])
      && ("recentToolCalls" in v.fields ==> CallsCleaned(v.fields["recentToolCalls"], clean.fields["recentToolCalls"]))
  {
    if "recentToolCalls" in v.fields && v.fields["recentToolCalls"].Arr? {
      var calls := v.fields["recentToolCalls"].items;
      forall k | 0 <= k < |calls| ensures CleansOnly(calls[k], Map(SanitiseCall, calls)[k], {"tool", "args"}) {
        CallCleaned(calls[k]);
      }
    }
  }

  lemma TypesFieldFolded(v: Value)
    requires v.Obj?
    ensures
      var clean := FoldTypesField(v);
      && clean.Obj? && clean.fields.Keys == v.fields.Keys
      && (forall k | k in v.fields && k != "toolCallByType" :: clean.fields[k] == v.fields[k])
      && ("toolCallByType" in v.fields ==> TypesFolded(v.fields["toolCallByType"], clean.fields["toolCallByType"]))
  {
    if "toolCallByType" in v.fields && v.fields["toolCallByType"].Obj? {
      var raw := v.fields["toolCallByType"].fields;
      var names := FoldTypes(Sanitise, raw);
      forall name ensures name in names <==> name != "" && exists key | key in raw :: Sanitise(key) == name {
      }
    }
  }
}
