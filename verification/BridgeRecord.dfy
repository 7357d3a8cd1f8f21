/** The install record as the JSON text it is kept in between `enable` and `disable`. */
module BridgeRecord {
  import opened Wrappers
  import opened Sequences
  import opened Json
  import opened BridgeSettings

  function EncodeHook(hook: (string, Value)): Value {
    Arr([Str(hook.0), hook.1])
  }

  function EncodeKey(key: string): Value {
    Str(key)
  }

  /** A record as a JSON object; an absent status line is written as null. */
  function Encode(r: Record): Value {
    Obj(map[
      "settings_path" := Str(r.settingsPath),
      "previous_status_line" := r.previous.GetOr(Null),
      "installed_status_line" := r.installed,
      "installed_hooks" := Arr(Map(EncodeHook, r.hooks)),
      "created_event_keys" := Arr(Map(EncodeKey, r.createdKeys)),
      "created_hooks_object" := Bool(r.createdObject)
    ])
  }

  function DecodeHook(v: Value): Option<(string, Value)> {
    if v.Arr? && |v.items| == 2 && v.items[0].Str? then Some((v.items[0].text, v.items[1])) else None
  }

  function DecodeAll<T>(decode: Value -> Option<T>, items: seq<Value>): Option<seq<T>> {
    if items == [] then Some([])
    else
      var front, last := DecodeAll(decode, items[..|items| - 1]), decode(items[|items| - 1]);
      if front.Some? && last.Some? then Some(front.value + [last.value]) else None
  }

  function DecodeList<T>(decode: Value -> Option<T>, v: Option<Value>): Option<seq<T>> {
    if v.Some? && v.value.Arr? then DecodeAll(decode, v.value.items) else None
  }

  /** A record from a JSON object: a missing or null status line is absent, anything else missing or misshapen is an error. */
  function Decode(v: Value): Option<Record> {
    var path, installed := Get(v, "settings_path"), Get(v, "installed_status_line");
    var previous := At(v, "previous_status_line");
    var hooks := DecodeList(DecodeHook, Get(v, "installed_hooks"));
    var keys := DecodeList(AsStr, Get(v, "created_event_keys"));
    var created := Get(v, "created_hooks_object");
    if path.Some? && path.value.Str? && installed.Some? && hooks.Some? && keys.Some? && created.Some? && created.value.Bool? then
      Some(Record(path.value.text, if previous == Null then None else Some(previous), installed.value,
                  hooks.value, keys.value, created.value.truth))
    else None
  }

  lemma {:induction false} DecodeAllOfEncoded<T>(encode: T -> Value, decode: Value -> Option<T>, xs: seq<T>)
    requires forall k | 0 <= k < |xs| :: decode(encode(xs[k])) == Some(xs[k])
    ensures DecodeAll(decode, Map(encode, xs)) == Some(xs)
  {
    if xs != [] {
      var n := |xs| - 1;
      DecodeAllOfEncoded(encode, decode, xs[..n]);
      assert Map(encode, xs)[..n] == Map(encode, xs[..n]);
      assert xs == xs[..n] + [xs[n]];
    }
  }

  lemma FieldsOfEncoded(r: Record)
    ensures
      var v := Encode(r);
      && Get(v, "settings_path") == Some(Str(r.settingsPath)) && Get(v, "installed_status_line") == Some(r.installed)
      && At(v, "previous_status_line") == r.previous.GetOr(Null)
      && Get(v, "installed_hooks") == Some(Arr(Map(EncodeHook, r.hooks)))
      && Get(v, "created_event_keys") == Some(Arr(Map(EncodeKey, r.createdKeys)))
      && Get(v, "created_hooks_object") == Some(Bool(r.createdObject))
  {
  }

  /** What comes back: the record, except that a null status line comes back as none. */
  lemma RecordRoundTrip(r: Record)
    ensures Decode(Encode(r)) == Some(r.(previous := if r.previous == Some(Null) then None else r.previous))
  {
    FieldsOfEncoded(r);
    DecodeAllOfEncoded(EncodeHook, DecodeHook, r.hooks);
    DecodeAllOfEncoded(EncodeKey, AsStr, r.createdKeys);
  }
}
