/** The sliding window of notification keys. */
module Dedupe {
  import opened Sequences

  const RECENT_DEDUPE_KEYS: nat := 128

  datatype Window = Window(keys: set<string>, order: seq<string>)

  const NO_KEYS := Window({}, [])

  /** `remember_dedupe_key`: the window afterwards; the key is refused exactly when it is in `keys`. */
  function Remember(w: Window, key: string): Window {
    if key in w.keys then w
    else if |w.order| == RECENT_DEDUPE_KEYS then
      Window(w.keys - {w.order[0]} + {key}, w.order[1..] + [key])
    else Window(w.keys + {key}, w.order + [key])
  }

  function RememberAll(keys: seq<string>): Window {
    if keys == [] then NO_KEYS else Remember(RememberAll(keys[..|keys| - 1]), keys[|keys| - 1])
  }

  /** The keys that were not refused, in order: those not among the last 128 accepted before them. */
  function Accepted(keys: seq<string>): seq<string> {
    if keys == [] then []
    else
      var past, key := Accepted(keys[..|keys| - 1]), keys[|keys| - 1];
      if key in LastN(past, RECENT_DEDUPE_KEYS) then past else past + [key]
  }

  ghost predicate Coherent(w: Window) {
    && (forall key :: key in w.keys <==> key in w.order)
    && Distinct(w.order)
    && |w.order| <= RECENT_DEDUPE_KEYS
  }

  lemma RememberKeepsCoherent(w: Window, key: string)
    requires Coherent(w)
    ensures Coherent(Remember(w, key))
  {
    if key !in w.keys && |w.order| == RECENT_DEDUPE_KEYS {
      assert w.order == [w.order[0]] + w.order[1..];
    }
  }

  /**
   Over any sequence of keys the set and the queue hold the same keys, each
   once and at most 128 of them, and they are the last 128 accepted; so the
   next key is refused exactly when it is among the last 128 accepted.
   */
  lemma {:induction false} WindowIsTheLastAccepted(keys: seq<string>, next: string)
    ensures Coherent(RememberAll(keys))
    ensures RememberAll(keys).order == LastN(Accepted(keys), RECENT_DEDUPE_KEYS)
    ensures next in RememberAll(keys).keys <==> next in LastN(Accepted(keys), RECENT_DEDUPE_KEYS)
  {
    if keys != [] {
      var front, key := keys[..|keys| - 1], keys[|keys| - 1];
      WindowIsTheLastAccepted(front, key);
      RememberKeepsCoherent(RememberAll(front), key);
      LastNOfConcat(Accepted(front), [key], RECENT_DEDUPE_KEYS);
    }
  }
}
