/** Finding one text inside another. */
module Substrings {
  import opened Wrappers

  predicate OccursAt(text: string, part: string, at: nat) {
    at + |part| <= |text| && text[at..at + |part|] == part
  }

  ghost predicate Contains(text: string, part: string) {
    exists at: nat :: OccursAt(text, part, at)
  }

  /** Where `part` first occurs at or after `from`. */
  ghost predicate FirstAt(text: string, part: string, from: nat, at: nat) {
    from <= at && OccursAt(text, part, at) && forall k: nat | from <= k < at :: !OccursAt(text, part, k)
  }

  method FindFrom(text: string, part: string, from: nat) returns (at: Option<nat>)
    ensures at.Some? ==> FirstAt(text, part, from, at.value)
    ensures at.None? ==> forall k: nat | from <= k :: !OccursAt(text, part, k)
  {
    var i := from;
    while i + |part| <= |text|
      invariant from <= i
      invariant forall k: nat | from <= k < i :: !OccursAt(text, part, k)
      decreases |text| - i
    {
      if OccursAt(text, part, i) {
        return Some(i);
      }
      i := i + 1;
    }
    return None;
  }

  /** `contains`, as a search. */
  method Search(text: string, part: string) returns (found: bool)
    ensures found <==> Contains(text, part)
  {
    var at := FindFrom(text, part, 0);
    return at.Some?;
  }

  lemma OccursShift(text: string, part: string, k: nat)
    requires text != ""
    ensures OccursAt(text, part, k + 1) <==> OccursAt(text[1..], part, k)
  {
    if k + 1 + |part| <= |text| {
      assert text[k + 1..k + 1 + |part|] == text[1..][k..k + |part|];
    }
  }

  /** `find`: the first occurrence. */
  function Find(text: string, part: string): (at: Option<nat>)
    ensures at.Some? ==> FirstAt(text, part, 0, at.value)
    ensures at.None? <==> !Contains(text, part)
  {
    if OccursAt(text, part, 0) then Some(0)
    else if text == "" then None
    else
      var rest := Find(text[1..], part);
      FindRest(text, part, rest);
      if rest.Some? then Some(rest.value + 1) else None
  }

  lemma FindRest(text: string, part: string, rest: Option<nat>)
    requires text != "" && !OccursAt(text, part, 0)
    requires rest.Some? ==> FirstAt(text[1..], part, 0, rest.value)
    requires rest.None? <==> !Contains(text[1..], part)
    ensures rest.Some? ==> FirstAt(text, part, 0, rest.value + 1)
    ensures rest.None? <==> !Contains(text, part)
  {
    forall k: nat ensures OccursAt(text, part, k) <==> k > 0 && OccursAt(text[1..], part, k - 1) {
      if k > 0 {
        OccursShift(text, part, k - 1);
      }
    }
  }

  /** The first newline, or the length. */
  function NewlineAt(text: string): (n: nat)
    ensures n <= |text|
    ensures n < |text| ==> text[n] == '\n'
    ensures forall k | 0 <= k < n :: text[k] != '\n'
  {
    if text == "" || text[0] == '\n' then 0 else 1 + NewlineAt(text[1..])
  }
}
