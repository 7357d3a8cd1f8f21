/** Trimming, and the clean-up applied to every string that reaches a card. */
module Text {
  import opened Sequences

  predicate IsControl(c: char) {
    c as int <= 0x1F || 0x7F <= c as int <= 0x9F
  }

  predicate IsWhite(c: char) {
    var n := c as int;
    0x9 <= n <= 0xD || n in {0x20, 0x85, 0xA0, 0x1680, 0x2028, 0x2029, 0x202F, 0x205F, 0x3000} || 0x2000 <= n <= 0x200A
  }

  function TrimStart(s: string): (r: string) {
    if s != [] && IsWhite(s[0]) then TrimStart(s[1..]) else s
  }

  function TrimEnd(s: string): (r: string) {
    if s != [] && IsWhite(s[|s| - 1]) then TrimEnd(s[..|s| - 1]) else s
  }

  function Trim(s: string): (r: string) {
    TrimEnd(TrimStart(s))
  }

  lemma {:induction false} TrimStartFacts(s: string)
    ensures TrimStart(s) == [] || !IsWhite(TrimStart(s)[0])
    ensures forall c | c in TrimStart(s) :: c in s
  {
    if s != [] && IsWhite(s[0]) {
      TrimStartFacts(s[1..]);
    }
  }

  lemma {:induction false} TrimEndFacts(s: string)
    ensures TrimEnd(s) <= s
    ensures TrimEnd(s) == [] || !IsWhite(TrimEnd(s)[|TrimEnd(s)| - 1])
  {
    if s != [] && IsWhite(s[|s| - 1]) {
      TrimEndFacts(s[..|s| - 1]);
    }
  }

  lemma TrimFacts(s: string)
    ensures var r := Trim(s); r == [] || (!IsWhite(r[0]) && !IsWhite(r[|r| - 1]))
    ensures forall c | c in Trim(s) :: c in s
  {
    TrimStartFacts(s);
    TrimEndFacts(TrimStart(s));
  }

  function Blank(c: char): char {
    if IsControl(c) then ' ' else c
  }

  function Sanitise(s: string): (r: string) {
    Trim(Map(Blank, s))
  }

  lemma SanitiseIsClean(s: string)
    ensures forall c | c in Sanitise(s) :: !IsControl(c)
    ensures Sanitise(s) == [] || (!IsWhite(Sanitise(s)[0]) && !IsWhite(Sanitise(s)[|Sanitise(s)| - 1]))
  {
    TrimFacts(Map(Blank, s));
    forall c | c in Sanitise(s) ensures !IsControl(c) {
      var i :| 0 <= i < |s| && Map(Blank, s)[i] == c;
      assert c == Blank(s[i]);
    }
  }

  /** Both the sink and the store clean an event, and the second pass changes nothing. */
  lemma SanitiseIdempotent(s: string)
    ensures Sanitise(Sanitise(s)) == Sanitise(s)
  {
    SanitiseIsClean(s);
    var r := Sanitise(s);
    assert Map(Blank, r) == r by {
      forall i | 0 <= i < |r| ensures Map(Blank, r)[i] == r[i] {
        assert r[i] in r;
      }
    }
    assert TrimStart(r) == r && TrimEnd(r) == r;
  }
}
