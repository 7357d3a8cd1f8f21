/**
 The scanner's line framer: bytes in, whole lines out, with a bound on what is
 kept of an unfinished line.
 */
module Framing {
  type byte = x: int | 0 <= x < 256

  const NEWLINE: byte := 10
  const RETURN: byte := 13
  const MAX_PARTIAL_LINE_BYTES: nat := 262144
  const READ_BUFFER_BYTES: nat := 65536

  // ----- what a content says -----

  function StripReturns(line: seq<byte>): seq<byte> {
    if line != [] && line[|line| - 1] == RETURN then StripReturns(line[..|line| - 1]) else line
  }

  /** What the classifier is given for one newline-ended line: nothing when it is too long or empty. */
  function Handed(raw: seq<byte>): seq<seq<byte>> {
    if |raw| > MAX_PARTIAL_LINE_BYTES || StripReturns(raw) == [] then [] else [StripReturns(raw)]
  }

  /** The position of the first newline, or the length. */
  function LineEnd(content: seq<byte>): (n: nat)
    ensures n <= |content|
  {
    if content == [] || content[0] == NEWLINE then 0 else 1 + LineEnd(content[1..])
  }

  /** Every line of a content that a newline ends, as the classifier gets it. */
  function Lines(content: seq<byte>): seq<seq<byte>>
    decreases |content|
  {
    var n := LineEnd(content);
    if n == |content| then [] else Handed(content[..n]) + Lines(content[n + 1..])
  }

  /** What follows the last newline. */
  function Tail(content: seq<byte>): seq<byte>
    decreases |content|
  {
    var n := LineEnd(content);
    if n == |content| then content else Tail(content[n + 1..])
  }

  lemma {:induction false} LineEndOneMore(content: seq<byte>, b: byte)
    ensures LineEnd(content) < |content| ==> LineEnd(content + [b]) == LineEnd(content)
    ensures LineEnd(content) == |content| ==> LineEnd(content + [b]) == if b == NEWLINE then |content| else |content| + 1
  {
    if content == [] {
      assert content + [b] == [b];
    } else if content[0] != NEWLINE {
      assert (content + [b])[1..] == content[1..] + [b];
      LineEndOneMore(content[1..], b);
    }
  }

  lemma LinesAfter(content: seq<byte>, n: nat)
    requires n == LineEnd(content) < |content|
    ensures Lines(content) == Handed(content[..n]) + Lines(content[n + 1..])
    ensures Tail(content) == Tail(content[n + 1..])
  {
  }

  lemma NoLines(content: seq<byte>)
    requires LineEnd(content) == |content|
    ensures Lines(content) == [] && Tail(content) == content
  {
  }

  /** One more byte either extends the tail or hands the tail over. */
  lemma {:induction false} OneMoreByte(content: seq<byte>, b: byte)
    ensures Lines(content + [b]) == Lines(content) + if b == NEWLINE then Handed(Tail(content)) else []
    ensures Tail(content + [b]) == if b == NEWLINE then [] else Tail(content) + [b]
    decreases |content|
  {
    var more, n := content + [b], LineEnd(content);
    LineEndOneMore(content, b);
    if n < |content| {
      assert more[..n] == content[..n] && more[n + 1..] == content[n + 1..] + [b];
      OneMoreByte(content[n + 1..], b);
      LinesAfter(content, n);
      LinesAfter(more, n);
    } else {
      NoLines(content);
      if b == NEWLINE {
        LinesAfter(more, n);
        assert more[..n] == content && more[n + 1..] == [];
        NoLines([]);
      } else {
        NoLines(more);
      }
    }
  }

  // ----- the framer -----

  datatype Framer = Framer(partial: seq<byte>, dropping: bool)

  const FRESH_LINE := Framer([], false)

  /** The framer's state and output after one byte. */
  function Feed(f: Framer, b: byte): (Framer, seq<seq<byte>>) {
    if b == NEWLINE then
      if f.dropping then (Framer(f.partial, false), [])
      else
        var line := StripReturns(f.partial);
        (FRESH_LINE, if line == [] then [] else [line])
    else if f.dropping then (f, [])
    else if |f.partial| < MAX_PARTIAL_LINE_BYTES then (Framer(f.partial + [b], false), [])
    else (Framer([], true), [])
  }

  /** The framer holds the tail, or has given it up for too long. */
  predicate Holds(f: Framer, content: seq<byte>) {
    var tail := Tail(content);
    if |tail| <= MAX_PARTIAL_LINE_BYTES then f == Framer(tail, false) else f == Framer([], true)
  }

  lemma FeedHolds(f: Framer, content: seq<byte>, b: byte)
    requires Holds(f, content)
    ensures
      var (next, out) := Feed(f, b);
      Holds(next, content + [b]) && Lines(content + [b]) == Lines(content) + out
  {
    OneMoreByte(content, b);
  }
}
