/** A registration's scans as one run of the turn machine, and what that gives over all scans. */
module ScanRuns {
  import opened Framing
  import opened Turns
  import opened Scanner
  import opened Notices

  function Signals(classify: Classifier, lines: seq<seq<byte>>): seq<Happening> {
    if lines == [] then []
    else
      var signal := classify(lines[|lines| - 1]);
      Signals(classify, lines[..|lines| - 1]) + if signal.Some? then [Seen(signal.value)] else []
  }

  /** What one scan is to the turn machine. */
  function Happenings(classify: Classifier, p: Place, source: Source): seq<Happening> {
    if CutShort(p.cursor, source) then [Shrunk]
    else
      Signals(classify, Advance(p, source).1) + if Readable(p.cursor, source) && source.complete then [ScanEnd] else []
  }

  function History(classify: Classifier, p: Place, sources: seq<Source>): seq<Happening> {
    if sources == [] then []
    else
      var front := sources[..|sources| - 1];
      History(classify, p, front) + Happenings(classify, AdvanceAll(p, front).0, sources[|sources| - 1])
  }

  /** Everything a run of scans sends. */
  function SentBy(rules: Rules, classify: Classifier, m: Machine, sources: seq<Source>): seq<Emission> {
    if sources == [] then []
    else
      var front := sources[..|sources| - 1];
      SentBy(rules, classify, m, front) + ScanOnce(rules, classify, ScanAll(rules, classify, m, front), sources[|sources| - 1]).sent
  }

  lemma RunOne(rules: Rules, t: Turn, hs: seq<Happening>, h: Happening)
    ensures
      var past := Run(rules, t, hs);
      var e := Happen(rules, past.turn, h);
      Run(rules, t, hs + [h]).turn == e.turn && Run(rules, t, hs + [h]).sent == past.sent + e.sent
  {
    assert (hs + [h])[..|hs|] == hs;
  }

  lemma {:induction false} RunConcat(rules: Rules, t: Turn, a: seq<Happening>, b: seq<Happening>)
    ensures
      var first := Run(rules, t, a);
      var second := Run(rules, first.turn, b);
      Run(rules, t, a + b).turn == second.turn && Run(rules, t, a + b).sent == first.sent + second.sent
  {
    if b == [] {
      assert a + b == a && Run(rules, t, a).sent + [] == Run(rules, t, a).sent;
    } else {
      var front, last := b[..|b| - 1], b[|b| - 1];
      RunConcat(rules, t, a, front);
      RunOne(rules, t, a + front, last);
      RunOne(rules, Run(rules, t, a).turn, front, last);
      assert a + b == a + front + [last] && b == front + [last];
      var middle := Run(rules, Run(rules, t, a).turn, front);
      Regroup(Run(rules, t, a).sent, middle.sent, Happen(rules, middle.turn, last).sent);
    }
  }

  lemma {:induction false} HandlingIsARun(rules: Rules, classify: Classifier, t: Turn, lines: seq<seq<byte>>)
    ensures
      var e := Run(rules, t, Signals(classify, lines));
      HandleAll(Handling(rules, classify), t, lines) == (e.turn, e.sent)
  {
    if lines != [] {
      var front, line := lines[..|lines| - 1], lines[|lines| - 1];
      HandlingIsARun(rules, classify, t, front);
      if classify(line).Some? {
        RunOne(rules, t, Signals(classify, front), Seen(classify(line).value));
      } else {
        assert Signals(classify, lines) == Signals(classify, front);
        assert Run(rules, t, Signals(classify, front)).sent + [] == Run(rules, t, Signals(classify, front)).sent;
      }
    }
  }

  lemma ScanIsARun(rules: Rules, classify: Classifier, m: Machine, source: Source)
    ensures
      var e := Run(rules, m.turn, Happenings(classify, m.place, source));
      var scan := ScanOnce(rules, classify, m, source);
      scan.after.turn == e.turn && scan.sent == e.sent
  {
    var signals := Signals(classify, Advance(m.place, source).1);
    if CutShort(m.place.cursor, source) {
      RunOne(rules, m.turn, [], Shrunk);
      assert [] + [Shrunk] == [Shrunk];
    } else {
      HandlingIsARun(rules, classify, m.turn, Advance(m.place, source).1);
      if Readable(m.place.cursor, source) && source.complete {
        RunOne(rules, m.turn, signals, ScanEnd);
      } else {
        assert signals + [] == signals;
      }
    }
  }

  lemma {:induction false} ScansAreARun(rules: Rules, classify: Classifier, m: Machine, sources: seq<Source>)
    ensures
      var e := Run(rules, m.turn, History(classify, m.place, sources));
      ScanAll(rules, classify, m, sources).turn == e.turn && SentBy(rules, classify, m, sources) == e.sent
  {
    if sources != [] {
      var front, last := sources[..|sources| - 1], sources[|sources| - 1];
      var past := ScanAll(rules, classify, m, front);
      ScansAreARun(rules, classify, m, front);
      ScanAllAdvances(rules, classify, m, front);
      ScanIsARun(rules, classify, past, last);
      RunConcat(rules, m.turn, History(classify, m.place, front), Happenings(classify, past.place, last));
    }
  }

  ghost predicate KeepsTheRules(classify: Classifier) {
    forall line :: classify(line).Some? ==> EndsWhatItNeeds(Seen(classify(line).value))
  }

  lemma {:induction false} SignalsKeep(classify: Classifier, lines: seq<seq<byte>>)
    requires KeepsTheRules(classify)
    ensures forall h | h in Signals(classify, lines) :: EndsWhatItNeeds(h)
  {
    if lines != [] {
      SignalsKeep(classify, lines[..|lines| - 1]);
      assert classify(lines[|lines| - 1]).Some? ==> EndsWhatItNeeds(Seen(classify(lines[|lines| - 1]).value));
    }
  }

  lemma {:induction false} HistoryKeeps(classify: Classifier, p: Place, sources: seq<Source>)
    requires KeepsTheRules(classify)
    ensures forall h | h in History(classify, p, sources) :: EndsWhatItNeeds(h)
  {
    if sources != [] {
      var front := sources[..|sources| - 1];
      HistoryKeeps(classify, p, front);
      SignalsKeep(classify, Advance(AdvanceAll(p, front).0, sources[|sources| - 1]).1);
    }
  }

  /**
   However a file grows, shrinks, fails to open or stops being readable between
   scans: what a registration has sent is what the turn machine sends on the
   signals of its lines with the flush at the end of each completed scan, and
   the notifications among them that need an active turn are no more than the
   turns started and the one open at the beginning.
   */
  lemma ScansNeverOutnumberTurns(rules: Rules, classify: Classifier, m: Machine, sources: seq<Source>)
    requires KeepsTheRules(classify)
    ensures
      var history := History(classify, m.place, sources);
      var e := Run(rules, m.turn, history);
      && SentBy(rules, classify, m, sources) == e.sent
      && ScanAll(rules, classify, m, sources).turn == e.turn
      && e.needed + One(e.turn.active) <= One(m.turn.active) + Starts(history)
  {
    ScansAreARun(rules, classify, m, sources);
    HistoryKeeps(classify, m.place, sources);
    NotificationsNeverOutnumberTurns(rules, m.turn, History(classify, m.place, sources));
  }

  /**
   Nor does a registration, however its file was read, send a notification again
   while its key is among those of the last 128 it sent with one.
   */
  lemma ScansNeverRepeat(rules: Rules, classify: Classifier, provider: Provider, cursor: nat, sources: seq<Source>, i: nat)
    requires i < |SentBy(rules, classify, Machine(Place(cursor, FRESH_LINE), Fresh(provider)), sources)|
    ensures
      var sent := SentBy(rules, classify, Machine(Place(cursor, FRESH_LINE), Fresh(provider)), sources);
      !Recent(sent[..i], sent[i].dedupeKey)
  {
    var m := Machine(Place(cursor, FRESH_LINE), Fresh(provider));
    ScansAreARun(rules, classify, m, sources);
    NoticesAreNotRepeated(rules, provider, History(classify, m.place, sources), i);
  }
}
