/** The sidebar's copy of the daemon's cards, rebuilt one line at a time. */
module Reducer {
  import opened Wrappers
  import opened Cards

  const WIRE_VERSION: nat := 2

  /** A line of the state socket, already parsed. `Blank` is the heartbeat. */
  datatype Line =
    | Blank
    | Malformed
    | Hello(version: nat, number: nat, panes: map<string, WireCard>, build: Option<string>)
    | Delta(number: nat, paneId: string, telemetry: Option<WireCard>)
    | Unrelated

  datatype Replica = Replica(panes: map<string, WireCard>, lastSeq: nat, daemonBuild: Option<string>)

  function Patch(panes: map<string, WireCard>, pane: string, telemetry: Option<WireCard>): map<string, WireCard> {
    match telemetry
    case Some(card) => panes[pane := card]
    case None => panes - {pane}
  }

  predicate Refused(line: Line) {
    line.Malformed? || (line.Hello? && line.version != WIRE_VERSION)
  }

  function Reduce(r: Replica, line: Line): Replica {
    match line
    case Hello(version, number, panes, build) => if version == WIRE_VERSION then Replica(panes, number, build) else r
    case Delta(number, pane, telemetry) =>
      if number <= r.lastSeq then r else r.(panes := Patch(r.panes, pane, telemetry), lastSeq := number)
    case _ => r
  }

  function ReduceAll(r: Replica, lines: seq<Line>): Replica {
    if lines == [] then r else Reduce(ReduceAll(r, lines[..|lines| - 1]), lines[|lines| - 1])
  }

  class State {
    var panes: map<string, WireCard>
    var lastSeq: nat
    var daemonBuild: Option<string>

    ghost function View(): Replica
      reads this
    {
      Replica(panes, lastSeq, daemonBuild)
    }

    constructor ()
      ensures View() == Replica(map[], 0, None)
    {
      panes, lastSeq, daemonBuild := map[], 0, None;
    }

    method ApplyLine(line: Line) returns (result: Result<(), string>)
      modifies this
      ensures View() == Reduce(old(View()), line)
      ensures result.Err? <==> Refused(line)
    {
      match line {
        case Blank => return Ok(());
        case Malformed => return Err("not valid JSON");
        case Hello(version, number, cards, build) =>
          if version != WIRE_VERSION {
            return Err("state-socket version mismatch");
          }
          panes, lastSeq, daemonBuild := cards, number, build;
        case Delta(number, pane, telemetry) =>
          if number <= lastSeq {
            return Ok(());
          }
          lastSeq := number;
          match telemetry {
            case Some(card) => panes := panes[pane := card];
            case None => panes := panes - {pane};
          }
        case Unrelated =>
      }
      return Ok(());
    }
  }
}
