/** Finding an agent among a shell's processes, over any child relation. */
module Detector {
  import opened Wrappers
  import opened Sequences

  const PIDS: nat := 0x1_0000_0000

  type Pid = x: int | 0 <= x < PIDS

  datatype Agent = ClaudeCode | Codex | Kimi | Opencode | Aider

  /** One snapshot of the process table: what each pid's children and command line read as. */
  datatype Source = Source(children: Pid -> Option<seq<Pid>>, cmdline: Pid -> Option<seq<string>>)

  // ----- what a process runs -----

  function LastSlash(path: string): (at: Option<nat>)
    ensures at.Some? ==> at.value < |path| && path[at.value] == '/' && '/' !in path[at.value + 1..]
    ensures at.None? ==> '/' !in path
  {
    if path == "" then None
    else if path[|path| - 1] == '/' then Some(|path| - 1)
    else
      var before := LastSlash(path[..|path| - 1]);
      assert path == path[..|path| - 1] + [path[|path| - 1]];
      before
  }

  /** `Path::file_name`: the last component, past trailing slashes and dots; none for a root or a parent. */
  function FileName(path: string): Option<string>
    decreases |path|
  {
    if path == "" then None
    else if path[|path| - 1] == '/' then FileName(path[..|path| - 1])
    else
      var slash := LastSlash(path);
      var last := if slash.Some? then path[slash.value + 1..] else path;
      if last == "." then (if slash.Some? then FileName(path[..slash.value]) else None)
      else if last == ".." then None
      else Some(last)
  }

  function AgentForBinary(name: string): Option<Agent> {
    if name == "claude" then Some(ClaudeCode)
    else if name == "codex" then Some(Codex)
    else if name == "kimi" || name == "kimi-code" then Some(Kimi)
    else if name == "opencode" then Some(Opencode)
    else if name == "aider" then Some(Aider)
    else None
  }

  /** The agent a process runs, judged by its first argument. */
  function Runs(source: Source, pid: Pid): Option<Agent> {
    var args := source.cmdline(pid);
    if args.None? || args.value == [] then None
    else
      var name := FileName(args.value[0]);
      if name.None? then None else AgentForBinary(name.value)
  }

  lemma LastOfPath(start: string, name: string)
    requires name != ""
    ensures
      var path := start + name;
      path[|path| - 1] == name[|name| - 1] && path[..|path| - 1] == start + name[..|name| - 1]
  {
  }

  lemma {:induction false} LastSlashAt(dir: string, name: string)
    requires '/' !in name
    ensures LastSlash(dir + "/" + name) == Some(|dir|)
  {
    if name == "" {
      assert (dir + "/" + name)[|dir|] == '/';
    } else {
      LastSlashAt(dir, name[..|name| - 1]);
      LastOfPath(dir + "/", name);
      assert name[|name| - 1] in name;
    }
  }

  lemma {:induction false} NoSlash(name: string)
    requires '/' !in name
    ensures LastSlash(name).None?
  {
    if name != "" {
      assert name[|name| - 1] in name;
      NoSlash(name[..|name| - 1]);
    }
  }

  /** A path that ends in a plain name is that name's, in whatever directory. */
  lemma NameOfPath(dir: string, name: string)
    requires name != "" && name != "." && name != ".." && '/' !in name
    ensures FileName(dir + "/" + name) == Some(name) && FileName(name) == Some(name)
  {
    var path := dir + "/" + name;
    LastSlashAt(dir, name);
    NoSlash(name);
    assert path[|path| - 1] == name[|name| - 1] && name[|name| - 1] in name;
    assert path[|dir| + 1..] == name;
  }

  /** What the processes of the known agents are called. */
  function Names(agent: Agent): set<string> {
    match agent
    case ClaudeCode => {"claude"}
    case Codex => {"codex"}
    case Kimi => {"kimi", "kimi-code"}
    case Opencode => {"opencode"}
    case Aider => {"aider"}
  }

  /** A process runs an agent exactly when its binary, wherever it is, has one of the agent's names. */
  lemma WhatAProcessRuns(source: Source, pid: Pid, dir: string, name: string, args: seq<string>, agent: Agent)
    requires name != "" && name != "." && name != ".." && '/' !in name
    requires source.cmdline(pid) == Some([dir + "/" + name] + args) || source.cmdline(pid) == Some([name] + args)
    ensures Runs(source, pid) == Some(agent) <==> name in Names(agent)
  {
    RunsItsBinary(source, pid, dir, name, args);
    WhoseName(name, agent);
  }

  lemma RunsItsBinary(source: Source, pid: Pid, dir: string, name: string, args: seq<string>)
    requires name != "" && name != "." && name != ".." && '/' !in name
    requires source.cmdline(pid) == Some([dir + "/" + name] + args) || source.cmdline(pid) == Some([name] + args)
    ensures Runs(source, pid) == AgentForBinary(name)
  {
    NameOfPath(dir, name);
    var first := source.cmdline(pid).value[0];
    assert first == dir + "/" + name || first == name;
  }

  lemma WhoseName(name: string, agent: Agent)
    ensures AgentForBinary(name) == Some(agent) <==> name in Names(agent)
  {
  }

  // ----- reachability -----

  function ChildrenOf(source: Source, pid: Pid): seq<Pid> {
    source.children(pid).GetOr([])
  }

  /** A chain of children from `from` to `to`. */
  ghost predicate Descends(source: Source, chain: seq<Pid>, from: Pid, to: Pid) {
    && chain != [] && chain[0] == from && chain[|chain| - 1] == to
    && forall i | 0 <= i < |chain| - 1 :: IsChild(source, chain[i], chain[i + 1])
  }

  predicate IsChild(source: Source, parent: Pid, child: Pid) {
    child in ChildrenOf(source, parent)
  }

  ghost predicate Reachable(source: Source, from: Pid, to: Pid) {
    exists chain :: Descends(source, chain, from, to)
  }

  lemma ReachesItself(source: Source, pid: Pid)
    ensures Reachable(source, pid, pid)
  {
    assert Descends(source, [pid], pid, pid);
  }

  lemma ReachesChild(source: Source, from: Pid, to: Pid, child: Pid)
    requires Reachable(source, from, to) && IsChild(source, to, child)
    ensures Reachable(source, from, child)
  {
    var chain :| Descends(source, chain, from, to);
    var longer := chain + [child];
    assert forall i | 0 <= i < |longer| - 1 :: IsChild(source, longer[i], longer[i + 1]);
    assert Descends(source, longer, from, child);
  }

  ghost predicate Closed(source: Source, pids: set<Pid>) {
    forall p, c | p in pids && IsChild(source, p, c) :: c in pids
  }

  lemma {:induction false} ChainStaysIn(source: Source, pids: set<Pid>, chain: seq<Pid>, from: Pid, to: Pid)
    requires Closed(source, pids) && from in pids && Descends(source, chain, from, to)
    ensures to in pids
  {
    if |chain| > 1 {
      var front := chain[..|chain| - 1];
      assert forall i | 0 <= i < |front| - 1 :: IsChild(source, front[i], front[i + 1]);
      ChainStaysIn(source, pids, front, from, front[|front| - 1]);
      assert IsChild(source, chain[|chain| - 2], chain[|chain| - 1]);
    }
  }

  lemma ClosedHoldsEveryReachable(source: Source, pids: set<Pid>, root: Pid)
    requires Closed(source, pids) && root in pids
    ensures forall pid :: Reachable(source, root, pid) ==> pid in pids
  {
    forall pid | Reachable(source, root, pid) ensures pid in pids {
      var chain :| Descends(source, chain, root, pid);
      ChainStaysIn(source, pids, chain, root, pid);
    }
  }

  // ----- there are only so many pids -----

  lemma {:induction false} Bounded(s: set<int>, n: nat)
    requires forall x | x in s :: 0 <= x < n
    ensures |s| <= n
  {
    if n > 0 {
      Bounded(s - {n - 1}, n - 1);
      if n - 1 in s {
        assert |s - {n - 1}| == |s| - 1;
      } else {
        assert s - {n - 1} == s;
      }
    } else {
      assert forall x :: x in s ==> 0 <= x < 0;
      assert s == {};
    }
  }

  /** The same pids, as plain numbers. */
  lemma {:induction false} SameSize(pids: set<Pid>) returns (numbers: set<int>)
    ensures forall x | x in numbers :: 0 <= x < PIDS && x as Pid in pids
    ensures |numbers| == |pids|
    decreases |pids|
  {
    if pids == {} {
      numbers := {};
    } else {
      var p :| p in pids;
      var rest := SameSize(pids - {p});
      assert p !in rest;
      numbers := rest + {p};
      assert |pids| == |pids - {p}| + 1;
    }
  }

  lemma OnlySoManyPids(pids: set<Pid>)
    ensures |pids| <= PIDS
  {
    var numbers := SameSize(pids);
    Bounded(numbers, PIDS);
  }

  // ----- the walk -----

  ghost predicate AllReachable(source: Source, root: Pid, pids: set<Pid>) {
    forall pid | pid in pids :: Reachable(source, root, pid)
  }

  /** The candidates taken and the queue hold what has been visited, each once. */
  ghost predicate Holds(candidates: seq<Pid>, queue: seq<Pid>, visited: set<Pid>) {
    Distinct(candidates + queue) && forall pid :: pid in candidates + queue <==> pid in visited
  }

  lemma TakeLast(candidates: seq<Pid>, queue: seq<Pid>, visited: set<Pid>)
    requires Holds(candidates, queue, visited) && queue != []
    ensures Holds(candidates + [queue[|queue| - 1]], queue[..|queue| - 1], visited)
  {
    var last, front := queue[|queue| - 1], queue[..|queue| - 1];
    var all, moved := candidates + queue, candidates + [last] + front;
    var n := |candidates|;
    forall i, j | 0 <= i < j < |moved| ensures moved[i] != moved[j] {
      var i' := if i < n then i else if i == n then |all| - 1 else i - 1;
      var j' := if j < n then j else if j == n then |all| - 1 else j - 1;
      assert moved[i] == all[i'] && moved[j] == all[j'];
    }
    forall pid ensures pid in moved <==> pid in all {
      assert queue == front + [last];
    }
  }

  lemma PushOne(candidates: seq<Pid>, queue: seq<Pid>, visited: set<Pid>, pid: Pid)
    requires Holds(candidates, queue, visited) && pid !in visited
    ensures Holds(candidates, queue + [pid], visited + {pid})
  {
    assert candidates + (queue + [pid]) == candidates + queue + [pid];
  }

  /** Pushes the children not seen before. */
  method PushChildren(source: Source, ghost root: Pid, parent: Pid, ghost candidates: seq<Pid>, queue: seq<Pid>, visited: set<Pid>)
    returns (queue': seq<Pid>, visited': set<Pid>)
    requires Holds(candidates, queue, visited) && AllReachable(source, root, visited) && parent in visited
    ensures Holds(candidates, queue', visited') && AllReachable(source, root, visited')
    ensures visited' >= visited && |visited'| - |queue'| == |visited| - |queue|
    ensures forall c | IsChild(source, parent, c) :: c in visited'
  {
    queue', visited' := queue, visited;
    var children := source.children(parent);
    if children.Some? {
      for i := 0 to |children.value|
        invariant Holds(candidates, queue', visited') && AllReachable(source, root, visited')
        invariant visited' >= visited && |visited'| - |queue'| == |visited| - |queue|
        invariant forall k | 0 <= k < i :: children.value[k] in visited'
      {
        var child := children.value[i];
        if child !in visited' {
          assert IsChild(source, parent, child);
          ReachesChild(source, root, parent, child);
          PushOne(candidates, queue', visited', child);
          visited' := visited' + {child};
          queue' := queue' + [child];
        }
      }
    }
  }

  /** The pids reachable from the root, each once, and the root first; whatever cycles there are. */
  method CollectProcessTree(source: Source, root: Pid) returns (candidates: seq<Pid>)
    ensures Distinct(candidates)
    ensures forall pid :: pid in candidates <==> Reachable(source, root, pid)
    ensures candidates != [] && candidates[0] == root
  {
    candidates := [];
    var queue, visited := [root], {root};
    ReachesItself(source, root);
    OnlySoManyPids(visited);
    while queue != []
      invariant Holds(candidates, queue, visited) && AllReachable(source, root, visited)
      invariant root in visited && |visited| <= PIDS
      invariant (candidates + queue)[0] == root && (candidates == [] ==> queue == [root])
      invariant forall p, c | p in candidates && IsChild(source, p, c) :: c in visited
      decreases PIDS - |visited| + |queue|
    {
      var pid := queue[|queue| - 1];
      TakeLast(candidates, queue, visited);
      queue := queue[..|queue| - 1];
      candidates := candidates + [pid];
      assert pid in candidates + queue;
      queue, visited := PushChildren(source, root, pid, candidates, queue, visited);
      OnlySoManyPids(visited);
    }
    assert candidates + queue == candidates;
    assert Closed(source, visited);
    ClosedHoldsEveryReachable(source, visited, root);
  }

  /** An agent is found exactly when some reachable process runs one, and it is one of those. */
  method DetectAgent(source: Source, root: Pid) returns (found: Option<(Agent, Pid)>)
    ensures found.Some? <==> exists pid :: Reachable(source, root, pid) && Runs(source, pid).Some?
    ensures found.Some? ==> Reachable(source, root, found.value.1) && Runs(source, found.value.1) == Some(found.value.0)
    ensures Runs(source, root).Some? ==> found == Some((Runs(source, root).value, root))
  {
    var candidates := CollectProcessTree(source, root);
    for i := 0 to |candidates|
      invariant forall k | 0 <= k < i :: Runs(source, candidates[k]).None?
    {
      var agent := Runs(source, candidates[i]);
      if agent.Some? {
        assert candidates[i] in candidates;
        return Some((agent.value, candidates[i]));
      }
    }
    return None;
  }
}
