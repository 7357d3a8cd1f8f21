/** What a pane list asks of the bindings, and what carrying it out leaves. */
module Reconcile {
  import opened Wrappers
  import opened Sequences
  import opened Sorting

  datatype PaneInfo = PaneInfo(
    paneId: string,
    workspaceId: string,
    agent: Option<string>,
    session: Option<string>,
    cwd: Option<string>,
    foregroundCwd: Option<string>)

  datatype Binding = Binding(agent: string, session: string)

  datatype Action =
    | Unbind(pane: string)
    | Rebind(pane: string, agent: string, session: string)
    | Bind(pane: string, agent: string, session: string)

  // ----- what is wanted -----

  function Present(panes: seq<PaneInfo>): set<string> {
    set pane | pane in panes :: pane.paneId
  }

  /** The panes whose agent and session are both known; of two entries for one pane the later counts. */
  function Live(panes: seq<PaneInfo>): map<string, Binding> {
    if panes == [] then map[]
    else
      var rest, pane := Live(panes[..|panes| - 1]), panes[|panes| - 1];
      if pane.agent.Some? && pane.session.Some? then rest[pane.paneId := Binding(pane.agent.value, pane.session.value)] else rest
  }

  function Entry(bound: map<string, Binding>, pane: string): Option<Binding> {
    if pane in bound then Some(bound[pane]) else None
  }

  predicate WantedFor(entry: Option<Binding>, panes: seq<PaneInfo>, a: Action) {
    match a
    case Unbind(p) => entry.Some? && p !in Present(panes)
    case Rebind(p, agent, session) => entry.Some? && Entry(Live(panes), p) == Some(Binding(agent, session)) && entry != Some(Binding(agent, session))
    case Bind(p, agent, session) => entry.None? && Entry(Live(panes), p) == Some(Binding(agent, session))
  }

  predicate Wanted(bound: map<string, Binding>, panes: seq<PaneInfo>, a: Action) {
    WantedFor(Entry(bound, a.pane), panes, a)
  }

  function Rank(a: Action): nat {
    match a
    case Unbind(_) => 0
    case Rebind(_, _, _) => 1
    case Bind(_, _, _) => 2
  }

  predicate KeyLe(a: Action, b: Action) {
    Rank(a) < Rank(b) || (Rank(a) == Rank(b) && LexLe(a.pane, b.pane))
  }

  function PaneOf(a: Action): string {
    a.pane
  }

  /** Exactly the wanted actions, one a pane, unbinds before rebinds before binds and by pane id within each. */
  ghost predicate IsDiff(bound: map<string, Binding>, panes: seq<PaneInfo>, actions: seq<Action>) {
    && (forall a :: a in actions <==> Wanted(bound, panes, a))
    && KeysDistinct(actions, PaneOf)
    && SortedBy(actions, KeyLe)
  }

  lemma KeyOrderIsTotal()
    ensures TotalPreorder(KeyLe)
  {
    forall a, b ensures Comparable(KeyLe, a, b) {
      LexTotal(a.pane, b.pane);
    }
    forall a, b, c ensures Chains(KeyLe, a, b, c) {
      if KeyLe(a, b) && KeyLe(b, c) && LexLe(a.pane, b.pane) && LexLe(b.pane, c.pane) {
        LexTransitive(a.pane, b.pane, c.pane);
      }
    }
  }

  /** The order the maps are walked in does not show: there is only one such sequence. */
  lemma DiffIsUnique(bound: map<string, Binding>, panes: seq<PaneInfo>, p: seq<Action>, q: seq<Action>)
    requires IsDiff(bound, panes, p) && IsDiff(bound, panes, q)
    ensures p == q
  {
    KeyOrderIsTotal();
    NoTiesBetweenPanes(p);
    NoTiesBetweenPanes(q);
    SortedSameElements(p, q, KeyLe);
  }

  lemma NoTiesBetweenPanes(actions: seq<Action>)
    requires KeysDistinct(actions, PaneOf)
    ensures NoTies(actions, KeyLe)
  {
    forall i, j | 0 <= i < j < |actions| ensures !Same(KeyLe, actions[i], actions[j]) {
      assert PaneOf(actions[i]) != PaneOf(actions[j]);
      LexTotal(actions[i].pane, actions[j].pane);
    }
  }

  lemma {:induction false} LiveIsPresent(panes: seq<PaneInfo>)
    ensures Live(panes).Keys <= Present(panes)
  {
    if panes != [] {
      LiveIsPresent(panes[..|panes| - 1]);
      assert panes == panes[..|panes| - 1] + [panes[|panes| - 1]];
    }
  }

  /** A listed pane is never unbound, whatever is known or not known about it. */
  lemma ListedPaneIsNotUnbound(bound: map<string, Binding>, panes: seq<PaneInfo>, actions: seq<Action>, info: PaneInfo)
    requires IsDiff(bound, panes, actions) && info in panes
    ensures Action.Unbind(info.paneId) !in actions
  {
    assert Wanted(bound, panes, Action.Unbind(info.paneId)) ==> info.paneId !in Present(panes);
  }

  // ----- carrying it out -----

  function ApplyOne(bound: map<string, Binding>, a: Action): map<string, Binding> {
    match a
    case Unbind(pane) => bound - {pane}
    case Rebind(pane, agent, session) => bound[pane := Binding(agent, session)]
    case Bind(pane, agent, session) => bound[pane := Binding(agent, session)]
  }

  function ApplyAll(bound: map<string, Binding>, actions: seq<Action>): map<string, Binding> {
    if actions == [] then bound else ApplyOne(ApplyAll(bound, actions[..|actions| - 1]), actions[|actions| - 1])
  }

  lemma {:induction false} ApplyElsewhere(bound: map<string, Binding>, actions: seq<Action>, pane: string)
    requires forall a | a in actions :: a.pane != pane
    ensures Entry(ApplyAll(bound, actions), pane) == Entry(bound, pane)
  {
    if actions != [] {
      assert actions[|actions| - 1] in actions;
      ApplyElsewhere(bound, actions[..|actions| - 1], pane);
    }
  }

  lemma {:induction false} ApplyHere(bound: map<string, Binding>, actions: seq<Action>, i: nat)
    requires KeysDistinct(actions, PaneOf) && i < |actions|
    ensures Entry(ApplyAll(bound, actions), actions[i].pane) == Entry(ApplyOne(bound, actions[i]), actions[i].pane)
  {
    var front, last := actions[..|actions| - 1], actions[|actions| - 1];
    assert KeysDistinct(front, PaneOf) by {
      forall j, k | 0 <= j < k < |front| ensures PaneOf(front[j]) != PaneOf(front[k]) {
        assert PaneOf(actions[j]) != PaneOf(actions[k]);
      }
    }
    if i < |front| {
      ApplyHere(bound, front, i);
      assert PaneOf(actions[i]) != PaneOf(actions[|actions| - 1]);
    } else {
      forall a | a in front ensures a.pane != last.pane {
        var k :| 0 <= k < |front| && front[k] == a;
        assert PaneOf(actions[k]) != PaneOf(actions[|actions| - 1]);
      }
      ApplyElsewhere(bound, front, last.pane);
    }
  }

  /** Carrying out everything a diff asks for leaves nothing to ask for. */
  lemma ApplyingTheDiffSettles(bound: map<string, Binding>, panes: seq<PaneInfo>, actions: seq<Action>, a: Action)
    requires IsDiff(bound, panes, actions)
    ensures !Wanted(ApplyAll(bound, actions), panes, a)
  {
    LiveIsPresent(panes);
    if b :| b in actions && b.pane == a.pane {
      var i :| 0 <= i < |actions| && actions[i] == b;
      ApplyHere(bound, actions, i);
      assert Wanted(bound, panes, b);
    } else {
      ApplyElsewhere(bound, actions, a.pane);
      assert Wanted(bound, panes, a) <==> a in actions;
    }
  }

  /** Entry `k` is the last that says which agent and session the pane has. */
  predicate LastKnown(panes: seq<PaneInfo>, pane: string, k: int) {
    && 0 <= k < |panes| && panes[k].paneId == pane && panes[k].agent.Some? && panes[k].session.Some?
    && forall j | k < j < |panes| :: !(panes[j].paneId == pane && panes[j].agent.Some? && panes[j].session.Some?)
  }

  lemma {:induction false} LiveIsLastKnown(panes: seq<PaneInfo>, pane: string)
    ensures forall k | LastKnown(panes, pane, k) ::
              Entry(Live(panes), pane) == Some(Binding(panes[k].agent.value, panes[k].session.value))
    ensures pane in Live(panes) ==> exists k :: LastKnown(panes, pane, k)
  {
    if panes != [] {
      var front, n := panes[..|panes| - 1], |panes| - 1;
      LiveIsLastKnown(front, pane);
      forall k | 0 <= k < n ensures LastKnown(panes, pane, k) ==> LastKnown(front, pane, k) {
        assert front[k] == panes[k] && forall j | k < j < n :: front[j] == panes[j];
      }
      if pane in Live(panes) {
        if LastKnown(panes, pane, n) {
        } else {
          var k :| LastKnown(front, pane, k);
          assert LastKnown(panes, pane, k);
        }
      }
    }
  }

  /**
   Once a diff is carried out, a pane that is not listed is not bound; one whose
   agent and session are known is bound to the last of them; and any other is as
   it was.
   */
  lemma WhatIsBoundThen(bound: map<string, Binding>, panes: seq<PaneInfo>, actions: seq<Action>, pane: string)
    requires IsDiff(bound, panes, actions)
    ensures
      var now := Entry(ApplyAll(bound, actions), pane);
      && ((forall info | info in panes :: info.paneId != pane) ==> now.None?)
      && (forall k | LastKnown(panes, pane, k) :: now == Some(Binding(panes[k].agent.value, panes[k].session.value)))
      && ((exists info :: info in panes && info.paneId == pane) && (forall k :: !LastKnown(panes, pane, k)) ==> now == Entry(bound, pane))
  {
    LiveIsLastKnown(panes, pane);
    LiveIsPresent(panes);
    if a :| a in actions && a.pane == pane {
      var i :| 0 <= i < |actions| && actions[i] == a;
      ApplyHere(bound, actions, i);
      assert Wanted(bound, panes, a);
    } else {
      ApplyElsewhere(bound, actions, pane);
      NothingWanted(bound, panes, actions, pane);
    }
  }

  lemma NothingWanted(bound: map<string, Binding>, panes: seq<PaneInfo>, actions: seq<Action>, pane: string)
    requires IsDiff(bound, panes, actions) && forall a | a in actions :: a.pane != pane
    ensures pane in bound ==> pane in Present(panes)
    ensures pane in Live(panes) ==> Entry(bound, pane) == Some(Live(panes)[pane])
  {
    assert !Wanted(bound, panes, Action.Unbind(pane));
    if pane in Live(panes) {
      var live := Live(panes)[pane];
      assert !Wanted(bound, panes, Action.Rebind(pane, live.agent, live.session));
      assert !Wanted(bound, panes, Action.Bind(pane, live.agent, live.session));
    }
  }

  /** Panes are let go before any changes hands, and new ones come last; within each, by pane id. */
  lemma DiffOrder(bound: map<string, Binding>, panes: seq<PaneInfo>, actions: seq<Action>, i: nat, j: nat)
    requires IsDiff(bound, panes, actions) && i < j < |actions|
    ensures actions[j].Unbind? ==> actions[i].Unbind?
    ensures actions[i].Bind? ==> actions[j].Bind?
    ensures (actions[i].Unbind? && actions[j].Unbind?) || (actions[i].Rebind? && actions[j].Rebind?) || (actions[i].Bind? && actions[j].Bind?)
            ==> LexLe(actions[i].pane, actions[j].pane)
  {
    assert KeyLe(actions[i], actions[j]);
  }

  class Bindings {
    var bound: map<string, Binding>

    constructor ()
      ensures bound == map[]
    {
      bound := map[];
    }

    method Diff(panes: seq<PaneInfo>) returns (actions: seq<Action>)
      ensures IsDiff(bound, panes, actions)
    {
      var present: set<string> := {};
      var live: map<string, Binding> := map[];
      for i := 0 to |panes|
        invariant present == Present(panes[..i]) && live == Live(panes[..i])
      {
        var pane := panes[i];
        assert panes[..i + 1][..i] == panes[..i] && panes[..i + 1] == panes[..i] + [pane];
        present := present + {pane.paneId};
        if pane.agent.Some? && pane.session.Some? {
          live := live[pane.paneId := Binding(pane.agent.value, pane.session.value)];
        }
      }
      assert panes[..|panes|] == panes;
      LiveIsPresent(panes);

      var found := CollectBound(panes, present, live);
      var more := CollectNew(panes, live);
      found := found + more;
      forall i, j | 0 <= i < j < |found| ensures PaneOf(found[i]) != PaneOf(found[j]) {
        assert found[i] in found && found[j] in found;
      }
      KeyOrderIsTotal();
      SortMultiset(found, KeyLe);
      SortSorted(found, KeyLe);
      SortKeysDistinct(found, KeyLe, PaneOf);
      actions := StableSort(found, KeyLe);
      forall a ensures a in actions <==> Wanted(bound, panes, a) {
        assert a in actions <==> a in multiset(actions);
        assert a in found <==> a in multiset(found);
      }
    }

    /** The bound panes that are gone, or live under another identity. */
    method CollectBound(panes: seq<PaneInfo>, present: set<string>, live: map<string, Binding>) returns (found: seq<Action>)
      requires present == Present(panes) && live == Live(panes) && live.Keys <= present
      ensures forall a :: a in found <==> Wanted(bound, panes, a) && !a.Bind?
      ensures KeysDistinct(found, PaneOf)
    {
      found := [];
      var rest := bound.Keys;
      while rest != {}
        invariant rest <= bound.Keys
        invariant forall a :: a in found <==> Wanted(bound, panes, a) && !a.Bind? && a.pane !in rest
        invariant KeysDistinct(found, PaneOf)
        decreases rest
      {
        var pane :| pane in rest;
        ghost var before := found;
        if pane !in present {
          found := found + [Action.Unbind(pane)];
        } else if pane in live && live[pane] != bound[pane] {
          found := found + [Action.Rebind(pane, live[pane].agent, live[pane].session)];
        }
        forall i | 0 <= i < |before| ensures PaneOf(before[i]) != pane {
          assert before[i] in before;
        }
        rest := rest - {pane};
      }
    }

    /** The live panes that are not bound. */
    method CollectNew(panes: seq<PaneInfo>, live: map<string, Binding>) returns (found: seq<Action>)
      requires live == Live(panes)
      ensures forall a :: a in found <==> Wanted(bound, panes, a) && a.Bind?
      ensures KeysDistinct(found, PaneOf)
    {
      found := [];
      var rest := live.Keys;
      while rest != {}
        invariant rest <= live.Keys
        invariant forall a :: a in found <==> Wanted(bound, panes, a) && a.Bind? && a.pane !in rest
        invariant KeysDistinct(found, PaneOf)
        decreases rest
      {
        var pane :| pane in rest;
        ghost var before := found;
        if pane !in bound {
          found := found + [Action.Bind(pane, live[pane].agent, live[pane].session)];
        }
        forall i | 0 <= i < |before| ensures PaneOf(before[i]) != pane {
          assert before[i] in before;
        }
        rest := rest - {pane};
      }
    }

    method Apply(actions: seq<Action>)
      modifies this
      ensures bound == ApplyAll(old(bound), actions)
    {
      for i := 0 to |actions|
        invariant bound == ApplyAll(old(bound), actions[..i])
      {
        assert actions[..i + 1][..i] == actions[..i];
        match actions[i] {
          case Unbind(pane) => bound := bound - {pane};
          case Rebind(pane, agent, session) => bound := bound[pane := Binding(agent, session)];
          case Bind(pane, agent, session) => bound := bound[pane := Binding(agent, session)];
        }
      }
      assert actions[..|actions|] == actions;
    }

    method Forget(pane: string)
      modifies this
      ensures bound == old(bound) - {pane}
    {
      bound := bound - {pane};
    }
  }
}
