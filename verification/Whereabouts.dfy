/** Where a tick puts the cards: each listed pane's place, workspace and cwd, and what recording may do to them meanwhile. */
module Whereabouts {
  import opened Wrappers
  import opened Json
  import opened Text
  import opened Cards
  import opened Store
  import opened Reconcile

  datatype Where = Where(position: Option<nat>, workspace: Option<string>, cwd: Option<string>, source: CwdSource)

  type Map = map<string, Where>

  function WhereOf(c: Card): Where {
    Where(c.position, c.workspaceId, c.cwd, c.cwdSource)
  }

  function WhereAll(panes: map<string, Card>): Map {
    map pane | pane in panes :: WhereOf(panes[pane])
  }

  // ----- what recording may do -----

  /** Nobody but the loop places a card, and a cwd gives way only to a transcript's. */
  predicate DriftedAt(a: Where, b: Where) {
    b.position == a.position && b.workspace == a.workspace && (b.source == Transcript || (b.cwd == a.cwd && b.source == a.source))
  }

  ghost predicate Drifted(a: Map, b: Map) {
    a.Keys == b.Keys && forall pane | pane in a :: DriftedAt(a[pane], b[pane])
  }

  lemma DriftsAdd(a: Map, b: Map, c: Map)
    requires Drifted(a, b) && Drifted(b, c)
    ensures Drifted(a, c)
  {
    forall pane | pane in a ensures DriftedAt(a[pane], c[pane]) {
      assert DriftedAt(a[pane], b[pane]) && DriftedAt(b[pane], c[pane]);
    }
  }

  lemma CommitWhere(s: Inner, pane: string, o: Outcome)
    ensures WhereAll(Commit(s, pane, o).panes) == WhereAll(s.panes)[pane := WhereOf(o.card)]
  {
  }

  lemma EventDrifts(c: Card, event: Event, payload: Value)
    ensures DriftedAt(WhereOf(c), WhereOf(Apply(c, event, payload).card))
  {
  }

  lemma RecordDrifts(s: Inner, pane: string, event: Event, payload: Value)
    ensures Drifted(WhereAll(s.panes), WhereAll(Exec(s, Op.Record(pane, event, payload)).panes))
  {
    if pane in s.panes {
      CommitWhere(s, pane, Apply(s.panes[pane], event, Normalise(event, payload)));
      EventDrifts(s.panes[pane], event, Normalise(event, payload));
    }
  }

  lemma SubscribersMoveNothing(s: Inner, id: nat)
    ensures Drifted(WhereAll(s.panes), WhereAll(Exec(s, SubscribeFull).panes))
    ensures Drifted(WhereAll(s.panes), WhereAll(Exec(s, Op.Unsubscribe(id)).panes))
  {
  }

  // ----- placing one pane -----

  /** The cwd the list gives a pane, cleaned: its foreground process's, else its own. */
  function ListedCwd(info: PaneInfo): string {
    if info.foregroundCwd.Some? then Sanitise(info.foregroundCwd.value)
    else if info.cwd.Some? then Sanitise(info.cwd.value)
    else ""
  }

  predicate HasCwd(w: Where, info: PaneInfo) {
    ListedCwd(info) != "" ==> w.source == Transcript || w.cwd == Some(ListedCwd(info))
  }

  predicate HasWorkspace(w: Where, info: PaneInfo) {
    w.workspace == if info.workspaceId == "" then None else Some(info.workspaceId)
  }

  /** Where a pane listed at this place belongs. */
  predicate Placed(w: Where, info: PaneInfo, position: nat) {
    w.position == Some(position) && HasWorkspace(w, info) && HasCwd(w, info)
  }

  /** The first `done` of the three have been set, and every other pane has only drifted. */
  ghost predicate Stage(start: Map, now: Map, info: PaneInfo, position: nat, done: nat) {
    && start.Keys == now.Keys
    && (forall pane | pane in start && pane != info.paneId :: DriftedAt(start[pane], now[pane]))
    && (info.paneId in now ==>
          && (done >= 1 ==> HasCwd(now[info.paneId], info))
          && (done >= 2 ==> HasWorkspace(now[info.paneId], info))
          && (done >= 3 ==> now[info.paneId].position == Some(position)))
  }

  lemma StageDrifts(start: Map, now: Map, later: Map, info: PaneInfo, position: nat, done: nat)
    requires Stage(start, now, info, position, done) && Drifted(now, later)
    ensures Stage(start, later, info, position, done)
  {
    assert info.paneId in now ==> DriftedAt(now[info.paneId], later[info.paneId]);
    forall pane | pane in start && pane != info.paneId ensures DriftedAt(start[pane], later[pane]) {
      assert DriftedAt(start[pane], now[pane]) && DriftedAt(now[pane], later[pane]);
    }
  }

  lemma CwdStage(s: Inner, info: PaneInfo, position: nat)
    ensures
      var cwd := if info.foregroundCwd.Some? then info.foregroundCwd else info.cwd;
      Stage(WhereAll(s.panes), WhereAll(Exec(s, Op.SetPaneListCwd(info.paneId, cwd)).panes), info, position, 1)
  {
    var clean := ListedCwd(info);
    if clean != "" && info.paneId in s.panes {
      CommitWhere(s, info.paneId, CwdEdit(s.panes[info.paneId], clean));
    }
  }

  lemma WorkspaceStage(start: Map, s: Inner, info: PaneInfo, position: nat)
    requires Stage(start, WhereAll(s.panes), info, position, 1)
    ensures Stage(start, WhereAll(Exec(s, Op.SetPaneWorkspace(info.paneId, Some(info.workspaceId))).panes), info, position, 2)
  {
    if info.paneId in s.panes {
      CommitWhere(s, info.paneId, WorkspaceEdit(s.panes[info.paneId], NonEmpty(Some(info.workspaceId))));
    }
  }

  lemma PositionStage(start: Map, s: Inner, info: PaneInfo, position: nat)
    requires Stage(start, WhereAll(s.panes), info, position, 2)
    ensures Stage(start, WhereAll(Exec(s, Op.SetPanePosition(info.paneId, position)).panes), info, position, 3)
  {
    if info.paneId in s.panes {
      CommitWhere(s, info.paneId, PositionEdit(s.panes[info.paneId], position));
    }
  }

  // ----- placing them all -----

  /** `k` is the last of the first `n` entries that lists the pane. */
  predicate LastListed(panes: seq<PaneInfo>, n: nat, pane: string, k: int)
    requires n <= |panes|
  {
    0 <= k < n && panes[k].paneId == pane && forall j | k < j < n :: panes[j].paneId != pane
  }

  /** Every card the first `n` entries list is where the last of them puts it. */
  ghost predicate AllPlaced(now: Map, panes: seq<PaneInfo>, n: nat)
    requires n <= |panes|
  {
    forall pane, k | pane in now && LastListed(panes, n, pane, k) :: Placed(now[pane], panes[k], k)
  }

  lemma OneMorePlaced(start: Map, now: Map, panes: seq<PaneInfo>, i: nat)
    requires i < |panes| && AllPlaced(start, panes, i) && Stage(start, now, panes[i], i, 3)
    ensures AllPlaced(now, panes, i + 1)
  {
    forall pane, k | pane in now && LastListed(panes, i + 1, pane, k) ensures Placed(now[pane], panes[k], k) {
      if k < i {
        assert panes[i].paneId != pane;
        assert LastListed(panes, i, pane, k);
        assert Placed(start[pane], panes[k], k) && DriftedAt(start[pane], now[pane]);
      }
    }
  }

  lemma PlacedDrifts(now: Map, later: Map, panes: seq<PaneInfo>, n: nat)
    requires n <= |panes| && AllPlaced(now, panes, n) && Drifted(now, later)
    ensures AllPlaced(later, panes, n)
  {
    forall pane, k | pane in later && LastListed(panes, n, pane, k) ensures Placed(later[pane], panes[k], k) {
      assert Placed(now[pane], panes[k], k) && DriftedAt(now[pane], later[pane]);
    }
  }

  lemma PlacedCards(cards: map<string, Card>, panes: seq<PaneInfo>)
    requires AllPlaced(WhereAll(cards), panes, |panes|)
    ensures forall pane, k | pane in cards && LastListed(panes, |panes|, pane, k) :: Placed(WhereOf(cards[pane]), panes[k], k)
  {
    forall pane, k | pane in cards && LastListed(panes, |panes|, pane, k) ensures Placed(WhereOf(cards[pane]), panes[k], k) {
      assert pane in WhereAll(cards);
    }
  }
}
