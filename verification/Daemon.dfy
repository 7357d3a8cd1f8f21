/**
 The reconcile loop: one tick turns a pane list into bind, rebind and unbind
 calls on adapters that may fail, while the watchers those adapters run keep
 recording into the same store.
 */
module Daemon {
  import opened Wrappers
  import opened Json
  import opened Cards
  import opened Text
  import opened Store
  import opened Reconcile
  import opened Whereabouts

  // ----- who owns which card -----

  type Ownership = map<string, Option<string>>

  function Owners(panes: map<string, Card>): Ownership {
    map pane | pane in panes :: panes[pane].agent
  }

  function Agents(bound: map<string, Binding>): Ownership {
    map pane | pane in bound :: Some(bound[pane].agent)
  }

  function OwnersNext(owners: Ownership, op: Op): Ownership {
    match op
    case SetAgent(pane, agent) => owners[pane := Some(agent)]
    case ReplaceSession(pane, agent) => owners[pane := Some(agent)]
    case Remove(pane) => owners - {pane}
    case _ => owners
  }

  lemma OwnersAfterCommit(s: Inner, pane: string, o: Outcome)
    ensures Owners(Commit(s, pane, o).panes) == Owners(s.panes)[pane := o.card.agent]
  {
  }

  lemma SameOwner(s: Inner, pane: string, o: Outcome)
    requires pane in s.panes && o.card.agent == s.panes[pane].agent
    ensures Owners(Commit(s, pane, o).panes) == Owners(s.panes)
  {
    OwnersAfterCommit(s, pane, o);
    assert Owners(s.panes)[pane := s.panes[pane].agent] == Owners(s.panes);
  }

  lemma OwnersAfterRemove(s: Inner, pane: string)
    ensures Owners(AfterRemove(s, pane).panes) == Owners(s.panes) - {pane}
  {
  }

  function OwnerOf(owners: Ownership, pane: string): Option<string> {
    if pane in owners then owners[pane] else None
  }

  /** What each operation does to the owners; whatever a watcher or a subscriber can do leaves them alone. */
  lemma OwnersAfter(s: Inner, op: Op)
    ensures Owners(Exec(s, op).panes) == OwnersNext(Owners(s.panes), op)
  {
    match op
    case SetAgent(pane, agent) =>
      if pane in s.panes {
        OwnersAfterCommit(s, pane, AgentEdit(s.panes[pane], agent, false));
      } else {
        OwnersAfterCommit(s, pane, AgentEdit(DEFAULT_CARD, agent, true));
      }
    case SetPaneListCwd(pane, cwd) =>
      if cwd.Some? && Sanitise(cwd.value) != "" && pane in s.panes {
        SameOwner(s, pane, CwdEdit(s.panes[pane], Sanitise(cwd.value)));
      }
    case SetPanePosition(pane, position) =>
      if pane in s.panes {
        SameOwner(s, pane, PositionEdit(s.panes[pane], position));
      }
    case SetPaneWorkspace(pane, workspace) =>
      if pane in s.panes {
        SameOwner(s, pane, WorkspaceEdit(s.panes[pane], NonEmpty(workspace)));
      }
    case ReplaceSession(pane, agent) =>
      OwnersAfterCommit(s, pane, Outcome(FreshSession(s, pane, agent), true));
    case Record(pane, event, payload) =>
      if pane in s.panes {
        EventsKeepIdentity(s.panes[pane], event, Normalise(event, payload));
        SameOwner(s, pane, Apply(s.panes[pane], event, Normalise(event, payload)));
      }
    case Remove(pane) => OwnersAfterRemove(s, pane);
    case SubscribeFull =>
    case Unsubscribe(id) =>
  }

  lemma Track(s: Inner, op: Op)
    requires Store.Valid(s)
    ensures Store.Valid(Exec(s, op)) && Owners(Exec(s, op).panes) == OwnersNext(Owners(s.panes), op)
  {
    ExecValid(s, op);
    OwnersAfter(s, op);
  }

  lemma {:induction false} ApplyAfterForget(bound: map<string, Binding>, actions: seq<Action>, pane: string)
    requires forall a | a in actions :: a.pane != pane
    ensures ApplyAll(bound - {pane}, actions) == ApplyAll(bound, actions) - {pane}
  {
    if actions != [] {
      var last := actions[|actions| - 1];
      assert last in actions;
      ApplyAfterForget(bound, actions[..|actions| - 1], pane);
      var b := ApplyAll(bound, actions[..|actions| - 1]);
      if !last.Unbind? {
        assert (b - {pane})[last.pane := Binding(last.agent, last.session)] == b[last.pane := Binding(last.agent, last.session)] - {pane};
      }
    }
  }

  // ----- the watchers -----

  /** A watcher: the pane it watches and the adapter that runs it. */
  type Watch = (string, nat)

  /** The live watchers. */
  type Watchers = multiset<Watch>

  /** The one watcher a card should have: its agent's adapter, on its pane. */
  predicate Expected(owners: Ownership, registry: map<string, nat>, w: Watch) {
    w.0 in owners && owners[w.0].Some? && owners[w.0].value in registry && registry[owners[w.0].value] == w.1
  }

  function Due(owners: Ownership, registry: map<string, nat>, w: Watch): nat {
    if Expected(owners, registry, w) then 1 else 0
  }

  /** Every card has exactly its own watcher, and nothing else is watched. */
  ghost predicate Matched(owners: Ownership, registry: map<string, nat>, watchers: Watchers) {
    forall w: Watch :: watchers[w] == Due(owners, registry, w)
  }

  /** No card, no watcher; a card, no watcher but its own and never two. */
  ghost predicate NoneTooMany(owners: Ownership, registry: map<string, nat>, watchers: Watchers) {
    forall w: Watch :: watchers[w] <= Due(owners, registry, w)
  }

  // ----- what the adapters reported -----

  /**
   An adapter's answer: a bind that worked; the unbind that rolled a failed bind
   back; an unbind of a bound pane. `stopped` is what an unbind reported, and
   `running` how many such watchers there were afterwards.
   */
  datatype Report =
    | Started(w: Watch, running: nat)
    | RolledBack(w: Watch, stopped: bool, running: nat)
    | Stopped(w: Watch, stopped: bool, running: nat)

  /** An unbind that reports success has stopped what it was to stop. */
  predicate Credible(o: Report) {
    if o.Started? then o.running > 0 else o.stopped ==> o.running == 0
  }

  predicate Success(o: Report, w: Watch) {
    o.w == w && !o.Started? && o.stopped
  }

  predicate BadRollback(o: Report, w: Watch) {
    o.w == w && o.RolledBack? && !o.stopped
  }

  predicate BadStop(o: Report, pane: string) {
    o.w.0 == pane && o.Stopped? && !o.stopped
  }

  /** What a report leaves beyond the one watcher the card behind it may have. */
  function Excess(o: Report): nat {
    if o.RolledBack? || o.running == 0 then o.running else o.running - 1
  }

  /**
   What a history of reports comes to. By the reports alone: the watchers whose
   rollback failed and whose unbind has not worked since, and the panes whose
   unbind failed and has not worked since. With what was left running: the
   strays, and the cards that have lost their watcher.
   */
  datatype Account = Account(suspects: set<Watch>, doubted: set<string>, strays: Watchers, lost: set<string>)

  const NOTHING_YET := Account({}, {}, multiset{}, {})

  function Book(a: Account, o: Report): Account {
    var strays := a.strays[o.w := Excess(o)];
    if o.Started? then a.(strays := strays)
    else
      var suspects :=
        if o.stopped then a.suspects - {o.w} else if o.RolledBack? then a.suspects + {o.w} else a.suspects;
      if o.RolledBack? then a.(suspects := suspects, strays := strays)
      else if o.stopped then Account(suspects, a.doubted - {o.w.0}, strays, a.lost - {o.w.0})
      else Account(suspects, a.doubted + {o.w.0}, strays, if o.running == 0 then a.lost + {o.w.0} else a.lost)
  }

  function Books(history: seq<Report>): Account {
    if history == [] then NOTHING_YET else Book(Books(history[..|history| - 1]), history[|history| - 1])
  }

  lemma OneMoreReport(history: seq<Report>, o: Report)
    ensures Books(history + [o]) == Book(Books(history), o)
  {
    assert (history + [o])[..|history|] == history;
  }

  /** Report `k` is a failed rollback of this watcher that no later unbind has made good. */
  ghost predicate NotMadeGood(history: seq<Report>, w: Watch, k: nat) {
    k < |history| && BadRollback(history[k], w) && forall j | k < j < |history| :: !Success(history[j], w)
  }

  lemma NotMadeGoodYet(history: seq<Report>, o: Report, w: Watch, k: nat)
    ensures NotMadeGood(history + [o], w, k) <==>
            if k == |history| then BadRollback(o, w) else NotMadeGood(history, w, k) && !Success(o, w)
  {
    var more := history + [o];
    assert forall j | 0 <= j < |history| :: more[j] == history[j];
    if k < |history| && NotMadeGood(more, w, k) {
      assert !Success(more[|history|], w);
    }
  }

  /** The suspects, by what was reported. */
  lemma {:induction false} SuspectsAre(history: seq<Report>, w: Watch)
    ensures w in Books(history).suspects <==> exists k :: NotMadeGood(history, w, k)
  {
    if history != [] {
      var front, o := history[..|history| - 1], history[|history| - 1];
      SuspectsAre(front, w);
      assert history == front + [o];
      forall k: nat ensures NotMadeGood(history, w, k) <==>
                            if k == |front| then BadRollback(o, w) else NotMadeGood(front, w, k) && !Success(o, w) {
        NotMadeGoodYet(front, o, w, k);
      }
      if w in Books(history).suspects {
        if BadRollback(o, w) {
          assert NotMadeGood(history, w, |front|);
        } else {
          var k: nat :| NotMadeGood(front, w, k);
          assert NotMadeGood(history, w, k);
        }
      }
    }
  }

  predicate GoodStop(o: Report, pane: string) {
    o.w.0 == pane && o.Stopped? && o.stopped
  }

  /** Report `k` is a failed unbind of this pane that none has made good since. */
  ghost predicate NotStoppedSince(history: seq<Report>, pane: string, k: nat) {
    k < |history| && BadStop(history[k], pane) && forall j | k < j < |history| :: !GoodStop(history[j], pane)
  }

  lemma NotStoppedYet(history: seq<Report>, o: Report, pane: string, k: nat)
    ensures NotStoppedSince(history + [o], pane, k) <==>
            if k == |history| then BadStop(o, pane) else NotStoppedSince(history, pane, k) && !GoodStop(o, pane)
  {
    var more := history + [o];
    assert forall j | 0 <= j < |history| :: more[j] == history[j];
    if k < |history| && NotStoppedSince(more, pane, k) {
      assert !GoodStop(more[|history|], pane);
    }
  }

  /** The panes in doubt, by what was reported. */
  lemma {:induction false} DoubtedAre(history: seq<Report>, pane: string)
    ensures pane in Books(history).doubted <==> exists k :: NotStoppedSince(history, pane, k)
  {
    if history != [] {
      var front, o := history[..|history| - 1], history[|history| - 1];
      DoubtedAre(front, pane);
      assert history == front + [o];
      forall k: nat ensures NotStoppedSince(history, pane, k) <==>
                            if k == |front| then BadStop(o, pane) else NotStoppedSince(front, pane, k) && !GoodStop(o, pane) {
        NotStoppedYet(front, o, pane, k);
      }
      if pane in Books(history).doubted {
        if BadStop(o, pane) {
          assert NotStoppedSince(history, pane, |front|);
        } else {
          var k: nat :| NotStoppedSince(front, pane, k);
          assert NotStoppedSince(history, pane, k);
        }
      }
    }
  }

  ghost predicate EveryRollbackWorked(history: seq<Report>) {
    forall k, w | 0 <= k < |history| :: !BadRollback(history[k], w)
  }

  ghost predicate EveryUnbindWorked(history: seq<Report>) {
    forall k, pane | 0 <= k < |history| :: !BadStop(history[k], pane)
  }

  /** Without a failed rollback nothing is suspect, and without a failed unbind no pane is in doubt. */
  lemma {:induction false} NothingWentWrong(history: seq<Report>)
    ensures EveryRollbackWorked(history) ==> Books(history).suspects == {}
    ensures EveryUnbindWorked(history) ==> Books(history).doubted == {}
  {
    if history != [] {
      var front, o := history[..|history| - 1], history[|history| - 1];
      assert forall k | 0 <= k < |front| :: front[k] == history[k];
      NothingWentWrong(front);
      assert EveryRollbackWorked(history) ==> EveryRollbackWorked(front) && !BadRollback(o, o.w);
      assert EveryUnbindWorked(history) ==> EveryUnbindWorked(front) && !BadStop(o, o.w.0);
    }
  }

  /** The last report on a watcher says how many strays of it there are. */
  lemma {:induction false} LastReportDecides(history: seq<Report>, w: Watch, k: nat)
    requires k < |history| && history[k].w == w && forall j | k < j < |history| :: history[j].w != w
    ensures Books(history).strays[w] == Excess(history[k])
  {
    if k < |history| - 1 {
      LastReportDecides(history[..|history| - 1], w, k);
    }
  }

  /** What a bind came to: its watcher runs, or the rollback's report says what is left of it. */
  ghost predicate BindTold(o: Report, w: Watch, ok: bool, now: Watchers) {
    o.w == w && o.running == now[w] && (if ok then o.Started? else o.RolledBack?)
  }

  // ----- the account of what runs -----

  /** A card of an agent that somebody serves. */
  ghost predicate Served(owners: Ownership, registry: map<string, nat>, pane: string) {
    pane in owners && owners[pane].Some? && owners[pane].value in registry
  }

  ghost predicate AccountedAt(
    owners: Ownership, registry: map<string, nat>, watchers: Watchers, strays: Watchers, lost: set<string>, w: Watch)
  {
    if !Expected(owners, registry, w) then watchers[w] == strays[w]
    else if w.0 in lost then watchers[w] == strays[w] == 0
    else watchers[w] == strays[w] + 1
  }

  /** The watchers are the expected ones, less those of the cards in `lost`, plus the strays. */
  ghost predicate Accounted(owners: Ownership, registry: map<string, nat>, watchers: Watchers, strays: Watchers, lost: set<string>) {
    && (forall pane | pane in lost :: Served(owners, registry, pane))
    && forall w: Watch :: AccountedAt(owners, registry, watchers, strays, lost, w)
  }

  /**
   The account of the reports accounts for what runs; a stray is a watcher whose
   rollback reported failure, and a lost one's pane had its unbind report it.
   */
  ghost predicate Sound(a: Account, owners: Ownership, registry: map<string, nat>, watchers: Watchers) {
    && Accounted(owners, registry, watchers, a.strays, a.lost)
    && (forall w | w in a.strays :: w in a.suspects) && a.lost <= a.doubted
  }

  /** No watcher too many but of a suspect, no card without its own but on a doubted pane. */
  ghost predicate AsReported(a: Account, owners: Ownership, registry: map<string, nat>, watchers: Watchers) {
    && (forall w: Watch | w !in a.suspects :: watchers[w] <= Due(owners, registry, w))
    && (forall w: Watch | w.0 !in a.doubted :: watchers[w] >= Due(owners, registry, w))
  }

  lemma ReportsTell(a: Account, owners: Ownership, registry: map<string, nat>, watchers: Watchers)
    requires Sound(a, owners, registry, watchers)
    ensures AsReported(a, owners, registry, watchers)
  {
    forall w: Watch
      ensures w !in a.suspects ==> watchers[w] <= Due(owners, registry, w)
      ensures w.0 !in a.doubted ==> watchers[w] >= Due(owners, registry, w)
    {
      assert AccountedAt(owners, registry, watchers, a.strays, a.lost, w);
    }
  }

  /**
   What runs, by what the adapters have reported. As long as every rollback has
   reported success no pane has two watchers and none without a card has one; as
   long as every unbind has, each card has exactly its own. And whatever was
   reported, there is one too many exactly when a stray is left, and all is as it
   should be exactly when nothing is lost either.
   */
  lemma WhatRuns(history: seq<Report>, owners: Ownership, registry: map<string, nat>, watchers: Watchers)
    requires Sound(Books(history), owners, registry, watchers)
    ensures AsReported(Books(history), owners, registry, watchers)
    ensures EveryRollbackWorked(history) ==> NoneTooMany(owners, registry, watchers)
    ensures EveryRollbackWorked(history) && EveryUnbindWorked(history) ==> Matched(owners, registry, watchers)
    ensures NoneTooMany(owners, registry, watchers) <==> Books(history).strays == multiset{}
    ensures Matched(owners, registry, watchers) <==> Books(history).strays == multiset{} && Books(history).lost == {}
  {
    ReportsTell(Books(history), owners, registry, watchers);
    NothingWentWrong(history);
    AccountIsExact(owners, registry, watchers, Books(history).strays, Books(history).lost);
  }

  lemma AccountIsExact(owners: Ownership, registry: map<string, nat>, watchers: Watchers, strays: Watchers, lost: set<string>)
    requires Accounted(owners, registry, watchers, strays, lost)
    ensures NoneTooMany(owners, registry, watchers) <==> strays == multiset{}
    ensures Matched(owners, registry, watchers) <==> strays == multiset{} && lost == {}
  {
    if strays == multiset{} {
      forall w: Watch ensures watchers[w] <= Due(owners, registry, w) {
        assert AccountedAt(owners, registry, watchers, strays, lost, w);
      }
      if lost == {} {
        forall w: Watch ensures watchers[w] == Due(owners, registry, w) {
          assert AccountedAt(owners, registry, watchers, strays, lost, w);
        }
      } else {
        var pane :| pane in lost;
        LostIsMissed(owners, registry, watchers, strays, lost, pane);
      }
    } else {
      var w :| w in strays;
      assert AccountedAt(owners, registry, watchers, strays, lost, w);
    }
  }

  lemma LostIsMissed(owners: Ownership, registry: map<string, nat>, watchers: Watchers, strays: Watchers, lost: set<string>, pane: string)
    requires Accounted(owners, registry, watchers, strays, lost) && pane in lost
    ensures !Matched(owners, registry, watchers)
  {
    var w := (pane, registry[owners[pane].value]);
    assert AccountedAt(owners, registry, watchers, strays, lost, w);
    assert Expected(owners, registry, w) && watchers[w] == 0;
  }

  /** Nothing runs on the pane but what a failed rollback may have left. */
  ghost predicate Quiet(suspects: set<Watch>, watchers: Watchers, pane: string) {
    forall adapter: nat | (pane, adapter) !in suspects :: watchers[(pane, adapter)] == 0
  }

  lemma NoCardIsQuiet(a: Account, owners: Ownership, registry: map<string, nat>, watchers: Watchers, pane: string)
    requires Sound(a, owners, registry, watchers) && pane !in owners
    ensures Quiet(a.suspects, watchers, pane)
  {
    forall adapter: nat | (pane, adapter) !in a.suspects ensures watchers[(pane, adapter)] == 0 {
      assert AccountedAt(owners, registry, watchers, a.strays, a.lost, (pane, adapter));
    }
  }

  /** Less is wrong than was, by any measure. */
  ghost predicate NoWorse(past: Account, now: Account) {
    && now.suspects <= past.suspects && now.doubted <= past.doubted
    && now.strays <= past.strays && now.lost <= past.lost
  }

  lemma NoWorseTwice(a: Account, b: Account, c: Account)
    ensures NoWorse(a, b) && NoWorse(b, c) ==> NoWorse(a, c)
  {
  }

  lemma Regroup<T>(a: seq<T>, b: seq<T>, c: seq<T>)
    ensures a + b + c == a + (b + c)
  {
  }

  lemma ChangedAt(strays: Watchers, w: Watch, n: nat)
    ensures forall v | v in strays[w := n] :: if v == w then n > 0 else v in strays
    ensures n <= strays[w] ==> strays[w := n] <= strays
  {
    assert strays[w := n][w] == n;
  }

  /** A bind that worked behind a new card. */
  lemma WatcherStarted(a: Account, owners: Ownership, registry: map<string, nat>, before: Watchers, pane: string, agent: string,
                       running: nat)
    requires Sound(a, owners - {pane}, registry, before)
    requires pane in owners && owners[pane] == Some(agent) && agent in registry
    requires 0 < running <= before[(pane, registry[agent])] + 1
    ensures
      var w := (pane, registry[agent]);
      var after := Book(a, Started(w, running));
      Sound(after, owners, registry, before[w := running]) && NoWorse(a, after)
  {
    var at := (pane, registry[agent]);
    var others, now, after := owners - {pane}, before[at := running], Book(a, Started(at, running));
    assert AccountedAt(others, registry, before, a.strays, a.lost, at);
    ChangedAt(a.strays, at, running - 1);
    forall w: Watch ensures AccountedAt(owners, registry, now, after.strays, after.lost, w) {
      assert AccountedAt(others, registry, before, a.strays, a.lost, w);
    }
  }

  /** A bind that failed, and its rollback, with no card left behind. */
  lemma WatcherLeft(a: Account, owners: Ownership, registry: map<string, nat>, before: Watchers, o: Report)
    requires Sound(a, owners, registry, before) && o.RolledBack? && Credible(o) && o.w.0 !in owners
    ensures Sound(Book(a, o), owners, registry, before[o.w := o.running])
  {
    var now, after := before[o.w := o.running], Book(a, o);
    ChangedAt(a.strays, o.w, o.running);
    forall w: Watch ensures AccountedAt(owners, registry, now, after.strays, after.lost, w) {
      assert AccountedAt(owners, registry, before, a.strays, a.lost, w);
    }
  }

  /** Where there was none too many, a bind makes one too many exactly when it fails and its rollback leaves something. */
  lemma BindDecides(owners: Ownership, registry: map<string, nat>, before: Watchers, ok: bool, o: Report)
    requires Expected(owners, registry, o.w) && NoneTooMany(owners - {o.w.0}, registry, before)
    requires ok ==> o.running <= before[o.w] + 1
    ensures NoneTooMany(if ok then owners else owners - {o.w.0}, registry, before[o.w := o.running]) <==> ok || o.running == 0
  {
    var others, now := owners - {o.w.0}, before[o.w := o.running];
    var after := if ok then owners else others;
    assert before[o.w] <= Due(others, registry, o.w) == 0;
    assert now[o.w] == o.running;
    if ok || o.running == 0 {
      forall w: Watch ensures now[w] <= Due(after, registry, w) {
        assert before[w] <= Due(others, registry, w);
      }
    }
  }

  lemma BindReported(history: seq<Report>, owners: Ownership, registry: map<string, nat>, before: Watchers, pane: string, agent: string,
                     ok: bool, o: Report)
    requires Sound(Books(history), owners - {pane}, registry, before)
    requires pane in owners && owners[pane] == Some(agent) && agent in registry
    requires BindTold(o, (pane, registry[agent]), ok, before[o.w := o.running]) && Credible(o)
    requires ok ==> o.running <= before[o.w] + 1
    ensures
      var after := Books(history + [o]);
      && Sound(after, if ok then owners else owners - {pane}, registry, before[o.w := o.running])
      && (ok ==> NoWorse(Books(history), after))
    ensures NoneTooMany(owners - {pane}, registry, before) ==>
            (NoneTooMany(if ok then owners else owners - {pane}, registry, before[o.w := o.running]) <==> ok || o.running == 0)
  {
    OneMoreReport(history, o);
    if NoneTooMany(owners - {pane}, registry, before) {
      BindDecides(owners, registry, before, ok, o);
    }
    if ok {
      WatcherStarted(Books(history), owners, registry, before, pane, agent, o.running);
    } else {
      WatcherLeft(Books(history), owners - {pane}, registry, before, o);
    }
  }

  /** After an unbind that worked the card may go. */
  lemma UnbindWorked(a: Account, owners: Ownership, registry: map<string, nat>, before: Watchers, pane: string, agent: string)
    requires Sound(a, owners, registry, before)
    requires pane in owners && owners[pane] == Some(agent) && agent in registry
    ensures
      var w := (pane, registry[agent]);
      var after := Book(a, Stopped(w, true, 0));
      Sound(after, owners - {pane}, registry, before[w := 0]) && NoWorse(a, after)
  {
    var at := (pane, registry[agent]);
    var others, now, after := owners - {pane}, before[at := 0], Book(a, Stopped(at, true, 0));
    ChangedAt(a.strays, at, 0);
    forall w: Watch ensures AccountedAt(others, registry, now, after.strays, after.lost, w) {
      assert AccountedAt(owners, registry, before, a.strays, a.lost, w);
    }
  }

  /** An unbind that reported failure: the card stays, with its watcher or without. */
  lemma UnbindFailed(a: Account, owners: Ownership, registry: map<string, nat>, before: Watchers, pane: string, agent: string,
                     running: nat)
    requires Sound(a, owners, registry, before)
    requires pane in owners && owners[pane] == Some(agent) && agent in registry
    requires running <= before[(pane, registry[agent])]
    ensures
      var w := (pane, registry[agent]);
      && Sound(Book(a, Stopped(w, false, running)), owners, registry, before[w := running])
      && (Matched(owners, registry, before) ==> (Matched(owners, registry, before[w := running]) <==> running == 1))
  {
    var at := (pane, registry[agent]);
    var o := Stopped(at, false, running);
    var now, after := before[at := running], Book(a, o);
    assert AccountedAt(owners, registry, before, a.strays, a.lost, at);
    ChangedAt(a.strays, at, Excess(o));
    forall w: Watch ensures AccountedAt(owners, registry, now, after.strays, after.lost, w) {
      assert AccountedAt(owners, registry, before, a.strays, a.lost, w);
    }
    assert now[at] == running && Expected(owners, registry, at);
  }

  /** The list shows this pane with this agent and session. */
  predicate Listed(panes: seq<PaneInfo>, s: (string, string, string)) {
    exists pane | pane in panes :: pane.paneId == s.0 && pane.agent == Some(s.1) && pane.session == Some(s.2)
  }

  /** All that is still wanted of one pane is a bind to an agent nobody serves. */
  ghost predicate Settled(entry: Option<Binding>, panes: seq<PaneInfo>, registry: map<string, nat>, pane: string) {
    forall a: Action | a.pane == pane && WantedFor(entry, panes, a) :: a.Bind? && a.agent !in registry
  }

  class ReconcileLoop {
    const registry: map<string, nat>
    const store: TelemetryStore
    const bindings: Bindings
    var skipped: set<(string, string, string)>

    ghost var watchers: Watchers
    /** Every answer the loop has had from an adapter. */
    ghost var history: seq<Report>
    ghost var failures: nat

    constructor (registry: map<string, nat>)
      ensures Steady() && history == [] && this.registry == registry
      ensures fresh(store) && fresh(bindings)
    {
      this.registry := registry;
      var s := new TelemetryStore();
      var b := new Bindings();
      store, bindings := s, b;
      skipped, watchers, history, failures := {}, multiset{}, [], 0;
    }

    ghost predicate Registered(bound: map<string, Binding>) {
      forall pane | pane in bound :: bound[pane].agent in registry
    }

    /**
     What holds at every action boundary, `bound` being the bindings with the
     tick's finished actions on top: cards and bindings name the same panes and
     the same agents, and the watchers are those of the cards but for what the
     adapters' reports account for.
     */
    ghost predicate Consistent(bound: map<string, Binding>)
      reads this, store
    {
      && Store.Valid(store.View())
      && Owners(store.panes) == Agents(bound)
      && Registered(bound)
      && Sound(Books(history), Owners(store.panes), registry, watchers)
    }

    /** What holds between ticks. */
    ghost predicate Steady()
      reads this, store, bindings
    {
      Consistent(bindings.bound)
    }

    // ----- what the loop does not control -----

    /** Watchers record, and sidebars come and go, between any two steps of the loop. */
    method Interfere()
      requires Store.Valid(store.View())
      modifies store
      ensures Store.Valid(store.View()) && Owners(store.panes) == old(Owners(store.panes))
    {
      Drift();
    }

    /** What that may do to the cards' places. */
    method Drift()
      requires Store.Valid(store.View())
      modifies store
      ensures Store.Valid(store.View()) && Owners(store.panes) == old(Owners(store.panes))
      ensures Drifted(old(WhereAll(store.panes)), WhereAll(store.panes))
    {
      var n: nat := *;
      while n > 0
        invariant Store.Valid(store.View()) && Owners(store.panes) == old(Owners(store.panes))
        invariant Drifted(old(WhereAll(store.panes)), WhereAll(store.panes))
      {
        ghost var where := WhereAll(store.panes);
        var which: nat := *;
        if which == 0 {
          SubscriberComes();
        } else if which == 1 {
          SubscriberGoes();
        } else {
          SomethingIsRecorded();
        }
        DriftsAdd(old(WhereAll(store.panes)), where, WhereAll(store.panes));
        n := n - 1;
      }
    }

    method SubscriberComes()
      requires Store.Valid(store.View())
      modifies store
      ensures Store.Valid(store.View()) && Owners(store.panes) == old(Owners(store.panes))
      ensures Drifted(old(WhereAll(store.panes)), WhereAll(store.panes))
    {
      ghost var before := store.View();
      var id, seen, snapshot := store.SubscribeFull();
      Track(before, SubscribeFull);
      SubscribersMoveNothing(before, id);
    }

    method SubscriberGoes()
      requires Store.Valid(store.View())
      modifies store
      ensures Store.Valid(store.View()) && Owners(store.panes) == old(Owners(store.panes))
      ensures Drifted(old(WhereAll(store.panes)), WhereAll(store.panes))
    {
      ghost var before := store.View();
      var id: nat := *;
      store.Unsubscribe(id);
      Track(before, Op.Unsubscribe(id));
      SubscribersMoveNothing(before, id);
    }

    method SomethingIsRecorded()
      requires Store.Valid(store.View())
      modifies store
      ensures Store.Valid(store.View()) && Owners(store.panes) == old(Owners(store.panes))
      ensures Drifted(old(WhereAll(store.panes)), WhereAll(store.panes))
    {
      ghost var before := store.View();
      var pane: string, event: Event, payload: Value := *, *, *;
      store.Record(pane, event, payload);
      Track(before, Op.Record(pane, event, payload));
      RecordDrifts(before, pane, event, payload);
    }

    /**
     `adapter.bind`, called only where nothing runs but what a failed rollback may
     have left. A failed bind may or may not have left a watcher, and either may
     have replaced what was there.
     */
    method AdapterBind(adapter: nat, pane: string) returns (ok: bool)
      requires Quiet(Books(history).suspects, watchers, pane)
      modifies this`watchers, this`failures
      ensures watchers == old(watchers)[(pane, adapter) := watchers[(pane, adapter)]]
      ensures watchers[(pane, adapter)] <= old(watchers)[(pane, adapter)] + 1
      ensures ok ==> watchers[(pane, adapter)] > 0 && failures == old(failures)
      ensures !ok ==> failures == old(failures) + 1
    {
      ok := *;
      var running: nat := *;
      ghost var most: nat := watchers[(pane, adapter)] + 1;
      ghost var now: nat := if 0 <= running <= most && (ok ==> running > 0) then running else most;
      watchers := watchers[(pane, adapter) := now];
      if !ok {
        failures := failures + 1;
      }
    }

    /** `adapter.unbind`. A failed unbind may or may not have stopped what it was to stop. */
    method AdapterUnbind(adapter: nat, pane: string) returns (ok: bool)
      modifies this`watchers, this`failures
      ensures watchers == old(watchers)[(pane, adapter) := watchers[(pane, adapter)]]
      ensures watchers[(pane, adapter)] <= old(watchers)[(pane, adapter)]
      ensures ok ==> watchers[(pane, adapter)] == 0 && failures == old(failures)
      ensures !ok ==> failures == old(failures) + 1
    {
      ok := *;
      var running: nat := *;
      ghost var most: nat := watchers[(pane, adapter)];
      ghost var now: nat := if ok then 0 else if 0 <= running <= most then running else most;
      watchers := watchers[(pane, adapter) := now];
      if !ok {
        failures := failures + 1;
      }
    }

    // ----- one pane -----

    /** Starts a watcher behind a card that is already there, and takes the card back if it cannot. */
    method StartBehindCard(adapter: nat, pane: string, agent: string) returns (ok: bool, ghost report: Report)
      requires agent in registry && registry[agent] == adapter
      requires Store.Valid(store.View()) && pane in store.panes && store.panes[pane].agent == Some(agent)
      requires Sound(Books(history), Owners(store.panes) - {pane}, registry, watchers)
      modifies this`watchers, this`failures, this`history, store
      ensures Store.Valid(store.View())
      ensures Owners(store.panes) == if ok then old(Owners(store.panes)) else old(Owners(store.panes)) - {pane}
      ensures history == old(history) + [report] && Credible(report) && BindTold(report, (pane, adapter), ok, watchers)
      ensures Sound(Books(history), Owners(store.panes), registry, watchers)
      ensures old(NoneTooMany(Owners(store.panes) - {pane}, registry, watchers)) ==>
              (NoneTooMany(Owners(store.panes), registry, watchers) <==> ok || watchers[(pane, adapter)] == 0)
      ensures if ok then failures == old(failures) && NoWorse(Books(old(history)), Books(history)) else failures > old(failures)
    {
      ghost var w, all, before, past := (pane, adapter), Owners(store.panes), watchers, history;
      NoCardIsQuiet(Books(history), all - {pane}, registry, watchers, pane);
      Interfere();
      ok := AdapterBind(adapter, pane);
      Interfere();
      if ok {
        report := Started(w, watchers[w]);
        history := history + [report];
      } else {
        report := RollBack(adapter, pane);
        assert watchers == before[w := watchers[w]];
      }
      BindReported(past, all, registry, before, pane, agent, ok, report);
    }

    /** After a failed bind: stop what it may have left, and take the card back. */
    method RollBack(adapter: nat, pane: string) returns (ghost report: Report)
      requires Store.Valid(store.View())
      modifies this`watchers, this`failures, this`history, store
      ensures Store.Valid(store.View()) && Owners(store.panes) == old(Owners(store.panes)) - {pane}
      ensures watchers == old(watchers)[(pane, adapter) := watchers[(pane, adapter)]]
      ensures history == old(history) + [report]
      ensures BindTold(report, (pane, adapter), false, watchers) && Credible(report)
      ensures if report.stopped then failures == old(failures) else failures == old(failures) + 1
    {
      var stopped := AdapterUnbind(adapter, pane);
      report := RolledBack((pane, adapter), stopped, watchers[(pane, adapter)]);
      history := history + [report];
      Interfere();
      ghost var view := store.View();
      store.Remove(pane);
      Track(view, Op.Remove(pane));
    }

    /** `bind_pane`: the card first, then the watcher. */
    method BindPane(pane: string, agent: string) returns (ok: bool, ghost report: Report)
      requires agent in registry
      requires Store.Valid(store.View()) && pane !in store.panes
      requires Sound(Books(history), Owners(store.panes), registry, watchers)
      modifies this`watchers, this`failures, this`history, store
      ensures Store.Valid(store.View())
      ensures Owners(store.panes) == if ok then old(Owners(store.panes))[pane := Some(agent)] else old(Owners(store.panes))
      ensures history == old(history) + [report] && Credible(report) && BindTold(report, (pane, registry[agent]), ok, watchers)
      ensures !ok && report.stopped ==> watchers[(pane, registry[agent])] == 0
      ensures old(NoneTooMany(Owners(store.panes), registry, watchers)) ==>
              (NoneTooMany(Owners(store.panes), registry, watchers) <==> ok || watchers[(pane, registry[agent])] == 0)
      ensures Sound(Books(history), Owners(store.panes), registry, watchers)
      ensures if ok then failures == old(failures) && NoWorse(Books(old(history)), Books(history)) else failures > old(failures)
    {
      ghost var view := store.View();
      store.SetAgent(pane, agent);
      Track(view, Op.SetAgent(pane, agent));
      assert Owners(store.panes) - {pane} == old(Owners(store.panes));
      ok, report := StartBehindCard(registry[agent], pane, agent);
    }

    /** Stops the watcher of a bound pane, or reports that it could not. */
    method StopWatcher(pane: string) returns (ok: bool)
      requires Store.Valid(store.View()) && Registered(bindings.bound)
      requires pane in bindings.bound && OwnerOf(Owners(store.panes), pane) == Some(bindings.bound[pane].agent)
      requires Sound(Books(history), Owners(store.panes), registry, watchers)
      modifies this`watchers, this`failures, this`history, store
      ensures Store.Valid(store.View()) && Owners(store.panes) == old(Owners(store.panes))
      ensures
        var w := (pane, registry[bindings.bound[pane].agent]);
        history == old(history) + [Stopped(w, ok, watchers[w])] && (ok ==> watchers[w] == 0)
      ensures ok ==> Sound(Books(history), Owners(store.panes) - {pane}, registry, watchers)
      ensures ok ==> failures == old(failures) && NoWorse(Books(old(history)), Books(history))
      ensures !ok ==> Sound(Books(history), Owners(store.panes), registry, watchers) && failures > old(failures)
      ensures !ok && old(Matched(Owners(store.panes), registry, watchers)) ==>
              (Matched(Owners(store.panes), registry, watchers) <==> watchers[(pane, registry[bindings.bound[pane].agent])] == 1)
    {
      var agent := bindings.bound[pane].agent;
      ghost var w, owners, before, past := (pane, registry[agent]), Owners(store.panes), watchers, Books(history);
      ok := AdapterUnbind(registry[agent], pane);
      if ok {
        UnbindWorked(past, owners, registry, before, pane, agent);
      } else {
        UnbindFailed(past, owners, registry, before, pane, agent, watchers[w]);
      }
      OneMoreReport(history, Stopped(w, ok, watchers[w]));
      history := history + [Stopped(w, ok, watchers[w])];
      Interfere();
    }

    /** `rebind`: the old watcher is stopped before anything else happens to the pane. */
    method RebindPane(pane: string, agent: string) returns (ok: bool, ghost reports: seq<Report>)
      requires Store.Valid(store.View()) && Registered(bindings.bound)
      requires pane in bindings.bound && OwnerOf(Owners(store.panes), pane) == Some(bindings.bound[pane].agent)
      requires Sound(Books(history), Owners(store.panes), registry, watchers)
      modifies this`watchers, this`failures, this`history, store, bindings
      ensures Store.Valid(store.View())
      ensures
        if ok then
          bindings.bound == old(bindings.bound) - {pane} && agent in registry &&
          Owners(store.panes) == old(Owners(store.panes))[pane := Some(agent)]
        else
          || (bindings.bound == old(bindings.bound) && Owners(store.panes) == old(Owners(store.panes)))
          || (bindings.bound == old(bindings.bound) - {pane} && Owners(store.panes) == old(Owners(store.panes)) - {pane})
      ensures history == old(history) + reports
      ensures RebindTold(reports, (pane, registry[old(bindings.bound)[pane].agent]), agent, ok, watchers)
      ensures Sound(Books(history), Owners(store.panes), registry, watchers)
      ensures failures == old(failures) ==> NoWorse(Books(old(history)), Books(history))
      ensures failures >= old(failures) && (ok ==> failures == old(failures))
      ensures !ok && failures == old(failures) ==> agent !in registry && bindings.bound == old(bindings.bound) - {pane}
    {
      ghost var w := (pane, registry[bindings.bound[pane].agent]);
      ok := StopWatcher(pane);
      reports := [Stopped(w, ok, watchers[w])];
      if ok {
        bindings.Forget(pane);
        ghost var rest;
        ghost var between := history;
        ok, rest := BindAgain(pane, agent);
        RebindReported(w, agent, ok, rest, watchers);
        Regroup(old(history), reports, rest);
        NoWorseTwice(Books(old(history)), Books(between), Books(history));
        reports := reports + rest;
      }
    }

    /** A stopped pane's new session, or the end of its card if nobody serves the agent. */
    method BindAgain(pane: string, agent: string) returns (ok: bool, ghost rest: seq<Report>)
      requires Store.Valid(store.View()) && pane in store.panes
      requires Sound(Books(history), Owners(store.panes) - {pane}, registry, watchers)
      modifies this`watchers, this`failures, this`history, store
      ensures Store.Valid(store.View()) && history == old(history) + rest
      ensures Owners(store.panes) == if ok then old(Owners(store.panes))[pane := Some(agent)] else old(Owners(store.panes)) - {pane}
      ensures AgainTold(rest, pane, agent, ok, watchers)
      ensures Sound(Books(history), Owners(store.panes), registry, watchers)
      ensures failures >= old(failures) && (failures == old(failures) ==> NoWorse(Books(old(history)), Books(history)))
      ensures failures == old(failures) <==> ok || agent !in registry
    {
      if agent in registry {
        ghost var report;
        ok, report := SwapSession(pane, agent);
        rest := [report];
      } else {
        ghost var view := store.View();
        store.Remove(pane);
        Track(view, Op.Remove(pane));
        ok, rest := false, [];
        assert history + [] == history;
      }
    }

    ghost predicate AgainTold(rest: seq<Report>, pane: string, agent: string, ok: bool, now: Watchers) {
      if agent !in registry then !ok && rest == []
      else |rest| == 1 && Credible(rest[0]) && BindTold(rest[0], (pane, registry[agent]), ok, now)
    }

    method RenewCard(pane: string, agent: string)
      requires Store.Valid(store.View())
      modifies store
      ensures Store.Valid(store.View()) && Owners(store.panes) == old(Owners(store.panes))[pane := Some(agent)]
    {
      ghost var view := store.View();
      store.ReplaceSession(pane, agent);
      Track(view, Op.ReplaceSession(pane, agent));
    }

    /** The second half of a rebind: a new card carrying only the cwd, then its watcher. */
    method SwapSession(pane: string, agent: string) returns (ok: bool, ghost report: Report)
      requires agent in registry
      requires Store.Valid(store.View()) && pane in store.panes
      requires Sound(Books(history), Owners(store.panes) - {pane}, registry, watchers)
      modifies this`watchers, this`failures, this`history, store
      ensures Store.Valid(store.View())
      ensures Owners(store.panes) ==
        if ok then old(Owners(store.panes))[pane := Some(agent)] else old(Owners(store.panes)) - {pane}
      ensures history == old(history) + [report] && Credible(report) && BindTold(report, (pane, registry[agent]), ok, watchers)
      ensures Sound(Books(history), Owners(store.panes), registry, watchers)
      ensures if ok then failures == old(failures) && NoWorse(Books(old(history)), Books(history)) else failures > old(failures)
    {
      RenewCard(pane, agent);
      assert pane in Owners(store.panes);
      assert Owners(store.panes) - {pane} == old(Owners(store.panes)) - {pane};
      ok, report := StartBehindCard(registry[agent], pane, agent);
    }

    lemma RebindReported(w: Watch, agent: string, ok: bool, rest: seq<Report>, now: Watchers)
      requires AgainTold(rest, w.0, agent, ok, now)
      ensures RebindTold([Stopped(w, true, 0)] + rest, w, agent, ok, now)
    {
      assert ([Stopped(w, true, 0)] + rest)[1..] == rest;
    }

    /** A rebind's reports: an unbind of the old watcher, and after a success what became of the new one. */
    ghost predicate RebindTold(reports: seq<Report>, w: Watch, agent: string, ok: bool, now: Watchers) {
      && reports != [] && reports[0].Stopped? && reports[0].w == w && Credible(reports[0])
      && (if !reports[0].stopped then !ok && reports == [Stopped(w, false, now[w])]
          else AgainTold(reports[1..], w.0, agent, ok, now))
    }

    /** The `Unbind` arm of a tick. */
    method UnbindPane(pane: string) returns (ok: bool)
      requires Store.Valid(store.View()) && Registered(bindings.bound)
      requires pane in bindings.bound && OwnerOf(Owners(store.panes), pane) == Some(bindings.bound[pane].agent)
      requires Sound(Books(history), Owners(store.panes), registry, watchers)
      modifies this`watchers, this`failures, this`history, store
      ensures Store.Valid(store.View())
      ensures Owners(store.panes) == if ok then old(Owners(store.panes)) - {pane} else old(Owners(store.panes))
      ensures
        var w := (pane, registry[bindings.bound[pane].agent]);
        history == old(history) + [Stopped(w, ok, watchers[w])] && (ok ==> watchers[w] == 0)
      ensures Sound(Books(history), Owners(store.panes), registry, watchers)
      ensures if ok then failures == old(failures) && NoWorse(Books(old(history)), Books(history)) else failures > old(failures)
      ensures !ok && old(Matched(Owners(store.panes), registry, watchers)) ==>
              (Matched(Owners(store.panes), registry, watchers) <==> watchers[(pane, registry[bindings.bound[pane].agent])] == 1)
    {
      ok := StopWatcher(pane);
      if ok {
        ghost var view := store.View();
        store.Remove(pane);
        Track(view, Op.Remove(pane));
      }
    }

    // ----- one action -----

    /** The bindings as they will be once the finished actions are applied on top. */
    ghost function Effective(applied: seq<Action>): map<string, Binding>
      reads bindings
    {
      ApplyAll(bindings.bound, applied)
    }

    ghost predicate CanAct(action: Action, applied: seq<Action>)
      reads bindings
    {
      && Registered(bindings.bound)
      && (forall a | a in applied :: a.pane != action.pane)
      && (action.Bind? <==> action.pane !in bindings.bound)
    }

    lemma CardOfBound(pane: string, applied: seq<Action>)
      requires Owners(store.panes) == Agents(Effective(applied))
      requires forall a | a in applied :: a.pane != pane
      ensures pane in store.panes <==> pane in bindings.bound
      ensures pane in bindings.bound ==> OwnerOf(Owners(store.panes), pane) == Some(bindings.bound[pane].agent)
      ensures Entry(Effective(applied), pane) == Entry(bindings.bound, pane)
    {
      ApplyElsewhere(bindings.bound, applied, pane);
      assert pane in store.panes <==> pane in Owners(store.panes);
    }

    method ActUnbind(action: Action, ghost applied: seq<Action>) returns (ok: bool)
      requires Consistent(Effective(applied)) && CanAct(action, applied) && action.Unbind?
      modifies this`watchers, this`failures, this`history, this`skipped, store, bindings
      ensures Consistent(Effective(if ok then applied + [action] else applied)) && Registered(bindings.bound)
      ensures forall pane | pane != action.pane :: Entry(bindings.bound, pane) == old(Entry(bindings.bound, pane))
      ensures old(history) <= history
      ensures failures == old(failures) ==> NoWorse(Books(old(history)), Books(history))
      ensures failures >= old(failures)
      ensures !ok ==> failures > old(failures)
    {
      CardOfBound(action.pane, applied);
      ok := UnbindPane(action.pane);
      assert (applied + [action])[..|applied|] == applied;
      assert Agents(Effective(applied) - {action.pane}) == Agents(Effective(applied)) - {action.pane};
    }

    method ActRebind(action: Action, ghost applied: seq<Action>) returns (ok: bool)
      requires Consistent(Effective(applied)) && CanAct(action, applied) && action.Rebind?
      modifies this`watchers, this`failures, this`history, this`skipped, store, bindings
      ensures Consistent(Effective(if ok then applied + [action] else applied)) && Registered(bindings.bound)
      ensures forall pane | pane != action.pane :: Entry(bindings.bound, pane) == old(Entry(bindings.bound, pane))
      ensures old(history) <= history
      ensures failures == old(failures) ==> NoWorse(Books(old(history)), Books(history))
      ensures failures >= old(failures)
      ensures !ok && failures == old(failures) ==>
        !action.Unbind? && action.agent !in registry && action.pane !in Effective(applied)
    {
      ghost var bound := Effective(applied);
      CardOfBound(action.pane, applied);
      ApplyAfterForget(bindings.bound, applied, action.pane);
      ghost var reports;
      ok, reports := RebindPane(action.pane, action.agent);
      assert (applied + [action])[..|applied|] == applied;
      RebindAgents(bound, action);
    }

    method ActBind(action: Action, ghost applied: seq<Action>) returns (ok: bool)
      requires Consistent(Effective(applied)) && CanAct(action, applied) && action.Bind?
      modifies this`watchers, this`failures, this`history, this`skipped, store, bindings
      ensures Consistent(Effective(if ok then applied + [action] else applied)) && Registered(bindings.bound)
      ensures forall pane | pane != action.pane :: Entry(bindings.bound, pane) == old(Entry(bindings.bound, pane))
      ensures old(history) <= history
      ensures failures == old(failures) ==> NoWorse(Books(old(history)), Books(history))
      ensures failures >= old(failures)
      ensures !ok && failures == old(failures) ==>
        !action.Unbind? && action.agent !in registry && action.pane !in Effective(applied)
    {
      CardOfBound(action.pane, applied);
      if action.agent in registry {
        ghost var bound, after := Effective(applied), Effective(applied + [action]);
        ApplyOneMore(bindings.bound, applied, action);
        RebindAgents(bound, action);
        assert Registered(after) && Agents(after) == Agents(bound)[action.pane := Some(action.agent)];
        ghost var report;
        ok, report := BindPane(action.pane, action.agent);
        assert Effective(applied) == bound && Effective(applied + [action]) == after;
      } else {
        skipped := skipped + {(action.pane, action.agent, action.session)};
        ok := false;
      }
    }

    /** Carries out one action of the diff, and says whether it counts as applied. */
    method Act(action: Action, ghost applied: seq<Action>) returns (ok: bool)
      requires Consistent(Effective(applied)) && CanAct(action, applied)
      modifies this`watchers, this`failures, this`history, this`skipped, store, bindings
      ensures Consistent(Effective(if ok then applied + [action] else applied)) && Registered(bindings.bound)
      ensures forall pane | pane != action.pane :: Entry(bindings.bound, pane) == old(Entry(bindings.bound, pane))
      ensures old(history) <= history
      ensures AsReported(Books(history), Owners(store.panes), registry, watchers)
      ensures EveryRollbackWorked(history) ==> NoneTooMany(Owners(store.panes), registry, watchers)
      ensures EveryRollbackWorked(history) && EveryUnbindWorked(history) ==> Matched(Owners(store.panes), registry, watchers)
      ensures NoneTooMany(Owners(store.panes), registry, watchers) <==> Books(history).strays == multiset{}
      ensures Matched(Owners(store.panes), registry, watchers) <==> Books(history).strays == multiset{} && Books(history).lost == {}
      ensures failures == old(failures) ==> NoWorse(Books(old(history)), Books(history))
      ensures failures >= old(failures)
      ensures !ok && failures == old(failures) ==>
        !action.Unbind? && action.agent !in registry && action.pane !in Effective(applied)
    {
      match action {
        case Unbind(_) => ok := ActUnbind(action, applied);
        case Rebind(_, _, _) => ok := ActRebind(action, applied);
        case Bind(_, _, _) => ok := ActBind(action, applied);
      }
      WhatRuns(history, Owners(store.panes), registry, watchers);
    }

    // ----- one tick -----

    /** The cwd, workspace and place of every listed pane, in list order. */
    method Place(panes: seq<PaneInfo>)
      requires Store.Valid(store.View())
      modifies store
      ensures Store.Valid(store.View()) && Owners(store.panes) == old(Owners(store.panes))
      ensures AllPlaced(WhereAll(store.panes), panes, |panes|)
    {
      for i := 0 to |panes|
        invariant Store.Valid(store.View()) && Owners(store.panes) == old(Owners(store.panes))
        invariant AllPlaced(WhereAll(store.panes), panes, i)
      {
        ghost var where := WhereAll(store.panes);
        PlaceOne(panes[i], i);
        OneMorePlaced(where, WhereAll(store.panes), panes, i);
      }
    }

    method PlaceOne(pane: PaneInfo, position: nat)
      requires Store.Valid(store.View())
      modifies store
      ensures Store.Valid(store.View()) && Owners(store.panes) == old(Owners(store.panes))
      ensures Stage(old(WhereAll(store.panes)), WhereAll(store.panes), pane, position, 3)
    {
      ghost var start := WhereAll(store.panes);
      PutCwd(pane, position);
      DriftOn(start, pane, position, 1);
      PutWorkspace(start, pane, position);
      DriftOn(start, pane, position, 2);
      PutPosition(start, pane, position);
      DriftOn(start, pane, position, 3);
    }

    method DriftOn(ghost start: Map, ghost pane: PaneInfo, ghost position: nat, ghost done: nat)
      requires Store.Valid(store.View()) && Stage(start, WhereAll(store.panes), pane, position, done)
      modifies store
      ensures Store.Valid(store.View()) && Owners(store.panes) == old(Owners(store.panes))
      ensures Stage(start, WhereAll(store.panes), pane, position, done)
    {
      ghost var where := WhereAll(store.panes);
      Drift();
      StageDrifts(start, where, WhereAll(store.panes), pane, position, done);
    }

    method PutCwd(pane: PaneInfo, ghost position: nat)
      requires Store.Valid(store.View())
      modifies store
      ensures Store.Valid(store.View()) && Owners(store.panes) == old(Owners(store.panes))
      ensures Stage(old(WhereAll(store.panes)), WhereAll(store.panes), pane, position, 1)
    {
      var cwd := if pane.foregroundCwd.Some? then pane.foregroundCwd else pane.cwd;
      ghost var view := store.View();
      store.SetPaneListCwd(pane.paneId, cwd);
      Track(view, Op.SetPaneListCwd(pane.paneId, cwd));
      CwdStage(view, pane, position);
    }

    method PutWorkspace(ghost start: Map, pane: PaneInfo, ghost position: nat)
      requires Store.Valid(store.View()) && Stage(start, WhereAll(store.panes), pane, position, 1)
      modifies store
      ensures Store.Valid(store.View()) && Owners(store.panes) == old(Owners(store.panes))
      ensures Stage(start, WhereAll(store.panes), pane, position, 2)
    {
      ghost var view := store.View();
      store.SetPaneWorkspace(pane.paneId, Some(pane.workspaceId));
      Track(view, Op.SetPaneWorkspace(pane.paneId, Some(pane.workspaceId)));
      WorkspaceStage(start, view, pane, position);
    }

    method PutPosition(ghost start: Map, pane: PaneInfo, position: nat)
      requires Store.Valid(store.View()) && Stage(start, WhereAll(store.panes), pane, position, 2)
      modifies store
      ensures Store.Valid(store.View()) && Owners(store.panes) == old(Owners(store.panes))
      ensures Stage(start, WhereAll(store.panes), pane, position, 3)
    {
      ghost var view := store.View();
      store.SetPanePosition(pane.paneId, position);
      Track(view, Op.SetPanePosition(pane.paneId, position));
      PositionStage(start, view, pane, position);
    }

    /** Forgets the skipped identities that are no longer listed. */
    method RetainSkipped(panes: seq<PaneInfo>)
      modifies this`skipped
      ensures skipped == set s | s in old(skipped) && Listed(panes, s)
    {
      var live: set<(string, string, string)> := {};
      for i := 0 to |panes|
        invariant skipped == old(skipped)
        invariant forall s :: s in live <==> Listed(panes[..i], s)
      {
        var pane := panes[i];
        assert panes[..i + 1] == panes[..i] + [pane];
        if pane.agent.Some? && pane.session.Some? {
          live := live + {(pane.paneId, pane.agent.value, pane.session.value)};
        }
      }
      assert panes[..|panes|] == panes;
      skipped := skipped * live;
    }

    /** The loop invariant of a tick: `i` actions of the diff are behind it, `clean` if no adapter call failed. */
    ghost predicate Midway(start: map<string, Binding>, panes: seq<PaneInfo>, actions: seq<Action>, i: nat, applied: seq<Action>, clean: bool)
      requires i <= |actions|
      reads this, store, bindings
    {
      Consistent(Effective(applied)) && Registered(bindings.bound) && Progress(start, panes, actions, registry, i, applied, bindings.bound, clean)
    }

    lemma ReadyToAct(start: map<string, Binding>, panes: seq<PaneInfo>, actions: seq<Action>, i: nat, applied: seq<Action>, clean: bool)
      requires i < |actions| && IsDiff(start, panes, actions) && Midway(start, panes, actions, i, applied, clean)
      ensures CanAct(actions[i], applied)
    {
      forall a | a in applied ensures a.pane != actions[i].pane {
        var k :| 0 <= k < i && actions[k] == a;
        assert PaneOf(actions[k]) != PaneOf(actions[i]);
      }
      assert actions[i] in actions && Wanted(start, panes, actions[i]);
    }

    /** One action and whatever is recorded behind it; `more` are the actions that count as applied. */
    method ActAndYield(action: Action, applied: seq<Action>) returns (ok: bool, more: seq<Action>)
      requires Consistent(Effective(applied)) && CanAct(action, applied)
      modifies this`watchers, this`failures, this`history, this`skipped, store, bindings
      ensures more == if ok then applied + [action] else applied
      ensures Consistent(Effective(more)) && Registered(bindings.bound)
      ensures forall pane | pane != action.pane :: Entry(bindings.bound, pane) == old(Entry(bindings.bound, pane))
      ensures old(history) <= history
      ensures failures == old(failures) ==> NoWorse(Books(old(history)), Books(history))
      ensures failures >= old(failures)
      ensures !ok && failures == old(failures) ==>
        !action.Unbind? && action.agent !in registry && action.pane !in Effective(applied)
    {
      ok := Act(action, applied);
      more := if ok then applied + [action] else applied;
      Interfere();
    }

    /** One action of the diff, from one action boundary to the next. */
    method Round(ghost start: map<string, Binding>, ghost panes: seq<PaneInfo>, actions: seq<Action>, i: nat, applied: seq<Action>,
                 ghost clean: bool) returns (more: seq<Action>)
      requires i < |actions| && IsDiff(start, panes, actions) && Midway(start, panes, actions, i, applied, clean)
      modifies this`watchers, this`failures, this`history, this`skipped, store, bindings
      ensures failures >= old(failures) && old(history) <= history
      ensures failures == old(failures) ==> NoWorse(Books(old(history)), Books(history))
      ensures Midway(start, panes, actions, i + 1, more, clean && failures == old(failures))
    {
      ReadyToAct(start, panes, actions, i, applied, clean);
      ghost var bound := bindings.bound;
      var ok;
      ok, more := ActAndYield(actions[i], applied);
      NextProgress(start, panes, actions, registry, i, applied, bound, bindings.bound, ok, clean, clean && failures == old(failures));
    }

    /**
     One tick on one pane list. Whatever the adapters do and whatever is recorded
     meanwhile, the loop ends steady, with every listed pane's card where its last
     entry puts it; and when no adapter call failed, nothing is left to do for this
     list but binds to agents nobody serves.
     */
    method Tick(panes: seq<PaneInfo>)
      requires Steady()
      modifies this`watchers, this`failures, this`history, this`skipped, store, bindings
      ensures Steady()
      ensures failures >= old(failures) && old(history) <= history
      ensures AsReported(Books(history), Owners(store.panes), registry, watchers)
      ensures EveryRollbackWorked(history) ==> NoneTooMany(Owners(store.panes), registry, watchers)
      ensures EveryRollbackWorked(history) && EveryUnbindWorked(history) ==> Matched(Owners(store.panes), registry, watchers)
      ensures failures == old(failures) ==> NoWorse(Books(old(history)), Books(history))
      ensures failures == old(failures) ==> forall a | Wanted(bindings.bound, panes, a) :: a.Bind? && a.agent !in registry
      ensures forall pane, k | pane in store.panes && LastListed(panes, |panes|, pane, k) ::
                Placed(WhereOf(store.panes[pane]), panes[k], k)
    {
      RetainSkipped(panes);
      var actions := bindings.Diff(panes);
      ghost var start := bindings.bound;
      var applied: seq<Action> := [];
      for i := 0 to |actions|
        invariant Midway(start, panes, actions, i, applied, failures == old(failures))
        invariant failures >= old(failures) && old(history) <= history
        invariant failures == old(failures) ==> NoWorse(Books(old(history)), Books(history))
      {
        applied := Round(start, panes, actions, i, applied, failures == old(failures));
      }
      bindings.Apply(applied);
      if failures == old(failures) {
        AllActionsDone(start, panes, actions, registry, bindings.bound);
      }
      Place(panes);
      PlacedCards(store.panes, panes);
      WhatRuns(history, Owners(store.panes), registry, watchers);
    }

    /** Ticks, one pane list after another. */
    method Serve(lists: seq<seq<PaneInfo>>)
      requires Steady()
      modifies this`watchers, this`failures, this`history, this`skipped, store, bindings
      ensures Steady() && old(history) <= history
      ensures AsReported(Books(history), Owners(store.panes), registry, watchers)
      ensures EveryRollbackWorked(history) ==> NoneTooMany(Owners(store.panes), registry, watchers)
      ensures EveryRollbackWorked(history) && EveryUnbindWorked(history) ==> Matched(Owners(store.panes), registry, watchers)
      ensures lists != [] ==> AllPlaced(WhereAll(store.panes), lists[|lists| - 1], |lists[|lists| - 1]|)
    {
      for i := 0 to |lists|
        invariant Steady() && old(history) <= history
        invariant i > 0 ==> AllPlaced(WhereAll(store.panes), lists[i - 1], |lists[i - 1]|)
      {
        Tick(lists[i]);
        ghost var where := WhereAll(store.panes);
        Drift();
        PlacedDrifts(where, WhereAll(store.panes), lists[i], |lists[i]|);
      }
      WhatRuns(history, Owners(store.panes), registry, watchers);
    }
  }

  /** After `i` actions: handled panes want no more than unserved binds, and no other pane has moved. */
  ghost predicate Done(start: map<string, Binding>, panes: seq<PaneInfo>, actions: seq<Action>, registry: map<string, nat>, i: nat,
                       bound: map<string, Binding>)
    requires i <= |actions|
  {
    && (forall k | 0 <= k < i :: Settled(Entry(bound, actions[k].pane), panes, registry, actions[k].pane))
    && (forall pane | (forall k | 0 <= k < i :: actions[k].pane != pane) :: Entry(bound, pane) == Entry(start, pane))
  }

  /** The part of a tick's loop invariant that is about the bindings alone. */
  ghost predicate Progress(start: map<string, Binding>, panes: seq<PaneInfo>, actions: seq<Action>, registry: map<string, nat>, i: nat,
                           applied: seq<Action>, bound: map<string, Binding>, clean: bool)
    requires i <= |actions|
  {
    && (forall a | a in applied :: a in actions[..i])
    && (forall k | i <= k < |actions| :: Entry(bound, actions[k].pane) == Entry(start, actions[k].pane))
    && (clean ==> Done(start, panes, actions, registry, i, ApplyAll(bound, applied)))
  }

  lemma NextProgress(start: map<string, Binding>, panes: seq<PaneInfo>, actions: seq<Action>, registry: map<string, nat>, i: nat,
                     applied: seq<Action>, before: map<string, Binding>, after: map<string, Binding>, ok: bool, clean: bool, still: bool)
    requires i < |actions| && IsDiff(start, panes, actions)
    requires Progress(start, panes, actions, registry, i, applied, before, clean)
    requires forall pane | pane != actions[i].pane :: Entry(after, pane) == Entry(before, pane)
    requires still ==> clean
    requires still && !ok ==> !actions[i].Unbind? && actions[i].agent !in registry && actions[i].pane !in ApplyAll(after, applied)
    ensures Progress(start, panes, actions, registry, i + 1, if ok then applied + [actions[i]] else applied, after, still)
  {
    assert actions[..i + 1] == actions[..i] + [actions[i]];
    forall k | i + 1 <= k < |actions| ensures Entry(after, actions[k].pane) == Entry(start, actions[k].pane) {
      assert PaneOf(actions[i]) != PaneOf(actions[k]);
    }
    if still {
      var more := if ok then applied + [actions[i]] else applied;
      var b1, b2 := ApplyAll(before, applied), ApplyAll(after, more);
      forall pane | pane != actions[i].pane ensures Entry(b2, pane) == Entry(b1, pane) {
        EntriesAfter(before, after, applied, more, actions[i], pane);
      }
      EntriesAfter(before, after, applied, more, actions[i], actions[i].pane);
      OneActionDone(start, panes, actions, registry, i, b1, b2);
    }
  }

  lemma {:induction false} EntryOfApply(b1: map<string, Binding>, b2: map<string, Binding>, actions: seq<Action>, pane: string)
    requires Entry(b1, pane) == Entry(b2, pane)
    ensures Entry(ApplyAll(b1, actions), pane) == Entry(ApplyAll(b2, actions), pane)
  {
    if actions != [] {
      EntryOfApply(b1, b2, actions[..|actions| - 1], pane);
    }
  }

  lemma EntriesAfter(b1: map<string, Binding>, b2: map<string, Binding>, applied: seq<Action>, more: seq<Action>, action: Action, pane: string)
    requires forall p | p != action.pane :: Entry(b2, p) == Entry(b1, p)
    requires more == applied || more == applied + [action]
    ensures pane != action.pane ==> Entry(ApplyAll(b2, more), pane) == Entry(ApplyAll(b1, applied), pane)
    ensures pane == action.pane && more == applied + [action] ==> Entry(ApplyAll(b2, more), pane) == Entry(ApplyOne(map[], action), pane)
  {
    ApplyOneMore(b2, applied, action);
    if pane != action.pane {
      EntryOfApply(b2, b1, applied, pane);
    }
  }

  lemma OneActionDone(start: map<string, Binding>, panes: seq<PaneInfo>, actions: seq<Action>, registry: map<string, nat>, i: nat,
                      before: map<string, Binding>, after: map<string, Binding>)
    requires i < |actions| && IsDiff(start, panes, actions) && Done(start, panes, actions, registry, i, before)
    requires forall pane | pane != actions[i].pane :: Entry(after, pane) == Entry(before, pane)
    requires
      || Entry(after, actions[i].pane) == Entry(ApplyOne(map[], actions[i]), actions[i].pane)
      || (Entry(after, actions[i].pane).None? && !actions[i].Unbind? && actions[i].agent !in registry)
    ensures Done(start, panes, actions, registry, i + 1, after)
  {
    LiveIsPresent(panes);
    assert actions[i] in actions && Wanted(start, panes, actions[i]);
    forall k | 0 <= k < i ensures Settled(Entry(after, actions[k].pane), panes, registry, actions[k].pane) {
      assert PaneOf(actions[k]) != PaneOf(actions[i]);
    }
    assert Settled(Entry(after, actions[i].pane), panes, registry, actions[i].pane);
    forall pane | forall k | 0 <= k < i + 1 :: actions[k].pane != pane ensures Entry(after, pane) == Entry(start, pane) {
      assert actions[i].pane != pane;
    }
  }

  lemma AllActionsDone(start: map<string, Binding>, panes: seq<PaneInfo>, actions: seq<Action>, registry: map<string, nat>,
                       bound: map<string, Binding>)
    requires IsDiff(start, panes, actions) && Done(start, panes, actions, registry, |actions|, bound)
    ensures forall a | Wanted(bound, panes, a) :: a.Bind? && a.agent !in registry
  {
    forall a | Wanted(bound, panes, a) ensures a.Bind? && a.agent !in registry {
      assert Wanted(start, panes, a) <==> a in actions;
      if k :| 0 <= k < |actions| && actions[k].pane == a.pane {
        assert Settled(Entry(bound, actions[k].pane), panes, registry, actions[k].pane);
      } else {
        assert false;
      }
    }
  }

  lemma ApplyOneMore(bound: map<string, Binding>, applied: seq<Action>, action: Action)
    ensures ApplyAll(bound, applied + [action]) == ApplyOne(ApplyAll(bound, applied), action)
  {
    assert (applied + [action])[..|applied|] == applied;
  }

  lemma RebindAgents(bound: map<string, Binding>, action: Action)
    requires !action.Unbind?
    ensures Agents(bound - {action.pane}) == Agents(bound) - {action.pane}
    ensures Agents((bound - {action.pane})[action.pane := Binding(action.agent, action.session)]) == Agents(bound)[action.pane := Some(action.agent)]
    ensures Agents(bound[action.pane := Binding(action.agent, action.session)]) == Agents(bound)[action.pane := Some(action.agent)]
  {
  }
}
