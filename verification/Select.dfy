/** Which cards the sidebar shows, and in what order. */
module Select {
  import opened Wrappers
  import opened Sequences
  import opened Sorting
  import opened Cards
  import opened Store
  import opened CwdHistory

  const U32_MAX: nat := 0xFFFF_FFFF

  datatype Sort = Position | Smart | Group

  type Row = (string, WireCard)

  type Panes = map<string, WireCard>

  // ----- comparing -----

  datatype Ordering = Less | Equal | Greater {
    function Then(next: Ordering): Ordering {
      if this == Equal then next else this
    }

    function Flip(): Ordering {
      if this == Less then Greater else if this == Greater then Less else Equal
    }
  }

  function CompareNumbers(a: nat, b: nat): Ordering {
    if a < b then Less else if a == b then Equal else Greater
  }

  function CompareText(a: string, b: string): Ordering {
    if a == b then Equal else if LexLe(a, b) then Less else Greater
  }

  function Rank(state: CardState): nat {
    match state
    case Error => 0
    case Attention => 1
    case Running => 2
    case Finished => 3
    case Idle => 4
  }

  function Canonical(id: string): Option<string> {
    if id == "claude" || id == "claude-code" then Some("claude")
    else if id == "codex" || id == "kimi" || id == "opencode" then Some(id)
    else None
  }

  function GroupKey(card: WireCard): string {
    if card.agent.Some? then Canonical(card.agent.value).GetOr("") else ""
  }

  function Compare(sort: Sort, a: Row, b: Row): Ordering {
    match sort
    case Position =>
      CompareNumbers(a.1.position.GetOr(U32_MAX), b.1.position.GetOr(U32_MAX)).Then(CompareText(a.0, b.0))
    case Smart =>
      CompareNumbers(Rank(a.1.cardState), Rank(b.1.cardState))
        .Then(CompareNumbers(b.1.updatedSeq, a.1.updatedSeq).Then(CompareText(a.0, b.0)))
    case Group =>
      CompareText(GroupKey(a.1), GroupKey(b.1))
        .Then(CompareNumbers(Rank(a.1.cardState), Rank(b.1.cardState))
          .Then(CompareNumbers(b.1.updatedSeq, a.1.updatedSeq).Then(CompareText(a.0, b.0))))
  }

  function InOrder(sort: Sort): (Row, Row) -> bool {
    (a: Row, b: Row) => Compare(sort, a, b) != Greater
  }

  /** What transitivity asks of the comparisons of three elements. */
  predicate Triangle(xy: Ordering, yz: Ordering, xz: Ordering) {
    xy != Greater && yz != Greater ==> xz != Greater && (xz == Equal ==> xy == Equal && yz == Equal)
  }

  lemma TextLaws(a: string, b: string, c: string)
    ensures CompareText(a, b) == CompareText(b, a).Flip()
    ensures Triangle(CompareText(a, b), CompareText(b, c), CompareText(a, c))
  {
    LexTotal(a, b);
    LexTotal(b, c);
    LexTotal(a, c);
    if LexLe(a, b) && LexLe(b, c) {
      LexTransitive(a, b, c);
    }
  }

  /** A comparison turns around, chains, and ties a pane only with itself. */
  predicate Laws(sort: Sort, x: Row, y: Row, z: Row) {
    && Compare(sort, x, y) == Compare(sort, y, x).Flip()
    && Triangle(Compare(sort, x, y), Compare(sort, y, z), Compare(sort, x, z))
    && (Compare(sort, x, y) == Equal ==> x.0 == y.0)
  }

  lemma PositionLaws(x: Row, y: Row, z: Row)
    ensures Laws(Position, x, y, z)
  {
    TextLaws(x.0, y.0, z.0);
  }

  lemma SmartLaws(x: Row, y: Row, z: Row)
    ensures Laws(Smart, x, y, z)
  {
    TextLaws(x.0, y.0, z.0);
  }

  lemma GroupLaws(x: Row, y: Row, z: Row)
    ensures Laws(Group, x, y, z)
  {
    TextLaws(x.0, y.0, z.0);
    TextLaws(GroupKey(x.1), GroupKey(y.1), GroupKey(z.1));
  }

  lemma CompareLaws(sort: Sort, x: Row, y: Row, z: Row)
    ensures Laws(sort, x, y, z)
  {
    PositionLaws(x, y, z);
    SmartLaws(x, y, z);
    GroupLaws(x, y, z);
  }

  lemma OrderIsTotal(sort: Sort)
    ensures TotalPreorder(InOrder(sort))
  {
    forall x, y ensures Comparable(InOrder(sort), x, y) {
      CompareLaws(sort, x, y, x);
    }
    forall x, y, z ensures Chains(InOrder(sort), x, y, z) {
      CompareLaws(sort, x, y, z);
    }
  }

  // ----- choosing -----

  predicate InScope(card: WireCard, scope: Option<string>) {
    scope.Some? && card.workspaceId.Some? ==> scope == card.workspaceId
  }

  predicate Shown(card: WireCard, hideIdle: bool, scope: Option<string>) {
    InScope(card, scope) && !(hideIdle && card.cardState == Idle)
  }

  function ShownIds(panes: Panes, hideIdle: bool, scope: Option<string>): set<string> {
    set id | id in panes && Shown(panes[id], hideIdle, scope)
  }

  function HiddenIds(panes: Panes, hideIdle: bool, scope: Option<string>): set<string> {
    set id | id in panes && InScope(panes[id], scope) && hideIdle && panes[id].cardState == Idle
  }

  function OutOfScopeIds(panes: Panes, scope: Option<string>): set<string> {
    set id | id in panes && !InScope(panes[id], scope)
  }

  /** Each of the panes `ids`, once. */
  ghost predicate Lists(rows: seq<Row>, panes: Panes, ids: set<string>) {
    && ids <= panes.Keys
    && (forall row :: row in rows <==> row.0 in ids && row.1 == panes[row.0])
    && KeysDistinct(rows, (row: Row) => row.0)
  }

  ghost predicate IsVisible(rows: seq<Row>, panes: Panes, sort: Sort, hideIdle: bool, scope: Option<string>) {
    Lists(rows, panes, ShownIds(panes, hideIdle, scope)) && SortedBy(rows, InOrder(sort))
  }

  lemma NoTiesInLists(rows: seq<Row>, panes: Panes, ids: set<string>, sort: Sort)
    requires Lists(rows, panes, ids)
    ensures NoTies(rows, InOrder(sort))
  {
    forall i, j | 0 <= i < j < |rows| ensures !Same(InOrder(sort), rows[i], rows[j]) {
      CompareLaws(sort, rows[i], rows[j], rows[i]);
      var key := (row: Row) => row.0;
      assert key(rows[i]) != key(rows[j]);
    }
  }

  /** Under every sort there is one list to show, whatever order the map is walked in. */
  lemma VisibleIsUnique(p: seq<Row>, q: seq<Row>, panes: Panes, sort: Sort, hideIdle: bool, scope: Option<string>)
    requires IsVisible(p, panes, sort, hideIdle, scope) && IsVisible(q, panes, sort, hideIdle, scope)
    ensures p == q
  {
    OrderIsTotal(sort);
    NoTiesInLists(p, panes, ShownIds(panes, hideIdle, scope), sort);
    NoTiesInLists(q, panes, ShownIds(panes, hideIdle, scope), sort);
    SortedSameElements(p, q, InOrder(sort));
  }

  lemma EveryPaneIsOneOfThree(panes: Panes, hideIdle: bool, scope: Option<string>, id: string)
    ensures
      var shown, hidden, out :=
        id in ShownIds(panes, hideIdle, scope), id in HiddenIds(panes, hideIdle, scope), id in OutOfScopeIds(panes, scope);
      && (id in panes <==> shown || hidden || out)
      && !(shown && hidden) && !(shown && out) && !(hidden && out)
  {
  }

  /** Shown, hidden and out of scope: every pane is exactly one of the three. */
  lemma PanesArePartitioned(panes: Panes, hideIdle: bool, scope: Option<string>)
    ensures
      var shown, hidden, out := ShownIds(panes, hideIdle, scope), HiddenIds(panes, hideIdle, scope), OutOfScopeIds(panes, scope);
      && shown + hidden + out == panes.Keys
      && shown * hidden == {} && (shown + hidden) * out == {}
      && |shown| + |hidden| + |out| == |panes|
  {
    var shown, hidden, out := ShownIds(panes, hideIdle, scope), HiddenIds(panes, hideIdle, scope), OutOfScopeIds(panes, scope);
    ThreeParts(panes, hideIdle, scope, shown, hidden, out);
    ThreePartsCount(shown, hidden, out, panes.Keys);
    assert |panes| == |panes.Keys|;
  }

  lemma ThreeParts(panes: Panes, hideIdle: bool, scope: Option<string>, shown: set<string>, hidden: set<string>, out: set<string>)
    requires shown == ShownIds(panes, hideIdle, scope) && hidden == HiddenIds(panes, hideIdle, scope) && out == OutOfScopeIds(panes, scope)
    ensures shown + hidden + out == panes.Keys && shown * hidden == {} && (shown + hidden) * out == {}
  {
    forall id ensures (id in panes <==> id in shown || id in hidden || id in out)
      && !(id in shown && id in hidden) && !((id in shown || id in hidden) && id in out)
    {
      EveryPaneIsOneOfThree(panes, hideIdle, scope, id);
    }
  }

  lemma ThreePartsCount(a: set<string>, b: set<string>, c: set<string>, all: set<string>)
    requires a * b == {} && (a + b) * c == {} && a + b + c == all
    ensures |a| + |b| + |c| == |all|
  {
    assert |a + b| == |a| + |b|;
  }

  lemma IsListed(rows: seq<Row>, panes: Panes, ids: set<string>, id: string)
    requires Lists(rows, panes, ids) && id in ids
    ensures (id, panes[id]) in rows
  {
    var row: Row := (id, panes[id]);
    assert row in rows <==> row.0 in ids && row.1 == panes[row.0];
  }

  lemma {:induction false} ListsCount(rows: seq<Row>, panes: Panes, ids: set<string>)
    requires Lists(rows, panes, ids)
    ensures |rows| == |ids|
  {
    if rows == [] {
      if ids != {} {
        var id :| id in ids;
        IsListed(rows, panes, ids, id);
      }
    } else {
      var front, last := rows[..|rows| - 1], rows[|rows| - 1];
      var key := (row: Row) => row.0;
      assert last in rows;
      forall row ensures row in front <==> row.0 in ids - {last.0} && row.1 == panes[row.0] {
        assert row in rows <==> row in front || row == last;
        if row in front {
          var k :| 0 <= k < |front| && front[k] == row;
          assert key(rows[k]) != key(rows[|rows| - 1]);
        }
      }
      forall i, j | 0 <= i < j < |front| ensures key(front[i]) != key(front[j]) {
        assert key(rows[i]) != key(rows[j]);
      }
      ListsCount(front, panes, ids - {last.0});
    }
  }

  lemma ListsOneMore(rows: seq<Row>, panes: Panes, ids: set<string>, id: string)
    requires Lists(rows, panes, ids) && id in panes && id !in ids
    ensures Lists(rows + [(id, panes[id])], panes, ids + {id})
  {
    var more, key := rows + [(id, panes[id])], (row: Row) => row.0;
    forall i, j | 0 <= i < j < |more| ensures key(more[i]) != key(more[j]) {
      if j < |rows| {
        assert key(rows[i]) != key(rows[j]);
      } else {
        assert rows[i] in rows;
      }
    }
  }

  lemma ListsSorted(rows: seq<Row>, panes: Panes, ids: set<string>, sort: Sort)
    requires Lists(rows, panes, ids)
    ensures Lists(StableSort(rows, InOrder(sort)), panes, ids) && SortedBy(StableSort(rows, InOrder(sort)), InOrder(sort))
  {
    var sorted := StableSort(rows, InOrder(sort));
    OrderIsTotal(sort);
    SortSorted(rows, InOrder(sort));
    SortMultiset(rows, InOrder(sort));
    SortKeysDistinct(rows, InOrder(sort), (row: Row) => row.0);
    forall row ensures row in sorted <==> row in rows {
      assert row in multiset(sorted) <==> row in multiset(rows);
    }
  }

  /** What has been decided once only `left` is left. */
  ghost predicate Decided(panes: Panes, hideIdle: bool, scope: Option<string>, left: set<string>, rows: seq<Row>, hiddenIdle: nat) {
    && left <= panes.Keys
    && Lists(rows, panes, ShownIds(panes, hideIdle, scope) - left)
    && hiddenIdle == |HiddenIds(panes, hideIdle, scope) - left|
  }

  lemma DecideOne(
    panes: Panes, hideIdle: bool, scope: Option<string>, left: set<string>, rows: seq<Row>, hiddenIdle: nat, id: string)
    requires Decided(panes, hideIdle, scope, left, rows, hiddenIdle) && id in left
    ensures
      var card := panes[id];
      if Shown(card, hideIdle, scope) then Decided(panes, hideIdle, scope, left - {id}, rows + [(id, card)], hiddenIdle)
      else if InScope(card, scope) then Decided(panes, hideIdle, scope, left - {id}, rows, hiddenIdle + 1)
      else Decided(panes, hideIdle, scope, left - {id}, rows, hiddenIdle)
  {
    var shown, hidden := ShownIds(panes, hideIdle, scope), HiddenIds(panes, hideIdle, scope);
    LeaveOne(shown, left, id);
    LeaveOne(hidden, left, id);
    if Shown(panes[id], hideIdle, scope) {
      ListsOneMore(rows, panes, shown - left, id);
    }
  }

  lemma LeaveOne(all: set<string>, left: set<string>, id: string)
    requires id in left
    ensures all - (left - {id}) == if id in all then all - left + {id} else all - left
    ensures id in all ==> |all - (left - {id})| == |all - left| + 1
  {
    if id in all {
      assert all - (left - {id}) == all - left + {id};
    } else {
      assert all - (left - {id}) == all - left;
    }
  }

  lemma DecidedAtFirst(panes: Panes, hideIdle: bool, scope: Option<string>)
    ensures Decided(panes, hideIdle, scope, panes.Keys, [], 0)
  {
    assert ShownIds(panes, hideIdle, scope) - panes.Keys == {} && HiddenIds(panes, hideIdle, scope) - panes.Keys == {};
  }

  lemma DecidedAtLast(panes: Panes, hideIdle: bool, scope: Option<string>, rows: seq<Row>, hiddenIdle: nat)
    requires Decided(panes, hideIdle, scope, {}, rows, hiddenIdle)
    ensures Lists(rows, panes, ShownIds(panes, hideIdle, scope)) && hiddenIdle == |HiddenIds(panes, hideIdle, scope)|
  {
    assert ShownIds(panes, hideIdle, scope) - {} == ShownIds(panes, hideIdle, scope);
    assert HiddenIds(panes, hideIdle, scope) - {} == HiddenIds(panes, hideIdle, scope);
  }

  /** The loop over the map, in whatever order it comes. */
  method Choose(panes: Panes, hideIdle: bool, scope: Option<string>) returns (rows: seq<Row>, hiddenIdle: nat)
    ensures Lists(rows, panes, ShownIds(panes, hideIdle, scope)) && hiddenIdle == |HiddenIds(panes, hideIdle, scope)|
  {
    rows, hiddenIdle := [], 0;
    var left := panes.Keys;
    DecidedAtFirst(panes, hideIdle, scope);
    while left != {}
      invariant Decided(panes, hideIdle, scope, left, rows, hiddenIdle)
      decreases |left|
    {
      var id :| id in left;
      var card := panes[id];
      DecideOne(panes, hideIdle, scope, left, rows, hiddenIdle, id);
      left := left - {id};
      if scope.Some? && card.workspaceId.Some? && scope != card.workspaceId {
      } else if hideIdle && card.cardState == Idle {
        hiddenIdle := hiddenIdle + 1;
      } else {
        rows := rows + [(id, card)];
      }
    }
    DecidedAtLast(panes, hideIdle, scope, rows, hiddenIdle);
  }

  method Visible(panes: Panes, sort: Sort, hideIdle: bool, scope: Option<string>) returns (rows: seq<Row>, hiddenIdle: nat)
    ensures IsVisible(rows, panes, sort, hideIdle, scope)
    ensures hiddenIdle == |HiddenIds(panes, hideIdle, scope)|
    ensures |rows| + hiddenIdle + |OutOfScopeIds(panes, scope)| == |panes|
  {
    rows, hiddenIdle := Choose(panes, hideIdle, scope);
    ListsSorted(rows, panes, ShownIds(panes, hideIdle, scope), sort);
    rows := StableSort(rows, InOrder(sort));
    ListsCount(rows, panes, ShownIds(panes, hideIdle, scope));
    PanesArePartitioned(panes, hideIdle, scope);
  }

  // ----- what the orders mean -----

  /** What a client that has caught up with the store shows from. */
  function OnTheWire(panes: map<string, Card>): Panes {
    map id | id in panes :: Wire(panes[id])
  }

  /** An error is the most urgent, then what wants attention, what runs, what is finished, what is idle. */
  predicate NoLessUrgent(a: CardState, b: CardState) {
    match a
    case Error => true
    case Attention => b != Error
    case Running => b != Error && b != Attention
    case Finished => b == Finished || b == Idle
    case Idle => b == Idle
  }

  /**
   A pane is listed exactly when it is there, is not known to be in another
   workspace than the one asked for, and is not an idle one to be hidden; and it
   is listed as it is. What is counted as hidden is the idle ones of that scope.
   */
  lemma WhoIsListed(rows: seq<Row>, panes: Panes, sort: Sort, hideIdle: bool, scope: Option<string>)
    requires IsVisible(rows, panes, sort, hideIdle, scope)
    ensures forall id, card :: (id, card) in rows <==>
              && id in panes && card == panes[id]
              && (scope.None? || card.workspaceId.None? || card.workspaceId == scope)
              && !(hideIdle && card.cardState == Idle)
    ensures forall id :: id in HiddenIds(panes, hideIdle, scope) <==>
              && id in panes && hideIdle && panes[id].cardState == Idle
              && (scope.None? || panes[id].workspaceId.None? || panes[id].workspaceId == scope)
  {
    forall id, card
      ensures (id, card) in rows <==> id in ShownIds(panes, hideIdle, scope) && card == panes[id]
    {
      var row: Row := (id, card);
      assert row in rows <==> row.0 in ShownIds(panes, hideIdle, scope) && row.1 == panes[row.0];
    }
  }

  /**
   In every reachable store, smart order puts the more urgent state first, and
   within one state the more recently changed card strictly first: the pane id
   never decides.
   */
  lemma SmartIsUrgencyThenRecency(ops: seq<Op>, rows: seq<Row>, hideIdle: bool, scope: Option<string>, i: nat, j: nat)
    requires IsVisible(rows, OnTheWire(RunOps(ops).panes), Smart, hideIdle, scope) && i < j < |rows|
    ensures NoLessUrgent(rows[i].1.cardState, rows[j].1.cardState)
    ensures rows[i].1.cardState == rows[j].1.cardState ==> rows[i].1.updatedSeq > rows[j].1.updatedSeq
  {
    RowsDiffer(ops, rows, Smart, hideIdle, scope, i, j);
    assert InOrder(Smart)(rows[i], rows[j]);
    SmartCompares(rows[i], rows[j]);
  }

  lemma RowsDiffer(ops: seq<Op>, rows: seq<Row>, sort: Sort, hideIdle: bool, scope: Option<string>, i: nat, j: nat)
    requires IsVisible(rows, OnTheWire(RunOps(ops).panes), sort, hideIdle, scope) && i < j < |rows|
    ensures rows[i].1.updatedSeq != rows[j].1.updatedSeq
  {
    assert rows[i] in rows && rows[j] in rows;
    var key := (row: Row) => row.0;
    assert key(rows[i]) != key(rows[j]);
    StampsAreDistinct(ops, rows[i].0, rows[j].0);
  }

  lemma SmartCompares(a: Row, b: Row)
    requires Compare(Smart, a, b) != Greater
    ensures NoLessUrgent(a.1.cardState, b.1.cardState)
    ensures a.1.cardState == b.1.cardState ==> a.1.updatedSeq >= b.1.updatedSeq
  {
  }

  /** Placed panes come before those the daemon has not placed, in the order of their positions. */
  lemma UnplacedPanesComeLast(rows: seq<Row>, panes: Panes, hideIdle: bool, scope: Option<string>, i: nat, j: nat)
    requires IsVisible(rows, panes, Position, hideIdle, scope) && i < j < |rows|
    requires rows[j].1.position.Some? && rows[j].1.position.value < U32_MAX
    ensures rows[i].1.position.Some? && rows[i].1.position.value <= rows[j].1.position.value
  {
    assert InOrder(Position)(rows[i], rows[j]);
  }

  /** The two names of one agent are one group; an agent the sidebar does not know is in the group without a name. */
  lemma WhichGroup(card: WireCard)
    ensures GroupKey(card) ==
            if card.agent == Some("claude") || card.agent == Some("claude-code") then "claude"
            else if card.agent == Some("codex") then "codex"
            else if card.agent == Some("kimi") then "kimi"
            else if card.agent == Some("opencode") then "opencode"
            else ""
  {
  }

  /** Groups are in the order of their names, and within one the more urgent and then the more recent come first. */
  lemma GroupsAreInOrder(ops: seq<Op>, rows: seq<Row>, hideIdle: bool, scope: Option<string>, i: nat, j: nat)
    requires IsVisible(rows, OnTheWire(RunOps(ops).panes), Group, hideIdle, scope) && i < j < |rows|
    ensures LexLe(GroupKey(rows[i].1), GroupKey(rows[j].1))
    ensures GroupKey(rows[i].1) == GroupKey(rows[j].1) ==>
            && NoLessUrgent(rows[i].1.cardState, rows[j].1.cardState)
            && (rows[i].1.cardState == rows[j].1.cardState ==> rows[i].1.updatedSeq > rows[j].1.updatedSeq)
  {
    RowsDiffer(ops, rows, Group, hideIdle, scope, i, j);
    assert InOrder(Group)(rows[i], rows[j]);
    LexTotal(GroupKey(rows[i].1), GroupKey(rows[j].1));
    if GroupKey(rows[i].1) == GroupKey(rows[j].1) {
      SmartCompares(rows[i], rows[j]);
    }
  }

  /** Grouping keeps each canonical agent's cards together, aliases included. */
  lemma GroupsAreTogether(rows: seq<Row>, panes: Panes, hideIdle: bool, scope: Option<string>, i: nat, j: nat, k: nat)
    requires IsVisible(rows, panes, Group, hideIdle, scope) && i < j < k < |rows|
    requires GroupKey(rows[i].1) == GroupKey(rows[k].1)
    ensures GroupKey(rows[j].1) == GroupKey(rows[i].1)
  {
    assert InOrder(Group)(rows[i], rows[j]) && InOrder(Group)(rows[j], rows[k]);
    TextLaws(GroupKey(rows[i].1), GroupKey(rows[j].1), GroupKey(rows[k].1));
  }
}
