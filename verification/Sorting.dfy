/**
 Rust's stable `sort_by`, as a function, and the fact every use of it needs:
 its result is the only sorted arrangement of its input that keeps elements
 comparing equal in their order.
 */
module Sorting {

  predicate Comparable<T>(le: (T, T) -> bool, x: T, y: T) {
    le(x, y) || le(y, x)
  }

  predicate Chains<T>(le: (T, T) -> bool, x: T, y: T, z: T) {
    le(x, y) && le(y, z) ==> le(x, z)
  }

  predicate Same<T>(le: (T, T) -> bool, x: T, y: T) {
    le(x, y) && le(y, x)
  }

  ghost predicate TotalPreorder<T(!new)>(le: (T, T) -> bool) {
    && (forall x, y :: Comparable(le, x, y))
    && (forall x, y, z :: Chains(le, x, y, z))
  }

  ghost predicate SortedBy<T>(s: seq<T>, le: (T, T) -> bool) {
    forall i, j | 0 <= i < j < |s| :: le(s[i], s[j])
  }

  /** Puts `x` behind every element that does not come strictly after it. */
  function Insert<T>(s: seq<T>, x: T, le: (T, T) -> bool): (r: seq<T>) {
    if s == [] || le(s[|s| - 1], x) then s + [x]
    else Insert(s[..|s| - 1], x, le) + [s[|s| - 1]]
  }

  function StableSort<T>(s: seq<T>, le: (T, T) -> bool): (r: seq<T>) {
    if s == [] then [] else Insert(StableSort(s[..|s| - 1], le), s[|s| - 1], le)
  }

  /** The elements that compare equal to `x`, in order. */
  function Class<T>(s: seq<T>, x: T, le: (T, T) -> bool): (r: seq<T>) {
    if s == [] then []
    else if Same(le, x, s[|s| - 1]) then Class(s[..|s| - 1], x, le) + [s[|s| - 1]]
    else Class(s[..|s| - 1], x, le)
  }

  lemma {:induction false} ClassSnoc<T>(s: seq<T>, y: T, x: T, le: (T, T) -> bool)
    ensures Class(s + [y], x, le) == Class(s, x, le) + if Same(le, x, y) then [y] else []
  {
    assert (s + [y])[..|s|] == s;
  }

  lemma {:induction false} ClassConcat<T>(a: seq<T>, b: seq<T>, x: T, le: (T, T) -> bool)
    ensures Class(a + b, x, le) == Class(a, x, le) + Class(b, x, le)
  {
    if b == [] {
      assert a + b == a;
    } else {
      var front, y := b[..|b| - 1], b[|b| - 1];
      assert a + b == (a + front) + [y];
      ClassConcat(a, front, x, le);
      ClassSnoc(a + front, y, x, le);
    }
  }

  /** An equal element in the sequence shows in the class, and the other way. */
  lemma {:induction false} ClassMember<T>(s: seq<T>, i: nat, x: T, le: (T, T) -> bool)
    requires i < |s| && Same(le, x, s[i])
    ensures Class(s, x, le) != []
  {
    if i < |s| - 1 {
      ClassMember(s[..|s| - 1], i, x, le);
    }
  }

  lemma {:induction false} ClassWitness<T>(s: seq<T>, x: T, le: (T, T) -> bool) returns (i: nat)
    requires Class(s, x, le) != []
    ensures i < |s| && Same(le, x, s[i])
  {
    i := |s| - 1;
    if !Same(le, x, s[|s| - 1]) {
      i := ClassWitness(s[..|s| - 1], x, le);
    }
  }

  lemma {:induction false} InsertMultiset<T>(s: seq<T>, x: T, le: (T, T) -> bool)
    ensures multiset(Insert(s, x, le)) == multiset(s) + multiset{x}
  {
    if s != [] && !le(s[|s| - 1], x) {
      InsertMultiset(s[..|s| - 1], x, le);
      assert s == s[..|s| - 1] + [s[|s| - 1]];
    }
  }

  lemma {:induction false} InsertSorted<T(!new)>(s: seq<T>, x: T, le: (T, T) -> bool)
    requires TotalPreorder(le) && SortedBy(s, le)
    ensures SortedBy(Insert(s, x, le), le)
  {
    if s != [] {
      var front, last := s[..|s| - 1], s[|s| - 1];
      if le(last, x) {
        forall i | 0 <= i < |s| ensures le(s[i], x) {
          assert i < |s| - 1 ==> le(s[i], last);
          assert Chains(le, s[i], last, x);
        }
      } else {
        InsertSorted(front, x, le);
        InsertMultiset(front, x, le);
        var r := Insert(front, x, le);
        forall i | 0 <= i < |r| ensures le(r[i], last) {
          assert r[i] in multiset(r);
          if r[i] in front {
            var k :| 0 <= k < |front| && front[k] == r[i];
            assert le(s[k], s[|s| - 1]);
          } else {
            assert Comparable(le, x, last);
          }
        }
      }
    }
  }

  lemma {:induction false} InsertClass<T(!new)>(s: seq<T>, x: T, c: T, le: (T, T) -> bool)
    requires TotalPreorder(le)
    ensures Class(Insert(s, x, le), c, le) == Class(s + [x], c, le)
  {
    if s != [] && !le(s[|s| - 1], x) {
      var front, last := s[..|s| - 1], s[|s| - 1];
      InsertClass(front, x, c, le);
      ClassSnoc(Insert(front, x, le), last, c, le);
      ClassSnoc(front, x, c, le);
      ClassSnoc(s, x, c, le);
      assert s == front + [last];
      ClassSnoc(front, last, c, le);
      assert Chains(le, last, c, x);
    }
  }

  lemma {:induction false} SortSorted<T(!new)>(s: seq<T>, le: (T, T) -> bool)
    requires TotalPreorder(le)
    ensures SortedBy(StableSort(s, le), le)
  {
    if s != [] {
      SortSorted(s[..|s| - 1], le);
      InsertSorted(StableSort(s[..|s| - 1], le), s[|s| - 1], le);
    }
  }

  lemma {:induction false} SortMultiset<T>(s: seq<T>, le: (T, T) -> bool)
    ensures multiset(StableSort(s, le)) == multiset(s)
    ensures |StableSort(s, le)| == |s|
  {
    if s != [] {
      SortMultiset(s[..|s| - 1], le);
      InsertMultiset(StableSort(s[..|s| - 1], le), s[|s| - 1], le);
      assert s == s[..|s| - 1] + [s[|s| - 1]];
      assert |multiset(StableSort(s, le))| == |multiset(s)|;
    }
  }

  lemma {:induction false} SortStable<T(!new)>(s: seq<T>, c: T, le: (T, T) -> bool)
    requires TotalPreorder(le)
    ensures Class(StableSort(s, le), c, le) == Class(s, c, le)
  {
    if s != [] {
      var front, x := s[..|s| - 1], s[|s| - 1];
      SortStable(front, c, le);
      InsertClass(StableSort(front, le), x, c, le);
      ClassSnoc(StableSort(front, le), x, c, le);
    }
  }

  ghost predicate SameClasses<T(!new)>(p: seq<T>, q: seq<T>, le: (T, T) -> bool) {
    forall c :: Class(p, c, le) == Class(q, c, le)
  }

  /** A sorted arrangement is fixed by the order inside each class of equals. */
  lemma {:induction false} SortedUnique<T(!new)>(p: seq<T>, q: seq<T>, le: (T, T) -> bool)
    requires TotalPreorder(le) && SortedBy(p, le) && SortedBy(q, le) && SameClasses(p, q, le)
    ensures p == q
  {
    if q != [] {
      LastBelow(q, p, le);
    }
    if p != [] {
      LastBelow(p, q, le);
      var x, y := p[|p| - 1], q[|q| - 1];
      assert Comparable(le, x, x) && Comparable(le, y, y);
      var front, rest := p[..|p| - 1], q[..|q| - 1];
      assert p == front + [x] && q == rest + [y];
      assert Class(p, x, le) == Class(q, x, le);
      assert Class(p, x, le) == Class(front, x, le) + [x];
      assert Class(q, x, le) == Class(rest, x, le) + [y];
      assert x == Class(p, x, le)[|Class(p, x, le)| - 1] == y;
      forall c ensures Class(front, c, le) == Class(rest, c, le) {
        assert Class(p, c, le) == Class(q, c, le);
        assert Same(le, c, x) ==> Class(p, c, le)[..|Class(p, c, le)| - 1] == Class(front, c, le);
        assert Same(le, c, x) ==> Class(q, c, le)[..|Class(q, c, le)| - 1] == Class(rest, c, le);
      }
      SortedUnique(front, rest, le);
    }
  }

  /** Equal classes put the last element of one at or below the last of the other. */
  lemma {:induction false} LastBelow<T(!new)>(p: seq<T>, q: seq<T>, le: (T, T) -> bool)
    requires TotalPreorder(le) && SortedBy(q, le) && SameClasses(p, q, le)
    requires p != []
    ensures q != [] && le(p[|p| - 1], q[|q| - 1])
  {
    var x := p[|p| - 1];
    assert Comparable(le, x, x);
    ClassMember(p, |p| - 1, x, le);
    assert Class(p, x, le) == Class(q, x, le);
    var i := ClassWitness(q, x, le);
    if i < |q| - 1 {
      assert le(q[i], q[|q| - 1]);
      assert Chains(le, x, q[i], q[|q| - 1]);
    }
  }

  // ----- elements told apart by a key -----

  ghost predicate KeysDistinct<T, K>(s: seq<T>, key: T -> K) {
    forall i, j | 0 <= i < j < |s| :: key(s[i]) != key(s[j])
  }

  lemma {:induction false} InsertKeysDistinct<T, K>(s: seq<T>, x: T, le: (T, T) -> bool, key: T -> K)
    requires KeysDistinct(s + [x], key)
    ensures KeysDistinct(Insert(s, x, le), key)
  {
    if s != [] && !le(s[|s| - 1], x) {
      var front, last := s[..|s| - 1], s[|s| - 1];
      forall i, j | 0 <= i < j < |front + [x]| ensures key((front + [x])[i]) != key((front + [x])[j]) {
        var i', j' := if i < |front| then i else |s|, if j < |front| then j else |s|;
        assert key((s + [x])[i']) != key((s + [x])[j']);
      }
      InsertKeysDistinct(front, x, le, key);
      InsertMultiset(front, x, le);
      var r := Insert(front, x, le);
      forall i | 0 <= i < |r| ensures key(r[i]) != key(last) {
        assert r[i] in multiset(r);
        if r[i] in front {
          var k :| 0 <= k < |front| && front[k] == r[i];
          assert key((s + [x])[k]) != key((s + [x])[|s| - 1]);
        } else {
          assert key((s + [x])[|s| - 1]) != key((s + [x])[|s|]);
        }
      }
    }
  }

  lemma {:induction false} SortKeysDistinct<T, K>(s: seq<T>, le: (T, T) -> bool, key: T -> K)
    requires KeysDistinct(s, key)
    ensures KeysDistinct(StableSort(s, le), key)
  {
    if s != [] {
      var front, x := s[..|s| - 1], s[|s| - 1];
      SortKeysDistinct(front, le, key);
      SortMultiset(front, le);
      var r := StableSort(front, le);
      forall i | 0 <= i < |r| ensures key(r[i]) != key(x) {
        assert r[i] in multiset(r);
        var k :| 0 <= k < |front| && front[k] == r[i];
        assert key(s[k]) != key(s[|s| - 1]);
      }
      InsertKeysDistinct(r, x, le, key);
    }
  }

  /** Two sorted arrangements of the same elements agree when no two elements compare equal. */
  lemma {:induction false} SortedSameElements<T(!new)>(p: seq<T>, q: seq<T>, le: (T, T) -> bool)
    requires TotalPreorder(le) && SortedBy(p, le) && SortedBy(q, le)
    requires forall x :: x in p <==> x in q
    requires NoTies(p, le) && NoTies(q, le)
    ensures p == q
  {
    forall c ensures Class(p, c, le) == Class(q, c, le) {
      AtMostOne(p, c, le);
      AtMostOne(q, c, le);
      if Class(p, c, le) != [] {
        var i := ClassWitness(p, c, le);
        assert p[i] in q;
        var j :| 0 <= j < |q| && q[j] == p[i];
        OnlyMember(p, i, c, le);
        OnlyMember(q, j, c, le);
      } else if Class(q, c, le) != [] {
        var j := ClassWitness(q, c, le);
        assert q[j] in p;
        var i :| 0 <= i < |p| && p[i] == q[j];
        ClassMember(p, i, c, le);
      }
    }
    SortedUnique(p, q, le);
  }

  ghost predicate NoTies<T>(s: seq<T>, le: (T, T) -> bool) {
    forall i, j | 0 <= i < j < |s| :: !Same(le, s[i], s[j])
  }

  lemma {:induction false} AtMostOne<T(!new)>(s: seq<T>, c: T, le: (T, T) -> bool)
    requires TotalPreorder(le) && NoTies(s, le)
    ensures |Class(s, c, le)| <= 1
  {
    if s != [] {
      var front := s[..|s| - 1];
      assert NoTies(front, le) by {
        forall i, j | 0 <= i < j < |front| ensures !Same(le, front[i], front[j]) {
          assert !Same(le, s[i], s[j]);
        }
      }
      AtMostOne(front, c, le);
      if Class(front, c, le) != [] {
        var i := ClassWitness(front, c, le);
        assert Chains(le, s[i], c, s[|s| - 1]) && Chains(le, s[|s| - 1], c, s[i]);
      }
    }
  }

  lemma {:induction false} OnlyMember<T(!new)>(s: seq<T>, i: nat, c: T, le: (T, T) -> bool)
    requires i < |s| && Same(le, c, s[i]) && |Class(s, c, le)| <= 1
    ensures Class(s, c, le) == [s[i]]
  {
    if i < |s| - 1 {
      ClassMember(s[..|s| - 1], i, c, le);
      OnlyMember(s[..|s| - 1], i, c, le);
    }
  }
}
