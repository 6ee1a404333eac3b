/** The stable sort that the runtime takes from its standard library, as insertion. */
module Sorting {

  predicate NoRepeats<T(==)>(s: seq<T>) {
    forall i, j :: 0 <= i < j < |s| ==> s[i] != s[j]
  }

  /** `less` is a strict order up to ties. */
  ghost predicate Orders<T(!new)>(less: (T, T) -> bool) {
    && (forall a, b :: less(a, b) ==> !less(b, a))
    && (forall a, b, c :: !less(a, b) && !less(b, c) ==> !less(a, c))
  }

  predicate InPlace<T>(less: (T, T) -> bool, s: seq<T>) {
    forall i, j :: 0 <= i < j < |s| ==> !less(s[j], s[i])
  }

  function Insert<T>(less: (T, T) -> bool, s: seq<T>, x: T): seq<T> {
    if s == [] || !less(x, s[|s| - 1]) then s + [x]
    else Insert(less, s[..|s| - 1], x) + [s[|s| - 1]]
  }

  function Sort<T>(less: (T, T) -> bool, s: seq<T>): seq<T> {
    if s == [] then [] else Insert(less, Sort(less, s[..|s| - 1]), s[|s| - 1])
  }

  lemma OrderChains<T(!new)>(less: (T, T) -> bool, a: T, b: T, c: T)
    requires Orders(less)
    ensures less(a, b) ==> !less(b, a)
    ensures !less(a, b) && !less(b, c) ==> !less(a, c)
  {
  }

  lemma {:induction false} InsertAdds<T>(less: (T, T) -> bool, s: seq<T>, x: T)
    ensures multiset(Insert(less, s, x)) == multiset(s) + multiset{x}
  {
    if s != [] && less(x, s[|s| - 1]) {
      InsertAdds(less, s[..|s| - 1], x);
      assert s == s[..|s| - 1] + [s[|s| - 1]];
    }
  }

  lemma InsertHolds<T>(less: (T, T) -> bool, s: seq<T>, x: T)
    ensures forall y :: y in Insert(less, s, x) <==> y in s || y == x
  {
    InsertAdds(less, s, x);
    forall y ensures y in Insert(less, s, x) <==> y in s || y == x {
      assert y in Insert(less, s, x) <==> y in multiset(Insert(less, s, x));
    }
  }

  lemma {:induction false} InsertKeeps<T(!new)>(less: (T, T) -> bool, s: seq<T>, x: T)
    requires Orders(less) && InPlace(less, s)
    ensures InPlace(less, Insert(less, s, x))
  {
    hide Orders;
    if s != [] {
      var init, last := s[..|s| - 1], s[|s| - 1];
      forall y | y in init ensures !less(last, y) && (!less(x, last) ==> !less(x, y)) {
        var k :| 0 <= k < |init| && init[k] == y;
        assert !less(s[|s| - 1], s[k]);
        OrderChains(less, x, last, y);
      }
      if less(x, last) {
        InsertKeeps(less, init, x);
        InsertHolds(less, init, x);
        OrderChains(less, x, last, x);
        AppendKeeps(less, Insert(less, init, x), last);
      } else {
        assert s == init + [last];
        AppendKeeps(less, s, x);
      }
    }
  }

  lemma AppendKeeps<T>(less: (T, T) -> bool, s: seq<T>, x: T)
    requires InPlace(less, s) && forall y :: y in s ==> !less(x, y)
    ensures InPlace(less, s + [x])
  {
  }

  lemma {:induction false} SortKeeps<T(!new)>(less: (T, T) -> bool, s: seq<T>)
    requires Orders(less)
    ensures InPlace(less, Sort(less, s)) && multiset(Sort(less, s)) == multiset(s)
  {
    hide Orders;
    if s != [] {
      SortKeeps(less, s[..|s| - 1]);
      InsertKeeps(less, Sort(less, s[..|s| - 1]), s[|s| - 1]);
      InsertAdds(less, Sort(less, s[..|s| - 1]), s[|s| - 1]);
      assert s == s[..|s| - 1] + [s[|s| - 1]];
    }
  }

  lemma SameLength<T>(s: seq<T>, t: seq<T>)
    requires multiset(s) == multiset(t)
    ensures |s| == |t| && forall x :: x in s <==> x in t
  {
    assert |multiset(s)| == |s| && |multiset(t)| == |t|;
    forall x ensures x in s <==> x in t {
      assert x in multiset(s) <==> x in multiset(t);
    }
  }

  ghost predicate TiesAreEqual<T(!new)>(less: (T, T) -> bool, s: seq<T>) {
    forall a, b :: a in s && b in s && !less(a, b) && !less(b, a) ==> a == b
  }

  lemma LastIsUnique<T(!new)>(less: (T, T) -> bool, s: seq<T>, t: seq<T>)
    requires InPlace(less, s) && InPlace(less, t) && multiset(s) == multiset(t) && s != []
    requires TiesAreEqual(less, s)
    ensures |s| == |t| && s[|s| - 1] == t[|t| - 1]
  {
    SameLength(s, t);
    var a, b := s[|s| - 1], t[|t| - 1];
    assert a in t && b in s;
    var i :| 0 <= i < |s| && s[i] == b;
    var j :| 0 <= j < |t| && t[j] == a;
    assert a == b || (!less(a, b) && !less(b, a));
  }

  lemma InitLacksLast<T>(s: seq<T>)
    requires s != []
    ensures multiset(s[..|s| - 1]) == multiset(s) - multiset{s[|s| - 1]}
  {
    assert s == s[..|s| - 1] + [s[|s| - 1]];
  }

  /** Two ordered lists of the same elements are equal, where ties are. */
  lemma {:induction false} OrderIsUnique<T(!new)>(less: (T, T) -> bool, s: seq<T>, t: seq<T>)
    requires InPlace(less, s) && InPlace(less, t) && multiset(s) == multiset(t)
    requires TiesAreEqual(less, s)
    ensures s == t
  {
    SameLength(s, t);
    if s != [] {
      LastIsUnique(less, s, t);
      InitLacksLast(s);
      InitLacksLast(t);
      var init, init' := s[..|s| - 1], t[..|t| - 1];
      assert s == init + [s[|s| - 1]] && t == init' + [t[|t| - 1]];
      OrderIsUnique(less, init, init');
    }
  }

  // ---- Lists without repetition ----

  lemma CountTwice<T>(s: seq<T>, i: nat, j: nat)
    requires i < j < |s| && s[i] == s[j]
    ensures multiset(s)[s[i]] >= 2
  {
    WithoutElement(s, j);
    assert s[i] in s[..j];
    assert multiset(s) == multiset(s[..j]) + multiset{s[j]} + multiset(s[j + 1..]);
  }

  lemma {:induction false} CountOnce<T>(s: seq<T>, x: T)
    requires NoRepeats(s)
    ensures multiset(s)[x] == if x in s then 1 else 0
  {
    if s != [] {
      var init, last := s[..|s| - 1], s[|s| - 1];
      assert s == init + [last];
      CountOnce(init, x);
      assert last !in init;
    }
  }

  predicate KeysDiffer<T, K(==)>(key: T -> K, s: seq<T>) {
    forall i, j :: 0 <= i < j < |s| ==> key(s[i]) != key(s[j])
  }

  /** Reordering keeps keys distinct. */
  lemma KeysStayDistinct<T, K>(key: T -> K, s: seq<T>, t: seq<T>)
    requires KeysDiffer(key, s) && multiset(s) == multiset(t)
    ensures KeysDiffer(key, t)
  {
    SameLength(s, t);
    assert NoRepeats(s);
    forall i, j | 0 <= i < j < |t| ensures key(t[i]) != key(t[j]) {
      if key(t[i]) == key(t[j]) {
        assert t[i] in s && t[j] in s;
        var x, y :| 0 <= x < |s| && 0 <= y < |s| && s[x] == t[i] && s[y] == t[j];
        assert x == y;
        CountTwice(t, i, j);
        CountOnce(s, t[i]);
      }
    }
  }

  // ---- Strictly ordered lists ----

  predicate Rises<T>(less: (T, T) -> bool, s: seq<T>) {
    forall i, j :: 0 <= i < j < |s| ==> less(s[i], s[j])
  }

  lemma RisesInPlace<T(!new)>(less: (T, T) -> bool, s: seq<T>)
    requires Orders(less) && Rises(less, s)
    ensures InPlace(less, s) && NoRepeats(s) && TiesAreEqual(less, s)
  {
    forall i, j | 0 <= i < j < |s| ensures !less(s[j], s[i]) && s[i] != s[j] {
      assert less(s[i], s[j]);
    }
    forall a, b | a in s && b in s && !less(a, b) && !less(b, a) ensures a == b {
      var i, j :| 0 <= i < |s| && 0 <= j < |s| && s[i] == a && s[j] == b;
      assert i == j;
    }
  }

  /** Two strictly ordered lists that hold the same elements are equal. */
  lemma RiseIsUnique<T(!new)>(less: (T, T) -> bool, s: seq<T>, t: seq<T>)
    requires Orders(less) && Rises(less, s) && Rises(less, t) && forall x :: x in s <==> x in t
    ensures s == t
  {
    hide Orders, Rises, InPlace, TiesAreEqual, NoRepeats;
    RisesInPlace(less, s);
    RisesInPlace(less, t);
    forall x ensures multiset(s)[x] == multiset(t)[x] {
      CountOnce(s, x);
      CountOnce(t, x);
    }
    assert multiset(s) == multiset(t);
    OrderIsUnique(less, s, t);
  }

  lemma {:induction false} InsertRises<T(!new)>(less: (T, T) -> bool, s: seq<T>, x: T)
    requires Orders(less) && Rises(less, s) && forall y :: y in s ==> less(x, y) || less(y, x)
    ensures Rises(less, Insert(less, s, x))
  {
    hide Orders;
    if s != [] {
      var init, last := s[..|s| - 1], s[|s| - 1];
      assert s == init + [last];
      if less(x, last) {
        InsertRises(less, init, x);
        InsertHolds(less, init, x);
        var placed := Insert(less, init, x);
        forall i | 0 <= i < |placed| ensures less(placed[i], last) {
          assert placed[i] in placed;
        }
      } else {
        forall y | y in init ensures less(y, x) {
          var k :| 0 <= k < |init| && s[k] == y;
          assert less(y, last);
          OrderChains(less, y, last, x);
          OrderChains(less, x, last, y);
        }
      }
    }
  }

  function Map<S, T>(f: S -> T, s: seq<S>): (t: seq<T>)
    ensures |t| == |s|
    ensures forall k :: 0 <= k < |s| ==> t[k] == f(s[k])
  {
    if s == [] then [] else Map(f, s[..|s| - 1]) + [f(s[|s| - 1])]
  }

  lemma MapJoins<S, T>(f: S -> T, s: seq<S>, x: S, t: seq<S>)
    ensures Map(f, s + [x] + t) == Map(f, s) + [f(x)] + Map(f, t)
    ensures Map(f, s + t) == Map(f, s) + Map(f, t)
  {
  }

  lemma WithoutElement<S>(s: seq<S>, j: nat)
    requires j < |s|
    ensures s == s[..j] + [s[j]] + s[j + 1..]
    ensures multiset(s[..j] + s[j + 1..]) == multiset(s) - multiset{s[j]}
  {
    assert s == s[..j] + [s[j]] + s[j + 1..];
    assert multiset(s) == multiset(s[..j]) + multiset{s[j]} + multiset(s[j + 1..]);
  }

  /** Mapping a reordered list gives the reordered results. */
  lemma {:induction false} MapIgnoresOrder<S, T>(f: S -> T, s: seq<S>, t: seq<S>)
    requires multiset(s) == multiset(t)
    ensures multiset(Map(f, s)) == multiset(Map(f, t))
  {
    SameLength(s, t);
    if s != [] {
      var x := s[|s| - 1];
      assert x in t;
      var j :| 0 <= j < |t| && t[j] == x;
      InitLacksLast(s);
      WithoutElement(t, j);
      MapIgnoresOrder(f, s[..|s| - 1], t[..j] + t[j + 1..]);
      MapJoins(f, t[..j], x, t[j + 1..]);
      assert Map(f, t) == Map(f, t[..j]) + [f(x)] + Map(f, t[j + 1..]);
    }
  }
}
