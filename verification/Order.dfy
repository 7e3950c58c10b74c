/** Ordered containers: the orders that std::map and std::set iterate in, and iterators
    over a container that changes while it is walked. An iterator is the key it stands on
    (None is end()), so erasing or inserting other keys never invalidates it, and
    advancing looks at the container as it is then. */
module Order {
  datatype Option<+T> = None | Some(value: T)

  /** A write event: the number-th write made under a replica id. */
  datatype Dot = Dot(id: string, number: nat)

  predicate StringLess(a: string, b: string) {
    b != [] && (a == [] || a[0] < b[0] || (a[0] == b[0] && StringLess(a[1..], b[1..])))
  }

  predicate DotLess(a: Dot, b: Dot) {
    StringLess(a.id, b.id) || (a.id == b.id && a.number < b.number)
  }

  ghost predicate StrictTotalOrder<T(!new)>(less: (T, T) -> bool) {
    && (forall a :: !less(a, a))
    && (forall a, b :: a == b || less(a, b) || less(b, a))
    && (forall a, b, c :: less(a, b) && less(b, c) ==> less(a, c))
  }

  lemma {:induction false} StringLessTotal(a: string, b: string)
    ensures !StringLess(a, a)
    ensures a == b || StringLess(a, b) || StringLess(b, a)
  {
    if a != [] {
      StringLessTotal(a[1..], if b == [] then [] else b[1..]);
      if b != [] && a[0] == b[0] {
        assert a == [a[0]] + a[1..];
        assert b == [b[0]] + b[1..];
      }
    }
  }

  lemma {:induction false} StringLessTransitive(a: string, b: string, c: string)
    requires StringLess(a, b) && StringLess(b, c)
    ensures StringLess(a, c)
  {
    if a != [] && a[0] == b[0] == c[0] {
      StringLessTransitive(a[1..], b[1..], c[1..]);
    }
  }

  lemma StringsOrdered()
    ensures StrictTotalOrder(StringLess)
  {
    forall a: string, b: string
      ensures !StringLess(a, a) && (a == b || StringLess(a, b) || StringLess(b, a))
    {
      StringLessTotal(a, b);
    }
    forall a: string, b: string, c: string | StringLess(a, b) && StringLess(b, c)
      ensures StringLess(a, c)
    {
      StringLessTransitive(a, b, c);
    }
  }

  lemma DotsOrdered()
    ensures StrictTotalOrder(DotLess)
  {
    StringsOrdered();
  }

  /** The orders are std::string's and std::pair's: by the first letter that differs, a prefix
      before what it begins; and dots by replica, then by number. */
  lemma {:induction false} DictionaryOrder(common: string, a: char, b: char, rest: string, more: string)
    ensures StringLess(common, common + [b] + more)
    ensures a < b ==> StringLess(common + [a] + rest, common + [b] + more)
    ensures forall i: nat, j: nat :: DotLess(Dot(common, i), Dot(common, j)) <==> i < j
    ensures forall i: nat, j: nat :: StringLess(rest, more) ==> DotLess(Dot(rest, i), Dot(more, j))
  {
    StringLessTotal(common, common);
    Prefixed(common, [], [b] + more);
    Prefixed(common, [a] + rest, [b] + more);
    assert common + [] == common;
    assert common + [a] + rest == common + ([a] + rest) && common + [b] + more == common + ([b] + more);
  }

  lemma {:induction false} Prefixed(common: string, a: string, b: string)
    ensures StringLess(common + a, common + b) <==> StringLess(a, b)
  {
    hide *;
    if common == [] {
      assert common + a == a && common + b == b;
    } else {
      Prefixed(common[1..], a, b);
      SameLetter(common[0], common[1..] + a, common[1..] + b);
      assert common + a == [common[0]] + (common[1..] + a) && common + b == [common[0]] + (common[1..] + b);
    }
  }

  lemma SameLetter(c: char, a: string, b: string)
    ensures StringLess([c] + a, [c] + b) <==> StringLess(a, b)
  {
    assert ([c] + a)[1..] == a && ([c] + b)[1..] == b;
  }

  ghost predicate IsLeast<T(!new)>(less: (T, T) -> bool, s: set<T>, m: T) {
    m in s && forall x :: x in s && x != m ==> less(m, x)
  }

  lemma {:induction false} LeastExists<T(!new)>(less: (T, T) -> bool, s: set<T>)
    requires StrictTotalOrder(less) && s != {}
    ensures exists m :: IsLeast(less, s, m)
  {
    var x :| x in s;
    if s == {x} {
      assert IsLeast(less, s, x);
    } else {
      LeastExists(less, s - {x});
      var m :| IsLeast(less, s - {x}, m);
      var least := if less(x, m) then x else m;
      forall y | y in s && y != least
        ensures less(least, y)
      {
        assert y == x || y in s - {x};
      }
      assert IsLeast(less, s, least);
    }
  }

  /** begin() */
  function First<T(!new, ==)>(less: (T, T) -> bool, s: set<T>): (r: Option<T>)
    requires StrictTotalOrder(less)
    ensures r.None? <==> s == {}
    ensures r.Some? ==> IsLeast(less, s, r.value)
  {
    if s == {} then None
    else
      LeastExists(less, s);
      var m :| m in s && forall x :: x in s && x != m ==> less(m, x);
      Some(m)
  }

  /** The iterator after the one standing on k. */
  function Next<T(!new, ==)>(less: (T, T) -> bool, s: set<T>, k: T): (r: Option<T>)
    requires StrictTotalOrder(less)
    ensures r.None? ==> forall x :: x in s ==> !less(k, x)
    ensures r.Some? ==> r.value in s && less(k, r.value)
    ensures r.Some? ==> forall x :: x in s && less(k, x) && x != r.value ==> less(r.value, x)
  {
    var after := set x | x in s && less(k, x);
    assert forall x :: x in s && less(k, x) ==> x in after;
    First(less, after)
  }

  function FirstKey(s: set<string>): Option<string> {
    StringsOrdered();
    First(StringLess, s)
  }

  function NextKey(s: set<string>, k: string): Option<string> {
    StringsOrdered();
    Next(StringLess, s, k)
  }

  function FirstDot(s: set<Dot>): Option<Dot> {
    DotsOrdered();
    First(DotLess, s)
  }

  function NextDot(s: set<Dot>, d: Dot): Option<Dot> {
    DotsOrdered();
    Next(DotLess, s, d)
  }

  /** x lies before the iterator: the walk has passed it. */
  predicate Before<T>(less: (T, T) -> bool, x: T, it: Option<T>) {
    it.None? || less(x, it.value)
  }

  /** What a walk over s has yet to visit; shrinks as the iterator advances. */
  ghost function Ahead<T(!new)>(less: (T, T) -> bool, s: set<T>, it: Option<T>): set<T> {
    set x | x in s && !Before(less, x, it)
  }

  /** std::map::insert: an existing key keeps its value. */
  function Insert<K, V>(m: map<K, V>, k: K, v: V): map<K, V> {
    if k in m then m else m[k := v]
  }

  /** One iterator over a container that is only erased from behind it. */
  lemma WalkStep<T(!new)>(less: (T, T) -> bool, s: set<T>, it: T, next: Option<T>)
    requires StrictTotalOrder(less)
    requires it in s && next == Next(less, s, it)
    ensures forall x :: x in s ==> (Before(less, x, next) <==> Before(less, x, Some(it)) || x == it)
    ensures Ahead(less, s, next) == Ahead(less, s, Some(it)) - {it}
    ensures it in Ahead(less, s, Some(it))
  {
  }

  /** A plain loop over all dots of a set: what lies ahead at the start, after a step, at the end. */
  lemma DotLoop(s: set<Dot>, it: Option<Dot>)
    requires it.Some? ==> it.value in s
    ensures var first := FirstDot(s);
      Ahead(DotLess, s, first) == s && (first.Some? ==> first.value in s)
    ensures it.Some? ==> var next := NextDot(s, it.value);
      && Ahead(DotLess, s, next) == Ahead(DotLess, s, it) - {it.value}
      && it.value in Ahead(DotLess, s, it)
      && (next.Some? ==> next.value in s)
    ensures it.None? ==> Ahead(DotLess, s, it) == {}
  {
    DotsOrdered();
    if it.Some? {
      WalkStep(DotLess, s, it.value, NextDot(s, it.value));
    }
  }

  lemma KeyLoop(s: set<string>, it: Option<string>)
    requires it.Some? ==> it.value in s
    ensures var first := FirstKey(s);
      Ahead(StringLess, s, first) == s && (first.Some? ==> first.value in s)
    ensures it.Some? ==> var next := NextKey(s, it.value);
      && Ahead(StringLess, s, next) == Ahead(StringLess, s, it) - {it.value}
      && it.value in Ahead(StringLess, s, it)
      && (next.Some? ==> next.value in s)
    ensures it.None? ==> Ahead(StringLess, s, it) == {}
  {
    StringsOrdered();
    if it.Some? {
      WalkStep(StringLess, s, it.value, NextKey(s, it.value));
    }
  }

  /** The two-pointer walk of a merge: it goes over a container that held `own` and now
      holds `now`, oit over `other`; whatever one has passed, the other has passed too. */
  ghost predicate Walk<T(!new)>(less: (T, T) -> bool, own: set<T>, other: set<T>, now: set<T>, it: Option<T>,
                                oit: Option<T>) {
    && (it.Some? ==> it.value in own && it.value in now)
    && (oit.Some? ==> oit.value in other)
    && (forall x :: x in other && Before(less, x, oit) ==> Before(less, x, it))
    && (forall x :: x in own && Before(less, x, it) ==> Before(less, x, oit))
    && (forall x :: x in now ==> x in own || (x in other && Before(less, x, oit)))
    && (forall x :: x in own && !Before(less, x, it) ==> x in now)
  }

  lemma WalkStart<T(!new)>(less: (T, T) -> bool, own: set<T>, other: set<T>)
    requires StrictTotalOrder(less)
    ensures Walk(less, own, other, own, First(less, own), First(less, other))
    ensures forall x :: x in own ==> !Before(less, x, First(less, own))
    ensures forall x :: x in other ==> !Before(less, x, First(less, other))
  {
  }

  lemma WalkOwn<T(!new)>(less: (T, T) -> bool, own: set<T>, other: set<T>, now: set<T>, it: T, oit: Option<T>,
                         next: Option<T>)
    requires StrictTotalOrder(less)
    requires Walk(less, own, other, now, Some(it), oit)
    requires Before(less, it, oit) && next == Next(less, now, it)
    ensures it !in other
    ensures Walk(less, own, other, now, next, oit) && Walk(less, own, other, now - {it}, next, oit)
    ensures forall x :: x in own ==> (Before(less, x, next) <==> Before(less, x, Some(it)) || x == it)
    ensures Ahead(less, own, next) == Ahead(less, own, Some(it)) - {it} && it in Ahead(less, own, Some(it))
  {
    assert Before(less, it, Some(it)) ==> false;
  }

  lemma WalkOther<T(!new)>(less: (T, T) -> bool, own: set<T>, other: set<T>, now: set<T>, it: Option<T>, oit: T,
                           next: Option<T>)
    requires StrictTotalOrder(less)
    requires Walk(less, own, other, now, it, Some(oit))
    requires Before(less, oit, it) && next == Next(less, other, oit)
    ensures oit !in own && oit !in now
    ensures Walk(less, own, other, now, it, next) && Walk(less, own, other, now + {oit}, it, next)
    ensures forall x :: x in other ==> (Before(less, x, next) <==> Before(less, x, Some(oit)) || x == oit)
    ensures Ahead(less, other, next) == Ahead(less, other, Some(oit)) - {oit} && oit in Ahead(less, other, Some(oit))
  {
  }

  lemma WalkBoth<T(!new)>(less: (T, T) -> bool, own: set<T>, other: set<T>, now: set<T>, it: T, next: Option<T>,
                          onext: Option<T>)
    requires StrictTotalOrder(less)
    requires Walk(less, own, other, now, Some(it), Some(it))
    requires next == Next(less, now, it) && onext == Next(less, other, it)
    ensures it in other
    ensures Walk(less, own, other, now, next, onext)
    ensures forall x :: x in own ==> (Before(less, x, next) <==> Before(less, x, Some(it)) || x == it)
    ensures forall x :: x in other ==> (Before(less, x, onext) <==> Before(less, x, Some(it)) || x == it)
    ensures Ahead(less, own, next) == Ahead(less, own, Some(it)) - {it} && it in Ahead(less, own, Some(it))
  {
  }

  function Max(a: int, b: int): int { if a < b then b else a }

  predicate Distinct<T(==)>(q: seq<T>) {
    forall i, j :: 0 <= i < j < |q| ==> q[i] != q[j]
  }

  /** What a map's values add up to. */
  ghost function Sum<K>(m: map<K, int>): int {
    if m == map[] then 0
    else
      var k :| k in m;
      m[k] + Sum(m - {k})
  }

  lemma {:induction false} SumRemove<K>(m: map<K, int>, k: K)
    requires k in m
    ensures Sum(m) == m[k] + Sum(m - {k})
    decreases |m|
  {
    var j :| j in m && Sum(m) == m[j] + Sum(m - {j});
    if j != k {
      SumRemove(m - {j}, k);
      SumRemove(m - {k}, j);
      assert m - {j} - {k} == m - {k} - {j};
    }
  }

  lemma SumAdd<K>(m: map<K, int>, k: K, v: int)
    requires k !in m
    ensures Sum(m[k := v]) == v + Sum(m)
  {
    SumRemove(m[k := v], k);
    assert m[k := v] - {k} == m;
  }
}
