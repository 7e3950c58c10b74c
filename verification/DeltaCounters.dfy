/** The delta counter: two grow-only maps, whose increments return deltas. Joining deltas is
    as good as joining states. */
module DeltaCounters {
  import opened Order

  type Base = map<string, int>

  function Get(m: Base, k: string): int {
    if k in m then m[k] else 0
  }

  /** A key that is missing here counts as 0, also against a negative number. */
  function JoinBase(m: Base, o: Base): Base {
    map k | k in m.Keys + o.Keys :: if k in o then Max(o[k], Get(m, k)) else m[k]
  }

  /** By value: increases and decreases. */
  datatype PN = PN(i: Base, d: Base) {
    function Part(up: bool): Base {
      if up then i else d
    }

    function With(up: bool, m: Base): PN {
      if up then PN(m, d) else PN(i, m)
    }
  }

  function JoinPN(a: PN, b: PN): PN {
    PN(JoinBase(a.i, b.i), JoinBase(a.d, b.d))
  }

  lemma TotalPut(m: Base, k: string, v: int)
    ensures Sum(m[k := v]) == Sum(m) - Get(m, k) + v
  {
    SumRemove(m[k := v], k);
    assert m[k := v] - {k} == m - {k};
    if k in m {
      SumRemove(m, k);
    } else {
      assert m - {k} == m;
    }
  }

  class BaseCounter {
    var m: Base

    constructor ()
      ensures m == map[]
    {
      m := map[];
    }

    /** The delta holds the new entry alone. */
    method Inc(id: string, value: int) returns (res: BaseCounter)
      modifies this
      ensures m == old(m)[id := Get(old(m), id) + value]
      ensures fresh(res) && res.m == map[id := m[id]]
    {
      res := new BaseCounter();
      m := m[id := Get(m, id) + value];
      res.m := res.m[id := m[id]];
    }

    method Local(id: string) returns (res: int)
      ensures res == Get(m, id)
    {
      res := 0;
      if id in m {
        res := res + m[id];
      }
    }

    /** The loop over an unordered map: in no particular order. */
    method Read() returns (res: int)
      ensures res == Sum(m)
    {
      res := 0;
      ghost var rest := m;
      var todo := m.Keys;
      while todo != {}
        invariant todo <= m.Keys && rest == map k | k in todo :: m[k]
        invariant res + Sum(rest) == Sum(m)
        decreases |todo|
      {
        var k :| k in todo;
        SumRemove(rest, k);
        res := res + m[k];
        todo, rest := todo - {k}, rest - {k};
      }
    }

    method Join(o: BaseCounter)
      modifies this
      ensures m == JoinBase(old(m), old(o.m))
      ensures m.Keys == old(m).Keys + old(o.m).Keys
      ensures forall k :: k in old(o.m) ==> m[k] == Max(old(o.m)[k], if k in old(m) then old(m)[k] else 0)
      ensures forall k :: k in old(m) && k !in old(o.m) ==> m[k] == old(m)[k]
    {
      var other := o.m;
      var todo := other.Keys;
      assert other - other.Keys == map[] && JoinBase(m, map[]) == m;
      while todo != {}
        invariant todo <= other.Keys && m == JoinBase(old(m), other - todo)
        decreases |todo|
      {
        var k :| k in todo;
        JoinOne(old(m), other, todo, k);
        m := m[k := Max(other[k], Get(m, k))];
        todo := todo - {k};
      }
      assert other - {} == other;
    }
  }

  lemma JoinOne(m: Base, o: Base, todo: set<string>, k: string)
    requires k in todo && todo <= o.Keys
    ensures var part := JoinBase(m, o - todo);
      JoinBase(m, o - (todo - {k})) == part[k := Max(o[k], Get(part, k))]
  {
    assert o - (todo - {k}) == (o - todo)[k := o[k]];
  }

  class Counter {
    const i: BaseCounter
    const d: BaseCounter

    constructor ()
      ensures fresh(i) && fresh(d) && Wired() && Value() == PN(map[], map[])
    {
      i := new BaseCounter();
      d := new BaseCounter();
    }

    predicate Wired() {
      i != d
    }

    ghost function Value(): PN
      reads i, d
    {
      PN(i.m, d.m)
    }

    method Inc(id: string, value: int) returns (delta: PN)
      requires Wired()
      modifies i
      ensures Value() == Counted(old(Value()), true, id, value) && delta == Delta(Value(), true, id)
    {
      var res := i.Inc(id, value);
      delta := PN(res.m, map[]);
    }

    method Dec(id: string, value: int) returns (delta: PN)
      requires Wired()
      modifies d
      ensures Value() == Counted(old(Value()), false, id, value) && delta == Delta(Value(), false, id)
    {
      var res := d.Inc(id, value);
      delta := PN(map[], res.m);
    }

    method Read() returns (res: int)
      ensures res == Sum(i.m) - Sum(d.m)
    {
      var up := i.Read();
      var down := d.Read();
      res := up - down;
    }

    method Join(o: Counter)
      requires Wired() && i != o.d && d != o.i
      modifies i, d
      ensures Value() == JoinPN(old(Value()), old(o.Value()))
    {
      i.Join(o.i);
      d.Join(o.d);
    }
  }

  function Counted(c: PN, up: bool, id: string, v: int): PN {
    c.With(up, c.Part(up)[id := Get(c.Part(up), id) + v])
  }

  /** What the change just made returns: the one entry it changed. */
  function Delta(c: PN, up: bool, id: string): PN {
    Only(up, id, Get(c.Part(up), id))
  }

  function Only(up: bool, id: string, x: int): PN {
    ZERO.With(up, map[id := x])
  }

  /** Replicas of one counter, each counting under its own id; they publish their states,
      the network carries all deltas, and replicas join anything they come across. The
      totals are history: what each id has counted, and over all ids. */
  datatype World = World(local: map<string, PN>, deltas: set<PN>, published: set<PN>, totals: PN, incs: int, decs: int)

  datatype Event = Count(id: string, up: bool, value: int) | Publish(id: string) | Merge(id: string, other: PN)

  const ZERO: PN := PN(map[], map[])

  function Start(ids: set<string>): World {
    World(map r | r in ids :: ZERO, {}, {}, ZERO, 0, 0)
  }

  /** Amounts are not negative, and joins are with what is around. */
  predicate Enabled(w: World, e: Event) {
    e.id in w.local && (e.Count? ==> e.value >= 0) && (e.Merge? ==> e.other in w.deltas || e.other in w.published)
  }

  function Step(w: World, e: Event): World {
    if !Enabled(w, e) then w
    else
      var c := w.local[e.id];
      match e
      case Count(r, up, v) =>
        var next := Counted(c, up, r, v);
        World(w.local[r := next], w.deltas + {Delta(next, up, r)}, w.published, Counted(w.totals, up, r, v),
              if up then w.incs + v else w.incs, if up then w.decs else w.decs + v)
      case Publish(_) => w.(published := w.published + {c})
      case Merge(r, other) => w.(local := w.local[r := JoinPN(c, other)])
  }

  function After(ids: set<string>, es: seq<Event>): World {
    if es == [] then Start(ids) else Step(After(ids, es[..|es| - 1]), es[|es| - 1])
  }

  predicate Below(m: Base, total: Base) {
    forall k :: k in m ==> k in total && 0 <= m[k] <= total[k]
  }

  /** r's own entry is exact, and the others are not ahead. */
  predicate Exact(m: Base, total: Base, r: string) {
    Below(m, total) && (r in m <==> r in total) && Get(m, r) == Get(total, r)
  }

  predicate AllBelow(cs: set<PN>, up: bool, total: Base) {
    forall c :: c in cs ==> Below(c.Part(up), total)
  }

  /** The latest delta of id r is around. */
  predicate Latest(w: World, up: bool, r: string)
    requires r in w.totals.Part(up)
  {
    r in w.local && w.totals.Part(up)[r] >= 0 && Only(up, r, w.totals.Part(up)[r]) in w.deltas
  }

  function Amount(w: World, up: bool): int {
    if up then w.incs else w.decs
  }

  ghost predicate Inv(w: World, up: bool) {
    && AllBelow(w.deltas, up, w.totals.Part(up)) && AllBelow(w.published, up, w.totals.Part(up))
    && (forall r :: r in w.local ==> Exact(w.local[r].Part(up), w.totals.Part(up), r))
    && (forall r :: r in w.totals.Part(up) ==> Latest(w, up, r))
    && Sum(w.totals.Part(up)) == Amount(w, up)
  }

  lemma JoinExact(a: Base, b: Base, total: Base, r: string)
    requires Exact(a, total, r) && Below(b, total)
    ensures Exact(JoinBase(a, b), total, r)
  {
  }

  /** Everything below a total is below a larger one. */
  lemma GrowBelow(m: Base, total: Base, r: string, v: int)
    requires Below(m, total) && v >= 0
    ensures Below(m, total[r := Get(total, r) + v])
  {
  }

  lemma CountExact(m: Base, total: Base, r: string, v: int)
    requires Exact(m, total, r) && v >= 0 && (r in total ==> total[r] >= 0)
    ensures Exact(m[r := Get(m, r) + v], total[r := Get(total, r) + v], r)
    ensures Below(map[r := Get(m, r) + v], total[r := Get(total, r) + v])
  {
  }

  lemma OwnEntry(w: World, r: string, up: bool)
    requires Inv(w, up) && r in w.local
    ensures var t := w.totals.Part(up);
      Exact(w.local[r].Part(up), t, r) && Get(w.local[r].Part(up), r) == Get(t, r) && Get(t, r) >= 0
  {
    assert r in w.totals.Part(up) ==> Latest(w, up, r);
    hide Sum;
  }

  lemma AllGrow(cs: set<PN>, up: bool, t: Base, r: string, v: int)
    requires v >= 0 && AllBelow(cs, up, t)
    ensures AllBelow(cs, up, t[r := Get(t, r) + v])
  {
    hide Below;
    forall c | c in cs
      ensures Below(c.Part(up), t[r := Get(t, r) + v])
    {
      GrowBelow(c.Part(up), t, r, v);
    }
  }

  lemma OneBelow(cs: set<PN>, c: PN, up: bool, t: Base)
    requires AllBelow(cs, up, t) && Below(c.Part(up), t)
    ensures AllBelow(cs + {c}, up, t)
  {
  }

  lemma OneCounts(local: map<string, PN>, up: bool, t: Base, r: string, v: int)
    requires v >= 0 && r in local && Get(t, r) >= 0 && forall q :: q in local ==> Exact(local[q].Part(up), t, q)
    ensures var counted := local[r := Counted(local[r], up, r, v)];
      forall q :: q in counted ==> Exact(counted[q].Part(up), t[r := Get(t, r) + v], q)
  {
    forall q | q in local
      ensures q != r ==> Exact(local[q].Part(up), t[r := Get(t, r) + v], q)
    {
      GrowBelow(local[q].Part(up), t, r, v);
    }
    CountExact(local[r].Part(up), t, r, v);
    hide Exact, Below;
  }

  lemma DeltaIsTotal(c: PN, up: bool, t: Base, r: string, v: int)
    requires Get(c.Part(up), r) == Get(t, r)
    ensures Delta(Counted(c, up, r, v), up, r) == Only(up, r, Get(t, r) + v)
    ensures Only(up, r, Get(t, r) + v).Part(up) == map[r := Get(c.Part(up), r) + v]
  {
  }

  lemma AfterCount(w: World, r: string, up: bool, v: int)
    requires Enabled(w, Count(r, up, v))
    ensures r in w.local && v >= 0
    ensures var g, t := Step(w, Count(r, up, v)), w.totals.Part(up);
      && g.local == w.local[r := Counted(w.local[r], up, r, v)] && g.published == w.published
      && g.deltas == w.deltas + {Delta(Counted(w.local[r], up, r, v), up, r)}
      && g.totals.Part(up) == t[r := Get(t, r) + v]
      && Amount(g, up) == Amount(w, up) + v
  {
  }

  lemma CountDelivers(w: World, g: World, r: string, up: bool, x: int)
    requires (forall q :: q in w.totals.Part(up) ==> Latest(w, up, q)) && r in w.local && x >= 0
    requires g.totals.Part(up) == w.totals.Part(up)[r := x]
    requires g.deltas == w.deltas + {Only(up, r, x)} && g.local.Keys == w.local.Keys
    ensures forall q :: q in g.totals.Part(up) ==> Latest(g, up, q)
  {
    forall q | q in g.totals.Part(up)
      ensures Latest(g, up, q)
    {
      assert q != r ==> Latest(w, up, q);
      hide Only;
    }
  }

  lemma InvSays(w: World, up: bool)
    requires Inv(w, up)
    ensures AllBelow(w.deltas, up, w.totals.Part(up)) && AllBelow(w.published, up, w.totals.Part(up))
    ensures forall r :: r in w.local ==> Exact(w.local[r].Part(up), w.totals.Part(up), r)
    ensures forall r :: r in w.totals.Part(up) ==> Latest(w, up, r)
    ensures Sum(w.totals.Part(up)) == Amount(w, up)
  {
  }

  lemma CountBounds(w: World, g: World, r: string, up: bool, v: int)
    requires Inv(w, up) && r in w.local && v >= 0
    requires g.local == w.local[r := Counted(w.local[r], up, r, v)] && g.published == w.published
    requires var t := w.totals.Part(up);
      g.deltas == w.deltas + {Only(up, r, Get(t, r) + v)} && g.totals.Part(up) == t[r := Get(t, r) + v]
    ensures AllBelow(g.deltas, up, g.totals.Part(up)) && AllBelow(g.published, up, g.totals.Part(up))
    ensures forall q :: q in g.local ==> Exact(g.local[q].Part(up), g.totals.Part(up), q)
  {
    hide *;
    var t := w.totals.Part(up);
    InvSays(w, up);
    OwnEntry(w, r, up);
    AllGrow(w.deltas, up, t, r, v);
    AllGrow(w.published, up, t, r, v);
    OneCounts(w.local, up, t, r, v);
    NewDelta(w.local[r], up, t, r, v);
    OneBelow(w.deltas, Only(up, r, Get(t, r) + v), up, g.totals.Part(up));
  }

  lemma NewDelta(c: PN, up: bool, t: Base, r: string, v: int)
    requires Exact(c.Part(up), t, r) && v >= 0 && Get(t, r) >= 0
    ensures Below(Only(up, r, Get(t, r) + v).Part(up), t[r := Get(t, r) + v])
  {
  }

  lemma CountKeeps(w: World, r: string, up: bool, v: int)
    requires Inv(w, up) && Enabled(w, Count(r, up, v))
    ensures Inv(Step(w, Count(r, up, v)), up)
  {
    hide *;
    var t, g := w.totals.Part(up), Step(w, Count(r, up, v));
    AfterCount(w, r, up, v);
    InvSays(w, up);
    OwnEntry(w, r, up);
    DeltaIsTotal(w.local[r], up, t, r, v);
    CountDelivers(w, g, r, up, Get(t, r) + v);
    TotalPut(t, r, Get(t, r) + v);
    CountBounds(w, g, r, up, v);
    InvFrom(g, up);
  }

  lemma InvFrom(w: World, up: bool)
    requires AllBelow(w.deltas, up, w.totals.Part(up)) && AllBelow(w.published, up, w.totals.Part(up))
    requires forall r :: r in w.local ==> Exact(w.local[r].Part(up), w.totals.Part(up), r)
    requires forall r :: r in w.totals.Part(up) ==> Latest(w, up, r)
    requires Sum(w.totals.Part(up)) == Amount(w, up)
    ensures Inv(w, up)
  {
  }

  lemma AfterOther(w: World, r: string, up: bool, v: int, down: bool)
    requires Enabled(w, Count(r, up, v)) && down != up
    ensures var g := Step(w, Count(r, up, v));
      && g.local.Keys == w.local.Keys && (forall q :: q in w.local ==> g.local[q].Part(down) == w.local[q].Part(down))
      && g.published == w.published && (exists c: PN :: c.Part(down) == map[] && g.deltas == w.deltas + {c})
      && g.totals.Part(down) == w.totals.Part(down) && Amount(g, down) == Amount(w, down)
  {
    var c := Delta(Counted(w.local[r], up, r, v), up, r);
    assert c.Part(down) == map[];
  }

  lemma OtherPartKeeps(w: World, r: string, up: bool, v: int, down: bool)
    requires down != up && Inv(w, down) && Enabled(w, Count(r, up, v))
    ensures Inv(Step(w, Count(r, up, v)), down)
  {
    hide *;
    var g := Step(w, Count(r, up, v));
    AfterOther(w, r, up, v, down);
    InvSays(w, down);
    var c: PN :| c.Part(down) == map[] && g.deltas == w.deltas + {c};
    assert Below(map[], w.totals.Part(down)) by { NothingIsBelow(w.totals.Part(down)); }
    OneBelow(w.deltas, c, down, w.totals.Part(down));
    forall q | q in g.totals.Part(down)
      ensures Latest(g, down, q)
    {
      StillLatest(w, g, down, q);
    }
    InvFrom(g, down);
  }

  lemma NothingIsBelow(t: Base)
    ensures Below(map[], t)
  {
  }

  lemma StillLatest(w: World, g: World, up: bool, r: string)
    requires r in w.totals.Part(up) && Latest(w, up, r)
    requires g.totals.Part(up) == w.totals.Part(up) && g.local.Keys == w.local.Keys && w.deltas <= g.deltas
    ensures Latest(g, up, r)
  {
  }

  lemma AfterMerge(w: World, r: string, other: PN, up: bool)
    requires Enabled(w, Merge(r, other))
    ensures r in w.local && (other in w.deltas || other in w.published)
    ensures var g := Step(w, Merge(r, other));
      && g == w.(local := g.local) && g.local.Keys == w.local.Keys && Amount(g, up) == Amount(w, up)
      && (forall q :: q in w.local && q != r ==> g.local[q] == w.local[q])
      && g.local[r].Part(up) == JoinBase(w.local[r].Part(up), other.Part(up))
  {
  }

  lemma MergeKeeps(w: World, r: string, other: PN, up: bool)
    requires Inv(w, up) && Enabled(w, Merge(r, other))
    ensures Inv(Step(w, Merge(r, other)), up)
  {
    hide *;
    var g, t := Step(w, Merge(r, other)), w.totals.Part(up);
    AfterMerge(w, r, other, up);
    InvSays(w, up);
    assert Below(other.Part(up), t) by { AroundBelow(w, other, up); }
    JoinExact(w.local[r].Part(up), other.Part(up), t, r);
    forall q | q in g.totals.Part(up)
      ensures Latest(g, up, q)
    {
      StillLatest(w, g, up, q);
    }
    InvFrom(g, up);
  }

  lemma AroundBelow(w: World, c: PN, up: bool)
    requires Inv(w, up) && (c in w.deltas || c in w.published)
    ensures Below(c.Part(up), w.totals.Part(up))
  {
    hide Sum, Latest, Exact, Below;
  }

  lemma PublishKeeps(w: World, r: string, up: bool)
    requires Inv(w, up) && r in w.local
    ensures Inv(Step(w, Publish(r)), up)
  {
    var g := Step(w, Publish(r));
    assert Exact(w.local[r].Part(up), w.totals.Part(up), r);
    hide Sum;
    forall q | q in g.totals.Part(up)
      ensures Latest(g, up, q)
    {
      assert Latest(w, up, q);
    }
    hide Latest;
  }

  lemma StepKeepsInv(w: World, e: Event, up: bool)
    requires Inv(w, up)
    ensures Inv(Step(w, e), up)
  {
    if Enabled(w, e) {
      hide Inv, Step;
      match e
      case Count(r, side, v) =>
        if side == up {
          CountKeeps(w, r, up, v);
        } else {
          OtherPartKeeps(w, r, side, v, up);
        }
      case Publish(r) => PublishKeeps(w, r, up);
      case Merge(r, other) => MergeKeeps(w, r, other, up);
    }
  }

  lemma {:induction false} RunKeepsInv(ids: set<string>, es: seq<Event>, up: bool)
    ensures Inv(After(ids, es), up)
  {
    if es != [] {
      RunKeepsInv(ids, es[..|es| - 1], up);
      hide Inv, Step;
      StepKeepsInv(After(ids, es[..|es| - 1]), es[|es| - 1], up);
    }
  }

  /** Joining one after the other, starting from zero. */
  function Fold(cs: seq<PN>): PN {
    if cs == [] then ZERO else JoinPN(Fold(cs[..|cs| - 1]), cs[|cs| - 1])
  }

  predicate Covers(m: Base, o: Base) {
    forall k :: k in o ==> k in m && o[k] <= m[k]
  }

  lemma JoinBounds(a: Base, b: Base, total: Base)
    ensures Covers(JoinBase(a, b), a) && Covers(JoinBase(a, b), b)
    ensures Below(a, total) && Below(b, total) ==> Below(JoinBase(a, b), total)
  {
  }

  lemma {:induction false} FoldBelow(cs: seq<PN>, total: Base, up: bool)
    requires forall c :: c in cs ==> Below(c.Part(up), total)
    ensures Below(Fold(cs).Part(up), total)
  {
    if cs != [] {
      var init, last := cs[..|cs| - 1], cs[|cs| - 1];
      FoldBelow(init, total, up);
      assert last in cs;
      JoinBounds(Fold(init).Part(up), last.Part(up), total);
    }
  }

  lemma {:induction false} FoldCovers(cs: seq<PN>, c: PN, up: bool)
    requires c in cs
    ensures Covers(Fold(cs).Part(up), c.Part(up))
  {
    var init, last := cs[..|cs| - 1], cs[|cs| - 1];
    JoinBounds(Fold(init).Part(up), last.Part(up), map[]);
    if c != last {
      assert c in init;
      FoldCovers(init, c, up);
    }
  }

  /** Everything joined is around, and all deltas are among it, or all the replicas' states. */
  predicate Gathered(w: World, cs: seq<PN>) {
    && (forall c :: c in cs ==> c in w.deltas || c in w.published || exists r :: r in w.local && w.local[r] == c)
    && ((forall c :: c in w.deltas ==> c in cs) || (forall r :: r in w.local ==> w.local[r] in cs))
  }

  /** Whatever is joined, in any order and multiplicity, gives the totals. */
  lemma {:induction false} FoldIsTotals(w: World, cs: seq<PN>, up: bool)
    requires Inv(w, up) && Gathered(w, cs)
    ensures Fold(cs).Part(up) == w.totals.Part(up)
  {
    var t, f := w.totals.Part(up), Fold(cs).Part(up);
    GatheredBelow(w, cs, up);
    FoldBelow(cs, t, up);
    hide *;
    forall k | k in t
      ensures k in f && f[k] >= t[k]
    {
      FoldReaches(w, cs, up, k);
    }
    Squeezed(f, t);
  }

  lemma GatheredBelow(w: World, cs: seq<PN>, up: bool)
    requires Inv(w, up) && Gathered(w, cs)
    ensures forall c :: c in cs ==> Below(c.Part(up), w.totals.Part(up))
  {
    hide Below, Sum, Latest;
    forall c | c in cs
      ensures Below(c.Part(up), w.totals.Part(up))
    {
      if r :| r in w.local && w.local[r] == c {
        OwnIsBelow(w.local[r].Part(up), w.totals.Part(up), r);
      }
    }
  }

  lemma OwnIsBelow(m: Base, total: Base, r: string)
    requires Exact(m, total, r)
    ensures Below(m, total)
  {
  }

  lemma FoldReaches(w: World, cs: seq<PN>, up: bool, k: string)
    requires Inv(w, up) && Gathered(w, cs) && k in w.totals.Part(up)
    ensures k in Fold(cs).Part(up) && Fold(cs).Part(up)[k] >= w.totals.Part(up)[k]
  {
    hide Inv, Gathered, Fold;
    var c := Source(w, cs, up, k);
    FoldCovers(cs, c, up);
  }

  lemma Squeezed(m: Base, total: Base)
    requires Below(m, total) && forall k :: k in total ==> k in m && m[k] >= total[k]
    ensures m == total
  {
  }

  /** Something joined holds id k's total. */
  lemma Source(w: World, cs: seq<PN>, up: bool, k: string) returns (c: PN)
    requires Inv(w, up) && Gathered(w, cs) && k in w.totals.Part(up)
    ensures c in cs && k in c.Part(up) && c.Part(up)[k] == w.totals.Part(up)[k]
  {
    assert Latest(w, up, k);
    var delta := Only(up, k, w.totals.Part(up)[k]);
    c := if delta in cs then delta else w.local[k];
    assert Exact(w.local[k].Part(up), w.totals.Part(up), k);
  }

  /** In every run with non-negative amounts and one writer per id, joining all deltas that
      increments and decrements returned, in any order and with any repetition, gives the
      same counter as joining the states of all replicas, and it reads increments minus decrements. */
  lemma {:induction false} DeltasAreEnough(ids: set<string>, es: seq<Event>, deltas: seq<PN>, states: seq<PN>)
    requires var w := After(ids, es);
      && (forall c :: c in deltas <==> c in w.deltas)
      && (forall c :: c in states <==> exists r :: r in w.local && w.local[r] == c)
    ensures Fold(deltas) == Fold(states)
    ensures var w := After(ids, es); Sum(Fold(deltas).i) - Sum(Fold(deltas).d) == w.incs - w.decs
  {
    var w := After(ids, es);
    assert Gathered(w, deltas) && Gathered(w, states);
    RunKeepsInv(ids, es, true);
    RunKeepsInv(ids, es, false);
    FoldIsTotals(w, deltas, true);
    FoldIsTotals(w, deltas, false);
    FoldIsTotals(w, states, true);
    FoldIsTotals(w, states, false);
    hide After, Gathered, Sum;
  }
}
