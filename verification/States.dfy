/** Replica states as values: a context and the live dots of every item. The join of
    states is the least upper bound of an order in which each dot goes from unknown
    through live to dead. */
module States {
  import opened Order
  import opened Contexts
  import opened Counters

  function Entry(live: map<string, Values>, k: string): Values {
    if k in live then live[k] else map[]
  }

  datatype State = State(ctx: Ctx, live: map<string, Values>) {
    function At(k: string): Values {
      Entry(live, k)
    }

    ghost function Quantity(k: string): int {
      Sum(At(k))
    }
  }

  const EMPTY_STATE: State := State(EMPTY_CTX, map[])

  ghost function Join(a: State, b: State): (r: State)
    ensures r.live.Keys == a.live.Keys + b.live.Keys
  {
    State(CtxJoin(a.ctx, b.ctx),
          map k | k in a.live.Keys + b.live.Keys :: KernelJoin(a.At(k), a.ctx, b.At(k), b.ctx))
  }

  /** An update of item k by delta under replica id. */
  ghost function Edit(s: State, k: string, id: string, delta: int): State {
    State(s.ctx.Advance(id), s.live[k := Update(s.At(k), s.ctx, id, delta)])
  }

  function Drop(s: State, k: string): State {
    State(s.ctx, s.live - {k})
  }

  /** Contexts are compacted and every live dot lies in its context. */
  ghost predicate Sound(s: State) {
    s.ctx.Compacted() && forall k :: Seen(s.At(k), s.ctx)
  }

  /** A dot live in both states at one item carries one value. */
  ghost predicate Agree(a: State, b: State) {
    forall k, d :: d in a.At(k) && d in b.At(k) ==> a.At(k)[d] == b.At(k)[d]
  }

  function RankIn(s: State, k: string, d: Dot): nat {
    Rank(s.At(k), s.ctx, d)
  }

  ghost predicate Leq(a: State, b: State) {
    && (forall d :: a.ctx.Contains(d) ==> b.ctx.Contains(d))
    && (forall k, d :: RankIn(a, k, d) <= RankIn(b, k, d))
  }

  /** Equal except for entries without live dots. */
  ghost predicate Same(a: State, b: State) {
    a.ctx == b.ctx && forall k :: a.At(k) == b.At(k)
  }

  lemma JoinAt(a: State, b: State, k: string)
    ensures Join(a, b).At(k) == KernelJoin(a.At(k), a.ctx, b.At(k), b.ctx)
  {
    if k !in a.live && k !in b.live {
      assert KernelJoin(map[], a.ctx, map[], b.ctx) == map[];
    }
  }

  lemma JoinIsMax(a: State, b: State)
    requires Sound(a) && Sound(b)
    ensures Sound(Join(a, b))
    ensures forall d :: Join(a, b).ctx.Contains(d) <==> a.ctx.Contains(d) || b.ctx.Contains(d)
    ensures forall k, d :: RankIn(Join(a, b), k, d) == Max(RankIn(a, k, d), RankIn(b, k, d))
  {
    CtxJoinContains(a.ctx, b.ctx);
    forall k
      ensures Seen(Join(a, b).At(k), Join(a, b).ctx)
      ensures forall d :: RankIn(Join(a, b), k, d) == Max(RankIn(a, k, d), RankIn(b, k, d))
    {
      JoinAt(a, b, k);
      KernelJoinIsMax(a.At(k), a.ctx, b.At(k), b.ctx);
    }
  }

  /** Every live value of a join is one of the two sides'. */
  lemma JoinValues(a: State, b: State, k: string, d: Dot)
    requires d in Join(a, b).At(k)
    ensures d in a.At(k) || d in b.At(k)
    ensures Join(a, b).At(k)[d] == if d in a.At(k) then a.At(k)[d] else b.At(k)[d]
  {
    JoinAt(a, b, k);
  }

  /** Contained dots, ranks and values fix a state up to empty entries. */
  lemma Extensional(a: State, b: State)
    requires Sound(a) && Sound(b) && Agree(a, b)
    requires SameDots(a.ctx, b.ctx)
    requires forall k, d :: RankIn(a, k, d) == RankIn(b, k, d)
    ensures Same(a, b)
    ensures a.live.Keys == b.live.Keys ==> a == b
  {
    NormalFormUnique(a.ctx, b.ctx);
    forall k
      ensures a.At(k) == b.At(k)
    {
      forall d: Dot
        ensures d in a.At(k) <==> d in b.At(k)
      {
        assert RankIn(a, k, d) == RankIn(b, k, d);
      }
    }
    if a.live.Keys == b.live.Keys {
      forall k | k in a.live
        ensures a.live[k] == b.live[k]
      {
        assert a.At(k) == b.At(k);
      }
    }
  }

  lemma {:induction false} JoinIdempotent(a: State)
    requires Sound(a)
    ensures Join(a, a) == a
  {
    JoinIsMax(a, a);
    forall k, d | d in Join(a, a).At(k)
      ensures d in a.At(k) && Join(a, a).At(k)[d] == a.At(k)[d]
    {
      JoinValues(a, a, k, d);
    }
    Extensional(Join(a, a), a);
  }

  lemma {:induction false} JoinCommutative(a: State, b: State)
    requires Sound(a) && Sound(b) && Agree(a, b)
    ensures Join(a, b) == Join(b, a)
  {
    JoinIsMax(a, b);
    JoinIsMax(b, a);
    forall k, d | d in Join(a, b).At(k) && d in Join(b, a).At(k)
      ensures Join(a, b).At(k)[d] == Join(b, a).At(k)[d]
    {
      JoinValues(a, b, k, d);
      JoinValues(b, a, k, d);
    }
    Extensional(Join(a, b), Join(b, a));
  }

  lemma {:induction false} JoinAssociative(a: State, b: State, c: State)
    requires Sound(a) && Sound(b) && Sound(c) && Agree(a, b) && Agree(b, c) && Agree(a, c)
    ensures Join(Join(a, b), c) == Join(a, Join(b, c))
  {
    var ab, bc := Join(a, b), Join(b, c);
    hide Join, RankIn, Agree, Sound, SameDots;
    GroupingKeepsRanks(a, b, c);
    GroupingKeepsValues(a, b, c);
    Extensional(Join(ab, c), Join(a, bc));
  }

  lemma GroupingKeepsRanks(a: State, b: State, c: State)
    requires Sound(a) && Sound(b) && Sound(c)
    ensures Sound(Join(Join(a, b), c)) && Sound(Join(a, Join(b, c)))
    ensures SameDots(Join(Join(a, b), c).ctx, Join(a, Join(b, c)).ctx)
    ensures forall k, d :: RankIn(Join(Join(a, b), c), k, d) == RankIn(Join(a, Join(b, c)), k, d)
  {
    hide Join, RankIn, Sound;
    JoinIsMax(a, b);
    JoinIsMax(b, c);
    JoinIsMax(Join(a, b), c);
    JoinIsMax(a, Join(b, c));
  }

  lemma GroupingKeepsValues(a: State, b: State, c: State)
    requires Agree(a, b) && Agree(b, c) && Agree(a, c)
    ensures Agree(Join(Join(a, b), c), Join(a, Join(b, c)))
  {
    hide Join, State.At;
    forall k, d | d in Join(Join(a, b), c).At(k) && d in Join(a, Join(b, c)).At(k)
      ensures Join(Join(a, b), c).At(k)[d] == Join(a, Join(b, c)).At(k)[d]
    {
      JoinValues(Join(a, b), c, k, d);
      JoinValues(a, Join(b, c), k, d);
      if d in Join(a, b).At(k) { JoinValues(a, b, k, d); }
      if d in Join(b, c).At(k) { JoinValues(b, c, k, d); }
    }
  }

  /** The order is the one of the join: a is below b exactly when joining it into b changes nothing. */
  lemma {:induction false} LeqIsAbsorbed(a: State, b: State)
    requires Sound(a) && Sound(b) && Agree(a, b)
    ensures Leq(a, b) <==> Same(Join(b, a), b)
  {
    JoinIsMax(b, a);
    if Leq(a, b) {
      forall k, d | d in Join(b, a).At(k) && d in b.At(k)
        ensures Join(b, a).At(k)[d] == b.At(k)[d]
      {
        JoinValues(b, a, k, d);
      }
      forall k, d
        ensures RankIn(Join(b, a), k, d) == RankIn(b, k, d)
      {
        assert RankIn(a, k, d) <= RankIn(b, k, d);
      }
      Extensional(Join(b, a), b);
    }
  }

  /** The dot an update will use is already in the context. It happens to an id that the
      vector does not know but whose first dot is in the cloud: compaction leaves that dot
      there, as it absorbs an unknown replica's dots from number 0 on, and the first dot
      handed out is number 1. */
  predicate Reused(c: Ctx, id: string) {
    id !in c.vc && Dot(id, 1) in c.dc
  }

  /** An update leaves everything at or above where it was if and only if its dot is new, or
      reused while it is live at the very item. */
  lemma {:induction false} EditInflates(s: State, k: string, id: string, delta: int)
    requires Sound(s)
    ensures Leq(s, Edit(s, k, id, delta)) <==> (Reused(s.ctx, id) ==> Dot(id, 1) in s.At(k))
    ensures s.ctx.dc == {} ==> Leq(s, Edit(s, k, id, delta)) && Sound(Edit(s, k, id, delta))
  {
    EditSeen(s, k, id, delta);
    if Reused(s.ctx, id) && Dot(id, 1) !in s.At(k) {
      assert RankIn(s, k, Dot(id, 1)) == 2 && RankIn(Edit(s, k, id, delta), k, Dot(id, 1)) == 1;
    } else {
      EditRanks(s, k, id, delta);
    }
  }

  lemma EditAt(s: State, k: string, id: string, delta: int, j: string)
    ensures Edit(s, k, id, delta).At(j) == if j == k then Update(s.At(k), s.ctx, id, delta) else s.At(j)
    ensures forall d :: Edit(s, k, id, delta).ctx.Contains(d) <==>
      s.ctx.Contains(d) || (d.id == id && d.number <= s.ctx.Next(id).number)
  {
  }

  lemma EditSeen(s: State, k: string, id: string, delta: int)
    requires Sound(s)
    ensures forall j :: Seen(Edit(s, k, id, delta).At(j), Edit(s, k, id, delta).ctx)
  {
    forall j
      ensures Seen(Edit(s, k, id, delta).At(j), Edit(s, k, id, delta).ctx)
    {
      EditAt(s, k, id, delta, j);
      assert Seen(s.At(j), s.ctx);
      hide Edit, State.At;
    }
  }

  lemma EditRanks(s: State, k: string, id: string, delta: int)
    requires Sound(s) && (Reused(s.ctx, id) ==> Dot(id, 1) in s.At(k))
    ensures Leq(s, Edit(s, k, id, delta))
  {
    var t := Edit(s, k, id, delta);
    EditAt(s, k, id, delta, k);
    forall j, d
      ensures RankIn(s, j, d) <= RankIn(t, j, d)
    {
      EditAt(s, k, id, delta, j);
      assert Seen(s.At(j), s.ctx) && !s.ctx.Absorbable(s.ctx.Next(id));
      hide Edit, State.At;
    }
  }

  /** A dot of A in the cloud, dead, next to a live one of B. */
  function Clouded(n: nat): State {
    State(Ctx(map["B" := 1], {Dot("A", n)}), map["eggs" := map[Dot("B", 1) := 1]])
  }

  /** Where an update goes down: the first dot of A is dead in the cloud, and comes to life. */
  lemma {:induction false} ReusedDotGoesDown()
    ensures Sound(Clouded(1)) && !Leq(Clouded(1), Edit(Clouded(1), "milk", "A", 1))
  {
    assert forall k :: Clouded(1).At(k) == if k == "eggs" then map[Dot("B", 1) := 1] else map[];
    assert Reused(Clouded(1).ctx, "A");
    EditInflates(Clouded(1), "milk", "A", 1);
  }

  lemma {:induction false} DropInflates(s: State, k: string)
    requires Sound(s)
    ensures Leq(s, Drop(s, k)) && Sound(Drop(s, k))
  {
    assert forall j :: Drop(s, k).At(j) == if j == k then map[] else s.At(j);
  }
}
