/** Causal counters: the live dots of one item with the value each write left behind.
    A CausalCounter owns its values and shares its context by reference. */
module Counters {
  import opened Order
  import opened Contexts

  type Values = map<Dot, int>

  /** Dot d survives a join of `own` seen in c with `other` seen in oc. */
  predicate Survives(own: Values, c: Ctx, other: Values, oc: Ctx, d: Dot) {
    if d in own then d in other || !oc.Contains(d) else d in other && !c.Contains(d)
  }

  function KernelJoin(own: Values, c: Ctx, other: Values, oc: Ctx): Values {
    map d | d in own.Keys + other.Keys && Survives(own, c, other, oc, d) :: if d in own then own[d] else other[d]
  }

  /** The life of a dot, in the order it goes through: unknown, live, dead. */
  function Rank(values: Values, c: Ctx, d: Dot): nat {
    if d in values then 1 else if c.Contains(d) then 2 else 0
  }

  /** Live dots lie in the context. */
  ghost predicate Seen(values: Values, c: Ctx) {
    forall d :: d in values ==> c.Contains(d)
  }

  lemma KernelJoinIsMax(own: Values, c: Ctx, other: Values, oc: Ctx)
    requires Seen(own, c) && Seen(other, oc)
    ensures Seen(KernelJoin(own, c, other, oc), CtxJoin(c, oc))
    ensures forall d ::
      Rank(KernelJoin(own, c, other, oc), CtxJoin(c, oc), d) == Max(Rank(own, c, d), Rank(other, oc, d))
  {
    CtxJoinContains(c, oc);
  }

  function OwnDots(values: Values, id: string): set<Dot> {
    set d | d in values && d.id == id
  }

  /** What one replica contributes. */
  ghost function Contribution(values: Values, id: string): int {
    Sum(map d | d in OwnDots(values, id) :: values[d])
  }

  ghost predicate IsPeak(values: Values, id: string, p: int) {
    && p >= 0
    && (forall d :: d in OwnDots(values, id) ==> values[d] <= p)
    && (p != 0 ==> exists d :: d in OwnDots(values, id) && values[d] == p)
  }

  /** The largest value of the replica's dots, 0 if all are negative: where an update starts. */
  ghost function Peak(values: Values, id: string): (p: int)
    ensures IsPeak(values, id, p)
  {
    PeakExists(values, id);
    var p :| IsPeak(values, id, p);
    p
  }

  lemma {:induction false} PeakExists(values: Values, id: string)
    ensures exists p :: IsPeak(values, id, p)
    decreases |values|
  {
    if OwnDots(values, id) == {} {
      assert IsPeak(values, id, 0);
    } else {
      var d :| d in OwnDots(values, id);
      PeakExists(values - {d}, id);
      var p :| IsPeak(values - {d}, id, p);
      assert forall e :: e in OwnDots(values, id) ==> e == d || e in OwnDots(values - {d}, id);
      assert IsPeak(values, id, Max(p, values[d]));
    }
  }

  /** An update by delta under id: the replica's dots give way to one fresh dot. */
  ghost function Update(values: Values, c: Ctx, id: string, delta: int): Values {
    Insert(values - OwnDots(values, id), c.Next(id), Peak(values, id) + delta)
  }

  /** A replica with at most one dot: its contribution is that value, its peak the value clamped at 0. */
  lemma SoleDot(values: Values, id: string)
    requires forall d, e :: d in OwnDots(values, id) && e in OwnDots(values, id) ==> d == e
    ensures Peak(values, id) == Max(0, Contribution(values, id))
    ensures forall d :: d in OwnDots(values, id) ==> Contribution(values, id) == values[d]
    ensures OwnDots(values, id) == {} ==> Contribution(values, id) == 0
  {
    var own := map d | d in OwnDots(values, id) :: values[d];
    if d :| d in OwnDots(values, id) {
      SumRemove(own, d);
      assert own - {d} == map[];
      assert Contribution(values, id) == values[d];
    } else {
      assert own == map[];
    }
  }

  /** After an update the replica contributes its peak and the change; the others as before. */
  lemma UpdateContributes(values: Values, c: Ctx, id: string, delta: int)
    ensures Contribution(Update(values, c, id, delta), id) == Peak(values, id) + delta
    ensures forall r :: r != id ==> Contribution(Update(values, c, id, delta), r) == Contribution(values, r)
  {
    var after, d := Update(values, c, id, delta), c.Next(id);
    hide Peak;
    assert OwnDots(after, id) == {d} && after[d] == Peak(values, id) + delta;
    SoleDot(after, id);
    forall r | r != id
      ensures Contribution(after, r) == Contribution(values, r)
    {
      assert OwnDots(after, r) == OwnDots(values, r);
      assert forall e :: e in OwnDots(values, r) ==> after[e] == values[e];
      SumSame(values, after, OwnDots(values, r));
    }
  }

  lemma {:induction false} SumSame(a: Values, b: Values, dots: set<Dot>)
    requires dots <= a.Keys && dots <= b.Keys && forall d :: d in dots ==> a[d] == b[d]
    ensures Sum(map d | d in dots :: a[d]) == Sum(map d | d in dots :: b[d])
    decreases |dots|
  {
    var ofA: Values := map d | d in dots :: a[d];
    var ofB: Values := map d | d in dots :: b[d];
    if d :| d in dots {
      SumSame(a, b, dots - {d});
      SumOfMore(a, dots, d);
      SumOfMore(b, dots, d);
    } else {
      SumOfNone(ofA);
      SumOfNone(ofB);
    }
  }

  lemma SumOfNone(none: Values)
    requires |none| == 0
    ensures Sum(none) == 0
  {
    assert none == map[];
  }

  lemma SumOfMore(a: Values, dots: set<Dot>, d: Dot)
    requires dots <= a.Keys && d in dots
    ensures Sum(map e | e in dots :: a[e]) == a[d] + Sum(map e | e in dots - {d} :: a[e])
  {
    var part: Values := map e | e in dots :: a[e];
    SumRemove(part, d);
    assert part - {d} == map e | e in dots - {d} :: a[e];
  }

  class CausalCounter {
    const context: DotContext
    var values: Values

    constructor (context: DotContext)
      ensures this.context == context && values == map[]
    {
      this.context := context;
      values := map[];
    }

    method Local(id: string) returns (res: int)
      ensures res == Contribution(values, id)
    {
      hide FirstDot, NextDot, Ahead;
      res := 0;
      var it := FirstDot(values.Keys);
      DotLoop(values.Keys, None);
      ghost var part: Values := map[];
      while it.Some?
        invariant it.Some? ==> it.value in values
        invariant part.Keys == OwnDots(values, id) - Ahead(DotLess, values.Keys, it)
        invariant forall d :: d in part ==> part[d] == values[d]
        invariant res == Sum(part)
        decreases Ahead(DotLess, values.Keys, it)
      {
        DotLoop(values.Keys, it);
        if it.value.id == id {
          SumAdd(part, it.value, values[it.value]);
          part := part[it.value := values[it.value]];
          res := res + values[it.value];
        }
        it := NextDot(values.Keys, it.value);
      }
      assert part == map d | d in OwnDots(values, id) :: values[d];
    }

    method Read() returns (res: int)
      ensures res == Sum(values)
    {
      hide FirstDot, NextDot, Ahead;
      res := 0;
      var it := FirstDot(values.Keys);
      DotLoop(values.Keys, None);
      ghost var part: Values := map[];
      while it.Some?
        invariant it.Some? ==> it.value in values
        invariant part.Keys == values.Keys - Ahead(DotLess, values.Keys, it)
        invariant forall d :: d in part ==> part[d] == values[d]
        invariant res == Sum(part)
        decreases Ahead(DotLess, values.Keys, it)
      {
        DotLoop(values.Keys, it);
        SumAdd(part, it.value, values[it.value]);
        part := part[it.value := values[it.value]];
        res := res + values[it.value];
        it := NextDot(values.Keys, it.value);
      }
      assert part == values;
    }

    /** The first loop of inc and dec: the peak of the replica's values, and its dots. */
    method Gather(id: string) returns (value: int, dots: set<Dot>)
      ensures value == Peak(values, id) && dots == OwnDots(values, id)
    {
      hide FirstDot, NextDot, Ahead;
      value, dots := 0, {};
      var it := FirstDot(values.Keys);
      DotLoop(values.Keys, None);
      while it.Some?
        invariant it.Some? ==> it.value in values
        invariant dots == OwnDots(values, id) - Ahead(DotLess, values.Keys, it)
        invariant value >= 0 && forall d :: d in dots ==> values[d] <= value
        invariant value != 0 ==> exists d :: d in dots && values[d] == value
        decreases Ahead(DotLess, values.Keys, it)
      {
        DotLoop(values.Keys, it);
        if it.value.id == id {
          value := Max(value, values[it.value]);
          dots := dots + {it.value};
        }
        it := NextDot(values.Keys, it.value);
      }
      assert IsPeak(values, id, value);
    }

    method Inc(id: string, v: int)
      modifies this, context
      ensures values == Update(old(values), old(context.Value()), id, v)
      ensures context.Value() == old(context.Value()).Advance(id)
    {
      var value, dots := Gather(id);
      values := values - dots;
      Add(id, value + v);
    }

    method Dec(id: string, v: int)
      modifies this, context
      ensures values == Update(old(values), old(context.Value()), id, -v)
      ensures context.Value() == old(context.Value()).Advance(id)
    {
      var value, dots := Gather(id);
      values := values - dots;
      Add(id, value - v);
    }

    method Add(id: string, v: int)
      modifies this, context
      ensures values == Insert(old(values), old(context.Value()).Next(id), v)
      ensures context.Value() == old(context.Value()).Advance(id)
    {
      var d := context.NextDotOf(id);
      values := Insert(values, d, v);
    }

    method Reset()
      modifies this
      ensures values == map[]
    {
      values := map[];
    }

    /** DotKernel::join: merge, then prune, then take in, then join the contexts. */
    method Join(o: CausalCounter)
      modifies this, context
      ensures values == KernelJoin(old(values), old(context.Value()), old(o.values), old(o.context.Value()))
      ensures o == this ==> values == old(values)
      ensures context.Value() == if o.context == context then old(context.Value())
                                 else CtxJoin(old(context.Value()), old(o.context.Value()))
    {
      hide FirstDot, NextDot, Ahead, Joining;
      ghost var own, c, other, oc := values, context.Value(), o.values, o.context.Value();
      var it, oit := FirstDot(values.Keys), FirstDot(o.values.Keys);
      JoinStarts(own, c, other, oc);
      while it.Some? && oit.Some?
        invariant context.Value() == c && o.context.Value() == oc && o.values == other
        invariant o == this ==> it == oit
        invariant Joining(own, c, other, oc, values, it, oit)
        decreases Ahead(DotLess, own.Keys, it), Ahead(DotLess, other.Keys, oit)
      {
        NotBeforeItself(it.value);
        var next, onext := NextDot(values.Keys, it.value), NextDot(o.values.Keys, oit.value);
        if DotLess(it.value, oit.value) {
          JoinOwn(own, c, other, oc, values, it.value, oit);
          if o.context.Value().Contains(it.value) {
            values := values - {it.value};
          }
          it := next;
        } else if DotLess(oit.value, it.value) {
          JoinOther(own, c, other, oc, values, it, oit.value);
          if !context.Value().Contains(oit.value) {
            values := Insert(values, oit.value, o.values[oit.value]);
          }
          oit := onext;
        } else {
          // the values are joined by value here, so both sides keep their own
          JoinBoth(own, c, other, oc, values, it.value, oit.value);
          it, oit := next, onext;
        }
      }
      while it.Some?
        invariant it.Some? ==> oit.None?
        invariant context.Value() == c && o.context.Value() == oc && o.values == other && (o == this ==> it == oit)
        invariant Joining(own, c, other, oc, values, it, oit)
        decreases Ahead(DotLess, own.Keys, it)
      {
        JoinOwn(own, c, other, oc, values, it.value, None);
        var next := NextDot(values.Keys, it.value);
        if o.context.Value().Contains(it.value) {
          values := values - {it.value};
        }
        it := next;
      }
      while oit.Some?
        invariant it.None?
        invariant context.Value() == c && o.context.Value() == oc && o.values == other && (o == this ==> it == oit)
        invariant Joining(own, c, other, oc, values, it, oit)
        decreases Ahead(DotLess, other.Keys, oit)
      {
        JoinOther(own, c, other, oc, values, None, oit.value);
        if !context.Value().Contains(oit.value) {
          values := Insert(values, oit.value, o.values[oit.value]);
        }
        oit := NextDot(o.values.Keys, oit.value);
      }
      JoinDone(own, c, other, oc, values);
      context.Join(o.context);
    }
  }

  /** Partway through the kernel merge: own dots before it are decided, the other's before oit too. */
  ghost predicate Joining(own: Values, c: Ctx, other: Values, oc: Ctx, now: Values, it: Option<Dot>, oit: Option<Dot>) {
    && Walk(DotLess, own.Keys, other.Keys, now.Keys, it, oit)
    && Decided(own, c, other, oc, now, it, oit)
  }

  ghost predicate Decided(own: Values, c: Ctx, other: Values, oc: Ctx, now: Values, it: Option<Dot>, oit: Option<Dot>) {
    && (forall d :: d in own ==> (d in now <==> (Before(DotLess, d, it) ==> d in other || !oc.Contains(d))))
    && (forall d :: d in other && d !in own ==> (d in now <==> Before(DotLess, d, oit) && !c.Contains(d)))
    && (forall d :: d in now ==> d in own || d in other)
    && (forall d :: d in now ==> now[d] == if d in own then own[d] else other[d])
  }

  lemma NotBeforeItself(d: Dot)
    ensures !DotLess(d, d)
  {
    StringLessTotal(d.id, d.id);
  }

  lemma JoinStarts(own: Values, c: Ctx, other: Values, oc: Ctx)
    ensures Joining(own, c, other, oc, own, FirstDot(own.Keys), FirstDot(other.Keys))
  {
    WalkStart(DotLess, own.Keys, other.Keys) by { DotsOrdered(); }
  }

  lemma DecideOwn(own: Values, c: Ctx, other: Values, oc: Ctx, now: Values, it: Dot, oit: Option<Dot>,
                  next: Option<Dot>)
    requires Decided(own, c, other, oc, now, Some(it), oit) && it in own && it !in other
    requires forall x :: x in own ==> (Before(DotLess, x, next) <==> Before(DotLess, x, Some(it)) || x == it)
    requires !Before(DotLess, it, Some(it))
    ensures Decided(own, c, other, oc, if oc.Contains(it) then now - {it} else now, next, oit)
  {
  }

  lemma DecideOther(own: Values, c: Ctx, other: Values, oc: Ctx, now: Values, it: Option<Dot>, oit: Dot,
                    next: Option<Dot>)
    requires Decided(own, c, other, oc, now, it, Some(oit)) && oit in other && oit !in own && oit !in now
    requires forall x :: x in other ==> (Before(DotLess, x, next) <==> Before(DotLess, x, Some(oit)) || x == oit)
    ensures Decided(own, c, other, oc, if c.Contains(oit) then now else Insert(now, oit, other[oit]), it, next)
  {
  }

  lemma JoinOwn(own: Values, c: Ctx, other: Values, oc: Ctx, now: Values, it: Dot, oit: Option<Dot>)
    requires Joining(own, c, other, oc, now, Some(it), oit) && Before(DotLess, it, oit)
    ensures it in now
    ensures Joining(own, c, other, oc, if oc.Contains(it) then now - {it} else now, NextDot(now.Keys, it), oit)
    ensures Ahead(DotLess, own.Keys, NextDot(now.Keys, it)) < Ahead(DotLess, own.Keys, Some(it))
  {
    hide Next, Ahead, Decided;
    assert it in now && it in own && !Before(DotLess, it, Some(it)) by { DotsOrdered(); }
    hide Walk;
    WalkOwn(DotLess, own.Keys, other.Keys, now.Keys, it, oit, NextDot(now.Keys, it)) by { DotsOrdered(); }
    DecideOwn(own, c, other, oc, now, it, oit, NextDot(now.Keys, it));
    assert (now - {it}).Keys == now.Keys - {it};
  }

  lemma JoinOther(own: Values, c: Ctx, other: Values, oc: Ctx, now: Values, it: Option<Dot>, oit: Dot)
    requires Joining(own, c, other, oc, now, it, Some(oit)) && Before(DotLess, oit, it)
    ensures oit in other
    ensures var later := if c.Contains(oit) then now else Insert(now, oit, other[oit]);
      Joining(own, c, other, oc, later, it, NextDot(other.Keys, oit))
    ensures Ahead(DotLess, other.Keys, NextDot(other.Keys, oit)) < Ahead(DotLess, other.Keys, Some(oit))
  {
    hide Next, Ahead, Decided;
    assert oit in other;
    hide Walk;
    WalkOther(DotLess, own.Keys, other.Keys, now.Keys, it, oit, NextDot(other.Keys, oit)) by { DotsOrdered(); }
    DecideOther(own, c, other, oc, now, it, oit, NextDot(other.Keys, oit));
    assert Insert(now, oit, other[oit]).Keys == now.Keys + {oit};
  }

  lemma JoinBoth(own: Values, c: Ctx, other: Values, oc: Ctx, now: Values, it: Dot, oit: Dot)
    requires Joining(own, c, other, oc, now, Some(it), Some(oit)) && !DotLess(it, oit) && !DotLess(oit, it)
    ensures Joining(own, c, other, oc, now, NextDot(now.Keys, it), NextDot(other.Keys, oit))
    ensures Ahead(DotLess, own.Keys, NextDot(now.Keys, it)) < Ahead(DotLess, own.Keys, Some(it))
  {
    hide Next, Ahead;
    assert it == oit by { DotsOrdered(); }
    assert it in now && it in own && it in other;
    hide Walk;
    WalkBoth(DotLess, own.Keys, other.Keys, now.Keys, it, NextDot(now.Keys, it),
      NextDot(other.Keys, it)) by { DotsOrdered(); }
  }

  lemma JoinDone(own: Values, c: Ctx, other: Values, oc: Ctx, now: Values)
    requires Joining(own, c, other, oc, now, None, None)
    ensures now == KernelJoin(own, c, other, oc)
  {
  }
}
