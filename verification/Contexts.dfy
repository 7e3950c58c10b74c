/** Causal contexts: a version vector (per replica, every number up to a bound) plus a
    cloud of dots that do not yet join it. Ctx is the value of a context; the class
    DotContext is the object that the counters of one map share by reference. */
module Contexts {
  import opened Order

  type VectorClock = map<string, nat>

  datatype Ctx = Ctx(vc: VectorClock, dc: set<Dot>) {
    predicate Contains(d: Dot) {
      (d.id in vc && d.number <= vc[d.id]) || d in dc
    }

    /** A cloud dot that compact would move into the vector or drop. */
    predicate Absorbable(d: Dot) {
      d in dc && if d.id in vc then d.number <= vc[d.id] + 1 else d.number == 0
    }

    ghost predicate Compacted() {
      forall d :: d in dc ==> !Absorbable(d)
    }

    function Next(id: string): Dot {
      Dot(id, if id in vc then vc[id] + 1 else 1)
    }

    function Advance(id: string): Ctx {
      Ctx(vc[id := Next(id).number], dc)
    }
  }

  const EMPTY_CTX: Ctx := Ctx(map[], {})

  ghost predicate SameDots(a: Ctx, b: Ctx) {
    forall d :: a.Contains(d) <==> b.Contains(d)
  }

  /** Compaction is a normal form: what is contained fixes the vector and the cloud. */
  lemma {:induction false} NormalFormUnique(a: Ctx, b: Ctx)
    requires a.Compacted() && b.Compacted() && SameDots(a, b)
    ensures a == b
  {
    VectorFollows(a, b);
    VectorFollows(b, a);
    assert a.vc == b.vc;
    forall d: Dot
      ensures d in a.dc <==> d in b.dc
    {
      assert a.Contains(d) <==> b.Contains(d);
    }
  }

  lemma {:induction false} VectorFollows(a: Ctx, b: Ctx)
    requires a.Compacted() && b.Compacted() && SameDots(a, b)
    ensures forall id :: id in a.vc ==> id in b.vc && a.vc[id] <= b.vc[id]
  {
    forall id | id in a.vc
      ensures id in b.vc && a.vc[id] <= b.vc[id]
    {
      assert a.Contains(Dot(id, 0));
      assert id in b.vc;
      if b.vc[id] < a.vc[id] {
        var gap := Dot(id, b.vc[id] + 1);
        assert a.Contains(gap);
        assert gap in b.dc;
        assert b.Absorbable(gap);
      }
    }
  }

  ghost function Absorb(c: Ctx, d: Dot): (r: Ctx)
    requires c.Absorbable(d)
    ensures SameDots(c, r)
  {
    Ctx(if d.id in c.vc && d.number <= c.vc[d.id] then c.vc else c.vc[d.id := d.number], c.dc - {d})
  }

  /** The compacted form, by absorbing cloud dots in any order. */
  ghost function Compact(c: Ctx): (r: Ctx)
    ensures r.Compacted() && SameDots(c, r)
    ensures r.dc <= c.dc
    decreases |c.dc|
  {
    if d :| c.Absorbable(d) then Compact(Absorb(c, d)) else c
  }

  function MaxClock(a: VectorClock, b: VectorClock): (r: VectorClock) {
    map id | id in a.Keys + b.Keys ::
      if id in a && (id !in b || b[id] <= a[id]) then a[id] else b[id]
  }

  ghost function CtxJoin(a: Ctx, b: Ctx): (r: Ctx) {
    Compact(Ctx(MaxClock(a.vc, b.vc), a.dc + b.dc))
  }

  lemma CtxJoinContains(a: Ctx, b: Ctx)
    ensures CtxJoin(a, b).Compacted()
    ensures forall d :: CtxJoin(a, b).Contains(d) <==> a.Contains(d) || b.Contains(d)
  {
    assert SameDots(Ctx(MaxClock(a.vc, b.vc), a.dc + b.dc), CtxJoin(a, b));
  }

  /** Join is commutative and associative, and idempotent on compacted contexts. */
  lemma {:induction false} CtxJoinLattice(a: Ctx, b: Ctx, c: Ctx)
    ensures CtxJoin(a, b) == CtxJoin(b, a)
    ensures CtxJoin(CtxJoin(a, b), c) == CtxJoin(a, CtxJoin(b, c))
    ensures CtxJoin(a, a) == Compact(a)
    ensures a.Compacted() ==> CtxJoin(a, a) == a && CtxJoin(EMPTY_CTX, a) == a && CtxJoin(a, EMPTY_CTX) == a
  {
    CtxJoinContains(a, b);
    CtxJoinContains(b, a);
    CtxJoinContains(b, c);
    CtxJoinContains(CtxJoin(a, b), c);
    CtxJoinContains(a, CtxJoin(b, c));
    CtxJoinContains(a, a);
    CtxJoinContains(EMPTY_CTX, a);
    CtxJoinContains(a, EMPTY_CTX);
    NormalFormUnique(CtxJoin(a, b), CtxJoin(b, a));
    NormalFormUnique(CtxJoin(CtxJoin(a, b), c), CtxJoin(a, CtxJoin(b, c)));
    NormalFormUnique(CtxJoin(a, a), Compact(a));
    if a.Compacted() {
      NormalFormUnique(CtxJoin(a, a), a);
      NormalFormUnique(CtxJoin(EMPTY_CTX, a), a);
      NormalFormUnique(CtxJoin(a, EMPTY_CTX), a);
    }
  }

  /** Without a cloud the join is the pointwise maximum of the vectors. */
  lemma CloudFreeJoin(a: Ctx, b: Ctx)
    requires a.dc == {} && b.dc == {}
    ensures CtxJoin(a, b) == Ctx(MaxClock(a.vc, b.vc), {})
  {
    assert a.dc + b.dc == {};
  }

  class DotContext {
    var vc: VectorClock
    var dc: set<Dot>

    constructor ()
      ensures Value() == EMPTY_CTX
    {
      vc := map[];
      dc := {};
    }

    function Value(): Ctx
      reads this
    {
      Ctx(vc, dc)
    }

    method Assign(o: DotContext)
      modifies this
      ensures Value() == old(o.Value())
    {
      vc, dc := o.vc, o.dc;
    }

    /** fromJson: the vector is replaced, the cloud added to. */
    method Load(clock: VectorClock, cloud: set<Dot>)
      modifies this
      ensures Value() == Ctx(clock, old(dc) + cloud)
    {
      vc, dc := clock, dc + cloud;
    }

    method NextDotOf(id: string) returns (d: Dot)
      modifies this
      ensures d == old(Value()).Next(id)
      ensures Value() == old(Value()).Advance(id)
      ensures d.id == id && d.number == (if id in old(vc) then old(vc)[id] + 1 else 1)
      ensures vc == old(vc)[id := d.number] && dc == old(dc)
    {
      if id in vc {
        vc := vc[id := vc[id] + 1];
      } else {
        vc := vc[id := 1];
      }
      d := Dot(id, vc[id]);
    }

    /** The merge of the two sorted vectors in DotContext::join. */
    method JoinClock(o: DotContext)
      requires o != this
      modifies this`vc
      ensures vc == MaxClock(old(vc), o.vc)
    {
      ghost var own, other := vc, o.vc;
      hide Merging, NextKey, FirstKey, Ahead;
      var mit, oit := FirstKey(vc.Keys), FirstKey(o.vc.Keys);
      MergeStarts(own, other);
      while mit.Some? && oit.Some?
        invariant Merging(own, other, vc, mit, oit)
        decreases Ahead(StringLess, own.Keys, mit), Ahead(StringLess, other.Keys, oit)
      {
        var mnext, onext := NextKey(vc.Keys, mit.value), NextKey(o.vc.Keys, oit.value);
        if StringLess(mit.value, oit.value) {
          MergeOwn(own, other, vc, mit.value, oit);
          mit := mnext;
        } else if StringLess(oit.value, mit.value) {
          MergeOther(own, other, vc, mit, oit.value);
          vc := Insert(vc, oit.value, o.vc[oit.value]);
          oit := onext;
        } else {
          StringLessTotal(mit.value, oit.value);
          MergeBoth(own, other, vc, mit.value);
          if vc[mit.value] < o.vc[oit.value] {
            vc := vc[mit.value := o.vc[oit.value]];
          }
          mit, oit := mnext, onext;
        }
      }
      while oit.Some?
        invariant oit.Some? ==> mit.None?
        invariant Merging(own, other, vc, mit, oit)
        decreases Ahead(StringLess, other.Keys, oit)
      {
        MergeOther(own, other, vc, None, oit.value);
        vc := Insert(vc, oit.value, o.vc[oit.value]);
        oit := NextKey(o.vc.Keys, oit.value);
      }
      MergeDone(own, other, vc, mit);
    }

    /** Sweeps over the cloud until one sweep finds nothing to absorb. */
    method CompactCloud()
      modifies this
      ensures Value() == Compact(old(Value()))
    {
      hide Sweeping, SameDots, NextDot, FirstDot, Ahead;
      ghost var before := Value();
      SweepStarts(before);
      var flag := true;
      while flag
        invariant Sweeping(before, Value(), None, flag)
        decreases dc, flag
      {
        ghost var cloud := dc;
        var it := FirstDot(dc);
        SweepRestarts(before, Value(), flag);
        flag := false;
        while it.Some?
          invariant Sweeping(before, Value(), it, flag)
          invariant if flag then dc < cloud else dc == cloud
          decreases Ahead(DotLess, dc, it)
        {
          var d, next := it.value, NextDot(dc, it.value);
          SweepStep(before, Value(), d, flag);
          if d.id !in vc {
            if d.number == 0 {
              vc := Insert(vc, d.id, d.number);
              dc := dc - {d};
              flag := true;
            }
          } else if vc[d.id] + 1 == d.number {
            vc := vc[d.id := vc[d.id] + 1];
            dc := dc - {d};
            flag := true;
          } else if vc[d.id] >= d.number {
            dc := dc - {d};
            flag := true;
          }
          it := next;
        }
      }
      SweepEnds(before, Value());
    }

    method Join(o: DotContext)
      modifies this
      ensures Value() == if o == this then old(Value()) else CtxJoin(old(Value()), old(o.Value()))
    {
      if o == this {
        return;
      }
      JoinClock(o);
      hide FirstDot, NextDot, Ahead;
      ghost var clock, cloud := vc, dc;
      var it := FirstDot(o.dc);
      DotLoop(o.dc, None);
      while it.Some?
        invariant it.Some? ==> it.value in o.dc
        invariant vc == clock
        invariant dc == cloud + (o.dc - Ahead(DotLess, o.dc, it))
        decreases Ahead(DotLess, o.dc, it)
      {
        DotLoop(o.dc, it);
        dc := dc + {it.value};
        it := NextDot(o.dc, it.value);
      }
      assert dc == cloud + o.dc;
      CompactCloud();
    }
  }

  /** Partway through a sweep: nothing absorbed so far means nothing absorbable was passed. */
  ghost predicate Sweeping(before: Ctx, c: Ctx, it: Option<Dot>, flag: bool) {
    && SameDots(before, c)
    && (it.Some? ==> it.value in c.dc)
    && (!flag ==> forall d :: d in c.dc && Before(DotLess, d, it) ==> !c.Absorbable(d))
  }

  /** Partway through that merge: the other's entries before oit are in. */
  ghost predicate Merging(own: VectorClock, other: VectorClock, now: VectorClock, mit: Option<string>,
                          oit: Option<string>) {
    && Walk(StringLess, own.Keys, other.Keys, now.Keys, mit, oit)
    && Raised(own, other, now, oit)
  }

  ghost predicate Raised(own: VectorClock, other: VectorClock, now: VectorClock, oit: Option<string>) {
    && (forall k :: k in now <==> k in own || (k in other && Before(StringLess, k, oit)))
    && (forall k :: k in now && !(k in other && Before(StringLess, k, oit)) ==> now[k] == own[k])
    && (forall k :: k in now && k in other && Before(StringLess, k, oit) ==>
      now[k] == if k in own && other[k] <= own[k] then own[k] else other[k])
  }

  lemma RaiseOne(own: VectorClock, other: VectorClock, now: VectorClock, oit: string, onext: Option<string>)
    requires Raised(own, other, now, Some(oit)) && oit in other
    requires oit in now ==> oit in own && now[oit] == own[oit]
    requires forall x :: x in other ==> (Before(StringLess, x, onext) <==> Before(StringLess, x, Some(oit)) || x == oit)
    ensures Raised(own, other, if oit in now && other[oit] <= now[oit] then now else now[oit := other[oit]], onext)
  {
  }

  lemma MergeStarts(own: VectorClock, other: VectorClock)
    ensures Merging(own, other, own, FirstKey(own.Keys), FirstKey(other.Keys))
  {
    WalkStart(StringLess, own.Keys, other.Keys) by { StringsOrdered(); }
  }

  lemma MergeOwn(own: VectorClock, other: VectorClock, now: VectorClock, mit: string, oit: Option<string>)
    requires Merging(own, other, now, Some(mit), oit) && Before(StringLess, mit, oit)
    ensures Merging(own, other, now, NextKey(now.Keys, mit), oit)
    ensures Ahead(StringLess, own.Keys, NextKey(now.Keys, mit)) < Ahead(StringLess, own.Keys, Some(mit))
  {
    hide Raised, Next, Ahead, Walk;
    WalkOwn(StringLess, own.Keys, other.Keys, now.Keys, mit, oit, NextKey(now.Keys, mit)) by { StringsOrdered(); }
  }

  lemma MergeOther(own: VectorClock, other: VectorClock, now: VectorClock, mit: Option<string>, oit: string)
    requires Merging(own, other, now, mit, Some(oit)) && Before(StringLess, oit, mit)
    ensures oit in other && Merging(own, other, Insert(now, oit, other[oit]), mit, NextKey(other.Keys, oit))
    ensures Ahead(StringLess, other.Keys, NextKey(other.Keys, oit)) < Ahead(StringLess, other.Keys, Some(oit))
  {
    hide Raised, Next, Ahead;
    assert oit in other;
    hide Walk;
    WalkOther(StringLess, own.Keys, other.Keys, now.Keys, mit, oit, NextKey(other.Keys, oit)) by { StringsOrdered(); }
    RaiseOne(own, other, now, oit, NextKey(other.Keys, oit));
    assert Insert(now, oit, other[oit]).Keys == now.Keys + {oit};
  }

  lemma MergeBoth(own: VectorClock, other: VectorClock, now: VectorClock, it: string)
    requires Merging(own, other, now, Some(it), Some(it))
    ensures it in now && it in other
    ensures var later := if now[it] < other[it] then now[it := other[it]] else now;
      Merging(own, other, later, NextKey(now.Keys, it), NextKey(other.Keys, it))
    ensures Ahead(StringLess, own.Keys, NextKey(now.Keys, it)) < Ahead(StringLess, own.Keys, Some(it))
  {
    hide Next, Ahead;
    assert it in now && it in other && it in own && now[it] == own[it] by { StringsOrdered(); }
    hide Walk, Raised;
    WalkBoth(StringLess, own.Keys, other.Keys, now.Keys, it, NextKey(now.Keys, it),
      NextKey(other.Keys, it)) by { StringsOrdered(); }
    RaiseOne(own, other, now, it, NextKey(other.Keys, it));
    assert now[it := other[it]].Keys == now.Keys;
  }

  lemma MergeDone(own: VectorClock, other: VectorClock, now: VectorClock, mit: Option<string>)
    requires Merging(own, other, now, mit, None)
    ensures now == MaxClock(own, other)
  {
  }

  lemma SweepStarts(before: Ctx)
    ensures Sweeping(before, before, None, true)
  {
  }

  lemma SweepRestarts(before: Ctx, c: Ctx, flag: bool)
    requires Sweeping(before, c, None, flag)
    ensures Sweeping(before, c, FirstDot(c.dc), false)
  {
    DotsOrdered();
  }

  lemma SweepEnds(before: Ctx, c: Ctx)
    requires Sweeping(before, c, None, false)
    ensures c == Compact(before)
  {
    NormalFormUnique(c, Compact(before));
  }

  lemma SweepStep(before: Ctx, c: Ctx, d: Dot, flag: bool)
    requires Sweeping(before, c, Some(d), flag)
    ensures d in c.dc
    ensures !c.Absorbable(d) ==> Sweeping(before, c, NextDot(c.dc, d), flag)
    ensures c.Absorbable(d) ==> Sweeping(before, Absorb(c, d), NextDot(c.dc, d), true)
    ensures Ahead(DotLess, c.dc, NextDot(c.dc, d)) < Ahead(DotLess, c.dc, Some(d))
    ensures Ahead(DotLess, c.dc - {d}, NextDot(c.dc, d)) < Ahead(DotLess, c.dc, Some(d))
  {
    WalkStep(DotLess, c.dc, d, NextDot(c.dc, d)) by { DotsOrdered(); }
  }
}
