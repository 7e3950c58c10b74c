/** The observed-remove map: item names to counters that all share the map's one context. */
module ORMaps {
  import opened Order
  import opened Contexts
  import opened Counters
  import opened States

  /** A counter with the context it refers to, as a value. */
  datatype Kernel = Kernel(values: Values, ctx: Ctx)

  /** The join of all entries at once, each against the contexts as they were before. An
      absent entry of the other side counts as empty in the other map's context. */
  function JoinEntries(own: map<string, Values>, c: Ctx, other: map<string, Kernel>, oc: Ctx): map<string, Values> {
    map k | k in own.Keys + other.Keys ::
      if k in other then KernelJoin(Entry(own, k), c, other[k].values, other[k].ctx)
      else KernelJoin(own[k], c, map[], oc)
  }

  /** Counters that all refer to their own map's context make this the join of states. */
  lemma JoinEntriesIsJoin(a: State, b: State, other: map<string, Kernel>)
    requires other.Keys == b.live.Keys && forall k :: k in other ==> other[k] == Kernel(b.live[k], b.ctx)
    ensures State(CtxJoin(a.ctx, b.ctx), JoinEntries(a.live, a.ctx, other, b.ctx)) == States.Join(a, b)
  {
  }

  class ORMap {
    const context: DotContext
    var entries: map<string, CausalCounter>
    /** The objects the map is made of: its context, its counters, and what they refer to. */
    ghost var repr: set<object>

    constructor ()
      ensures Wired() && fresh(repr) && View() == EMPTY_STATE
    {
      context := new DotContext();
      entries, repr := map[], {context};
      new;
      assert Live() == map[];
    }

    ghost predicate Owned()
      reads this
    {
      && context in repr && this !in repr
      && (forall k :: k in entries ==> entries[k] in repr && entries[k].context in repr)
    }

    /** Every entry has a counter of its own, and all of them refer to the map's context. */
    ghost predicate Wired()
      reads this
    {
      && Owned()
      && (forall j, k :: j in entries && k in entries && j != k ==> entries[j] != entries[k])
      && (forall k :: k in entries ==> entries[k].context == context)
    }

    ghost function Live(): map<string, Values>
      requires Owned()
      reads this, repr
      ensures Live().Keys == entries.Keys
    {
      map k | k in entries :: entries[k].values
    }

    ghost function Kernels(): map<string, Kernel>
      requires Owned()
      reads this, repr
      ensures Kernels().Keys == entries.Keys
    {
      map k | k in entries :: Kernel(entries[k].values, entries[k].context.Value())
    }

    ghost function View(): State
      requires Owned()
      reads this, repr
    {
      State(context.Value(), Live())
    }

    /** operator[] */
    method At(k: string) returns (counter: CausalCounter)
      requires Wired()
      modifies this
      ensures Wired() && k in entries && counter == entries[k] && fresh(repr - old(repr))
      ensures k in old(entries) ==> entries == old(entries) && repr == old(repr)
      ensures k !in old(entries) ==> entries == old(entries)[k := counter] && fresh(counter) && counter.values == map[]
      ensures Live() == Insert(old(Live()), k, map[])
    {
      hide Live;
      if k !in entries {
        counter := new CausalCounter(context);
        entries, repr := entries[k := counter], repr + {counter};
        OneAdded(k);
      }
      counter := entries[k];
    }

    twostate lemma OneAdded(k: string)
      requires old(Owned()) && Owned() && k !in old(entries) && k in entries && entries == old(entries)[k := entries[k]]
      requires entries[k].values == map[]
      requires forall j :: j in old(entries) ==> entries[j].values == old(entries[j].values)
      ensures Live() == Insert(old(Live()), k, map[])
    {
    }

    /** map[k] = a counter made on its own, which keeps a context of its own. */
    method Put(k: string, values: Values)
      requires Owned()
      modifies this
      ensures Owned() && fresh(repr - old(repr))
      ensures entries.Keys == old(entries.Keys) + {k}
      ensures Kernels() == old(Kernels())[k := Kernel(values, EMPTY_CTX)]
    {
      hide Kernels, Live;
      var own := new DotContext();
      var counter := new CausalCounter(own);
      counter.values := values;
      entries, repr := entries[k := counter], repr + {counter, own};
      OnePut(k);
    }

    twostate lemma OnePut(k: string)
      requires old(Owned()) && Owned() && k in entries && entries == old(entries)[k := entries[k]]
      requires forall j :: j in old(entries) ==> entries[j] == old(entries[j]) || j == k
      requires forall c: CausalCounter :: c in old(repr) ==> c.values == old(c.values)
      requires forall c: DotContext :: c in old(repr) ==> c.Value() == old(c.Value())
      ensures Kernels() == old(Kernels())[k := Kernel(entries[k].values, entries[k].context.Value())]
    {
    }

    /** map[k].inc(id, v) */
    method Inc(k: string, id: string, v: int)
      requires Wired()
      modifies this, repr
      ensures Wired() && fresh(repr - old(repr))
      ensures View() == Edit(old(View()), k, id, v)
    {
      hide Update, Contexts.Ctx.Advance;
      ghost var before := View();
      var counter := At(k);
      assert counter.values == before.At(k) && context.Value() == before.ctx;
      ghost var live := Live();
      label ready:
      hide Live;
      counter.Inc(id, v);
      OneChanged@ready(k);
      InsertThenUpdate(before.live, k, map[], counter.values);
    }

    /** map[k].dec(id, v) */
    method Dec(k: string, id: string, v: int)
      requires Wired()
      modifies this, repr
      ensures Wired() && fresh(repr - old(repr))
      ensures View() == Edit(old(View()), k, id, -v)
    {
      hide Update, Contexts.Ctx.Advance;
      ghost var before := View();
      var counter := At(k);
      assert counter.values == before.At(k) && context.Value() == before.ctx;
      ghost var live := Live();
      label ready:
      hide Live;
      counter.Dec(id, v);
      OneChanged@ready(k);
      InsertThenUpdate(before.live, k, map[], counter.values);
    }

    method Remove(k: string)
      requires Wired()
      modifies this, repr
      ensures Wired() && repr == old(repr) && View() == Drop(old(View()), k)
    {
      hide Live, Wired, Owned;
      KeyIs(k);
      if k !in entries {
        // operator[] would make a counter here that is erased at once
        return;
      }
      entries[k].Reset();
      entries := entries - {k};
      OneGone(k);
    }

    lemma KeyIs(k: string)
      requires Wired()
      ensures Owned() && (k in entries ==> entries[k] in repr) && (k !in entries ==> Drop(View(), k) == View())
    {
      assert k !in entries ==> Live() - {k} == Live();
    }

    twostate lemma OneGone(k: string)
      requires old(Wired()) && k in old(entries) && entries == old(entries) - {k} && repr == old(repr)
      requires forall c: CausalCounter :: c in old(repr) && c != old(entries)[k] ==> c.values == old(c.values)
      requires context.Value() == old(context.Value())
      ensures Wired() && View() == Drop(old(View()), k)
    {
      assert Owned() && Live() == old(Live()) - {k};
    }

    method Reset()
      requires Wired()
      modifies this, repr
      ensures Wired() && entries == map[] && repr == old(repr) && context.Value() == old(context.Value())
    {
      hide FirstKey, NextKey, Ahead;
      var it := FirstKey(entries.Keys);
      KeyLoop(entries.Keys, None);
      while it.Some?
        invariant entries == old(entries) && repr == old(repr) && context.Value() == old(context.Value())
        invariant it.Some? ==> it.value in entries
        decreases Ahead(StringLess, entries.Keys, it)
      {
        KeyLoop(entries.Keys, it);
        entries[it.value].Reset();
        it := NextKey(entries.Keys, it.value);
      }
      entries := map[];
    }

    /** entries[k].join(o), after which the shared context is put back. */
    method MergeEntry(k: string, o: CausalCounter, initial: DotContext)
      requires Wired() && k in entries && o !in repr && o.context !in repr && initial !in repr
      requires initial.Value() == context.Value()
      modifies repr
      ensures Wired() && context.Value() == old(context.Value())
      ensures var joined := KernelJoin(old(entries[k].values), old(context.Value()), o.values, old(o.context.Value()));
        Live() == old(Live())[k := joined]
    {
      hide KernelJoin, CtxJoin, Live;
      entries[k].Join(o);
      context.Assign(initial);
      OneChanged(k);
    }

    twostate lemma OneChanged(k: string)
      requires old(Owned()) && Owned()
      requires k in entries && entries == old(entries)
      requires forall j :: j in entries && j != k ==> entries[j].values == old(entries[j].values)
      ensures Live() == old(Live())[k := entries[k].values]
    {
    }

    twostate lemma NoneChanged()
      requires old(Owned()) && Owned() && entries == old(entries)
      requires forall j :: j in entries ==> entries[j].values == old(entries[j].values)
      ensures Live() == old(Live())
    {
    }

    /** The join of two maps that share no counter and no context. */
    ghost predicate Apart(o: ORMap)
      reads this, o
      ensures Apart(o) ==> Wired() && Owned() && context in repr
      ensures Apart(o) ==> o.Owned() && o != this && o !in repr && o.context !in repr
    {
      Wired() && o.Owned() && o != this && o !in repr && this !in o.repr && repr !! o.repr
    }

    /** Entry k, and the counter of o it is joined with: an empty one in o's context if o has none. */
    method Partner(k: string, o: ORMap) returns (v: CausalCounter)
      requires Apart(o)
      modifies this
      ensures Apart(o) && fresh(repr - old(repr)) && k in entries
      ensures o.Kernels() == old(o.Kernels()) && o.context.Value() == old(o.context.Value())
      ensures context.Value() == old(context.Value())
      ensures Live() == Insert(old(Live()), k, map[])
      ensures v !in repr && v.context !in repr
      ensures k in o.entries ==> Kernel(v.values, v.context.Value()) == o.Kernels()[k]
      ensures k !in o.entries ==> v.values == map[] && v.context == o.context
    {
      hide Live, Kernels, Wired, Owned, Apart, Insert;
      PartnerIs(k, o);
      if k in o.entries {
        v := o.entries[k];
      } else {
        v := new CausalCounter(o.context);
      }
      var _ := At(k);
      StaysApart(o);
    }

    lemma PartnerIs(k: string, o: ORMap)
      requires Apart(o)
      ensures o.repr !! repr && o.context in o.repr && this !in o.repr
      ensures k in o.entries ==> o.entries[k] in o.repr && o.entries[k].context in o.repr
      ensures k in o.entries ==> Kernel(o.entries[k].values, o.entries[k].context.Value()) == o.Kernels()[k]
    {
    }

    twostate lemma StaysApart(o: ORMap)
      requires old(Apart(o)) && Wired() && fresh(repr - old(repr)) && o.repr == old(o.repr)
      requires o.entries == old(o.entries)
      ensures Apart(o)
    {
    }

    /** o is as it was, and so is the context, of which `initial` is a copy. */
    ghost predicate Steady(o: ORMap, initial: DotContext, c: Ctx, other: map<string, Kernel>, oc: Ctx)
      reads this, repr, o, o.repr, initial
    {
      && Apart(o) && initial !in repr + o.repr && context.Value() == c == initial.Value()
      && o.Kernels() == other && o.context.Value() == oc
    }

    lemma StartsSteady(o: ORMap, initial: DotContext)
      requires Apart(o) && initial !in repr + o.repr && initial.Value() == context.Value()
      ensures Steady(o, initial, context.Value(), o.Kernels(), o.context.Value())
    {
    }

    lemma SteadyIs(o: ORMap, initial: DotContext, c: Ctx, other: map<string, Kernel>, oc: Ctx)
      requires Steady(o, initial, c, other, oc)
      ensures Apart(o) && context.Value() == c && o.context.Value() == oc
      ensures Kernels().Keys == entries.Keys && other.Keys == o.entries.Keys && Live().Keys == entries.Keys
    {
    }

    method MergeFrom(k: string, o: ORMap, initial: DotContext, ghost c: Ctx, ghost other: map<string, Kernel>,
                     ghost oc: Ctx, ghost joined: Values)
      requires Owned() && Steady(o, initial, c, other, oc)
      requires joined == if k in other then KernelJoin(Entry(Live(), k), c, other[k].values, other[k].ctx)
        else KernelJoin(Entry(Live(), k), c, map[], oc)
      modifies this, repr
      ensures Owned() && Steady(o, initial, c, other, oc) && fresh(repr - old(repr))
      ensures Live() == old(Live())[k := joined]
    {
      hide KernelJoin, Kernels;
      ghost var live := Live();
      var v := Partner(k, o);
      assert entries[k].values == Live()[k] == Entry(live, k);
      hide Live, Entry;
      MergeEntry(k, v, initial);
      InsertThenUpdate(live, k, map[], joined);
    }

    /** ORMap::join: a sorted walk over both maps that joins entry by entry, putting the
        context back after each one and joining the contexts only at the end. */
    method Join(o: ORMap)
      requires Apart(o)
      modifies this, repr
      ensures Wired() && fresh(repr - old(repr))
      ensures Live() == JoinEntries(old(Live()), old(context.Value()), old(o.Kernels()), old(o.context.Value()))
      ensures context.Value() == CtxJoin(old(context.Value()), old(o.context.Value()))
    {
      hide *;
      ghost var own, c, other, oc := Live(), context.Value(), o.Kernels(), o.context.Value();
      ghost var goal := JoinEntries(own, c, other, oc);
      var initial := new DotContext();
      initial.Assign(context);
      var it, oit := FirstKey(entries.Keys), FirstKey(o.entries.Keys);
      assert Steady(o, initial, c, other, oc) by { StartsSteady(o, initial); }
      ProgressStarts(own, c, other, oc);
      while it.Some? && oit.Some?
        invariant Owned() && Steady(o, initial, c, other, oc) && fresh(repr - old(repr))
        invariant Progress(own, other.Keys, goal, Live(), it, oit)
        decreases Ahead(StringLess, own.Keys, it), Ahead(StringLess, other.Keys, oit)
      {
        var next, onext := NextKey(entries.Keys, it.value), NextKey(o.entries.Keys, oit.value);
        if StringLess(it.value, oit.value) {
          ProgressOwn(own, c, other, oc, Live(), it.value, oit);
          MergeFrom(it.value, o, initial, c, other, oc, goal[it.value]);
          it := next;
        } else if StringLess(oit.value, it.value) {
          ProgressOther(own, c, other, oc, Live(), it, oit.value);
          MergeFrom(oit.value, o, initial, c, other, oc, goal[oit.value]);
          oit := onext;
        } else {
          ProgressBoth(own, c, other, oc, Live(), it.value, oit.value);
          MergeFrom(it.value, o, initial, c, other, oc, goal[it.value]);
          it, oit := next, onext;
        }
      }
      JoinRest(o, initial, own, c, other, oc, it, oit);
      SteadyIs(o, initial, c, other, oc);
      ProgressEnds(own, other.Keys, goal, Live());
      JoinContexts(o);
    }

    /** The rest of the walk, when one of the two maps has come to its end. */
    method JoinRest(o: ORMap, initial: DotContext, ghost own: map<string, Values>, ghost c: Ctx,
                    ghost other: map<string, Kernel>, ghost oc: Ctx,
                    first: Option<string>, ofirst: Option<string>)
      requires Owned() && Steady(o, initial, c, other, oc) && (first.None? || ofirst.None?)
      requires Progress(own, other.Keys, JoinEntries(own, c, other, oc), Live(), first, ofirst)
      modifies this, repr
      ensures Owned() && Steady(o, initial, c, other, oc) && fresh(repr - old(repr))
      ensures Progress(own, other.Keys, JoinEntries(own, c, other, oc), Live(), None, None)
    {
      hide *;
      ghost var goal := JoinEntries(own, c, other, oc);
      var it, oit := first, ofirst;
      while it.Some?
        invariant it.Some? ==> oit.None?
        invariant Owned() && Steady(o, initial, c, other, oc) && fresh(repr - old(repr))
        invariant Progress(own, other.Keys, goal, Live(), it, oit)
        decreases Ahead(StringLess, own.Keys, it)
      {
        SteadyIs(o, initial, c, other, oc);
        var next := NextKey(entries.Keys, it.value);
        ProgressOwn(own, c, other, oc, Live(), it.value, None);
        MergeFrom(it.value, o, initial, c, other, oc, goal[it.value]);
        it := next;
      }
      while oit.Some?
        invariant it.None?
        invariant Owned() && Steady(o, initial, c, other, oc) && fresh(repr - old(repr))
        invariant Progress(own, other.Keys, goal, Live(), it, oit)
        decreases Ahead(StringLess, other.Keys, oit)
      {
        ProgressOther(own, c, other, oc, Live(), None, oit.value);
        MergeFrom(oit.value, o, initial, c, other, oc, goal[oit.value]);
        SteadyIs(o, initial, c, other, oc);
        oit := NextKey(o.entries.Keys, oit.value);
      }
    }

    /** The same walk when o is this map: both iterators stand on the same entry at every turn,
        which is joined with itself, and the context with itself at the end. */
    method JoinSelf()
      requires Wired()
      modifies this, repr
      ensures Wired() && repr == old(repr) && View() == old(View())
    {
      hide FirstKey, NextKey, Ahead, KernelJoin, CtxJoin, Live;
      ghost var own, c := Live(), context.Value();
      var initial := new DotContext();
      initial.Assign(context);
      var it := FirstKey(entries.Keys);
      KeyLoop(entries.Keys, None);
      while it.Some?
        invariant Wired() && entries == old(entries) && repr == old(repr)
        invariant Live() == own && context.Value() == c == initial.Value() && initial !in repr
        invariant it.Some? ==> it.value in entries
        decreases Ahead(StringLess, entries.Keys, it)
      {
        KeyLoop(entries.Keys, it);
        JoinEntryWithItself(it.value, initial);
        it := NextKey(entries.Keys, it.value);
      }
      JoinContextWithItself();
    }

    method JoinContextWithItself()
      requires Wired()
      modifies context
      ensures View() == old(View())
    {
      hide Live;
      context.Join(context);
      NoneChanged();
    }

    /** entries[k].join(entries[k]), after which the shared context is put back. */
    method JoinEntryWithItself(k: string, initial: DotContext)
      requires Wired() && k in entries && initial !in repr && initial.Value() == context.Value()
      modifies entries[k], context
      ensures Wired() && Live() == old(Live()) && context.Value() == old(context.Value())
    {
      hide Live, KernelJoin, CtxJoin;
      entries[k].Join(entries[k]);
      context.Assign(initial);
      NoneChanged();
    }

    /** The end of a join: only the shared context changes. */
    method JoinContexts(o: ORMap)
      requires Apart(o)
      modifies context
      ensures Apart(o) && Live() == old(Live())
      ensures context.Value() == CtxJoin(old(context.Value()), old(o.context.Value()))
    {
      hide CtxJoin, Live;
      context.Join(o.context);
      NoneChanged();
    }
  }

  /** Partway through that walk: the entries it has passed are as in the goal, the rest untouched. */
  ghost predicate Progress(own: map<string, Values>, other: set<string>, goal: map<string, Values>,
                           now: map<string, Values>, it: Option<string>, oit: Option<string>) {
    && Walk(StringLess, own.Keys, other, now.Keys, it, oit)
    && Settled(own, other, goal, now, it, oit)
  }

  ghost predicate Settled(own: map<string, Values>, other: set<string>, goal: map<string, Values>,
                          now: map<string, Values>, it: Option<string>, oit: Option<string>) {
    && goal.Keys == own.Keys + other
    && (forall k :: k in own ==> k in now)
    && (forall k :: k in other && Before(StringLess, k, oit) ==> k in now)
    && (forall k :: k in now ==> k in goal)
    && (forall k :: k in now ==> now[k] == if k in own && !Before(StringLess, k, it) then own[k] else goal[k])
  }

  lemma InsertThenUpdate(m: map<string, Values>, k: string, v: Values, w: Values)
    ensures Insert(m, k, v)[k := w] == m[k := w]
  {
  }

  lemma ProgressStarts(own: map<string, Values>, c: Ctx, other: map<string, Kernel>, oc: Ctx)
    ensures Progress(own, other.Keys, JoinEntries(own, c, other, oc), own, FirstKey(own.Keys), FirstKey(other.Keys))
  {
    hide KernelJoin;
    WalkStart(StringLess, own.Keys, other.Keys) by { StringsOrdered(); }
  }

  lemma Settle(own: map<string, Values>, other: set<string>, goal: map<string, Values>, now: map<string, Values>,
               k: string,
               it: Option<string>, oit: Option<string>, next: Option<string>, onext: Option<string>)
    requires Settled(own, other, goal, now, it, oit) && k in goal
    requires forall x :: x in own ==> (Before(StringLess, x, next) <==> Before(StringLess, x, it) || x == k)
    requires forall x :: x in other ==> (Before(StringLess, x, onext) <==> Before(StringLess, x, oit) || x == k)
    ensures Settled(own, other, goal, now[k := goal[k]], next, onext)
  {
  }

  lemma Untouched(own: map<string, Values>, other: set<string>, goal: map<string, Values>, now: map<string, Values>,
                  it: string, oit: Option<string>)
    requires Settled(own, other, goal, now, Some(it), oit) && it in own && !Before(StringLess, it, Some(it))
    ensures it in now && now[it] == own[it]
  {
  }

  /** The entry due next still has its old values, and joining it advances the walk. */
  lemma ProgressOwn(own: map<string, Values>, c: Ctx, other: map<string, Kernel>, oc: Ctx, now: map<string, Values>,
                    it: string, oit: Option<string>)
    requires Progress(own, other.Keys, JoinEntries(own, c, other, oc), now, Some(it), oit)
    requires (oit.Some? ==> StringLess(it, oit.value))
    ensures var goal := JoinEntries(own, c, other, oc); var next := NextKey(now.Keys, it);
      && it !in other && it in now && it in goal && goal[it] == KernelJoin(Entry(now, it), c, map[], oc)
      && Progress(own, other.Keys, goal, now[it := goal[it]], next, oit)
      && Ahead(StringLess, own.Keys, next) < Ahead(StringLess, own.Keys, Some(it))
  {
    hide Next, Ahead, KernelJoin, Settled;
    var goal, next := JoinEntries(own, c, other, oc), NextKey(now.Keys, it);
    assert it in now && it in own && !Before(StringLess, it, Some(it)) by { StringsOrdered(); }
    Untouched(own, other.Keys, goal, now, it, oit);
    hide Walk;
    WalkOwn(StringLess, own.Keys, other.Keys, now.Keys, it, oit, next) by { StringsOrdered(); }
    Settle(own, other.Keys, goal, now, it, Some(it), oit, next, oit);
    assert now[it := goal[it]].Keys == now.Keys;
  }

  lemma StillOwn(own: map<string, Values>, other: set<string>, goal: map<string, Values>, now: map<string, Values>,
                 it: Option<string>, oit: string)
    requires Settled(own, other, goal, now, it, Some(oit)) && Walk(StringLess, own.Keys, other, now.Keys, it, Some(oit))
    requires (it.Some? ==> StringLess(oit, it.value)) && StrictTotalOrder(StringLess)
    ensures oit in other && Entry(now, oit) == Entry(own, oit)
  {
  }

  lemma GoalAt(own: map<string, Values>, c: Ctx, other: map<string, Kernel>, oc: Ctx, k: string)
    requires k in other
    ensures var goal := JoinEntries(own, c, other, oc);
      k in goal && goal[k] == KernelJoin(Entry(own, k), c, other[k].values, other[k].ctx)
  {
    hide KernelJoin, Entry;
  }

  lemma ProgressOther(own: map<string, Values>, c: Ctx, other: map<string, Kernel>, oc: Ctx, now: map<string, Values>,
                      it: Option<string>, oit: string)
    requires Progress(own, other.Keys, JoinEntries(own, c, other, oc), now, it, Some(oit))
    requires (it.Some? ==> StringLess(oit, it.value))
    ensures var goal := JoinEntries(own, c, other, oc); var onext := NextKey(other.Keys, oit);
      && oit in other && oit in goal && goal[oit] == KernelJoin(Entry(now, oit), c, other[oit].values, other[oit].ctx)
      && Progress(own, other.Keys, goal, now[oit := goal[oit]], it, onext)
      && Ahead(StringLess, other.Keys, onext) < Ahead(StringLess, other.Keys, Some(oit))
  {
    var goal, onext := JoinEntries(own, c, other, oc), NextKey(other.Keys, oit);
    hide Next, Ahead, KernelJoin, Settled, Walk, JoinEntries, Entry;
    StillOwn(own, other.Keys, goal, now, it, oit) by { StringsOrdered(); }
    GoalAt(own, c, other, oc, oit);
    WalkOther(StringLess, own.Keys, other.Keys, now.Keys, it, oit, onext) by { StringsOrdered(); }
    Settle(own, other.Keys, goal, now, oit, it, Some(oit), it, onext);
    assert now[oit := goal[oit]].Keys == now.Keys + {oit};
  }

  lemma ProgressBoth(own: map<string, Values>, c: Ctx, other: map<string, Kernel>, oc: Ctx, now: map<string, Values>,
                     it: string, oit: string)
    requires Progress(own, other.Keys, JoinEntries(own, c, other, oc), now, Some(it), Some(oit))
    requires !StringLess(it, oit) && !StringLess(oit, it)
    ensures var goal := JoinEntries(own, c, other, oc);
      var next, onext := NextKey(now.Keys, it), NextKey(other.Keys, oit);
      && it in now && it == oit && it in other && it in goal
      && goal[it] == KernelJoin(Entry(now, it), c, other[it].values, other[it].ctx)
      && Progress(own, other.Keys, goal, now[it := goal[it]], next, onext)
      && Ahead(StringLess, own.Keys, next) < Ahead(StringLess, own.Keys, Some(it))
  {
    hide Next, Ahead, KernelJoin, Settled;
    StringLessTotal(it, oit);
    var goal, next, onext := JoinEntries(own, c, other, oc), NextKey(now.Keys, it), NextKey(other.Keys, oit);
    assert it in now && it in own && it in other && !Before(StringLess, it, Some(it)) by { StringsOrdered(); }
    Untouched(own, other.Keys, goal, now, it, Some(oit));
    hide Walk;
    WalkBoth(StringLess, own.Keys, other.Keys, now.Keys, it, next, onext) by { StringsOrdered(); }
    Settle(own, other.Keys, goal, now, it, Some(it), Some(oit), next, onext);
    assert now[it := goal[it]].Keys == now.Keys;
  }

  lemma ProgressEnds(own: map<string, Values>, other: set<string>, goal: map<string, Values>, now: map<string, Values>)
    requires Progress(own, other, goal, now, None, None)
    ensures now == goal
  {
  }
}
