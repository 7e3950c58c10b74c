/** Shopping lists: the user's operations, joining, the JSON codec, and the worker's store. */
module ShoppingLists {
  import opened Order
  import opened Contexts
  import opened Counters
  import opened States
  import opened ORMaps
  import opened Json
  import opened Replication

  /** ShoppingList::join on values: a list without title and url takes the other's; lists
      with different title or url stay apart. */
  ghost function JoinLists(a: List, b: List): List {
    var named := if a.url == "" && a.title == "" then a.(url := b.url, title := b.title) else a;
    if named.title != b.title || named.url != b.url then named
    else named.(state := States.Join(a.state, b.state))
  }

  /** What an increase or a decrease does to the items: the replica's contribution to this one is
      now what it was, or 0 if that was negative, and the amount; with several dots of its
      own, as a tree from elsewhere may have them, the largest counts. No other replica's
      contribution and no other item has changed. */
  ghost predicate Changed(s: State, t: State, k: string, id: string, amount: int) {
    && Contribution(t.At(k), id) == Peak(s.At(k), id) + amount
    && ((forall d, e :: d in OwnDots(s.At(k), id) && e in OwnDots(s.At(k), id) ==> d == e) ==>
      Contribution(t.At(k), id) == Max(0, Contribution(s.At(k), id)) + amount)
    && (forall r :: r != id ==> Contribution(t.At(k), r) == Contribution(s.At(k), r))
    && (forall j :: j != k ==> t.At(j) == s.At(j))
  }

  lemma DropAt(s: State, k: string)
    ensures Drop(s, k).ctx == s.ctx && forall j :: Drop(s, k).At(j) == if j == k then map[] else s.At(j)
  {
  }

  lemma EditChanges(s: State, k: string, id: string, amount: int)
    ensures Changed(s, Edit(s, k, id, amount), k, id, amount)
  {
    UpdateContributes(s.At(k), s.ctx, id, amount);
    if forall d, e :: d in OwnDots(s.At(k), id) && e in OwnDots(s.At(k), id) ==> d == e {
      SoleDot(s.At(k), id);
    }
    hide Contribution, Peak, Update;
  }

  class ShoppingList {
    var id: string
    var title: string
    var url: string
    const items: ORMap

    constructor (id: string, title: string, url: string)
      ensures this.id == id && this.title == title && this.url == url
      ensures Wired() && fresh(items) && fresh(items.repr) && items.View() == EMPTY_STATE
    {
      this.id, this.title, this.url := id, title, url;
      items := new ORMap();
    }

    ghost predicate Wired()
      reads this, items
      ensures Wired() ==> items.Owned()
    {
      items.Wired() && this !in items.repr
    }

    ghost function Value(): List
      requires Wired()
      reads this, items, items.repr
    {
      List(id, title, url, items.View())
    }

    method SetId(id: string)
      requires Wired()
      modifies this
      ensures Wired() && Value() == old(Value()).(id := id)
    {
      this.id := id;
    }

    method GetQuantity(name: string) returns (q: int)
      requires Wired()
      ensures q == items.View().Quantity(name)
    {
      if name in items.entries {
        q := items.entries[name].Read();
      } else {
        q := 0;
      }
    }

    method Contains(name: string) returns (r: bool)
      requires Wired()
      ensures r <==> items.View().Quantity(name) > 0
    {
      var q := GetQuantity(name);
      r := q > 0;
    }

    /** The items on show: those with a positive quantity. */
    method GetItemsSet() returns (res: set<(string, int)>)
      requires Wired()
      ensures forall k, q :: (k, q) in res <==> q > 0 && q == items.View().Quantity(k)
    {
      hide FirstKey, NextKey, Ahead, Sum;
      res := {};
      var it := FirstKey(items.entries.Keys);
      KeyLoop(items.entries.Keys, None);
      ghost var live := items.View();
      while it.Some?
        invariant it.Some? ==> it.value in items.entries
        invariant forall k, q :: (k, q) in res <==>
          q > 0 && q == live.Quantity(k) && k in items.entries && k !in Ahead(StringLess, items.entries.Keys, it)
        decreases Ahead(StringLess, items.entries.Keys, it)
      {
        KeyLoop(items.entries.Keys, it);
        var read := items.entries[it.value].Read();
        assert read == live.Quantity(it.value);
        if read > 0 {
          res := res + {(it.value, read)};
        }
        it := NextKey(items.entries.Keys, it.value);
      }
      forall k | k !in items.entries
        ensures live.Quantity(k) == 0
      {
        EmptyQuantity(live, k);
      }
    }

    method CreateItem(name: string, quantity: int) returns (res: bool)
      requires Wired()
      modifies items, items.repr
      ensures Wired() && fresh(items.repr - old(items.repr))
      ensures res <==> old(items.View().Quantity(name)) <= 0
      ensures items.View() == Create(name, quantity).Apply(old(items.View()), id)
      ensures res ==> Changed(old(items.View()), items.View(), name, id, quantity)
      ensures !res ==> items.View() == old(items.View())
    {
      hide Edit, Sum, Changed;
      EditChanges(items.View(), name, id, quantity);
      var found := Contains(name);
      res := !found;
      if res {
        items.Inc(name, id, quantity);
      }
    }

    method RemoveItem(name: string) returns (res: bool)
      requires Wired()
      modifies items, items.repr
      ensures Wired() && fresh(items.repr - old(items.repr))
      ensures res <==> old(items.View().Quantity(name)) > 0
      ensures items.View() == Remove(name).Apply(old(items.View()), id)
      ensures items.View().ctx == old(items.View()).ctx
      ensures forall k :: items.View().At(k) == if res && k == name then map[] else old(items.View()).At(k)
    {
      hide Drop, Sum;
      DropAt(items.View(), name);
      res := Contains(name);
      if res {
        items.Remove(name);
      }
    }

    method IncreaseItem(name: string, quantity: int) returns (res: bool)
      requires Wired()
      modifies items, items.repr
      ensures Wired() && fresh(items.repr - old(items.repr))
      ensures res <==> old(items.View().Quantity(name)) > 0
      ensures items.View() == Increase(name, quantity).Apply(old(items.View()), id)
      ensures res ==> Changed(old(items.View()), items.View(), name, id, quantity)
      ensures !res ==> items.View() == old(items.View())
    {
      hide Edit, Sum, Changed;
      EditChanges(items.View(), name, id, quantity);
      res := Contains(name);
      if res {
        items.Inc(name, id, quantity);
      }
    }

    method BuyItem(name: string, quantity: int) returns (res: bool)
      requires Wired()
      modifies items, items.repr
      ensures Wired() && fresh(items.repr - old(items.repr))
      ensures res <==> old(items.View().Quantity(name)) > 0
      ensures items.View() == Buy(name, quantity).Apply(old(items.View()), id)
      ensures res ==> Changed(old(items.View()), items.View(), name, id, -quantity)
      ensures !res ==> items.View() == old(items.View())
    {
      hide Edit, Sum, Changed;
      EditChanges(items.View(), name, id, -quantity);
      res := Contains(name);
      if res {
        items.Dec(name, id, quantity);
      }
    }

    /** The two lists share no object. */
    ghost predicate Apart(o: ShoppingList)
      reads this, items, o, o.items
      ensures Apart(o) ==> Wired() && o.items.Owned() && items.Apart(o.items)
    {
      Wired() && items.Apart(o.items) && o != this && o !in items.repr && this !in o.items.repr
    }

    /** ShoppingList::join, for an o whose counters may refer to contexts of their own. */
    method JoinAny(o: ShoppingList) returns (res: bool)
      requires Apart(o)
      modifies this, items, items.repr
      ensures Wired() && fresh(items.repr - old(items.repr)) && id == old(id)
      ensures res <==> (old(url) == "" && old(title) == "") || (old(title) == o.title && old(url) == o.url)
      ensures title == (if old(url) == "" && old(title) == "" then o.title else old(title))
      ensures url == (if old(url) == "" && old(title) == "" then o.url else old(url))
      ensures items.View() == if !res then old(items.View()) else
        State(CtxJoin(old(items.View()).ctx, old(o.items.View()).ctx),
              JoinEntries(old(items.View()).live, old(items.View()).ctx, old(o.items.Kernels()),
                old(o.items.View()).ctx))
    {
      hide CtxJoin, JoinEntries, ORMap.Kernels, ORMap.Live;
      if url == "" && title == "" {
        url, title := o.url, o.title;
      }
      if title != o.title || url != o.url {
        return false;
      }
      items.Join(o.items);
      return true;
    }

    /** ShoppingList::join. */
    method Join(o: ShoppingList) returns (res: bool)
      requires Apart(o) && o.Wired()
      modifies this, items, items.repr
      ensures Wired() && fresh(items.repr - old(items.repr))
      ensures res <==> (old(url) == "" && old(title) == "") || (old(title) == o.title && old(url) == o.url)
      ensures Value() == JoinLists(old(Value()), old(o.Value()))
      ensures !res ==> Value() == old(Value())
      ensures res ==> title == o.title && url == o.url && id == old(id)
      ensures res ==> items.View() == States.Join(old(items.View()), old(o.items.View()))
    {
      hide CtxJoin, JoinEntries, States.Join;
      JoinEntriesIsJoin(items.View(), o.items.View(), o.items.Kernels());
      res := JoinAny(o);
    }

    /** ShoppingList::join when o is this list. */
    method JoinSelf() returns (res: bool)
      requires Wired()
      modifies this, items, items.repr
      ensures Wired() && items.repr == old(items.repr)
      ensures res && Value() == old(Value())
    {
      if url == "" && title == "" {
        url, title := url, title;
      }
      items.JoinSelf();
      return true;
    }

    /** to_json */
    method ToJson() returns (j: Tree)
      requires Wired()
      ensures j == ListTree(Value())
    {
      hide FirstKey, NextKey, Ahead, ValueTrees, Written, ORMap.Live;
      ghost var live := items.View().live;
      EntriesLive();
      AllWritten(live);
      var fields: map<string, Tree> := map[];
      var it := FirstKey(items.entries.Keys);
      KeyLoop(items.entries.Keys, None);
      while it.Some?
        invariant it.Some? ==> it.value in items.entries
        invariant fields == Written(live, Ahead(StringLess, items.entries.Keys, it))
        decreases Ahead(StringLess, items.entries.Keys, it)
      {
        KeyLoop(items.entries.Keys, it);
        WrittenStep(live, it.value, Ahead(StringLess, items.entries.Keys, it));
        fields := fields[it.value := Array(ValueTrees(items.entries[it.value].values))];
        it := NextKey(items.entries.Keys, it.value);
      }
      assert Object(fields) == LiveTree(live);
      j := Object(map["id" := Text(id), "title" := Text(title), "url" := Text(url),
                      "items" := Object(map["context" := CtxTree(items.context.Value()), "map" := Object(fields)])]);
    }

    lemma EntriesLive()
      requires Wired()
      ensures items.Live().Keys == items.entries.Keys
      ensures forall k :: k in items.entries ==> items.Live()[k] == items.entries[k].values
    {
    }

    /** from_json: the tree is read into a temporary whose counters each have a context of
        their own, and joining the temporary ties them to this list's. An exception on the
        way leaves the id, the title and the url. */
    method FromJson(j: Tree)
      requires Wired() && Defined(j)
      modifies this, items, items.repr
      ensures Wired() && fresh(items.repr - old(items.repr))
      ensures Value() == ReadInto(old(Value()), j)
      ensures j in {Null, Text(""), Array([]), Object(map[])} ==> Value() == old(Value())
      ensures j !in {Null, Text(""), Array([]), Object(map[])} ==>
        Says(j, "id", id) && Says(j, "title", title) && Says(j, "url", url)
    {
      hide CtxJoin, JoinEntries, CtxOf, LiveOf, Loose, Readable, Blank, ORMap.Live, ORMap.Kernels, ReadInto, Defined,
        TextAt, Says;
      ReadCases(Value(), j);
      BlankIs(j);
      TextIs(j, "id");
      TextIs(j, "title");
      TextIs(j, "url");
      if !Blank(j) {
        id, title, url := TextAt(j, "id"), TextAt(j, "title"), TextAt(j, "url");
        ReadItems(j);
      }
    }

    /** The items of a tree, if they can be read. */
    method ReadItems(j: Tree)
      requires Wired() && Defined(j)
      modifies this, items, items.repr
      ensures Wired() && fresh(items.repr - old(items.repr)) && id == old(id) && title == old(title) && url == old(url)
      ensures items.View() == if !Readable(j) then old(items.View()) else
        State(CtxJoin(old(items.View()).ctx, CtxOf(j)),
              JoinEntries(old(items.View()).live, old(items.View()).ctx, Loose(LiveOf(j), {}), CtxOf(j)))
    {
      hide CtxJoin, JoinEntries, CtxOf, LiveOf, Loose, Readable, ORMap.Live, ORMap.Kernels, Defined;
      var temp := new ShoppingList(id, title, url);
      var read := LoadItems(temp.items, j);
      if read {
        var joined := JoinAny(temp);
      }
    }
  }

  /** What reading a tree into a list gives. */
  ghost function ReadInto(l: List, j: Tree): List {
    if Blank(j) then l
    else
      var headed := List(TextAt(j, "id"), TextAt(j, "title"), TextAt(j, "url"), l.state);
      if !Readable(j) then headed
      else headed.(state := State(CtxJoin(l.state.ctx, CtxOf(j)),
                                  JoinEntries(l.state.live, l.state.ctx, Loose(LiveOf(j), {}), CtxOf(j))))
  }

  lemma BlankIs(j: Tree)
    ensures Blank(j) <==> j in {Null, Text(""), Array([]), Object(map[])}
  {
  }

  lemma ReadCases(l: List, j: Tree)
    ensures Blank(j) ==> ReadInto(l, j) == l
    ensures !Blank(j) && !Readable(j) ==>
      ReadInto(l, j) == List(TextAt(j, "id"), TextAt(j, "title"), TextAt(j, "url"), l.state)
    ensures !Blank(j) && Readable(j) ==> ReadInto(l, j) == List(TextAt(j, "id"), TextAt(j, "title"), TextAt(j, "url"),
      State(CtxJoin(l.state.ctx, CtxOf(j)), JoinEntries(l.state.live, l.state.ctx, Loose(LiveOf(j), {}), CtxOf(j))))
  {
    hide CtxJoin, JoinEntries, CtxOf, LiveOf, Loose, TextAt, Readable, Blank;
  }

  /** A full tree read into a list without items is the list it says, compacted. */
  lemma {:induction false} ReadIntoEmpty(l: List, j: Tree)
    requires IsList(j) && l.state == EMPTY_STATE
    ensures ReadInto(l, j) == Compacted(ToList(j))
  {
    ListIsReadable(j);
    JoinLoose(ToList(j).state, Loose(LiveOf(j), {}));
    hide CtxJoin, JoinEntries, CtxOf, LiveOf, Loose, TextAt, ToList, IsList, Readable, Blank, Compact;
  }

  /** What from_json reads into the temporary: its context, and its entries one by one, as
      far as they are there; false stands for an exception. */
  method LoadItems(items: ORMap, j: Tree) returns (read: bool)
    requires items.Wired() && items.View() == EMPTY_STATE && Defined(j)
    modifies items, items.context
    ensures read <==> Readable(j)
    ensures items.Owned() && fresh(items.repr - old(items.repr))
    ensures read ==> items.context.Value() == CtxOf(j) && items.Kernels() == Loose(LiveOf(j), {})
  {
    NoKernels(items);
    NothingLoose();
    hide IsCtx, IsLive, ToCtx, ToLive, Loose, ORMap.Kernels;
    var context := Section(j, "context");
    if context.Some? {
      if !IsCtx(context.value) {
        return false;
      }
      LoadContext(items.context, context.value);
    }
    var entries := Section(j, "map");
    if entries.Some? {
      if !IsLive(entries.value) {
        return false;
      }
      LoadEntries(items, entries.value);
    }
    return true;
  }

  method LoadContext(context: DotContext, j: Tree)
    requires IsCtx(j) && context.dc == {}
    modifies context
    ensures context.Value() == ToCtx(j)
  {
    var ctx := ToCtx(j);
    context.Load(ctx.vc, ctx.dc);
  }

  /** The loop over the entries: each becomes a counter with a context of its own. */
  method LoadEntries(items: ORMap, j: Tree)
    requires items.Owned() && items.entries == map[] && IsLive(j)
    modifies items
    ensures items.Owned() && fresh(items.repr - old(items.repr))
    ensures items.Kernels() == Loose(ToLive(j), {})
  {
    hide FirstKey, NextKey, Ahead, ToLive, ORMap.Kernels, ORMap.Owned, Loose, IsLive, ToValues;
    NoKernels(items);
    LiveValues(j);
    ghost var live := ToLive(j);
    var it := FirstKey(j.fields.Keys);
    KeyLoop(j.fields.Keys, None);
    assert Loose(live, j.fields.Keys) == map[] by { LooseNone(j); }
    while it.Some?
      invariant it.Some? ==> it.value in j.fields
      invariant items.Owned() && fresh(items.repr - old(items.repr))
      invariant items.Kernels() == Loose(live, Ahead(StringLess, j.fields.Keys, it))
      decreases Ahead(StringLess, j.fields.Keys, it)
    {
      KeyLoop(j.fields.Keys, it);
      LooseStep(j, it.value, Ahead(StringLess, j.fields.Keys, it));
      items.Put(it.value, ToValues(j.fields[it.value].items));
      it := NextKey(j.fields.Keys, it.value);
    }
  }

  lemma NoKernels(items: ORMap)
    requires items.Owned() && items.entries == map[]
    ensures items.Kernels() == map[]
  {
  }

  lemma LiveValues(j: Tree)
    requires IsLive(j)
    ensures j.Object? && forall k :: k in j.fields ==> IsValues(j.fields[k])
  {
    hide IsValues;
  }

  lemma NothingLoose()
    ensures Loose(map[], {}) == map[]
  {
  }

  /** Entries other than those still to do, each with an empty context. */
  /** t is the text the tree has under k; it is empty where there is none. */
  predicate Says(j: Tree, k: string, t: string) {
    if j.Object? && k in j.fields && j.fields[k].Text? then t == j.fields[k].text else t == ""
  }

  lemma TextIs(j: Tree, k: string)
    ensures Says(j, k, TextAt(j, k))
  {
  }

  /** What makes reading throw: a clock that is not of numbers, a cloud that is not of dots, an
      item that is not of dots with numbers. The list gets the id, title and url of the tree
      and keeps its items and context. */
  lemma {:induction false} UnreadableIsNotTaken(l: List, j: Tree, k: string, i: nat)
    requires !Blank(j)
    requires
      || (Section(j, "context").Some? && "vc" in Section(j, "context").value.fields &&
          var vc := Section(j, "context").value.fields["vc"];
          !vc.Object? || (k in vc.fields && !vc.fields[k].Number?))
      || (Section(j, "context").Some? && "dc" in Section(j, "context").value.fields &&
          var dc := Section(j, "context").value.fields["dc"];
          dc.Text? || dc.Number? || (dc.Array? && i < |dc.items| && NoDot(dc.items[i])))
      || (Section(j, "map").Some? && k in Section(j, "map").value.fields &&
          var item := Section(j, "map").value.fields[k];
          !item.Array? || (i < |item.items| && NoPair(item.items[i])))
    ensures ReadInto(l, j) == List(TextAt(j, "id"), TextAt(j, "title"), TextAt(j, "url"), l.state)
  {
    if Section(j, "context").Some? && "dc" in Section(j, "context").value.fields {
      var dc := Section(j, "context").value.fields["dc"];
      CloudIs(dc);
      assert dc.Array? && i < |dc.items| && NoDot(dc.items[i]) ==> !IsDot(dc.items[i]);
    }
    if Section(j, "map").Some? && k in Section(j, "map").value.fields {
      var item := Section(j, "map").value.fields[k];
      assert item.Array? && i < |item.items| && NoPair(item.items[i]) ==> !IsValue(item.items[i]);
    }
    hide CtxJoin, JoinEntries, Blank, Section;
  }

  predicate NoDot(j: Tree) {
    !j.Array? || |j.items| < 2 || !j.items[0].Text? || !j.items[1].Number?
  }

  predicate NoPair(j: Tree) {
    !j.Array? || |j.items| < 2 || NoDot(j.items[0]) || !j.items[1].Number?
  }

  ghost function Loose(live: map<string, Values>, todo: set<string>): map<string, Kernel> {
    map k | k in live && k !in todo :: Kernel(live[k], EMPTY_CTX)
  }

  lemma LooseNone(j: Tree)
    requires IsLive(j)
    ensures Loose(ToLive(j), j.fields.Keys) == map[]
  {
  }

  lemma LooseStep(j: Tree, k: string, todo: set<string>)
    requires IsLive(j) && k in j.fields
    ensures Loose(ToLive(j), todo - {k}) == Loose(ToLive(j), todo)[k := Kernel(ToValues(j.fields[k].items), EMPTY_CTX)]
  {
  }

  /** The items already written out: those no longer to do. */
  ghost function Written(live: map<string, Values>, todo: set<string>): map<string, Tree> {
    map k | k in live && k !in todo :: Array(ValueTrees(live[k]))
  }

  lemma AllWritten(live: map<string, Values>)
    ensures Object(Written(live, {})) == LiveTree(live) && Written(live, live.Keys) == map[]
  {
    hide ValueTrees;
  }

  lemma WrittenStep(live: map<string, Values>, k: string, todo: set<string>)
    requires k in live
    ensures Written(live, todo - {k}) == Written(live, todo)[k := Array(ValueTrees(live[k]))]
  {
  }

  ghost function Compacted(l: List): List {
    l.(state := State(Compact(l.state.ctx), l.state.live))
  }

  /** Counters that come with empty contexts, joined into an empty map, arrive unchanged. */
  lemma JoinLoose(s: State, kernels: map<string, Kernel>)
    requires kernels == Loose(s.live, {})
    ensures JoinEntries(map[], EMPTY_CTX, kernels, s.ctx) == s.live
    ensures CtxJoin(EMPTY_CTX, s.ctx) == Compact(s.ctx)
  {
    JoinNothing(s.ctx);
    hide KernelJoin, CtxJoin, Compact;
    forall k | k in s.live
      ensures KernelJoin(map[], EMPTY_CTX, s.live[k], EMPTY_CTX) == s.live[k]
    {
      KernelLoose(s.live[k]);
    }
  }

  lemma JoinNothing(c: Ctx)
    ensures CtxJoin(EMPTY_CTX, c) == Compact(c)
  {
    assert MaxClock(map[], c.vc) == c.vc;
    assert {} + c.dc == c.dc;
    hide Compact;
  }

  lemma KernelLoose(values: Values)
    ensures KernelJoin(map[], EMPTY_CTX, values, EMPTY_CTX) == values
  {
  }

  lemma EmptyQuantity(s: State, k: string)
    requires k !in s.live
    ensures s.Quantity(k) == 0
  {
  }
}
