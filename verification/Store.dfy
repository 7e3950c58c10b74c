/** A worker's store of lists and the requests it answers, and why workers agree. */
module Store {
  import opened Order
  import opened Contexts
  import opened States
  import opened Json
  import opened Replication
  import opened ShoppingLists

  /** Database::get: a missing key reads as null. */
  function Get(db: map<string, Tree>, url: string): Tree {
    if url in db then db[url] else Null
  }

  /** What from_json leaves in a new list. */
  ghost function Loaded(j: Tree): List {
    ReadInto(List("", "", "", EMPTY_STATE), j)
  }

  ghost function Updated(stored: Tree, payload: Tree): Tree {
    ListTree(JoinLists(Loaded(stored), Loaded(payload)))
  }

  method MergeTrees(stored: Tree, payload: Tree) returns (list: Tree)
    requires Defined(stored) && Defined(payload)
    ensures list == Updated(stored, payload)
  {
    hide Defined, ListTree, JoinLists, Loaded, ShoppingList.Value;
    var received := NewList(payload);
    var kept := NewList(stored);
    var joined := kept.Join(received);
    list := kept.ToJson();
  }

  method NewList(j: Tree) returns (list: ShoppingList)
    requires Defined(j)
    ensures fresh(list) && fresh(list.items) && fresh(list.items.repr)
    ensures list.Wired() && list.Value() == Loaded(j)
  {
    hide Defined, ReadInto;
    list := new ShoppingList("", "", "");
    list.FromJson(j);
  }

  /** An update of a list that has a title or a url, by one with others, leaves the stored list
      as it is; else the list takes in the states of both. */
  lemma {:induction false} RefusedUpdateIsNoUpdate(stored: Tree, payload: Tree)
    ensures var l, p := Loaded(stored), Loaded(payload);
      Updated(stored, payload) == ListTree(
        if l.url == "" && l.title == "" then List(l.id, p.title, p.url, Join(l.state, p.state))
        else if l.title == p.title && l.url == p.url then List(l.id, l.title, l.url, Join(l.state, p.state))
        else l)
  {
    hide Loaded, Join, ListTree;
  }

  class Worker {
    var db: map<string, Tree>

    constructor ()
      ensures db == map[] && Valid()
    {
      db := map[];
    }

    ghost predicate Valid()
      reads this
    {
      forall url :: url in db ==> IsList(db[url])
    }

    /** CREATE_LIST: stored without an owner, under the list's own url. */
    method CreateList(payload: Tree) returns (list: Tree)
      requires Valid() && Defined(payload)
      modifies this
      ensures Valid()
      ensures list == ListTree(Loaded(payload).(id := "")) && db == old(db)[Loaded(payload).url := list]
    {
      hide IsList, Loaded, ListTree, Defined;
      var created := NewList(payload);
      created.SetId("");
      list := created.ToJson();
      ListRoundTrip(Loaded(payload).(id := ""));
      db := db[created.url := list];
    }

    /** GET_LIST */
    method GetList(url: string) returns (list: Option<Tree>)
      requires Valid()
      ensures list == if url in db then Some(db[url]) else None
    {
      var stored := Get(db, url);
      if stored != Null {
        list := Some(stored);
      } else {
        list := None;
      }
    }

    /** UPDATE_LIST */
    method UpdateList(url: string, payload: Tree) returns (list: Tree)
      requires Valid() && Defined(payload)
      modifies this
      ensures Valid()
      ensures list == (if url in old(db) then Updated(old(db)[url], payload) else Updated(Null, payload))
      ensures db == old(db)[url := list]
    {
      hide IsList, Loaded, ListTree, JoinLists, Defined;
      var stored := Get(db, url);
      StoredIsDefined(stored);
      list := MergeTrees(stored, payload);
      ListRoundTrip(JoinLists(Loaded(stored), Loaded(payload)));
      db := db[url := list];
    }
  }

  lemma StoredIsDefined(stored: Tree)
    ensures stored == Null || IsList(stored) ==> Defined(stored)
  {
    if IsList(stored) {
      ListIsReadable(stored);
    }
  }

  /** What is stored under one url once the lists have arrived one UPDATE_LIST after the other. */
  ghost function Absorbed(ls: seq<List>): Tree {
    if ls == [] then Null else Updated(Absorbed(ls[..|ls| - 1]), ListTree(ls[|ls| - 1]))
  }

  /** Reading back what was written gives the same list, if its context is compacted. */
  lemma {:induction false} ReadBack(l: List)
    ensures IsList(ListTree(l))
    ensures Loaded(ListTree(l)) == l <==> l.state.ctx.Compacted()
  {
    ListRoundTrip(l);
    ReadIntoEmpty(List("", "", "", EMPTY_STATE), ListTree(l));
    hide ListTree, IsList, ToList, ReadInto;
    if l.state.ctx.Compacted() {
      NormalFormUnique(Compact(l.state.ctx), l.state.ctx);
    }
  }

  /** A's list as a tree from elsewhere gives it: a dot of A is in the cloud. */
  function CloudedList(n: nat): List {
    List("A", "title", "url", Clouded(n))
  }

  /** Such a list is read as it was written, and A has no milk. */
  lemma CloudedListIsRead(n: nat)
    requires n > 0
    ensures IsList(ListTree(CloudedList(n))) && Loaded(ListTree(CloudedList(n))) == CloudedList(n)
    ensures Create("milk", 1).Apply(Clouded(n), "A") == Edit(Clouded(n), "milk", "A", 1)
  {
    CloudedIsCompacted(n);
    hide *;
    ReadBack(CloudedList(n));
    NoMilk(n);
  }

  lemma CloudedIsCompacted(n: nat)
    requires n > 0
    ensures CloudedList(n).state.ctx.Compacted()
  {
  }

  lemma NoMilk(n: nat)
    ensures Create("milk", 1).Apply(Clouded(n), "A") == Edit(Clouded(n), "milk", "A", 1)
  {
    assert Clouded(n).Quantity("milk") == 0;
    hide Edit;
  }

  /** A list that is read as it was written, and that one more item takes down. */
  lemma {:induction false} ReadListGoesDown()
    ensures IsList(ListTree(CloudedList(1))) && Loaded(ListTree(CloudedList(1))) == CloudedList(1)
    ensures !Leq(Clouded(1), Create("milk", 1).Apply(Clouded(1), "A"))
  {
    CloudedListIsRead(1);
    ReusedDotGoesDown();
    hide *;
  }

  /** A list with a dot of its owner in the cloud is read as it was written; after one more
      item under that id, the cloud dot belongs into the vector, and what is written is not
      what is read back. */
  lemma {:induction false} EditedCloudIsNotReadBack()
    ensures IsList(ListTree(CloudedList(2))) && Loaded(ListTree(CloudedList(2))) == CloudedList(2)
    ensures var edited := CloudedList(2).(state := Create("milk", 1).Apply(Clouded(2), "A"));
      IsList(ListTree(edited)) && Loaded(ListTree(edited)) != edited
  {
    CloudedListIsRead(2);
    var edited := CloudedList(2).(state := Create("milk", 1).Apply(Clouded(2), "A"));
    assert edited.state.ctx.Absorbable(Dot("A", 2));
    hide Loaded, ListTree, IsList;
    ReadBack(edited);
  }

  function StatesOf(ls: seq<List>): seq<State> {
    seq(|ls|, i requires 0 <= i < |ls| => ls[i].state)
  }

  ghost predicate SameList(ls: seq<List>, title: string, url: string, log: Log) {
    forall l :: l in ls ==> l.title == title && l.url == url && Fits(l.state, log)
  }

  /** The store holds the join of all the states received, under no one's id. */
  lemma {:induction false} StoreIsFold(ls: seq<List>, title: string, url: string, log: Log)
    requires SameList(ls, title, url, log)
    ensures Absorbed(ls) == Kept(StatesOf(ls), title, url)
  {
    hide *;
    if ls == [] {
      StoreOfNothing(title, url);
    } else {
      var init, last := ls[..|ls| - 1], ls[|ls| - 1];
      SameListSnoc(ls, title, url, log);
      StoreIsFold(init, title, url, log);
      StatesFit(init, title, url, log);
      StatesOfSnoc(init, last);
      assert init + [last] == ls;
      StoreStep(StatesOf(init), last, log);
      AbsorbedSnoc(ls);
    }
  }

  lemma StoreOfNothing(title: string, url: string)
    ensures Absorbed([]) == Kept(StatesOf([]), title, url)
  {
  }

  lemma AbsorbedSnoc(ls: seq<List>)
    requires ls != []
    ensures Absorbed(ls) == Updated(Absorbed(ls[..|ls| - 1]), ListTree(ls[|ls| - 1]))
  {
    hide Updated, ListTree;
  }

  lemma SameListSnoc(ls: seq<List>, title: string, url: string, log: Log)
    requires SameList(ls, title, url, log) && ls != []
    ensures SameList(ls[..|ls| - 1], title, url, log)
    ensures var last := ls[|ls| - 1]; last.title == title && last.url == url && Fits(last.state, log)
  {
    hide Fits;
  }

  lemma StatesFit(ls: seq<List>, title: string, url: string, log: Log)
    requires SameList(ls, title, url, log)
    ensures forall s :: s in StatesOf(ls) ==> Fits(s, log)
  {
    hide Fits, StatesOf;
    forall s | s in StatesOf(ls)
      ensures Fits(s, log)
    {
      StatesOfIn(ls, s);
    }
  }

  lemma StatesOfSnoc(ls: seq<List>, l: List)
    ensures StatesOf(ls + [l]) == StatesOf(ls) + [l.state]
  {
  }

  ghost function Kept(ss: seq<State>, title: string, url: string): Tree {
    if ss == [] then Null else ListTree(List("", title, url, Fold(ss)))
  }

  lemma StoreStep(ss: seq<State>, l: List, log: Log)
    requires (forall s :: s in ss ==> Fits(s, log)) && Fits(l.state, log)
    ensures (Kept(ss, l.title, l.url).Null? || IsList(Kept(ss, l.title, l.url))) && IsList(ListTree(l))
    ensures Updated(Kept(ss, l.title, l.url), ListTree(l)) == Kept(ss + [l.state], l.title, l.url)
  {
    FoldFits(ss, log);
    ReadBackFits(l, log);
    ReadBackFits(List("", l.title, l.url, Fold(ss)), log);
    FoldSnoc(ss, l.state);
    hide Fits, Fold, Join, IsList, ListTree, JoinLists;
    assert Loaded(Kept(ss, l.title, l.url)) ==
      if ss == [] then List("", "", "", Fold(ss)) else List("", l.title, l.url, Fold(ss));
    hide Loaded;
    JoinIntoKept(Loaded(Kept(ss, l.title, l.url)), l, Fold(ss));
  }

  lemma FoldSnoc(ss: seq<State>, s: State)
    ensures Fold([]) == EMPTY_STATE && Fold(ss + [s]) == Join(Fold(ss), s)
  {
    assert (ss + [s])[..|ss|] == ss;
  }

  lemma JoinIntoKept(kept: List, l: List, s: State)
    requires kept == List("", "", "", s) || kept == List("", l.title, l.url, s)
    ensures JoinLists(kept, l) == List("", l.title, l.url, Join(s, l.state))
  {
    hide Join;
  }

  lemma ReadBackFits(l: List, log: Log)
    requires Fits(l.state, log)
    ensures IsList(ListTree(l)) && Loaded(ListTree(l)) == l
  {
    FitsIsSound(l.state, log);
    ReadBack(l);
  }

  /** Workers that have absorbed the same payloads from one run, in any order and
      multiplicity, have stored the same list. */
  lemma {:induction false} WorkersAgree(ids: set<string>, es: seq<Event>, title: string, url: string, ls: seq<List>,
                                        ms: seq<List>)
    requires forall l :: l in ls ==> l.title == title && l.url == url && InNet(After(ids, es), l.state)
    requires forall l :: l in ls <==> l in ms
    ensures Absorbed(ls) == Absorbed(ms)
  {
    hide *;
    var n := After(ids, es);
    PayloadsFit(ids, es, title, url, ls);
    PayloadsFit(ids, es, title, url, ms);
    StoreIsFold(ls, title, url, n.log);
    StoreIsFold(ms, title, url, n.log);
    SameStates(ls, ms);
    StatesInNet(n, ls);
    Convergence(ids, es, StatesOf(ls), StatesOf(ms));
    KeptSame(StatesOf(ls), StatesOf(ms), title, url);
  }

  lemma PayloadsFit(ids: set<string>, es: seq<Event>, title: string, url: string, ls: seq<List>)
    requires forall l :: l in ls ==> l.title == title && l.url == url && InNet(After(ids, es), l.state)
    ensures SameList(ls, title, url, After(ids, es).log)
  {
    hide After, Fits, InNet;
    forall l | l in ls
      ensures Fits(l.state, After(ids, es).log)
    {
      NetFits(ids, es, l.state);
    }
  }

  lemma SameStates(ls: seq<List>, ms: seq<List>)
    requires forall l :: l in ls <==> l in ms
    ensures forall s :: s in StatesOf(ls) <==> s in StatesOf(ms)
  {
    hide StatesOf;
    forall s: State
      ensures s in StatesOf(ls) <==> s in StatesOf(ms)
    {
      StatesOfIn(ls, s);
      StatesOfIn(ms, s);
    }
  }

  lemma StatesInNet(n: Net, ls: seq<List>)
    requires forall l :: l in ls ==> InNet(n, l.state)
    ensures forall s :: s in StatesOf(ls) ==> InNet(n, s)
  {
    hide StatesOf, InNet;
    forall s | s in StatesOf(ls)
      ensures InNet(n, s)
    {
      StatesOfIn(ls, s);
    }
  }

  lemma KeptSame(ss: seq<State>, ts: seq<State>, title: string, url: string)
    requires (forall s :: s in ss <==> s in ts) && Fold(ss) == Fold(ts)
    ensures Kept(ss, title, url) == Kept(ts, title, url)
  {
    assert ss == [] <==> ts == [] by {
      assert ss != [] ==> ss[0] in ts;
      assert ts != [] ==> ts[0] in ss;
    }
    hide Fold, ListTree;
  }

  lemma StatesOfIn(ls: seq<List>, s: State)
    ensures s in StatesOf(ls) <==> exists l :: l in ls && l.state == s
  {
    if l :| l in ls && l.state == s {
      var i :| 0 <= i < |ls| && ls[i] == l;
      assert StatesOf(ls)[i] == s;
    }
    if s in StatesOf(ls) {
      var i :| 0 <= i < |ls| && StatesOf(ls)[i] == s;
      assert ls[i] in ls && ls[i].state == s;
    }
  }
}
