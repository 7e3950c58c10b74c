/** What every message to the broker keeps. */
module Dispatching {
  import opened Order
  import opened Messages
  import opened Majordomo

  /** A service's worker count is the number of registered workers that point at it. */
  ghost predicate Counted(h: Hub) {
    forall n :: n in h.services ==> h.services[n].workers == |Members(h.workers, n)|
  }

  ghost predicate InList(h: Hub, i: string) {
    && i in h.workers && h.workers[i].service.Some? && h.workers[i].service.value in h.services
    && i in h.services[h.workers[i].service.value].waiting
  }

  /** What holds at every point, also inside an event. */
  ghost predicate Core(h: Hub) {
    Linked(h) && Counted(h) && forall i :: i in h.waiting ==> InList(h, i)
  }

  /** No worker waits while a request does. */
  ghost predicate Quiet(h: Hub, n: string) {
    n in h.services ==> h.services[n].waiting == [] || h.services[n].requests == []
  }

  ghost predicate Good(h: Hub) {
    Core(h) && Settled(h) && forall n :: Quiet(h, n)
  }

  ghost predicate ExactList(h: Hub, n: string) {
    n in h.services ==> Distinct(h.services[n].waiting) && forall i :: i in h.services[n].waiting ==> i in h.waiting
  }

  /** The waiting set is the disjoint union of the services' lists, without duplicates. */
  ghost predicate Exact(h: Hub) {
    forall n :: ExactList(h, n)
  }

  /** What the parts of an event keep, for every service but the one at work. */
  ghost predicate Keeps(h: Hub, g: Hub, n: string) {
    && Core(g) && (Settled(h) ==> Settled(g)) && (Exact(h) ==> Exact(g))
    && forall m :: m != n && Quiet(h, m) ==> Quiet(g, m)
  }

  lemma {:induction false} WithoutDistinct(ws: seq<string>, gone: set<string>)
    requires Distinct(ws)
    ensures Distinct(Without(ws, gone))
  {
    if ws != [] {
      WithoutDistinct(ws[..|ws| - 1], gone);
      WithoutIn(ws[..|ws| - 1], gone);
    }
  }

  lemma {:induction false} WithoutNone(ws: seq<string>, gone: set<string>)
    requires forall i :: i in ws ==> i !in gone
    ensures Without(ws, gone) == ws
  {
    if ws != [] {
      var init, last := ws[..|ws| - 1], ws[|ws| - 1];
      assert last in ws && forall i :: i in init ==> i in ws;
      WithoutNone(init, gone);
      assert ws == init + [last];
    }
  }

  lemma WithoutSnoc(ws: seq<string>, last: string, gone: set<string>)
    ensures Without(ws + [last], gone) == Without(ws, gone) + (if last in gone then [] else [last])
  {
    assert (ws + [last])[..|ws|] == ws;
  }

  lemma {:induction false} WithoutTwice(ws: seq<string>, a: set<string>, b: set<string>)
    ensures Without(Without(ws, a), b) == Without(ws, a + b)
  {
    if ws != [] {
      var init, last := ws[..|ws| - 1], ws[|ws| - 1];
      assert ws == init + [last];
      WithoutTwice(init, a, b);
      hide Without;
      WithoutSnoc(init, last, a + b);
      calc {
        Without(Without(ws, a), b);
        { WithoutSnoc(init, last, a); }
        Without(if last in a then Without(init, a) + [] else Without(init, a) + [last], b);
        { WithoutSnoc(Without(init, a), last, b); assert Without(init, a) + [] == Without(init, a); }
        if last in a || last in b then Without(Without(init, a), b) else Without(Without(init, a), b) + [last];
      }
    }
  }

  /** Waiting lists and requests as they were; new services are empty. */
  lemma SameLists(h: Hub, g: Hub)
    requires g.waiting == h.waiting && h.services.Keys <= g.services.Keys
    requires forall m :: m in g.services ==>
      if m in h.services
      then g.services[m].waiting == h.services[m].waiting && g.services[m].requests == h.services[m].requests
      else g.services[m].waiting == []
    ensures Exact(h) ==> Exact(g)
    ensures forall m :: Quiet(h, m) ==> Quiet(g, m)
  {
    assert forall m :: ExactList(h, m) ==> ExactList(g, m);
  }

  lemma RequiredKeeps(h: Hub, n: string)
    requires Core(h)
    ensures Keeps(h, Required(h, n), n) && (Quiet(h, n) ==> Quiet(Required(h, n), n))
  {
    var g := Required(h, n);
    if n !in h.services {
      assert Members(h.workers, n) == {};
    }
    SameLists(h, g);
  }

  lemma CutCounts(h: Hub, gone: set<string>)
    requires Counted(h)
    ensures Counted(Cut(h, gone))
  {
    forall m | m in h.services
      ensures Cut(h, gone).services[m].workers == |Members(Cut(h, gone).workers, m)|
    {
      assert Members(Cut(h, gone).workers, m) == Members(h.workers, m) - gone;
      assert |Members(h.workers, m)| == |Members(h.workers, m) - gone| + |Members(h.workers, m) * gone| by {
        assert Members(h.workers, m) == (Members(h.workers, m) - gone) + (Members(h.workers, m) * gone);
      }
    }
  }

  lemma CutLists(h: Hub, gone: set<string>, m: string)
    ensures Quiet(h, m) ==> Quiet(Cut(h, gone), m)
    ensures ExactList(h, m) ==> ExactList(Cut(h, gone), m)
  {
    if m in h.services {
      WithoutIn(h.services[m].waiting, gone);
      if ExactList(h, m) {
        WithoutDistinct(h.services[m].waiting, gone);
      }
    }
  }

  lemma CutInList(h: Hub, gone: set<string>, i: string)
    requires InList(h, i) && i !in gone
    ensures InList(Cut(h, gone), i)
  {
    WithoutIn(h.services[h.workers[i].service.value].waiting, gone);
  }

  lemma CutKeeps(h: Hub, gone: set<string>, n: string)
    requires Core(h)
    ensures Keeps(h, Cut(h, gone), n) && (Quiet(h, n) ==> Quiet(Cut(h, gone), n))
  {
    var g := Cut(h, gone);
    CutLinked(h, gone);
    CutCounts(h, gone);
    CutLeaves(h, gone);
    hide Linked, Counted, Settled, Quiet, ExactList, Cut, InList;
    forall i | i in g.waiting
      ensures InList(g, i)
    {
      CutInList(h, gone, i);
    }
    forall m
      ensures (Quiet(h, m) ==> Quiet(g, m)) && (ExactList(h, m) ==> ExactList(g, m))
    {
      CutLists(h, gone, m);
    }
  }

  lemma CutLeaves(h: Hub, gone: set<string>)
    requires Linked(h)
    ensures Settled(h) ==> Settled(Cut(h, gone))
    ensures Cut(h, gone).waiting == h.waiting - gone
  {
    CutLinked(h, gone);
    hide Linked, CutService, Members;
  }

  lemma QueuedKeeps(h: Hub, n: string, msgs: seq<Message>)
    requires Core(h) && n in h.services
    ensures Keeps(h, Queued(h, n, msgs), n)
  {
    var g := Queued(h, n, msgs);
    assert forall i :: i in g.waiting ==> InList(h, i);
    assert forall m :: ExactList(h, m) ==> ExactList(g, m);
  }

  lemma AssignedList(h: Hub, n: string, k: nat, i: string)
    requires n in h.services && k < |h.services[n].waiting| && h.services[n].requests != []
    requires InList(h, i) && i != h.services[n].waiting[k]
    ensures InList(Assigned(h, n, k), i)
  {
    var ws := h.services[n].waiting;
    if h.workers[i].service.value == n {
      var j :| 0 <= j < |ws| && ws[j] == i;
      assert Assigned(h, n, k).services[n].waiting[if j < k then j else j - 1] == i;
    }
  }

  lemma AssignedExact(h: Hub, n: string, k: nat)
    requires Linked(h) && n in h.services && k < |h.services[n].waiting| && h.services[n].requests != []
    requires Exact(h)
    ensures Exact(Assigned(h, n, k))
  {
    var ws, g := h.services[n].waiting, Assigned(h, n, k);
    forall m | m in h.services
      ensures ExactList(g, m)
    {
      assert ExactList(h, m) && ExactList(h, n);
      if m == n {
        assert forall j :: 0 <= j < |ws| && j != k ==> ws[j] != ws[k];
      } else {
        assert ws[k] in ws;
      }
    }
  }

  lemma AssignedKeeps(h: Hub, n: string, k: nat)
    requires Core(h) && n in h.services && k < |h.services[n].waiting| && h.services[n].requests != []
    ensures Keeps(h, Assigned(h, n, k), n)
  {
    var g := Assigned(h, n, k);
    assert forall m :: m != n && Quiet(h, m) ==> Quiet(g, m);
    assert Settled(h) ==> Settled(g);
    hide Exact, Settled, Quiet;
    if Exact(h) {
      AssignedExact(h, n, k);
    }
    assert Linked(g) && Counted(g);
    hide InList, Linked, Counted;
    forall i | i in g.waiting
      ensures InList(g, i)
    {
      AssignedList(h, n, k, i);
    }
  }

  lemma {:induction false} DrainedKeeps(h: Hub, n: string)
    requires Core(h) && n in h.services
    ensures Keeps(h, Drained(h, n), n) && Quiet(Drained(h, n), n)
    ensures Drained(h, n).workers == h.workers && Drained(h, n).services.Keys == h.services.Keys
    decreases |h.services[n].requests|
  {
    var s := h.services[n];
    if s.waiting != [] && s.requests != [] {
      var g := Assigned(h, n, Best(h, s.waiting));
      AssignedKeeps(h, n, Best(h, s.waiting));
      hide Core, Settled, Exact, Quiet;
      DrainedKeeps(g, n);
    }
  }

  lemma DispatchedKeeps(h: Hub, n: string, msgs: seq<Message>, now: int)
    requires Core(h) && n in h.services
    ensures Keeps(h, Dispatched(h, n, msgs, now), n) && Quiet(Dispatched(h, n, msgs, now), n)
  {
    hide Counted, Settled, Exact, Quiet, Cut, Drained, Queued, InList, Linked;
    QueuedKeeps(h, n, msgs);
    var q := Queued(h, n, msgs);
    assert n in q.services by { QueuedServices(h, n, msgs); }
    CutKeeps(q, Expired(q, now), n);
    var c := Cut(q, Expired(q, now));
    assert n in c.services by { CutServices(q, Expired(q, now)); }
    DrainedKeeps(c, n);
    assert Expired(q, now) == Expired(h, now) by { QueuedServices(h, n, msgs); }
  }

  lemma QueuedServices(h: Hub, n: string, msgs: seq<Message>)
    requires n in h.services
    ensures Queued(h, n, msgs).services.Keys == h.services.Keys
    ensures Queued(h, n, msgs).workers == h.workers && Queued(h, n, msgs).waiting == h.waiting
  {
  }

  lemma CutServices(h: Hub, gone: set<string>)
    ensures Cut(h, gone).services.Keys == h.services.Keys
  {
  }

  lemma CutOneService(h: Hub, gone: set<string>, i: string, m: string)
    requires Linked(h) && i in h.workers && i !in gone && m in h.services
    ensures var g := Cut(h, gone).services[m];
      Cut(h, gone + {i}).services[m] ==
        if h.workers[i].service == Some(m) then Svc(g.requests, Without(g.waiting, {i}), g.workers - 1) else g
  {
    WithoutTwice(h.services[m].waiting, gone, {i});
    WithoutIn(h.services[m].waiting, gone);
    if h.workers[i].service == Some(m) {
      assert Members(h.workers, m) * (gone + {i}) == (Members(h.workers, m) * gone) + {i};
    } else {
      WithoutNone(Without(h.services[m].waiting, gone), {i});
      assert Members(h.workers, m) * (gone + {i}) == Members(h.workers, m) * gone;
    }
  }

  /** The loop over the expired workers deletes them all at once, in whatever order it goes. */
  lemma CutOne(h: Hub, gone: set<string>, i: string)
    requires Linked(h) && i in h.workers && i !in gone
    ensures Removed(Cut(h, gone), i, false) == Cut(h, gone + {i})
  {
    var g, all := Cut(h, gone), gone + {i};
    hide CutService, Without;
    forall m | m in h.services
      ensures Removed(g, i, false).services[m] == Cut(h, all).services[m]
    {
      CutOneService(h, gone, i, m);
    }
    assert h.workers - gone - {i} == h.workers - all;
    assert h.waiting - gone - {i} == h.waiting - all;
    assert Removed(g, i, false).services == Cut(h, all).services;
  }

  lemma CutNothing(h: Hub)
    ensures Cut(h, {}) == h
  {
    hide CutService, Members, Without;
    forall m | m in h.services
      ensures CutService(h.services[m], Members(h.workers, m), {}) == h.services[m]
    {
      CutNoOne(h.services[m], Members(h.workers, m));
    }
    assert Cut(h, {}).services == h.services;
    assert h.workers - {} == h.workers && h.waiting - {} == h.waiting;
  }

  lemma CutNoOne(s: Svc, members: set<string>)
    ensures CutService(s, members, {}) == s
  {
    WithoutNone(s.waiting, {});
    assert members * {} == {};
  }

  lemma SentKeeps(h: Hub, g: Hub, n: string, sent: seq<Sent>)
    requires Keeps(h, g, n)
    ensures Keeps(h, g.(sent := sent), n) && (Quiet(g, n) ==> Quiet(g.(sent := sent), n))
  {
    assert forall i :: InList(g, i) ==> InList(g.(sent := sent), i);
    SameLists(g, g.(sent := sent));
  }

  lemma RemovedKeeps(h: Hub, i: string, disconnect: bool, n: string)
    requires Core(h) && i in h.workers
    ensures Keeps(h, Removed(h, i, disconnect), n) && (Quiet(h, n) ==> Quiet(Removed(h, i, disconnect), n))
  {
    var g := Removed(h, i, false);
    assert Removed(h, i, true) == g.(sent := h.sent + [Disconnect(i)]);
    assert {} + {i} == {i};
    CutNothing(h);
    CutOne(h, {}, i);
    hide *;
    CutKeeps(h, {i}, n);
    SentKeeps(h, g, n, h.sent + [Disconnect(i)]);
  }

  lemma RegisteredKeeps(h: Hub, i: string)
    requires Core(h) && i !in h.workers
    ensures Core(Registered(h, i)) && (Exact(h) ==> Exact(Registered(h, i)))
    ensures forall m :: Quiet(h, m) ==> Quiet(Registered(h, i), m)
  {
    assert forall m :: Members(Registered(h, i).workers, m) == Members(h.workers, m);
    assert forall j :: j in h.waiting ==> InList(h, j);
    SameLists(h, Registered(h, i));
  }

  lemma AttachedCounts(h: Hub, i: string, n: string)
    requires Counted(h) && i in h.workers && h.workers[i].service.None? && n in h.services
    ensures Counted(Attached(h, i, n))
  {
    assert Members(Attached(h, i, n).workers, n) == Members(h.workers, n) + {i} && i !in Members(h.workers, n);
    assert forall m :: m != n ==> Members(Attached(h, i, n).workers, m) == Members(h.workers, m);
  }

  /** A worker that is new, attached to service n. */
  lemma AttachedKeeps(h: Hub, i: string, n: string)
    requires Core(h) && i in h.workers && h.workers[i].service.None? && n in h.services
    ensures Core(Attached(h, i, n)) && (Exact(h) ==> Exact(Attached(h, i, n)))
    ensures forall m :: Quiet(h, m) ==> Quiet(Attached(h, i, n), m)
  {
    SameLists(h, Attached(h, i, n));
    AttachedCounts(h, i, n);
    AttachedLinks(h, i, n);
    hide Linked, Counted, InList, Exact, Quiet, Attached;
  }

  lemma AttachedLinks(h: Hub, i: string, n: string)
    requires Linked(h) && (forall j :: j in h.waiting ==> InList(h, j))
    requires i in h.workers && h.workers[i].service.None? && n in h.services
    ensures Linked(Attached(h, i, n)) && forall j :: j in Attached(h, i, n).waiting ==> InList(Attached(h, i, n), j)
  {
    var g := Attached(h, i, n);
    assert forall j :: j in h.waiting ==> InList(h, j) && InList(g, j);
    hide InList;
    assert forall m :: m in g.services ==> WaitsHere(h, m) && WaitsHere(g, m);
  }

  lemma ListedKeeps(h: Hub, i: string, n: string, seen: int)
    requires Core(h) && i in h.workers && n in h.services && h.workers[i].service == Some(n)
    ensures var g := Listed(h, i, n, seen);
      Core(g) && (Settled(h) ==> Settled(g)) && forall m :: m != n && Quiet(h, m) ==> Quiet(g, m)
    ensures Exact(h) ==> (Exact(Listed(h, i, n, seen)) <==> i !in h.waiting)
  {
    var g := Listed(h, i, n, seen);
    ListedLinks(h, i, n, seen);
    ListedCounts(h, i, n, seen);
    assert Settled(h) ==> Settled(g);
    assert forall m :: m != n && Quiet(h, m) ==> Quiet(g, m);
    hide Linked, Counted, Settled, Quiet, InList, Listed;
    if Exact(h) {
      ListedExact(h, i, n, seen);
    }
    forall j | j in g.waiting
      ensures InList(g, j)
    {
      ListedInList(h, i, n, seen, j);
    }
  }

  lemma ListedLinks(h: Hub, i: string, n: string, seen: int)
    requires Linked(h) && i in h.workers && n in h.services && h.workers[i].service == Some(n)
    ensures Linked(Listed(h, i, n, seen))
  {
    assert forall m :: m in h.services ==> WaitsHere(h, m) && WaitsHere(Listed(h, i, n, seen), m);
    hide WaitsHere;
  }

  lemma ListedCounts(h: Hub, i: string, n: string, seen: int)
    requires Counted(h) && i in h.workers && n in h.services && h.workers[i].service == Some(n)
    ensures Counted(Listed(h, i, n, seen))
  {
    assert forall m :: Members(Listed(h, i, n, seen).workers, m) == Members(h.workers, m);
    hide Members;
  }

  lemma ListedInList(h: Hub, i: string, n: string, seen: int, j: string)
    requires (forall k :: k in h.waiting ==> InList(h, k)) && i in h.workers && n in h.services
    requires h.workers[i].service == Some(n)
    requires j in Listed(h, i, n, seen).waiting
    ensures InList(Listed(h, i, n, seen), j)
  {
    var g, ws := Listed(h, i, n, seen), h.services[n].waiting;
    assert g.services[n].waiting[|ws|] == i;
    if j in h.waiting {
      assert InList(h, j);
    }
  }

  lemma ListedExact(h: Hub, i: string, n: string, seen: int)
    requires Core(h) && i in h.workers && n in h.services && h.workers[i].service == Some(n) && Exact(h)
    ensures Exact(Listed(h, i, n, seen)) <==> i !in h.waiting
  {
    var g, ws := Listed(h, i, n, seen), h.services[n].waiting;
    assert ExactList(h, n);
    if i in h.waiting {
      assert InList(h, i);
      var j :| 0 <= j < |ws| && ws[j] == i;
      assert g.services[n].waiting[j] == g.services[n].waiting[|ws|];
      assert !ExactList(g, n);
    } else {
      assert i !in ws;
      forall m
        ensures ExactList(g, m)
      {
        assert ExactList(h, m);
      }
    }
  }

  lemma OccupiedKeeps(h: Hub, i: string, n: string)
    requires Core(h) && i in h.workers && h.workers[i].service.Some?
    ensures Keeps(h, Occupied(h, i), n) && (Quiet(h, n) ==> Quiet(Occupied(h, i), n))
  {
    var g := Occupied(h, i);
    OccupiedLinked(h, i);
    assert Counted(g) && (Settled(h) && Linked(g) ==> Settled(g));
    assert forall j :: j in g.waiting ==> j in h.waiting && j != i;
    hide Linked, Counted, Settled, Quiet, ExactList, InList, Occupied;
    forall m
      ensures (Quiet(h, m) ==> Quiet(g, m)) && (ExactList(h, m) ==> ExactList(g, m))
    {
      OccupiedLists(h, i, m);
    }
    forall j | j in g.waiting
      ensures InList(g, j)
    {
      OccupiedInList(h, i, j);
    }
  }

  lemma OccupiedLinked(h: Hub, i: string)
    requires Linked(h) && i in h.workers && h.workers[i].service.Some?
    ensures Linked(Occupied(h, i))
  {
    forall n | n in h.services
      ensures WaitsHere(Occupied(h, i), n)
    {
      assert WaitsHere(h, n);
      WithoutIn(h.services[n].waiting, {i});
    }
    hide WaitsHere, Without;
  }

  lemma OccupiedInList(h: Hub, i: string, j: string)
    requires InList(h, j) && i != j && i in h.workers && h.workers[i].service.Some?
    requires h.workers[i].service.value in h.services
    ensures InList(Occupied(h, i), j)
  {
    WithoutIn(h.services[h.workers[i].service.value].waiting, {i});
  }

  lemma OccupiedLists(h: Hub, i: string, m: string)
    requires Linked(h) && i in h.workers && h.workers[i].service.Some?
    ensures Quiet(h, m) ==> Quiet(Occupied(h, i), m)
    ensures ExactList(h, m) ==> ExactList(Occupied(h, i), m)
  {
    if m in h.services {
      assert WaitsHere(h, m);
      WithoutIn(h.services[m].waiting, {i});
      if ExactList(h, m) {
        WithoutDistinct(h.services[m].waiting, {i});
      }
    }
  }

  lemma WaitingKeeps(h: Hub, i: string, seen: int, now: int)
    requires Core(h) && i in h.workers && h.workers[i].service.Some?
    ensures var g, n := Waiting(h, i, seen, now), h.workers[i].service.value;
      && Core(g) && (Settled(h) ==> Settled(g)) && Quiet(g, n)
      && (forall m :: m != n && Quiet(h, m) ==> Quiet(g, m))
      && (Exact(h) && i !in h.waiting ==> Exact(g))
  {
    var n := h.workers[i].service.value;
    assert n in h.services && n in Listed(h, i, n, seen).services;
    ListedKeeps(h, i, n, seen);
    var l := Listed(h, i, n, seen);
    hide Counted, Settled, Exact, Quiet, InList, Linked, Dispatched, Listed;
    DispatchedKeeps(l, n, [], now);
  }

  lemma NewcomerKeeps(h: Hub, i: string, n: string)
    requires Good(h) && i !in h.workers
    ensures var a := Attached(Required(Registered(h, i), n), i, n);
      && Good(a) && (Exact(h) ==> Exact(a)) && i in a.workers && i !in a.waiting && a.workers[i].service == Some(n)
  {
    var r := Registered(h, i);
    var s := Required(r, n);
    hide Linked, Counted, InList, Quiet, Exact, Attached, Required, Registered;
    NewcomerIs(h, i, n);
    RegisteredKeeps(h, i);
    RequiredKeeps(r, n);
    AttachedKeeps(s, i, n);
  }

  lemma NewcomerIs(h: Hub, i: string, n: string)
    requires Good(h) && i !in h.workers
    ensures var s := Required(Registered(h, i), n); i in s.workers && s.workers[i].service.None? && n in s.services
    ensures var a := Attached(Required(Registered(h, i), n), i, n);
      && (forall j :: j in a.workers ==> a.workers[j].service.Some?)
      && i in a.workers && i !in a.waiting && a.workers[i].service == Some(n)
  {
    assert i in h.waiting ==> InList(h, i);
    hide Linked, Counted, Quiet;
  }

  lemma JoinedKeeps(h: Hub, i: string, n: string, seen: int, now: int)
    requires Good(h) && i !in h.workers
    ensures Good(Joined(h, i, n, seen, now)) && (Exact(h) ==> Exact(Joined(h, i, n, seen, now)))
  {
    NewcomerKeeps(h, i, n);
    assert Joined(h, i, n, seen, now) == Waiting(Attached(Required(Registered(h, i), n), i, n), i, seen, now);
    hide Core, Quiet, Exact, Waiting, Attached, Required, Registered, Joined;
    WaitingKeeps(Attached(Required(Registered(h, i), n), i, n), i, seen, now);
  }

  lemma RefusedIsNothing(h: Hub, i: string, disconnect: bool)
    requires Core(h) && i !in h.workers
    ensures Refused(h, i, disconnect) == h.(sent := if disconnect then h.sent + [Disconnect(i)] else h.sent)
  {
    assert i !in h.waiting;
    assert h.workers[i := Wkr(None, 0)] - {i} == h.workers;
  }

  lemma HeardKeeps(h: Hub, sender: string)
    requires Good(h)
    ensures var g := h.(clients := h.clients + {sender}); Good(g) && (Exact(h) ==> Exact(g))
  {
    var g := h.(clients := h.clients + {sender});
    assert forall i :: i in h.waiting ==> InList(h, i) && InList(g, i);
    SameLists(h, g);
  }

  /** A client's message keeps everything. */
  lemma {:induction false} ClientKeeps(v: Variant, h: Hub, sender: string, m: Message, now: int)
    requires Good(h) && |m| >= 2
    ensures var g := ClientProcessed(v, h, sender, m, now); Good(g) && (Exact(h) ==> Exact(g))
  {
    var n, msg := CStr(m[0]), Wrapped(m[1..], sender, Some(""));
    if v.Ring? && n == "HEARTBEAT" {
      hide Good, Exact;
      HeardKeeps(h, sender);
    } else {
      hide MmiAnswer, CStr, Reserved;
      RequestKeeps(v, h, n, msg, now);
    }
  }

  lemma RequestKeeps(v: Variant, h: Hub, n: string, msg: Message, now: int)
    requires Good(h)
    ensures Linked(Required(h, n)) && n in Required(h, n).services
    ensures var g := Dispatched(Required(h, n), n, [msg], now); Good(g) && (Exact(h) ==> Exact(g))
    ensures Good(Required(h, n)) && (Exact(h) ==> Exact(Required(h, n)))
    ensures forall sent :: var g := Required(h, n).(sent := sent); Good(g) && (Exact(h) ==> Exact(g))
  {
    var r := Required(h, n);
    hide Core, Quiet, Exact, Dispatched, Required;
    RequiredIsGood(h, n);
    DispatchedIsGood(r, n, msg, now);
    forall sent
      ensures var g := r.(sent := sent); Good(g) && (Exact(h) ==> Exact(g))
    {
      AnsweredKeeps(r, sent);
    }
  }

  lemma RequiredIsGood(h: Hub, n: string)
    requires Good(h)
    ensures Linked(Required(h, n)) && n in Required(h, n).services
    ensures Good(Required(h, n)) && (Exact(h) ==> Exact(Required(h, n)))
  {
    RequiredKeeps(h, n);
    hide Linked, Counted, InList, Quiet, Exact;
  }

  lemma DispatchedIsGood(r: Hub, n: string, msg: Message, now: int)
    requires Good(r) && Linked(r) && n in r.services
    ensures Good(Dispatched(r, n, [msg], now)) && (Exact(r) ==> Exact(Dispatched(r, n, [msg], now)))
  {
    hide Linked, Counted, InList, Quiet, Exact, Dispatched;
    DispatchedKeeps(r, n, [msg], now);
  }

  lemma AnsweredKeeps(h: Hub, sent: seq<Sent>)
    requires Good(h)
    ensures var a := h.(sent := sent); Good(a) && (Exact(h) ==> Exact(a))
  {
    assert Keeps(h, h, "");
    hide Core, Quiet, Exact;
    SentKeeps(h, h, "", sent);
  }
}
