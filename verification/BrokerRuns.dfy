/** Runs of the broker: its invariants, the conservation of requests, whom they go to, and
    the way back of replies. */
module BrokerRuns {
  import opened Order
  import opened Messages
  import opened Majordomo
  import opened Dispatching

  predicate Enabled(v: Variant, h: Hub, e: Event) {
    match e
    case FromClient(sender, m, _) => |m| >= 2 && CStr(m[0]) != ""
    case FromWorker(sender, m, _, _) => ValidCommand(v, h, sender, m)
    case Purge(_) => true
  }

  ghost function Handled(v: Variant, h: Hub, e: Event): Hub
    requires Settled(h) && Enabled(v, h, e)
  {
    match e
    case FromClient(sender, m, now) => ClientProcessed(v, h, sender, m, now)
    case FromWorker(sender, m, seen, now) => WorkerProcessed(v, h, sender, m, seen, now)
    case Purge(now) => Cut(h, Expired(h, now))
  }

  /** An event that is not enabled does not happen. */
  ghost function Step(v: Variant, h: Hub, e: Event): (g: Hub)
    requires Good(h)
    ensures Good(g)
  {
    if Enabled(v, h, e) then
      HandledKeeps(v, h, e);
      Handled(v, h, e)
    else h
  }

  /** A worker sends REPLY only for a request it holds: not while it waits. */
  predicate InTurn(h: Hub, e: Event) {
    e.FromWorker? && |e.msg| >= 1 && CStr(e.msg[0]) == REPLY ==> e.sender !in h.waiting
  }

  lemma HeartbeatKeeps(h: Hub, i: string, expiry: int)
    requires Good(h) && i in h.workers
    ensures var g := h.(workers := h.workers[i := Wkr(h.workers[i].service, expiry)]);
      Good(g) && (Exact(h) ==> Exact(g))
  {
    var g := h.(workers := h.workers[i := Wkr(h.workers[i].service, expiry)]);
    HeartbeatLinks(h, i, expiry);
    assert forall j :: j in h.workers ==> g.workers[j].service == h.workers[j].service;
    hide Linked, Counted, InList, Exact, Quiet;
    SameLists(h, g);
  }

  lemma HeartbeatLinks(h: Hub, i: string, expiry: int)
    requires Core(h) && i in h.workers
    ensures Core(h.(workers := h.workers[i := Wkr(h.workers[i].service, expiry)]))
  {
    var g := h.(workers := h.workers[i := Wkr(h.workers[i].service, expiry)]);
    assert forall m :: Members(g.workers, m) == Members(h.workers, m);
    assert forall m :: m in h.services ==> WaitsHere(h, m) && WaitsHere(g, m);
    hide Members, WaitsHere;
    assert forall j :: j in h.waiting ==> InList(h, j) && InList(g, j);
  }

  lemma RefusedKeeps(h: Hub, i: string, disconnect: bool)
    requires Good(h) && i !in h.workers
    ensures var g := Refused(h, i, disconnect); Good(g) && (Exact(h) ==> Exact(g))
  {
    RefusedIsNothing(h, i, disconnect);
    assert Keeps(h, h, "");
    hide Linked, Settled, Counted, InList, Quiet, Exact, Refused;
    SentKeeps(h, h, "", h.sent + [Disconnect(i)]);
  }

  lemma RemovedIsGood(h: Hub, i: string, disconnect: bool)
    requires Good(h) && i in h.workers
    ensures var g := Removed(h, i, disconnect); Good(g) && (Exact(h) ==> Exact(g))
  {
    assert h.workers[i].service.Some? ==> h.workers[i].service.value in h.services;
    hide Linked, Settled, Counted, InList, Quiet, Exact, Removed;
    RemovedKeeps(h, i, disconnect, "");
  }

  lemma RepliedKeeps(h: Hub, i: string, m: Message, seen: int, now: int)
    requires Good(h) && i in h.workers && m != []
    ensures Good(Replied(h, i, m, seen, now)) && (Exact(h) && i !in h.waiting ==> Exact(Replied(h, i, m, seen, now)))
  {
    var n := h.workers[i].service.value;
    var answered := h.(sent := h.sent + [Answer(Envelope(Unwrapped(m).0, n, Unwrapped(m).1))]);
    AnsweredKeeps(h, answered.sent);
    assert Replied(h, i, m, seen, now) == Waiting(answered, i, seen, now);
    hide Core, Quiet, Exact, Waiting, Replied, Envelope, Unwrapped;
    WaitingKeeps(answered, i, seen, now);
  }

  lemma StrangerKeeps(v: Variant, h: Hub, sender: string, m: Message, seen: int, now: int)
    requires Good(h) && ValidCommand(v, h, sender, m) && sender !in h.workers
    ensures var g := WorkerProcessed(v, h, sender, m, seen, now); Good(g) && (Exact(h) ==> Exact(g))
  {
    hide Core, Quiet, Exact, Joined, Refused, Reserved, CStr;
    RefusedKeeps(h, sender, true);
    RefusedKeeps(h, sender, false);
    if CStr(m[0]) == READY && !Reserved(sender) {
      JoinedKeeps(h, sender, CStr(m[1]), seen, now);
    }
  }

  lemma AcquaintanceKeeps(v: Variant, h: Hub, sender: string, m: Message, seen: int, now: int)
    requires Good(h) && ValidCommand(v, h, sender, m) && sender in h.workers
    ensures var g := WorkerProcessed(v, h, sender, m, seen, now);
      Good(g) && (Exact(h) && (CStr(m[0]) == REPLY ==> sender !in h.waiting) ==> Exact(g))
  {
    var command := CStr(m[0]);
    if command == READY || command == DISCONNECT {
      hide Good, Exact, Removed, CStr;
      RemovedIsGood(h, sender, command == READY);
    } else if command == REPLY {
      hide Good, Exact, Replied, CStr;
      RepliedKeeps(h, sender, m[1..], seen, now);
    } else if v.Ring? && command == OCCUPIED {
      hide Good, Exact, Occupied, CStr;
      OccupiedIsGood(h, CStr(m[1]));
    } else if command == HEARTBEAT {
      hide Good, Exact, CStr;
      HeartbeatKeeps(h, sender, seen + EXPIRY);
    }
  }

  lemma OccupiedIsGood(h: Hub, i: string)
    requires Good(h) && i in h.workers
    ensures var g := Occupied(h, i); Good(g) && (Exact(h) ==> Exact(g))
  {
    assert h.workers[i].service.Some? && h.workers[i].service.value in h.services;
    hide Linked, Settled, Counted, InList, Quiet, Exact, Occupied;
    OccupiedKeeps(h, i, "");
  }

  /** A worker's message keeps everything, except that a reply out of turn can enlist a worker twice. */
  lemma {:induction false} WorkerKeeps(v: Variant, h: Hub, sender: string, m: Message, seen: int, now: int)
    requires Good(h) && ValidCommand(v, h, sender, m)
    ensures var g := WorkerProcessed(v, h, sender, m, seen, now);
      && Good(g)
      && (Exact(h) && (CStr(m[0]) == REPLY ==> sender !in h.waiting) ==> Exact(g))
  {
    if sender in h.workers {
      AcquaintanceKeeps(v, h, sender, m, seen, now);
    } else {
      StrangerKeeps(v, h, sender, m, seen, now);
    }
  }

  lemma HandledKeeps(v: Variant, h: Hub, e: Event)
    requires Good(h) && Enabled(v, h, e)
    ensures Good(Handled(v, h, e))
    ensures Exact(h) && InTurn(h, e) ==> Exact(Handled(v, h, e))
  {
    match e
    case FromClient(sender, m, now) =>
      hide Good, Exact;
      ClientKeeps(v, h, sender, m, now);
    case FromWorker(sender, m, seen, now) =>
      hide Good, Exact;
      WorkerKeeps(v, h, sender, m, seen, now);
    case Purge(now) =>
      hide Linked, Settled, Counted, InList, Quiet, Exact, Cut, Expired;
      CutKeeps(h, Expired(h, now), "");
  }

  /** The broker after any sequence of events. */
  ghost function After(v: Variant, es: seq<Event>): (h: Hub)
    ensures Good(h)
  {
    if es == [] then
      assert forall n :: Members(EMPTY_HUB.workers, n) == {};
      EMPTY_HUB
    else Step(v, After(v, es[..|es| - 1]), es[|es| - 1])
  }

  /** In every run, every waiting worker is registered and belongs to the service it waits
      at, a service counts exactly the workers that point at it, and no service has a
      waiting worker and a queued request at once. */
  lemma RunInvariant(v: Variant, es: seq<Event>)
    ensures var h := After(v, es);
      && (forall i :: i in h.waiting ==> InList(h, i))
      && (forall n, i :: n in h.services && i in h.services[n].waiting ==>
        i in h.workers && h.workers[i].service == Some(n))
      && (forall n :: n in h.services ==> h.services[n].workers == |Members(h.workers, n)|)
      && (forall i :: i in h.workers ==> InService(h, i) && h.services[h.workers[i].service.value].workers >= 1)
      && (forall n :: n in h.services ==> h.services[n].waiting == [] || h.services[n].requests == [])
  {
    var h := After(v, es);
    forall n | n in h.services
      ensures h.services[n].waiting == [] || h.services[n].requests == []
    {
      assert Quiet(h, n);
    }
    forall i | i in h.workers
      ensures InService(h, i) && h.services[h.workers[i].service.value].workers >= 1
    {
      assert i in Members(h.workers, h.workers[i].service.value);
    }
  }

  ghost predicate InService(h: Hub, i: string)
    requires i in h.workers
  {
    h.workers[i].service.Some? && h.workers[i].service.value in h.services
  }

  ghost predicate TakesTurns(v: Variant, es: seq<Event>) {
    forall k :: 0 <= k < |es| ==> InTurn(After(v, es[..k]), es[k])
  }

  /** If workers reply only in turn, the waiting set is at every point the disjoint union
      of the lists, and no list holds a worker twice. */
  lemma {:induction false} RunExact(v: Variant, es: seq<Event>)
    requires TakesTurns(v, es)
    ensures Exact(After(v, es))
  {
    if es != [] {
      var init, last := es[..|es| - 1], es[|es| - 1];
      forall k | 0 <= k < |init|
        ensures InTurn(After(v, init[..k]), init[k])
      {
        assert init[..k] == es[..k];
      }
      RunExact(v, init);
      if Enabled(v, After(v, init), last) {
        assert InTurn(After(v, es[..|es| - 1]), es[|es| - 1]);
        hide Good, Exact, Handled, Enabled;
        HandledKeeps(v, After(v, init), last);
      }
    } else {
      assert forall n :: ExactList(EMPTY_HUB, n);
    }
  }

  /** A reply keeps the lists exact if and only if the worker was not waiting, or the
      clock passes its new expiry before the purge. */
  lemma {:induction false} ReplyExactWhen(h: Hub, i: string, m: Message, seen: int, now: int)
    requires Good(h) && Exact(h) && i in h.workers && m != []
    ensures Exact(Replied(h, i, m, seen, now)) <==> i !in h.waiting || seen + EXPIRY <= now
  {
    if i !in h.waiting {
      RepliedKeeps(h, i, m, seen, now);
    } else {
      var n := h.workers[i].service.value;
      var l := ReplyOfWaiting(h, i, m, seen, now);
      hide Good, Replied, Envelope, Cut, Unwrapped, Listed, Exact;
      if seen + EXPIRY <= now {
        TwiceListedGone(h, i, n, seen, now);
      } else {
        TwiceListedStays(h, i, n, seen, now);
      }
    }
  }

  /** No request is queued where i waits, so all its reply does is list it again and purge. */
  lemma ReplyOfWaiting(h: Hub, i: string, m: Message, seen: int, now: int) returns (l: Hub)
    requires Good(h) && i in h.workers && m != [] && i in h.waiting
    ensures var n := h.workers[i].service.value;
      && n in h.services && i in h.services[n].waiting
      && l == Listed(h, i, n, seen)
    ensures Exact(Replied(h, i, m, seen, now)) <==> Exact(Cut(l, Expired(l, now)))
  {
    var n := h.workers[i].service.value;
    assert Quiet(h, n) && InList(h, i);
    l := Listed(h, i, n, seen);
    var a := Listed(h.(sent := h.sent + [Answer(Envelope(Unwrapped(m).0, n, Unwrapped(m).1))]), i, n, seen);
    QueuedNothing(a, n);
    hide Good, InList, Envelope, Unwrapped;
    assert a == l.(sent := a.sent);
    CutOfSent(l, a.sent, Expired(l, now));
    assert Replied(h, i, m, seen, now) == Cut(a, Expired(a, now));
    SameLists(Cut(a, Expired(a, now)), Cut(l, Expired(l, now)));
    SameLists(Cut(l, Expired(l, now)), Cut(a, Expired(a, now)));
  }

  lemma QueuedNothing(h: Hub, n: string)
    requires n in h.services
    ensures Queued(h, n, []) == h
  {
    assert h.services[n].requests + [] == h.services[n].requests;
    assert h.services[n := h.services[n]] == h.services;
  }

  lemma CutOfSent(h: Hub, sent: seq<Sent>, gone: set<string>)
    ensures Cut(h.(sent := sent), gone) == Cut(h, gone).(sent := sent)
  {
  }

  lemma TwiceListedGone(h: Hub, i: string, n: string, seen: int, now: int)
    requires n in h.services && i in h.workers && i in h.waiting && Exact(h)
    requires seen + EXPIRY <= now
    ensures var l := Listed(h, i, n, seen); Exact(Cut(l, Expired(l, now)))
  {
    var ws, l := h.services[n].waiting, Listed(h, i, n, seen);
    var gone := Expired(l, now);
    var g := Cut(l, gone);
    WithoutSnoc(ws, i, gone);
    forall m | m in h.services
      ensures ExactList(g, m)
    {
      assert ExactList(h, m);
      WithoutDistinct(h.services[m].waiting, gone);
      WithoutIn(h.services[m].waiting, gone);
      assert l.services[m].waiting == if m == n then ws + [i] else h.services[m].waiting;
    }
  }

  lemma TwiceListedStays(h: Hub, i: string, n: string, seen: int, now: int)
    requires n in h.services && i in h.workers && i in h.services[n].waiting
    requires seen + EXPIRY > now
    ensures var l := Listed(h, i, n, seen); !Exact(Cut(l, Expired(l, now)))
  {
    var ws, l := h.services[n].waiting, Listed(h, i, n, seen);
    var gone := Expired(l, now);
    var g := Cut(l, gone);
    WithoutSnoc(ws, i, gone);
    var w := Without(ws, gone);
    WithoutIn(ws, gone);
    assert g.services[n].waiting == w + [i] && i in w;
    var j :| 0 <= j < |w| && w[j] == i;
    assert (w + [i])[j] == (w + [i])[|w|];
    assert !ExactList(g, n);
  }

  lemma NothingToDispatch(h: Hub, n: string, now: int)
    requires Linked(h) && n in h.services && h.services[n].requests == [] && Expired(h, now) == {}
    ensures Dispatched(h, n, [], now) == h
  {
    QueuedNothing(h, n);
    CutNothing(h);
  }

  /** One worker waiting at its service, and nothing else. */
  function OneWaits(): Hub {
    Hub(map["s" := Svc([], ["w"], 1)], map["w" := Wkr(Some("s"), EXPIRY)], {"w"}, {}, [])
  }

  lemma ReadyWaits()
    ensures Joined(EMPTY_HUB, "w", "s", 0, 0) == OneWaits()
  {
    var a := Attached(Required(Registered(EMPTY_HUB, "w"), "s"), "w", "s");
    assert a == Hub(map["s" := Svc([], [], 1)], map["w" := Wkr(Some("s"), 0)], {}, {}, []);
    var h := Listed(a, "w", "s", 0);
    assert [] + ["w"] == ["w"] && {} + {"w"} == {"w"};
    assert h == OneWaits();
    hide Dispatched;
    NothingToDispatch(h, "s", 0);
  }

  lemma OneWaitsExactly()
    ensures Exact(OneWaits()) && "w" in OneWaits().workers && "w" in OneWaits().waiting
  {
    assert forall n :: ExactList(OneWaits(), n);
  }

  const FIRST_READY: Event := FromWorker("w", [READY, "s"], 0, 0)
  const UNCALLED_REPLY: Event := FromWorker("w", [REPLY, "c", "", "r"], 0, 0)

  lemma ReadyIs(v: Variant, h: Hub, i: string, m: Message, seen: int, now: int)
    requires Good(h) && i !in h.workers && i != "" && !Reserved(i)
    requires |m| >= 2 && CStr(m[0]) == READY && CStr(m[1]) != ""
    ensures Step(v, h, FromWorker(i, m, seen, now)) == Joined(h, i, CStr(m[1]), seen, now)
  {
    hide Joined, CStr, Good, Reserved;
  }

  lemma ReplyProcessed(v: Variant, h: Hub, i: string, m: Message, seen: int, now: int)
    requires Settled(h) && i in h.workers && i != "" && |m| >= 2 && CStr(m[0]) == REPLY
    ensures ValidCommand(v, h, i, m) && WorkerProcessed(v, h, i, m, seen, now) == Replied(h, i, m[1..], seen, now)
  {
    assert REPLY[0] != READY[0] && REPLY[0] != OCCUPIED[0];
    hide Replied, CStr, Linked;
  }

  lemma ReplyIs(v: Variant, h: Hub, i: string, m: Message, seen: int, now: int)
    requires Good(h) && i in h.workers && i != "" && |m| >= 2 && CStr(m[0]) == REPLY
    ensures Step(v, h, FromWorker(i, m, seen, now)) == Replied(h, i, m[1..], seen, now)
  {
    hide Core, Quiet, Replied, CStr, WorkerProcessed, ValidCommand;
    ReplyProcessed(v, h, i, m, seen, now);
  }

  lemma NothingIsGood()
    ensures Good(EMPTY_HUB)
  {
    assert forall n :: Members(EMPTY_HUB.workers, n) == {};
  }

  lemma ReadyStep(v: Variant)
    ensures Good(EMPTY_HUB) && Step(v, EMPTY_HUB, FIRST_READY) == OneWaits()
  {
    assert NulFree(READY) && NulFree("s") && !Reserved("w");
    hide *;
    NothingIsGood();
    ReadyWaits();
    ReadyIs(v, EMPTY_HUB, "w", [READY, "s"], 0, 0);
  }

  lemma ReplyStep(v: Variant)
    requires Good(OneWaits())
    ensures !Exact(Step(v, OneWaits(), UNCALLED_REPLY))
  {
    OneWaitsExactly();
    assert NulFree(REPLY) && [REPLY, "c", "", "r"][1..] == ["c", "", "r"];
    hide *;
    ReplyIs(v, OneWaits(), "w", [REPLY, "c", "", "r"], 0, 0);
    ReplyExactWhen(OneWaits(), "w", ["c", "", "r"], 0, 0);
  }

  /** A worker that says READY and then sends a reply, which nobody asked for, is listed twice. */
  lemma {:induction false} UncalledReplyListsTwice(v: Variant)
    ensures !Exact(After(v, [FIRST_READY, UNCALLED_REPLY]))
  {
    hide *;
    ReadyStep(v);
    AfterNothing(v);
    AfterSnoc(v, [], FIRST_READY);
    AfterSnoc(v, [FIRST_READY], UNCALLED_REPLY);
    ReplyStep(v);
    assert [] + [FIRST_READY] == [FIRST_READY] && [FIRST_READY] + [UNCALLED_REPLY] == [FIRST_READY, UNCALLED_REPLY];
  }

  lemma AfterNothing(v: Variant)
    ensures After(v, []) == EMPTY_HUB
  {
  }

  lemma AfterSnoc(v: Variant, es: seq<Event>, e: Event)
    ensures After(v, es + [e]) == Step(v, After(v, es), e)
  {
    assert (es + [e])[..|es|] == es;
    hide Step, Good;
  }
}
