/** What the broker does on each message, in the protocol's own words: who is registered
    where and until when, what is queued, and what goes out. */
module Protocol {
  import opened Order
  import opened Messages
  import opened Majordomo
  import opened Dispatching
  import opened BrokerRuns
  import opened RequestFlow

  lemma GoodIsLinked(h: Hub)
    requires Good(h)
    ensures Linked(h) && Settled(h)
    ensures forall i :: i in h.workers ==> h.workers[i].service.Some? && h.workers[i].service.value in h.services
  {
    hide WaitsHere;
  }

  lemma {:induction false} DrainedWorkers(h: Hub, n: string)
    requires Linked(h) && n in h.services
    ensures Drained(h, n).workers == h.workers && Drained(h, n).clients == h.clients
    decreases |h.services[n].requests|
  {
    var s := h.services[n];
    if s.waiting != [] && s.requests != [] {
      var k := Best(h, s.waiting);
      AssignedLinked(h, n, k);
      hide Linked;
      DrainedWorkers(Assigned(h, n, k), n);
    }
  }

  /** A dispatch purges, and else leaves the workers as they are. */
  lemma DispatchedWorkers(h: Hub, n: string, msgs: seq<Message>, now: int)
    requires Linked(h) && n in h.services
    ensures forall i :: i in Dispatched(h, n, msgs, now).workers <==>
      i in h.workers && !(i in h.waiting && h.workers[i].expiry <= now)
    ensures forall i :: i in Dispatched(h, n, msgs, now).workers ==>
      Dispatched(h, n, msgs, now).workers[i] == h.workers[i]
    ensures Dispatched(h, n, msgs, now).clients == h.clients
  {
    var q := Queued(h, n, msgs);
    CutLinked(q, Expired(h, now));
    hide Linked, Drained;
    DrainedWorkers(Cut(q, Expired(h, now)), n);
  }

  /** Of the workers other than i exactly those are gone that waited and are overdue. */
  ghost predicate OthersPurged(h: Hub, g: Hub, i: string, now: int) {
    && (forall j :: j != i ==> (j in g.workers <==> j in h.workers && !(j in h.waiting && h.workers[j].expiry <= now)))
    && (forall j :: j != i && j in g.workers ==> g.workers[j] == h.workers[j])
  }

  /** Who waits again is good for 7500 more milliseconds; whoever has waited too long goes. */
  lemma WaitingWorkers(h: Hub, i: string, seen: int, now: int)
    requires Linked(h) && i in h.workers && h.workers[i].service.Some?
    ensures var g := Waiting(h, i, seen, now);
      && (i in g.workers <==> now < seen + 7500)
      && (i in g.workers ==> g.workers[i] == Wkr(h.workers[i].service, seen + 7500))
      && OthersPurged(h, g, i, now)
  {
    var n := h.workers[i].service.value;
    var l := Listed(h, i, n, seen);
    hide Linked, Dispatched, OthersPurged, Listed;
    LinkedService(h, i);
    ListedLinks(h, i, n, seen);
    ListedHub(h, i, n, seen);
    DispatchedWorkers(l, n, [], now);
    PurgedOthers(h, l, Dispatched(l, n, [], now), i, Wkr(Some(n), seen + 7500), now);
  }

  lemma LinkedService(h: Hub, i: string)
    requires Linked(h) && i in h.workers && h.workers[i].service.Some?
    ensures h.workers[i].service.value in h.services
  {
  }

  lemma ListedHub(h: Hub, i: string, n: string, seen: int)
    requires i in h.workers && n in h.services && h.workers[i].service == Some(n)
    ensures var l := Listed(h, i, n, seen);
      n in l.services && l.waiting == h.waiting + {i} && l.workers == h.workers[i := Wkr(Some(n), seen + 7500)]
  {
  }

  lemma PurgedOthers(h: Hub, l: Hub, g: Hub, i: string, w: Wkr, now: int)
    requires l.waiting == h.waiting + {i} && l.workers == h.workers[i := w]
    requires forall j :: j in g.workers <==> j in l.workers && !(j in l.waiting && l.workers[j].expiry <= now)
    requires forall j :: j in g.workers ==> g.workers[j] == l.workers[j]
    ensures OthersPurged(h, g, i, now) && (i in g.workers <==> now < w.expiry) && (i in g.workers ==> g.workers[i] == w)
  {
  }

  /** READY from a new worker, for any identity but those that begin with m, i or a dot and
      have four letters: it is registered at the service it names, unless its time is over
      when the purge looks at the clock. */
  lemma {:induction false} ReadyRegisters(v: Variant, h: Hub, i: string, m: Message, seen: int, now: int)
    requires Good(h) && i !in h.workers && i != "" && (|i| < 4 || (i[0] != 'm' && i[0] != 'i' && i[0] != '.'))
    requires |m| >= 2 && CStr(m[0]) == READY && CStr(m[1]) != ""
    ensures Enabled(v, h, FromWorker(i, m, seen, now))
    ensures var g := Step(v, h, FromWorker(i, m, seen, now));
      && (i in g.workers <==> now < seen + 7500)
      && (i in g.workers ==> g.workers[i] == Wkr(Some(CStr(m[1])), seen + 7500))
      && OthersPurged(h, g, i, now)
  {
    var n := CStr(m[1]);
    assert !Reserved(i);
    hide Good, Linked, Waiting, CStr, Reserved, Step, Joined;
    ReadyIs(v, h, i, m, seen, now);
    JoinedWorkers(h, i, n, seen, now);
  }

  lemma JoinedWorkers(h: Hub, i: string, n: string, seen: int, now: int)
    requires Good(h) && i !in h.workers
    ensures Linked(h)
    ensures var g := Joined(h, i, n, seen, now);
      && (i in g.workers <==> now < seen + 7500)
      && (i in g.workers ==> g.workers[i] == Wkr(Some(n), seen + 7500))
      && OthersPurged(h, g, i, now)
  {
    hide Good, Linked, Waiting, Attached, Required, Registered, OthersPurged;
    GoodIsLinked(h);
    AttachedLinked(h, i, n);
    NewcomerHub(h, i, n);
    var a := Attached(Required(Registered(h, i), n), i, n);
    WaitingWorkers(a, i, seen, now);
    SameOthers(h, a, Waiting(a, i, seen, now), i, n, now);
  }

  lemma NewcomerHub(h: Hub, i: string, n: string)
    requires i !in h.workers
    ensures var r := Required(Registered(h, i), n);
      && i in r.workers && n in r.services
      && Attached(r, i, n).waiting == h.waiting && Attached(r, i, n).workers == h.workers[i := Wkr(Some(n), 0)]
  {
  }

  lemma SameOthers(h: Hub, a: Hub, g: Hub, i: string, n: string, now: int)
    requires a.waiting == h.waiting && a.workers == h.workers[i := Wkr(Some(n), 0)] && OthersPurged(a, g, i, now)
    ensures OthersPurged(h, g, i, now)
  {
  }

  /** READY under any other identity, or any other command from a worker that is not
      registered: it is told to disconnect, and nothing else happens; its own DISCONNECT
      is not answered. */
  lemma {:induction false} StrangerIsSentAway(v: Variant, h: Hub, i: string, m: Message, seen: int, now: int)
    requires Good(h) && i !in h.workers && i != "" && |m| >= 1
    requires CStr(m[0]) in {REPLY, HEARTBEAT, DISCONNECT} ||
      (CStr(m[0]) == READY && |i| >= 4 && (i[0] == 'm' || i[0] == 'i' || i[0] == '.'))
    ensures Enabled(v, h, FromWorker(i, m, seen, now))
    ensures Step(v, h, FromWorker(i, m, seen, now)) ==
      h.(sent := if CStr(m[0]) == DISCONNECT then h.sent else h.sent + [Disconnect(i)])
  {
    var command := CStr(m[0]);
    CommandsDiffer();
    assert command == READY ==> Reserved(i);
    hide CStr, Core, Quiet, Refused, Reserved;
    RefusedIsNothing(h, i, command != DISCONNECT);
  }

  lemma CommandsDiffer()
    ensures READY != REPLY && READY != HEARTBEAT && READY != DISCONNECT && READY != OCCUPIED
    ensures REPLY != HEARTBEAT && REPLY != DISCONNECT && REPLY != OCCUPIED
    ensures HEARTBEAT != DISCONNECT && HEARTBEAT != OCCUPIED && DISCONNECT != OCCUPIED
  {
    assert READY[0] != REPLY[0] && READY[0] != HEARTBEAT[0] && READY[0] != DISCONNECT[0] && READY[0] != OCCUPIED[0];
    assert REPLY[0] != HEARTBEAT[0] && REPLY[0] != DISCONNECT[0] && REPLY[0] != OCCUPIED[0];
    assert HEARTBEAT[0] != DISCONNECT[0] && HEARTBEAT[0] != OCCUPIED[0] && DISCONNECT[0] != OCCUPIED[0];
  }

  /** READY from a registered worker is out of order, and costs it its place. */
  lemma {:induction false} ReadyTwiceIsSentAway(v: Variant, h: Hub, i: string, m: Message, seen: int, now: int)
    requires Good(h) && i in h.workers && i != "" && |m| >= 1 && CStr(m[0]) == READY
    ensures Enabled(v, h, FromWorker(i, m, seen, now))
    ensures Gone(h, Step(v, h, FromWorker(i, m, seen, now)), i)
    ensures Step(v, h, FromWorker(i, m, seen, now)).sent == h.sent + [Disconnect(i)]
  {
    GoodIsLinked(h);
    hide CStr, Good, Removed;
    RemovedIsGone(h, i, true);
  }

  /** DISCONNECT takes the worker out, without an answer. */
  lemma {:induction false} DisconnectTakesOut(v: Variant, h: Hub, i: string, m: Message, seen: int, now: int)
    requires Good(h) && i in h.workers && i != "" && |m| >= 1 && CStr(m[0]) == DISCONNECT
    ensures Enabled(v, h, FromWorker(i, m, seen, now))
    ensures Gone(h, Step(v, h, FromWorker(i, m, seen, now)), i)
    ensures Step(v, h, FromWorker(i, m, seen, now)).sent == h.sent
  {
    GoodIsLinked(h);
    CommandsDiffer();
    hide CStr, Good, Removed;
    RemovedIsGone(h, i, false);
  }

  /** Worker i is out of the registry, the waiting set and every list, and nothing else is changed. */
  ghost predicate Gone(h: Hub, g: Hub, i: string) {
    && g.workers == h.workers - {i} && g.waiting == h.waiting - {i} && g.clients == h.clients
    && g.services.Keys == h.services.Keys
    && forall n :: n in h.services ==>
      && g.services[n].requests == h.services[n].requests
      && (forall j :: j in g.services[n].waiting <==> j in h.services[n].waiting && j != i)
  }

  lemma RemovedIsGone(h: Hub, i: string, disconnect: bool)
    requires Good(h) && i in h.workers && h.workers[i].service.Some? && h.workers[i].service.value in h.services
    ensures Gone(h, Removed(h, i, disconnect), i)
    ensures Removed(h, i, disconnect).sent == if disconnect then h.sent + [Disconnect(i)] else h.sent
  {
    var n := h.workers[i].service.value;
    WithoutIn(h.services[n].waiting, {i});
    forall m | m in h.services
      ensures i in h.services[m].waiting ==> m == n
    {
      assert WaitsHere(h, m);
    }
    hide Good, Without;
  }

  /** HEARTBEAT from a registered worker: it is good for 7500 more milliseconds. */
  lemma {:induction false} HeartbeatRenews(v: Variant, h: Hub, i: string, m: Message, seen: int, now: int)
    requires Good(h) && i in h.workers && i != "" && |m| >= 1 && CStr(m[0]) == "\U{4}"
    ensures Enabled(v, h, FromWorker(i, m, seen, now))
    ensures Step(v, h, FromWorker(i, m, seen, now)) ==
      h.(workers := h.workers[i := Wkr(h.workers[i].service, seen + 7500)])
  {
    GoodIsLinked(h);
    CommandsDiffer();
    hide CStr, Good;
  }

  /** REPLY from a registered worker: it waits again, good for 7500 more milliseconds. */
  lemma {:induction false} ReplyRenews(v: Variant, h: Hub, i: string, m: Message, seen: int, now: int)
    requires Good(h) && i in h.workers && i != "" && |m| >= 2 && CStr(m[0]) == REPLY
    ensures Enabled(v, h, FromWorker(i, m, seen, now))
    ensures var g := Step(v, h, FromWorker(i, m, seen, now));
      && (i in g.workers <==> now < seen + 7500)
      && (i in g.workers ==> g.workers[i] == Wkr(h.workers[i].service, seen + 7500))
      && OthersPurged(h, g, i, now)
  {
    hide Good, Step, Replied, CStr, OthersPurged, ValidCommand, WorkerProcessed;
    ReplyIs(v, h, i, m, seen, now);
    GoodIsLinked(h);
    ReplyProcessed(v, h, i, m, seen, now);
    RepliedWorkers(h, i, m[1..], seen, now);
  }

  lemma RepliedWorkers(h: Hub, i: string, m: Message, seen: int, now: int)
    requires Good(h) && i in h.workers && m != []
    ensures h.workers[i].service.Some?
    ensures var g := Replied(h, i, m, seen, now);
      && (i in g.workers <==> now < seen + 7500)
      && (i in g.workers ==> g.workers[i] == Wkr(h.workers[i].service, seen + 7500))
      && OthersPurged(h, g, i, now)
  {
    hide Good, Replied, Waiting, Envelope, Unwrapped;
    GoodIsLinked(h);
    RepliedIs(h, i, m, seen, now);
    var (client, body) := Unwrapped(m);
    var a := h.(sent := h.sent + [Answer(Envelope(client, h.workers[i].service.value, body))]);
    WaitingWorkers(a, i, seen, now);
  }

  /** OCCUPIED about a worker, at the ring broker: it stays registered, and waits nowhere, so no
      request is sent to it until it waits again. */
  lemma {:induction false} OccupiedWaitsNowhere(h: Hub, i: string, m: Message, seen: int, now: int)
    requires Good(h) && i in h.workers && i != "" && |m| >= 2 && CStr(m[0]) == "\U{10}" && CStr(m[1]) in h.workers
    ensures Enabled(Ring, h, FromWorker(i, m, seen, now))
    ensures var g, w := Step(Ring, h, FromWorker(i, m, seen, now)), CStr(m[1]);
      && g.workers == h.workers && g.sent == h.sent && g.waiting == h.waiting - {w}
      && g.services.Keys == h.services.Keys
      && forall n :: n in h.services ==>
        && g.services[n].requests == h.services[n].requests
        && (forall j :: j in g.services[n].waiting <==> j in h.services[n].waiting && j != w)
  {
    GoodIsLinked(h);
    CommandsDiffer();
    hide CStr, Good, Occupied;
    OccupiedIsOut(h, CStr(m[1]));
  }

  lemma OccupiedIsOut(h: Hub, i: string)
    requires Good(h) && i in h.workers && h.workers[i].service.Some? && h.workers[i].service.value in h.services
    ensures var g := Occupied(h, i);
      && g.workers == h.workers && g.sent == h.sent && g.waiting == h.waiting - {i}
      && g.services.Keys == h.services.Keys
      && forall n :: n in h.services ==>
        && g.services[n].requests == h.services[n].requests
        && (forall j :: j in g.services[n].waiting <==> j in h.services[n].waiting && j != i)
  {
    var n := h.workers[i].service.value;
    WithoutIn(h.services[n].waiting, {i});
    forall m | m in h.services
      ensures i in h.services[m].waiting ==> m == n
    {
      assert WaitsHere(h, m);
    }
    hide Good, Without;
  }

  /** The clock alone: exactly those go that wait and are overdue, from the registry, the
      waiting set and the lists, and nothing is sent. */
  lemma {:induction false} PurgeTakesTheOverdue(v: Variant, h: Hub, now: int)
    requires Good(h)
    ensures var g := Step(v, h, Purge(now));
      && (forall i :: i in g.workers <==> i in h.workers && !(i in h.waiting && h.workers[i].expiry <= now))
      && (forall i :: i in g.workers ==> g.workers[i] == h.workers[i])
      && (forall i :: i in g.waiting <==> i in h.waiting && h.workers[i].expiry > now)
      && g.sent == h.sent && g.services.Keys == h.services.Keys
      && forall n :: n in h.services ==>
        && g.services[n].requests == h.services[n].requests
        && (forall i :: i in g.services[n].waiting <==>
          i in h.services[n].waiting && !(i in h.waiting && h.workers[i].expiry <= now))
  {
    GoodIsLinked(h);
    PurgeIs(v, h, now);
    OverdueAre(h, now);
    hide Good, Expired, Members, Without;
    forall n | n in h.services
      ensures forall i :: i in Without(h.services[n].waiting, Expired(h, now)) <==>
        i in h.services[n].waiting && i !in Expired(h, now)
    {
      WithoutIn(h.services[n].waiting, Expired(h, now));
    }
  }

  lemma PurgeIs(v: Variant, h: Hub, now: int)
    requires Good(h)
    ensures Step(v, h, Purge(now)) == Cut(h, Expired(h, now))
  {
    hide Good, Cut, Expired;
  }

  lemma OverdueAre(h: Hub, now: int)
    requires Good(h)
    ensures forall i :: i in h.waiting ==> i in h.workers
    ensures forall i :: i in Expired(h, now) <==> i in h.waiting && h.workers[i].expiry <= now
    ensures forall n, i :: n in h.services && i in h.services[n].waiting ==> i in h.workers
  {
    assert forall n :: n in h.services ==> WaitsHere(h, n);
  }

  /** A client's message to any service, but those of four letters or more that begin with m, i
      or a dot, and HEARTBEAT at the ring broker: behind the requests accepted before there is
      now this one, from its sender. Every other message adds no request anywhere. */
  lemma {:induction false} ClientAdds(v: Variant, h: Hub, sender: string, m: Message, now: int, l: string)
    requires Good(h) && |m| >= 2 && CStr(m[0]) != ""
    ensures var n := CStr(m[0]);
      Flow(Step(v, h, FromClient(sender, m, now)), l) == Flow(h, l) +
        if l == n && (|n| < 4 || (n[0] != 'm' && n[0] != 'i' && n[0] != '.')) && !(v.Ring? && n == "HEARTBEAT")
        then [[CStr(sender), ""] + m[1..]] else []
  {
    assert CStr("") == "";
    assert Wrapped(m[1..], sender, Some("")) == [CStr(sender), ""] + m[1..];
    hide Good, Flow, CStr, ClientProcessed, Wrapped;
    ClientFlow(v, h, sender, m, now, l);
  }

  /** HEARTBEAT from a client of the ring broker is noted, and nothing else. */
  lemma {:induction false} ClientIsNoted(h: Hub, sender: string, m: Message, now: int)
    requires Good(h) && |m| >= 2 && CStr(m[0]) == "HEARTBEAT"
    ensures Step(Ring, h, FromClient(sender, m, now)) == h.(clients := h.clients + {sender})
  {
    hide Good, CStr;
  }

  /** A reserved name: its service is created; mdbroker answers the sender in place of the
      body, and the ring broker drops the message. */
  lemma {:induction false} ReservedIsAnswered(v: Variant, h: Hub, sender: string, m: Message, now: int)
    requires Good(h) && |m| >= 2
    requires var n := CStr(m[0]); |n| >= 4 && (n[0] == 'm' || n[0] == 'i' || n[0] == '.')
    ensures var g, n := Step(v, h, FromClient(sender, m, now)), CStr(m[0]);
      && g.workers == h.workers && g.waiting == h.waiting && g.clients == h.clients
      && g.services == (if n in h.services then h.services else h.services[n := Svc([], [], 0)])
      && (v.Ring? ==> g.sent == h.sent)
      && (v.Minimal? ==> |g.sent| == |h.sent| + 1 && h.sent <= g.sent && g.sent[|h.sent|].Answer?)
  {
    hide Good, CStr, MmiAnswer, Wrapped;
  }
}
