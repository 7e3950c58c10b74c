/** Where requests go: none is lost or duplicated between client and worker, each goes to
    a live worker of its service, and a reply finds the client that asked. */
module RequestFlow {
  import opened Order
  import opened Messages
  import opened Majordomo
  import opened Dispatching
  import opened BrokerRuns

  /** The requests of service n that have been sent to workers, in order. */
  function RequestsOf(sent: seq<Sent>, n: string): seq<Message> {
    if sent == [] then []
    else
      var last := sent[|sent| - 1];
      RequestsOf(sent[..|sent| - 1], n) + (if last.Request? && last.service == n then [last.msg] else [])
  }

  /** What was sent to workers, followed by what is still queued. */
  function Flow(h: Hub, n: string): seq<Message> {
    RequestsOf(h.sent, n) + (if n in h.services then h.services[n].requests else [])
  }

  lemma RequestsSnoc(sent: seq<Sent>, s: Sent, n: string)
    ensures RequestsOf(sent + [s], n) == RequestsOf(sent, n) + if s.Request? && s.service == n then [s.msg] else []
  {
    assert (sent + [s])[..|sent|] == sent;
  }

  lemma {:induction false} DrainedFlow(h: Hub, n: string, l: string)
    requires Linked(h) && n in h.services
    ensures Flow(Drained(h, n), l) == Flow(h, l)
    decreases |h.services[n].requests|
  {
    var s := h.services[n];
    if s.waiting != [] && s.requests != [] {
      var g := Assigned(h, n, Best(h, s.waiting));
      AssignedFlow(h, n, Best(h, s.waiting), l);
      hide Linked, Flow;
      DrainedFlow(g, n, l);
    }
  }

  /** The request moves from the queue to what was sent. */
  lemma AssignedFlow(h: Hub, n: string, k: nat, l: string)
    requires n in h.services && k < |h.services[n].waiting| && h.services[n].requests != []
    ensures Flow(Assigned(h, n, k), l) == Flow(h, l)
  {
    var s := h.services[n];
    RequestsSnoc(h.sent, Request(n, s.waiting[k], s.requests[0]), l);
    assert s.requests == [s.requests[0]] + s.requests[1..];
    hide RequestsOf;
  }

  lemma DispatchedFlow(h: Hub, n: string, msgs: seq<Message>, now: int, l: string)
    requires Linked(h) && n in h.services
    ensures Flow(Dispatched(h, n, msgs, now), l) == Flow(h, l) + if l == n then msgs else []
  {
    hide Linked, Flow, Cut, Queued, Expired;
    var q := Queued(h, n, msgs);
    QueuedFlow(h, n, msgs, l);
    CutLinked(q, Expired(h, now));
    CutServices(q, Expired(h, now));
    CutFlow(q, Expired(h, now), l);
    DrainedFlow(Cut(q, Expired(h, now)), n, l);
  }

  lemma QueuedFlow(h: Hub, n: string, msgs: seq<Message>, l: string)
    requires Linked(h) && n in h.services
    ensures Linked(Queued(h, n, msgs)) && n in Queued(h, n, msgs).services
    ensures Flow(Queued(h, n, msgs), l) == Flow(h, l) + if l == n then msgs else []
  {
    assert forall m :: m in h.services ==> WaitsHere(h, m) && WaitsHere(Queued(h, n, msgs), m);
    hide WaitsHere;
  }

  lemma WaitingFlow(h: Hub, i: string, seen: int, now: int, l: string)
    requires Linked(h) && i in h.workers && h.workers[i].service.Some?
    ensures Flow(Waiting(h, i, seen, now), l) == Flow(h, l)
  {
    var n := h.workers[i].service.value;
    assert Flow(Listed(h, i, n, seen), l) == Flow(h, l);
    hide Flow, Dispatched;
    DispatchedFlow(Listed(h, i, n, seen), n, [], now, l);
  }

  /** What an event adds to the requests accepted for service n. */
  function Fresh(v: Variant, e: Event, n: string): seq<Message> {
    if e.FromClient? && n != "" && IsRequest(v, e.msg, n) then [Wrapped(e.msg[1..], e.sender, Some(""))] else []
  }

  lemma AnswerFlow(h: Hub, answer: Message, l: string)
    ensures Flow(h.(sent := h.sent + [Answer(answer)]), l) == Flow(h, l)
  {
    RequestsSnoc(h.sent, Answer(answer), l);
  }

  lemma ClientFlow(v: Variant, h: Hub, sender: string, m: Message, now: int, l: string)
    requires Good(h) && |m| >= 2 && CStr(m[0]) != ""
    ensures Flow(ClientProcessed(v, h, sender, m, now), l) == Flow(h, l) + Fresh(v, FromClient(sender, m, now), l)
  {
    hide Flow, Dispatched, Good, MmiAnswer, Linked, Required, CStr, Reserved;
    var n, msg := CStr(m[0]), Wrapped(m[1..], sender, Some(""));
    var r := Required(h, n);
    OrdinaryIs(n);
    RequiredFlow(h, n, l);
    RequiredIsGood(h, n);
    if v.Ring? && n == "HEARTBEAT" {
      HeardFlow(h, sender, l);
    } else if !Reserved(n) {
      DispatchedFlow(r, n, [msg], now, l);
    } else if v.Minimal? {
      AnswerFlow(r, MmiAnswer(r, n, msg), l);
    }
  }

  lemma OrdinaryIs(n: string)
    ensures Reserved(n) <==> |n| >= 4 && (n[0] == 'm' || n[0] == 'i' || n[0] == '.')
  {
  }

  lemma RequiredFlow(h: Hub, n: string, l: string)
    ensures Flow(Required(h, n), l) == Flow(h, l) && n in Required(h, n).services
    ensures Required(h, n).sent == h.sent
  {
  }

  lemma HeardFlow(h: Hub, sender: string, l: string)
    ensures Flow(h.(clients := h.clients + {sender}), l) == Flow(h, l)
  {
  }

  lemma RemovedFlow(h: Hub, i: string, disconnect: bool, l: string)
    requires Settled(h) && i in h.workers
    ensures Flow(Removed(h, i, disconnect), l) == Flow(h, l)
  {
    hide Without;
    RequestsSnoc(h.sent, Disconnect(i), l);
  }

  lemma RefusedFlow(h: Hub, i: string, disconnect: bool, l: string)
    requires Good(h) && i !in h.workers
    ensures Flow(Refused(h, i, disconnect), l) == Flow(h, l)
  {
    RefusedIsNothing(h, i, disconnect);
    hide Refused, Good;
    RequestsSnoc(h.sent, Disconnect(i), l);
  }

  lemma JoinedFlow(h: Hub, i: string, n: string, seen: int, now: int, l: string)
    requires Good(h) && i !in h.workers
    ensures Flow(Joined(h, i, n, seen, now), l) == Flow(h, l)
  {
    NewcomerKeeps(h, i, n);
    var a := Attached(Required(Registered(h, i), n), i, n);
    assert Flow(a, l) == Flow(h, l);
    hide Core, Waiting, Attached, Required, Registered, Flow;
    WaitingFlow(a, i, seen, now, l);
  }

  lemma RepliedFlow(h: Hub, i: string, m: Message, seen: int, now: int, l: string)
    requires Good(h) && i in h.workers && m != []
    ensures Flow(Replied(h, i, m, seen, now), l) == Flow(h, l)
  {
    var (client, body) := Unwrapped(m);
    var answer := Envelope(client, h.workers[i].service.value, body);
    var a := h.(sent := h.sent + [Answer(answer)]);
    assert Linked(a) by { assert forall j :: j in a.services ==> WaitsHere(h, j) && WaitsHere(a, j); }
    hide Core, Linked, Waiting, Envelope, Unwrapped, Flow;
    AnswerFlow(h, answer, l);
    WaitingFlow(a, i, seen, now, l);
  }

  lemma WorkerFlow(v: Variant, h: Hub, sender: string, m: Message, seen: int, now: int, l: string)
    requires Good(h) && ValidCommand(v, h, sender, m)
    ensures Flow(WorkerProcessed(v, h, sender, m, seen, now), l) == Flow(h, l)
  {
    if sender in h.workers {
      AcquaintanceFlow(v, h, sender, m, seen, now, l);
    } else {
      StrangerFlow(v, h, sender, m, seen, now, l);
    }
  }

  lemma StrangerFlow(v: Variant, h: Hub, sender: string, m: Message, seen: int, now: int, l: string)
    requires Good(h) && ValidCommand(v, h, sender, m) && sender !in h.workers
    ensures Flow(WorkerProcessed(v, h, sender, m, seen, now), l) == Flow(h, l)
  {
    hide Core, Quiet, CStr, Joined, Refused, Flow;
    RefusedFlow(h, sender, true, l);
    RefusedFlow(h, sender, false, l);
    if CStr(m[0]) == READY && !Reserved(sender) {
      JoinedFlow(h, sender, CStr(m[1]), seen, now, l);
    }
  }

  lemma AcquaintanceFlow(v: Variant, h: Hub, sender: string, m: Message, seen: int, now: int, l: string)
    requires Good(h) && ValidCommand(v, h, sender, m) && sender in h.workers
    ensures Flow(WorkerProcessed(v, h, sender, m, seen, now), l) == Flow(h, l)
  {
    var command := CStr(m[0]);
    hide Core, Quiet, CStr, Removed, Replied, Occupied, Flow;
    if command == REPLY {
      RepliedFlow(h, sender, m[1..], seen, now, l);
    } else if command == READY || command == DISCONNECT {
      RemovedFlow(h, sender, command == READY, l);
    } else if v.Ring? && command == OCCUPIED {
      OccupiedFlow(h, CStr(m[1]), l);
    } else if command == HEARTBEAT {
      ExpiryFlow(h, sender, seen + EXPIRY, l);
    }
  }

  lemma OccupiedFlow(h: Hub, i: string, l: string)
    requires Settled(h) && i in h.workers
    ensures Flow(Occupied(h, i), l) == Flow(h, l)
  {
  }

  lemma ExpiryFlow(h: Hub, i: string, expiry: int, l: string)
    requires i in h.workers
    ensures Flow(h.(workers := h.workers[i := Wkr(h.workers[i].service, expiry)]), l) == Flow(h, l)
  {
  }

  /** The requests accepted for service n in a run, in order of arrival. */
  function Accepted(v: Variant, es: seq<Event>, n: string): seq<Message> {
    if es == [] then [] else Accepted(v, es[..|es| - 1], n) + Fresh(v, es[|es| - 1], n)
  }

  /** In every run, all requests accepted for a service are those sent to its workers
      followed by those still queued, in order of arrival. */
  lemma {:induction false} RequestsConserved(v: Variant, es: seq<Event>, n: string)
    ensures Flow(After(v, es), n) == Accepted(v, es, n)
  {
    if es != [] {
      var h, e := After(v, es[..|es| - 1]), es[|es| - 1];
      RequestsConserved(v, es[..|es| - 1], n);
      assert After(v, es) == Step(v, h, e);
      hide Good, Flow, After;
      if Enabled(v, h, e) {
        match e
        case FromClient(sender, m, now) => ClientFlow(v, h, sender, m, now, n);
        case FromWorker(sender, m, seen, now) => WorkerFlow(v, h, sender, m, seen, now, n);
        case Purge(now) => CutFlow(h, Expired(h, now), n);
      }
    }
  }

  lemma {:induction false} SentIsInFlow(sent: seq<Sent>, k: nat)
    requires k < |sent| && sent[k].Request?
    ensures sent[k].msg in RequestsOf(sent, sent[k].service)
  {
    if k < |sent| - 1 {
      SentIsInFlow(sent[..|sent| - 1], k);
    }
  }

  lemma {:induction false} ReservedAcceptsNothing(v: Variant, es: seq<Event>, n: string)
    requires |n| >= 4 && (n[0] == 'm' || n[0] == 'i' || n[0] == '.')
    ensures Accepted(v, es, n) == []
  {
    if es != [] {
      ReservedAcceptsNothing(v, es[..|es| - 1], n);
      hide CStr, Wrapped;
    }
  }

  /** In no run a request for a reserved name is queued, or sent to a worker. */
  lemma {:induction false} ReservedGetsNothing(v: Variant, es: seq<Event>, n: string)
    requires |n| >= 4 && (n[0] == 'm' || n[0] == 'i' || n[0] == '.')
    ensures n in After(v, es).services ==> After(v, es).services[n].requests == []
    ensures forall k :: 0 <= k < |After(v, es).sent| && After(v, es).sent[k].Request? ==>
      After(v, es).sent[k].service != n
  {
    RequestsConserved(v, es, n);
    ReservedAcceptsNothing(v, es, n);
    hide After;
    var sent := After(v, es).sent;
    forall k | 0 <= k < |sent| && sent[k].Request?
      ensures sent[k].service != n
    {
      SentIsInFlow(sent, k);
    }
  }

  lemma CutFlow(h: Hub, gone: set<string>, n: string)
    ensures Flow(Cut(h, gone), n) == Flow(h, n)
  {
  }

  /** The entries of g.sent from `from` on that are requests went to workers of their
      service that had not expired at `now`, none of them expiring before a worker that
      still waits there. */
  ghost predicate WellSent(g: Hub, from: nat, now: int) {
    forall k :: from <= k < |g.sent| && g.sent[k].Request? ==> WellChosen(g, g.sent[k].service, g.sent[k].worker, now)
  }

  ghost predicate WellChosen(g: Hub, n: string, i: string, now: int) {
    && n in g.services && i in g.workers && g.workers[i].service == Some(n) && g.workers[i].expiry > now
    && forall j :: j in g.services[n].waiting && j in g.workers ==> g.workers[j].expiry <= g.workers[i].expiry
  }

  ghost predicate AllLive(h: Hub, now: int) {
    forall i :: i in h.waiting && i in h.workers ==> h.workers[i].expiry > now
  }

  lemma {:induction false} DrainedWell(h: Hub, n: string, now: int)
    requires Core(h) && Exact(h) && n in h.services && AllLive(h, now)
    ensures h.sent <= Drained(h, n).sent && WellSent(Drained(h, n), |h.sent|, now)
    ensures Drained(h, n).workers == h.workers && n in Drained(h, n).services
    ensures forall j :: j in Drained(h, n).services[n].waiting ==> j in h.services[n].waiting
    decreases |h.services[n].requests|
  {
    var s := h.services[n];
    if s.waiting != [] && s.requests != [] {
      var k := Best(h, s.waiting);
      var g := Assigned(h, n, k);
      AssignedKeeps(h, n, k);
      AssignedSend(h, n, k, now);
      hide Core, Exact, AllLive, Best, IsBest, Assigned, WellSent;
      DrainedWell(g, n, now);
      var d := Drained(g, n);
      StillWell(d, g, n, s.waiting[k], |h.sent|, now);
    }
  }

  lemma AssignedSend(h: Hub, n: string, k: nat, now: int)
    requires Core(h) && Exact(h) && n in h.services && AllLive(h, now)
    requires h.services[n].requests != [] && (forall i :: i in h.services[n].waiting ==> i in h.workers)
    requires IsBest(h, h.services[n].waiting, k)
    ensures var g := Assigned(h, n, k);
      && AllLive(g, now) && g.workers == h.workers && n in g.services
      && g.sent == h.sent + [Request(n, h.services[n].waiting[k], h.services[n].requests[0])]
      && |g.services[n].requests| < |h.services[n].requests|
      && (forall j :: j in g.services[n].waiting ==> j in h.services[n].waiting)
      && WellChosen(g, n, h.services[n].waiting[k], now)
  {
    assert ExactList(h, n) && WaitsHere(h, n);
    assert h.services[n].waiting[k] in h.services[n].waiting;
  }

  /** As the list only shrinks, a good choice stays good. */
  lemma StillWell(d: Hub, g: Hub, n: string, i: string, from: nat, now: int)
    requires g.sent <= d.sent && from + 1 == |g.sent| && g.sent[from].Request? && g.sent[from].service == n
    requires g.sent[from].worker == i
    requires WellSent(d, |g.sent|, now) && d.workers == g.workers && n in d.services && WellChosen(g, n, i, now)
    requires forall j :: j in d.services[n].waiting ==> j in g.services[n].waiting
    ensures WellSent(d, from, now)
  {
    assert d.sent[from] == g.sent[from];
    assert WellChosen(d, n, i, now);
  }

  lemma DispatchedWell(h: Hub, n: string, msgs: seq<Message>, now: int)
    requires Core(h) && Exact(h) && n in h.services
    ensures h.sent <= Dispatched(h, n, msgs, now).sent && WellSent(Dispatched(h, n, msgs, now), |h.sent|, now)
  {
    var q := Queued(h, n, msgs);
    QueuedKeeps(h, n, msgs);
    var gone := Expired(h, now);
    var c := Cut(q, gone);
    assert AllLive(c, now) && c.sent == h.sent && n in c.services;
    CutKeeps(q, gone, n);
    hide Core, Exact, AllLive, Cut, Queued, WellSent, Settled, Quiet;
    DrainedWell(c, n, now);
  }

  /** Every event of a run in which workers reply in turn only appends to what was sent,
      and every request it sends goes to a worker of the service that has not expired, and
      none of the workers left waiting there expires later. */
  lemma {:induction false} SentWell(v: Variant, es: seq<Event>, e: Event)
    requires TakesTurns(v, es + [e])
    ensures After(v, es).sent <= After(v, es + [e]).sent
    ensures WellSent(After(v, es + [e]), |After(v, es).sent|, e.now)
  {
    var h := After(v, es);
    assert (es + [e])[..|es|] == es && (es + [e])[|es|] == e;
    forall k | 0 <= k < |es|
      ensures InTurn(After(v, es[..k]), es[k])
    {
      assert (es + [e])[..k] == es[..k] && (es + [e])[k] == es[k];
    }
    RunExact(v, es);
    assert InTurn(h, e) by { assert InTurn(After(v, (es + [e])[..|es|]), (es + [e])[|es|]); }
    assert After(v, es + [e]) == Step(v, h, e);
    hide Good, Exact, After, InTurn, WellSent;
    if Enabled(v, h, e) {
      HandledWell(v, h, e);
    } else {
      assert WellSent(h, |h.sent|, e.now) by { NothingSent(h, e.now); }
    }
  }

  lemma NothingSent(h: Hub, now: int)
    ensures WellSent(h, |h.sent|, now)
  {
  }

  lemma HandledWell(v: Variant, h: Hub, e: Event)
    requires Good(h) && Exact(h) && Enabled(v, h, e) && InTurn(h, e)
    ensures h.sent <= Handled(v, h, e).sent && WellSent(Handled(v, h, e), |h.sent|, e.now)
  {
    match e
    case FromClient(sender, m, now) =>
      hide Good, Exact, WellSent, ClientProcessed;
      ClientWell(v, h, sender, m, now);
    case FromWorker(sender, m, seen, now) =>
      hide Good, Exact, WellSent, WorkerProcessed;
      WorkerWell(v, h, sender, m, seen, now);
    case Purge(now) =>
  }

  lemma ClientWell(v: Variant, h: Hub, sender: string, m: Message, now: int)
    requires Good(h) && Exact(h) && |m| >= 2
    ensures h.sent <= ClientProcessed(v, h, sender, m, now).sent
    ensures WellSent(ClientProcessed(v, h, sender, m, now), |h.sent|, now)
  {
    hide Core, Exact, Settled, Quiet, Linked, Dispatched, MmiAnswer, Required, Reserved, CStr, Wrapped, WellChosen;
    var n, msg := CStr(m[0]), Wrapped(m[1..], sender, Some(""));
    var r := Required(h, n);
    RequiredToDispatch(h, n);
    if !Reserved(n) && !(v.Ring? && n == "HEARTBEAT") {
      DispatchedWell(r, n, [msg], now);
    }
  }

  lemma RequiredToDispatch(h: Hub, n: string)
    requires Good(h) && Exact(h)
    ensures var r := Required(h, n);
      Core(r) && Exact(r) && Linked(r) && r.sent == h.sent && n in r.services
  {
    RequiredKeeps(h, n);
    hide Counted, InList, Exact, Quiet;
  }

  lemma WaitingWell(h: Hub, i: string, seen: int, now: int)
    requires Core(h) && Exact(h) && i in h.workers && h.workers[i].service.Some? && i !in h.waiting
    ensures h.sent <= Waiting(h, i, seen, now).sent && WellSent(Waiting(h, i, seen, now), |h.sent|, now)
  {
    var n := h.workers[i].service.value;
    assert n in h.services;
    ListedKeeps(h, i, n, seen);
    hide Linked, Counted, InList, Exact, Settled, Quiet, Dispatched, WellSent;
    DispatchedWell(Listed(h, i, n, seen), n, [], now);
  }

  lemma WorkerWell(v: Variant, h: Hub, sender: string, m: Message, seen: int, now: int)
    requires Good(h) && Exact(h) && ValidCommand(v, h, sender, m) && (CStr(m[0]) == REPLY ==> sender !in h.waiting)
    ensures var g := WorkerProcessed(v, h, sender, m, seen, now); h.sent <= g.sent && WellSent(g, |h.sent|, now)
  {
    if sender in h.workers {
      AcquaintanceWell(v, h, sender, m, seen, now);
    } else {
      StrangerWell(v, h, sender, m, seen, now);
    }
  }

  lemma StrangerWell(v: Variant, h: Hub, sender: string, m: Message, seen: int, now: int)
    requires Good(h) && Exact(h) && ValidCommand(v, h, sender, m) && sender !in h.workers
    ensures var g := WorkerProcessed(v, h, sender, m, seen, now); h.sent <= g.sent && WellSent(g, |h.sent|, now)
  {
    hide Core, Exact, CStr, Joined, Refused, Quiet, WellChosen;
    RefusedIsNothing(h, sender, true);
    RefusedIsNothing(h, sender, false);
    if CStr(m[0]) == READY && !Reserved(sender) {
      JoinedWell(h, sender, CStr(m[1]), seen, now);
    }
  }

  lemma AcquaintanceWell(v: Variant, h: Hub, sender: string, m: Message, seen: int, now: int)
    requires Good(h) && Exact(h) && ValidCommand(v, h, sender, m) && sender in h.workers
    requires CStr(m[0]) == REPLY ==> sender !in h.waiting
    ensures var g := WorkerProcessed(v, h, sender, m, seen, now); h.sent <= g.sent && WellSent(g, |h.sent|, now)
  {
    hide Core, Exact, CStr, Replied, Without, Quiet, WellChosen;
    if CStr(m[0]) == REPLY {
      RepliedWell(h, sender, m[1..], seen, now);
    }
  }

  lemma JoinedWell(h: Hub, i: string, n: string, seen: int, now: int)
    requires Good(h) && Exact(h) && i !in h.workers
    ensures h.sent <= Joined(h, i, n, seen, now).sent && WellSent(Joined(h, i, n, seen, now), |h.sent|, now)
  {
    NewcomerKeeps(h, i, n);
    var a := Attached(Required(Registered(h, i), n), i, n);
    assert a.sent == h.sent;
    hide Core, Exact, Waiting, Attached, Required, Registered, WellSent;
    WaitingWell(a, i, seen, now);
  }

  lemma RepliedWell(h: Hub, i: string, m: Message, seen: int, now: int)
    requires Good(h) && Exact(h) && i in h.workers && m != [] && i !in h.waiting
    ensures h.sent <= Replied(h, i, m, seen, now).sent && WellSent(Replied(h, i, m, seen, now), |h.sent|, now)
  {
    var (client, body) := Unwrapped(m);
    var answer := Answer(Envelope(client, h.workers[i].service.value, body));
    var a := h.(sent := h.sent + [answer]);
    hide *;
    AnsweredKeeps(h, a.sent);
    RepliedIs(h, i, m, seen, now);
    WaitingWell(a, i, seen, now);
    AnswerFirst(Waiting(a, i, seen, now), h.sent, answer, now);
  }

  lemma RepliedIs(h: Hub, i: string, m: Message, seen: int, now: int)
    requires Good(h) && i in h.workers && m != []
    ensures h.workers[i].service.Some?
    ensures var (client, body) := Unwrapped(m);
      var a := h.(sent := h.sent + [Answer(Envelope(client, h.workers[i].service.value, body))]);
      Linked(a) && Replied(h, i, m, seen, now) == Waiting(a, i, seen, now)
  {
  }

  /** An answer in front of the requests sent is no request. */
  lemma AnswerFirst(g: Hub, sent: seq<Sent>, answer: Sent, now: int)
    requires sent + [answer] <= g.sent && answer.Answer? && WellSent(g, |sent| + 1, now)
    ensures sent <= g.sent && WellSent(g, |sent|, now)
  {
    assert g.sent[|sent|] == answer;
    hide WellChosen;
  }
}
