/** The Majordomo broker as a state machine on values: workers and services by name, the
    messages sent so far, and what every run of clients' and workers' messages keeps. */
module Majordomo {
  import opened Order
  import opened Messages

  const EXPIRY: int := 7500

  const MDP_CLIENT := "MDPC01"
  const MDP_WORKER := "MDPW01"
  const READY := "\U{1}"
  const REQUEST := "\U{2}"
  const REPLY := "\U{3}"
  const HEARTBEAT := "\U{4}"
  const DISCONNECT := "\U{5}"
  const OCCUPIED := "\U{10}"

  /** Minimal is mdbroker, which answers MMI requests; Ring is majBroker, which does not,
      but knows clients' heartbeats and occupied workers. */
  datatype Variant = Minimal | Ring

  datatype Svc = Svc(requests: seq<Message>, waiting: seq<string>, workers: int)

  datatype Wkr = Wkr(service: Option<string>, expiry: int)

  /** A message on its way; a request is noted with the service it was queued at. */
  datatype Sent = Request(service: string, worker: string, msg: Message)
                | Disconnect(worker: string)
                | Answer(msg: Message)

  datatype Hub = Hub(services: map<string, Svc>, workers: map<string, Wkr>, waiting: set<string>,
                     clients: set<string>, sent: seq<Sent>)

  const EMPTY_HUB: Hub := Hub(map[], map[], {}, {}, [])

  datatype Event = FromClient(sender: string, msg: Message, now: int)
                 | FromWorker(sender: string, msg: Message, seen: int, now: int)
                 | Purge(now: int)

  /** The frames handed to the router socket. */
  function Frames(s: Sent): Message {
    match s
    case Request(_, w, m) => Wrapped([MDP_WORKER, REQUEST] + m, w, Some(""))
    case Disconnect(w) => Wrapped([MDP_WORKER, DISCONNECT], w, Some(""))
    case Answer(m) => m
  }

  /** The test for reserved names, as it is: four letters or more and the first one of m, i and dot. */
  predicate Reserved(name: string) {
    |name| >= 4 && name[0] in "mmi."
  }

  function Without(ws: seq<string>, gone: set<string>): seq<string> {
    if ws == [] then []
    else
      var last := ws[|ws| - 1];
      Without(ws[..|ws| - 1], gone) + (if last in gone then [] else [last])
  }

  lemma {:induction false} WithoutIn(ws: seq<string>, gone: set<string>)
    ensures forall i :: i in Without(ws, gone) <==> i in ws && i !in gone
  {
    if ws != [] {
      var init, last := ws[..|ws| - 1], ws[|ws| - 1];
      WithoutIn(init, gone);
      assert ws == init + [last];
    }
  }

  ghost function Members(workers: map<string, Wkr>, n: string): set<string> {
    set i | i in workers && workers[i].service == Some(n)
  }

  ghost predicate Linked(h: Hub) {
    && (forall i :: i in h.workers && h.workers[i].service.Some? ==> h.workers[i].service.value in h.services)
    && (forall i :: i in h.waiting ==> i in h.workers)
    && (forall n :: n in h.services ==> WaitsHere(h, n))
  }

  /** The workers in a service's list are registered and belong to it. */
  ghost predicate WaitsHere(h: Hub, n: string)
    requires n in h.services
  {
    forall i :: i in h.services[n].waiting ==> i in h.workers && h.workers[i].service == Some(n)
  }

  function Required(h: Hub, n: string): Hub {
    h.(services := Insert(h.services, n, Svc([], [], 0)))
  }

  /** worker_delete */
  function Removed(h: Hub, i: string, disconnect: bool): Hub
    requires i in h.workers && (h.workers[i].service.Some? ==> h.workers[i].service.value in h.services)
  {
    var sent := if disconnect then h.sent + [Disconnect(i)] else h.sent;
    var services := match h.workers[i].service
      case None => h.services
      case Some(n) =>
        var s := h.services[n];
        h.services[n := Svc(s.requests, Without(s.waiting, {i}), s.workers - 1)];
    Hub(services, h.workers - {i}, h.waiting - {i}, h.clients, sent)
  }

  /** All of `gone` deleted at once. */
  ghost function Cut(h: Hub, gone: set<string>): Hub {
    Hub(map n | n in h.services ::
      CutService(h.services[n], Members(h.workers, n), gone), h.workers - gone, h.waiting - gone, h.clients, h.sent)
  }

  ghost function CutService(s: Svc, members: set<string>, gone: set<string>): Svc {
    Svc(s.requests, Without(s.waiting, gone), s.workers - |members * gone|)
  }

  function Expired(h: Hub, now: int): set<string> {
    set i | i in h.waiting && i in h.workers && h.workers[i].expiry <= now
  }

  ghost predicate IsBest(h: Hub, ws: seq<string>, k: nat)
    requires forall i :: i in ws ==> i in h.workers
  {
    && k < |ws|
    && (forall j :: 0 <= j < |ws| ==> h.workers[ws[j]].expiry <= h.workers[ws[k]].expiry)
    && (forall j :: 0 <= j < k ==> h.workers[ws[j]].expiry < h.workers[ws[k]].expiry)
  }

  /** The first worker of those that expire last. */
  function Best(h: Hub, ws: seq<string>): (k: nat)
    requires ws != [] && forall i :: i in ws ==> i in h.workers
    ensures IsBest(h, ws, k)
  {
    if |ws| == 1 then 0
    else
      var k, last := Best(h, ws[..|ws| - 1]), |ws| - 1;
      if h.workers[ws[last]].expiry > h.workers[ws[k]].expiry then last else k
  }

  /** One turn of the dispatch loop. */
  function Assigned(h: Hub, n: string, k: nat): Hub
    requires n in h.services && k < |h.services[n].waiting| && h.services[n].requests != []
  {
    var s := h.services[n];
    h.(services := h.services[n := Svc(s.requests[1..], s.waiting[..k] + s.waiting[k + 1..], s.workers)],
       waiting := h.waiting - {s.waiting[k]},
       sent := h.sent + [Request(n, s.waiting[k], s.requests[0])])
  }

  lemma AssignedLinked(h: Hub, n: string, k: nat)
    requires Linked(h) && n in h.services && k < |h.services[n].waiting| && h.services[n].requests != []
    ensures Linked(Assigned(h, n, k))
  {
    forall m | m in h.services
      ensures WaitsHere(Assigned(h, n, k), m)
    {
      assert WaitsHere(h, m);
    }
    hide WaitsHere;
  }

  ghost function Drained(h: Hub, n: string): Hub
    requires Linked(h) && n in h.services
    decreases |h.services[n].requests|
  {
    var s := h.services[n];
    if s.waiting == [] || s.requests == [] then h
    else
      AssignedLinked(h, n, Best(h, s.waiting));
      Drained(Assigned(h, n, Best(h, s.waiting)), n)
  }

  function Queued(h: Hub, n: string, msgs: seq<Message>): Hub
    requires n in h.services
  {
    var s := h.services[n];
    h.(services := h.services[n := Svc(s.requests + msgs, s.waiting, s.workers)])
  }

  /** service_dispatch */
  ghost function Dispatched(h: Hub, n: string, msgs: seq<Message>, now: int): Hub
    requires Linked(h) && n in h.services
  {
    CutLinked(Queued(h, n, msgs), Expired(h, now));
    Drained(Cut(Queued(h, n, msgs), Expired(h, now)), n)
  }

  function Listed(h: Hub, i: string, n: string, seen: int): Hub
    requires i in h.workers && n in h.services
  {
    var s := h.services[n];
    h.(services := h.services[n := Svc(s.requests, s.waiting + [i], s.workers)],
       workers := h.workers[i := Wkr(h.workers[i].service, seen + EXPIRY)],
       waiting := h.waiting + {i})
  }

  /** worker_waiting */
  ghost function Waiting(h: Hub, i: string, seen: int, now: int): Hub
    requires Linked(h) && i in h.workers && h.workers[i].service.Some?
  {
    var n := h.workers[i].service.value;
    Dispatched(Listed(h, i, n, seen), n, [], now)
  }

  function Envelope(client: string, service: string, body: Message): Message {
    Wrapped(Wrapped(body, MDP_CLIENT, Some(service)), client, Some(""))
  }

  /** service_internal: what MMI answers. */
  function MmiCode(h: Hub, n: string, body: string): string {
    if n != "mmi.service" then "501"
    else if body in h.services && h.services[body].workers != 0 then "200"
    else "404"
  }

  function MmiAnswer(h: Hub, n: string, msg: Message): Message
    requires msg != []
  {
    var answered := BodySet(msg, MmiCode(h, n, CStr(msg[|msg| - 1])));
    Envelope(Unwrapped(answered).0, n, Unwrapped(answered).1)
  }

  predicate IsRequest(v: Variant, m: Message, n: string) {
    && |m| >= 2 && CStr(m[0]) == n && !(v.Ring? && n == "HEARTBEAT")
    && (|n| < 4 || (n[0] != 'm' && n[0] != 'i' && n[0] != '.'))
  }

  /** client_process */
  ghost function ClientProcessed(v: Variant, h: Hub, sender: string, m: Message, now: int): Hub
    requires Linked(h) && |m| >= 2
  {
    var n, msg := CStr(m[0]), Wrapped(m[1..], sender, Some(""));
    if v.Ring? && n == "HEARTBEAT" then h.(clients := h.clients + {sender})
    else if !Reserved(n) then Dispatched(Required(h, n), n, [msg], now)
    else if v.Minimal? then Required(h, n).(sent := h.sent + [Answer(MmiAnswer(Required(h, n), n, msg))])
    else Required(h, n)
  }

  function Registered(h: Hub, i: string): Hub {
    h.(workers := Insert(h.workers, i, Wkr(None, 0)))
  }

  function Attached(h: Hub, i: string, n: string): Hub
    requires i in h.workers && n in h.services
  {
    var s := h.services[n];
    h.(services := h.services[n := Svc(s.requests, s.waiting, s.workers + 1)],
       workers := h.workers[i := Wkr(Some(n), h.workers[i].expiry)])
  }

  function Occupied(h: Hub, i: string): Hub
    requires i in h.workers && h.workers[i].service.Some? && h.workers[i].service.value in h.services
  {
    var n := h.workers[i].service.value;
    var s := h.services[n];
    h.(services := h.services[n := Svc(s.requests, Without(s.waiting, {i}), s.workers)],
       waiting := h.waiting - {i})
  }

  /** The commands the protocol has the workers send: every frame a command needs is
      there, and unknown commands come from known workers only. */
  predicate ValidCommand(v: Variant, h: Hub, sender: string, m: Message) {
    && sender != "" && |m| >= 1
    && var command := CStr(m[0]);
      if command == READY then sender in h.workers || Reserved(sender) || (|m| >= 2 && CStr(m[1]) != "")
      else if v.Ring? && command == OCCUPIED then sender in h.workers && |m| >= 2 && CStr(m[1]) in h.workers
      else if command == REPLY then sender in h.workers ==> |m| >= 2
      else command == HEARTBEAT || command == DISCONNECT || sender in h.workers
  }

  lemma AttachedLinked(h: Hub, i: string, n: string)
    requires Linked(h) && i !in h.workers
    ensures var a := Attached(Required(Registered(h, i), n), i, n);
      Linked(a) && i in a.workers && a.workers[i].service == Some(n)
  {
    var a := Attached(Required(Registered(h, i), n), i, n);
    forall m | m in a.services
      ensures WaitsHere(a, m)
    {
      assert m in h.services ==> WaitsHere(h, m);
    }
    hide WaitsHere;
  }

  /** READY from a new worker. */
  ghost function Joined(h: Hub, i: string, n: string, seen: int, now: int): Hub
    requires Linked(h) && i !in h.workers
  {
    AttachedLinked(h, i, n);
    Waiting(Attached(Required(Registered(h, i), n), i, n), i, seen, now)
  }

  /** REPLY from a known worker. */
  ghost function Replied(h: Hub, i: string, m: Message, seen: int, now: int): Hub
    requires Linked(h) && i in h.workers && h.workers[i].service.Some? && m != []
  {
    var (client, body) := Unwrapped(m);
    Waiting(h.(sent := h.sent + [Answer(Envelope(client, h.workers[i].service.value, body))]), i, seen, now)
  }

  /** Any other message from an unknown worker: it is registered and deleted at once. */
  function Refused(h: Hub, i: string, disconnect: bool): Hub {
    if i in h.workers then h else Removed(Registered(h, i), i, disconnect)
  }

  /** Between events every worker has a service. */
  ghost predicate Settled(h: Hub) {
    Linked(h) && forall i :: i in h.workers ==> h.workers[i].service.Some?
  }

  /** worker_process */
  ghost function WorkerProcessed(v: Variant, h: Hub, sender: string, m: Message, seen: int, now: int): Hub
    requires Settled(h) && ValidCommand(v, h, sender, m)
  {
    var command, ready := CStr(m[0]), sender in h.workers;
    if command == READY then
      if ready then Removed(h, sender, true)
      else if Reserved(sender) then Refused(h, sender, true)
      else Joined(h, sender, CStr(m[1]), seen, now)
    else if v.Ring? && command == OCCUPIED then Occupied(h, CStr(m[1]))
    else if command == REPLY then
      if ready then Replied(h, sender, m[1..], seen, now) else Refused(h, sender, true)
    else if command == HEARTBEAT then
      if ready then h.(workers := h.workers[sender := Wkr(h.workers[sender].service, seen + EXPIRY)])
      else Refused(h, sender, true)
    else if command == DISCONNECT then
      if ready then Removed(h, sender, false) else Refused(h, sender, false)
    else h
  }

  lemma CutLinked(h: Hub, gone: set<string>)
    requires Linked(h)
    ensures Linked(Cut(h, gone))
  {
    forall n | n in h.services
      ensures WaitsHere(Cut(h, gone), n)
    {
      CutWaits(h, gone, n);
    }
    hide CutService, WaitsHere;
  }

  lemma CutWaits(h: Hub, gone: set<string>, n: string)
    requires n in h.services && WaitsHere(h, n)
    ensures WaitsHere(Cut(h, gone), n)
  {
    WithoutIn(h.services[n].waiting, gone);
  }
}
