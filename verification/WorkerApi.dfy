/** The worker's side of the protocol, and the way of a request to a worker and back. */
module WorkerApi {
  import opened Order
  import opened Messages
  import opened Majordomo
  import opened Dispatching
  import opened BrokerRuns
  import opened RequestFlow
  import opened Protocol

  const LIVENESS: nat := 3

  /** What send_to_broker puts on the wire. */
  function ToBroker(command: string, option: string, m: Message): Message {
    ["", MDP_WORKER, CStr(command)] + (if option != "" then [CStr(option)] else []) + m
  }

  /** What a reply puts on the wire, for the address kept from the request. */
  function ReplyFrames(replyTo: string, reply: Message): Message {
    ToBroker(REPLY, "", Wrapped(reply, replyTo, Some("")))
  }

  predicate CarriesRequest(m: Message) {
    |m| >= 4 && m[0] == "" && m[1] == MDP_WORKER && CStr(m[2]) == REQUEST
  }

  /** The address to keep for the reply, and the request as the worker's caller gets it. */
  function HandedOut(m: Message): (string, Message)
    requires CarriesRequest(m)
  {
    Unwrapped(m[3..])
  }

  /** Names without NUL pass through C strings unchanged. */
  lemma HeaderNames()
    ensures CStr("") == "" && CStr(MDP_WORKER) == MDP_WORKER && CStr(MDP_CLIENT) == MDP_CLIENT
    ensures CStr(REPLY) == REPLY && CStr(REQUEST) == REQUEST && CStr("mmi.service") == "mmi.service"
    ensures CStr("200") == "200" && CStr("404") == "404" && CStr("501") == "501"
  {
    hide CStr;
    assert NulFree("") && NulFree(MDP_WORKER) && NulFree(MDP_CLIENT) && NulFree(REPLY) && NulFree(REQUEST);
    assert NulFree("mmi.service") && NulFree("200") && NulFree("404") && NulFree("501");
  }

  class Worker {
    const service: string
    var replyTo: string
    var expectReply: bool
    var liveness: nat
    var outbox: seq<Message>

    constructor (service: string)
      ensures this.service == service && replyTo == "" && !expectReply && liveness == 3
      ensures outbox == [ToBroker(READY, service, [])]
    {
      this.service := service;
      replyTo, expectReply, liveness, outbox := "", false, LIVENESS, [ToBroker(READY, service, [])];
    }

    method SendToBroker(command: string, option: string, m: Message)
      modifies `outbox
      ensures outbox == old(outbox) + [ToBroker(command, option, m)]
    {
      hide CStr;
      HeaderNames();
      var msg := new Zmsg();
      msg.parts := m;
      if option != "" {
        msg.PushFront(option);
      }
      msg.PushFront(command);
      msg.PushFront(MDP_WORKER);
      msg.PushFront("");
      outbox := outbox + [msg.parts];
      assert msg.parts == ToBroker(command, option, m);
    }

    /** recv, up to the wait: the reply to the last request goes out. */
    method SendReply(reply: Zmsg)
      requires replyTo != ""
      modifies this, reply
      ensures expectReply && replyTo == "" && liveness == old(liveness)
      ensures outbox == old(outbox) + [ReplyFrames(old(replyTo), old(reply.parts))]
    {
      reply.Wrap(replyTo, Some(""));
      replyTo := "";
      SendToBroker(REPLY, "", reply.parts);
      expectReply := true;
    }

    /** recv, on a message from the broker: a request is handed out, and where its reply
        has to go is kept; a disconnect makes the worker register anew. */
    method Receive(msg: Zmsg) returns (request: bool)
      requires |msg.parts| >= 3 && msg.parts[0] == "" && msg.parts[1] == MDP_WORKER
      requires CStr(msg.parts[2]) == REQUEST ==> |msg.parts| >= 4
      modifies this, msg
      ensures request <==> CStr(old(msg.parts)[2]) == REQUEST
      ensures if request then (replyTo, msg.parts) == HandedOut(old(msg.parts)) else replyTo == old(replyTo)
      ensures outbox == if CStr(old(msg.parts)[2]) == DISCONNECT then old(outbox) + [ToBroker(READY, service, [])]
        else old(outbox)
      ensures liveness == LIVENESS && expectReply == old(expectReply)
    {
      liveness := LIVENESS;
      var empty := msg.PopFront();
      var header := msg.PopFront();
      var front := msg.PopFront();
      assert msg.parts == old(msg.parts)[3..];
      var command := CStr(front);
      request := command == REQUEST;
      if request {
        replyTo := msg.Unwrap();
      } else if command == DISCONNECT {
        SendToBroker(READY, service, []);
      }
    }
  }

  /** The frames of a request as they reach the worker: the router strips the worker's own
      address; what SendReply sends reaches the broker with the worker's address in front,
      and start_brokering strips that, the empty frame and the header. */
  lemma {:induction false} RequestAndBack(n: string, i: string, msg: Message, client: string, body: Message,
                                          reply: Message)
    requires msg == Wrapped(body, client, Some(""))
    ensures var frames := Frames(Request(n, i, msg));
      frames[0] == CStr(i) && CarriesRequest(frames[1..]) && HandedOut(frames[1..]) == (CStr(client), body)
    ensures var atBroker := ReplyFrames(CStr(client), reply);
      && atBroker[..2] == ["", MDP_WORKER] && CStr(atBroker[2]) == REPLY
      && atBroker[2..][1..] == Wrapped(reply, CStr(client), Some(""))
      && Unwrapped(atBroker[2..][1..]) == (CStr(client), reply)
  {
    hide CStr;
    HeaderNames();
    var atWorker := Frames(Request(n, i, msg))[1..];
    assert atWorker == ["", MDP_WORKER, REQUEST] + msg;
    assert atWorker[3..] == msg;
    UnwrapUndoesWrap(body, client, Some(""));
    var atBroker := ReplyFrames(CStr(client), reply);
    assert atBroker[2..][1..] == Wrapped(reply, CStr(client), Some(""));
    UnwrapUndoesWrap(reply, CStr(client), Some(""));
  }

  /** READY on the wire, as the constructor and a DISCONNECT make it, and as the broker gets it:
      the service is registered under the identity the router puts in front, for any that is
      new and not reserved, unless its time is over when the purge looks at the clock. */
  lemma {:induction false} ReadyReachesBroker(v: Variant, h: Hub, service: string, i: string, seen: int, now: int)
    requires NulFree(service) && service != "" && Good(h)
    requires i !in h.workers && i != "" && (|i| < 4 || (i[0] != 'm' && i[0] != 'i' && i[0] != '.'))
    ensures ToBroker(READY, service, []) == ["", "MDPW01", "\U{1}", service]
    ensures ValidCommand(v, h, i, ToBroker(READY, service, [])[2..])
    ensures var g := Step(v, h, FromWorker(i, ToBroker(READY, service, [])[2..], seen, now));
      && (i in g.workers <==> now < seen + 7500)
      && (i in g.workers ==> g.workers[i].service == Some(service))
  {
    var m := ["\U{1}", service];
    assert CStr(READY) == READY && CStr(service) == service by {
      assert NulFree(READY);
      hide CStr;
    }
    hide CStr, Good, Step;
    assert ToBroker(READY, service, []) == ["", "MDPW01"] + m;
    assert (["", "MDPW01"] + m)[2..] == m;
    ReadyRegisters(v, h, i, m, seen, now);
  }

  /** What the broker sends to worker i, and what Receive takes it for. */
  lemma {:induction false} WorkerFrames(n: string, i: string, msg: Message)
    ensures Frames(Request(n, i, msg)) == [CStr(i), "", "MDPW01", "\U{2}"] + msg
    ensures Frames(Disconnect(i)) == [CStr(i), "", "MDPW01", "\U{5}"]
    ensures var atWorker := Frames(Disconnect(i))[1..];
      |atWorker| == 3 && atWorker[0] == "" && atWorker[1] == MDP_WORKER && CStr(atWorker[2]) == DISCONNECT
  {
    assert NulFree("") && NulFree(DISCONNECT);
    assert CStr("") == "" && CStr(DISCONNECT) == DISCONNECT by { hide CStr; }
    hide CStr;
    assert Frames(Request(n, i, msg)) == [CStr(i), "", "MDPW01", "\U{2}"] + msg;
  }

  /** A reply on the wire. */
  lemma ReplyFramesAre(replyTo: string, reply: Message)
    ensures ReplyFrames(replyTo, reply) == ["", "MDPW01", "\U{3}", CStr(replyTo), ""] + reply
  {
    HeaderNames();
    hide CStr;
  }

  lemma {:induction false} AcceptedFrom(v: Variant, es: seq<Event>, n: string, msg: Message)
    requires msg in Accepted(v, es, n)
    ensures exists k :: 0 <= k < |es| && msg in Fresh(v, es[k], n)
  {
    var last := |es| - 1;
    if msg in Fresh(v, es[last], n) {
    } else {
      AcceptedFrom(v, es[..last], n, msg);
      var k :| 0 <= k < |es[..last]| && msg in Fresh(v, es[..last][k], n);
      assert es[..last][k] == es[k];
    }
  }

  /** Request s is client event e's: the worker's Receive hands out what e asked, and when the
      frames of its SendReply reach broker h the reply leaves, unchanged, for e's sender. */
  ghost predicate RoundTrip(v: Variant, e: Event, s: Sent, h: Hub, reply: Message, seen: int, now: int)
    requires s.Request? && Good(h) && s.worker in h.workers
  {
    && e.FromClient? && |e.msg| >= 2 && CStr(e.msg[0]) == s.service
    && Frames(s)[0] == CStr(s.worker) && CarriesRequest(Frames(s)[1..])
    && var (replyTo, request) := HandedOut(Frames(s)[1..]);
      && replyTo == CStr(e.sender) && request == e.msg[1..]
      && var atBroker := ReplyFrames(replyTo, reply);
        && atBroker[..2] == ["", MDP_WORKER]
        && Leaves(h, Step(v, h, FromWorker(s.worker, atBroker[2..], seen, now)),
                  [CStr(e.sender), "", "MDPC01", CStr(h.workers[s.worker].service.value)] + reply)
  }

  /** The answer is the next message sent. */
  predicate Leaves(h: Hub, g: Hub, answer: Message) {
    |g.sent| > |h.sent| && g.sent[|h.sent|] == Answer(answer)
  }

  /** Return routing: every request a broker has sent to a worker came from some client's
      message, is handed to the worker's caller as that client put it, and the caller's
      reply, handled by the broker in any later state, leaves for exactly that client. */
  lemma {:induction false} RepliesFindTheirClient(v: Variant, es: seq<Event>, k: nat, h: Hub, reply: Message, seen: int,
                                                  now: int)
    requires k < |After(v, es).sent| && After(v, es).sent[k].Request?
    requires Good(h) && After(v, es).sent[k].worker in h.workers && After(v, es).sent[k].worker != ""
    ensures exists j :: 0 <= j < |es| && RoundTrip(v, es[j], After(v, es).sent[k], h, reply, seen, now)
  {
    var s := After(v, es).sent[k];
    SentIsInFlow(After(v, es).sent, k);
    RequestsConserved(v, es, s.service);
    assert s.msg in Flow(After(v, es), s.service);
    hide After, Good, RoundTrip;
    AcceptedFrom(v, es, s.service, s.msg);
    var j :| 0 <= j < |es| && s.msg in Fresh(v, es[j], s.service);
    FreshIs(v, es[j], s.service, s.msg);
    ReplyReaches(v, es[j], s, h, reply, seen, now);
  }

  lemma FreshIs(v: Variant, e: Event, n: string, msg: Message)
    requires msg in Fresh(v, e, n)
    ensures e.FromClient? && |e.msg| >= 2 && CStr(e.msg[0]) == n && msg == Wrapped(e.msg[1..], e.sender, Some(""))
  {
    hide CStr, Wrapped;
  }

  lemma ReplyReaches(v: Variant, e: Event, s: Sent, h: Hub, reply: Message, seen: int, now: int)
    requires s.Request? && Good(h) && s.worker in h.workers && s.worker != ""
    requires e.FromClient? && |e.msg| >= 2 && CStr(e.msg[0]) == s.service
    requires s.msg == Wrapped(e.msg[1..], e.sender, Some(""))
    ensures RoundTrip(v, e, s, h, reply, seen, now)
  {
    var client, name := e.sender, h.workers[s.worker].service.value;
    var m := ReplyFrames(CStr(client), reply)[2..];
    assert |m| >= 2;
    RequestAndBack(s.service, s.worker, s.msg, client, e.msg[1..], reply);
    hide CStr, Wrapped, Unwrapped, Envelope, ReplyFrames, HandedOut, CarriesRequest, Frames, Leaves, Good, Replied,
      Step;
    ReplyIs(v, h, s.worker, m, seen, now);
    EnvelopeFrames(client, name, reply);
    RepliedAnswers(h, s.worker, m[1..], Envelope(CStr(client), name, reply), seen, now);
  }

  lemma EnvelopeFrames(client: string, name: string, body: Message)
    ensures CStr(CStr(client)) == CStr(client)
    ensures Envelope(CStr(client), name, body) == [CStr(client), "", "MDPC01", CStr(name)] + body
  {
    hide CStr;
    HeaderNames();
    assert CStr(CStr(client)) == CStr(client);
  }

  lemma RepliedAnswers(h: Hub, i: string, m: Message, answer: Message, seen: int, now: int)
    requires Good(h) && i in h.workers && m != []
    requires answer == Envelope(Unwrapped(m).0, h.workers[i].service.value, Unwrapped(m).1)
    ensures Leaves(h, Replied(h, i, m, seen, now), answer)
  {
    var a := h.(sent := h.sent + [Answer(answer)]);
    assert Linked(a) by { assert forall j :: j in a.services ==> WaitsHere(h, j) && WaitsHere(a, j); }
    WaitingAppends(a, i, seen, now);
    assert a.sent[|h.sent|] == Answer(answer);
  }

  lemma {:induction false} DrainedAppends(h: Hub, n: string)
    requires Linked(h) && n in h.services
    ensures h.sent <= Drained(h, n).sent
    decreases |h.services[n].requests|
  {
    var s := h.services[n];
    if s.waiting != [] && s.requests != [] {
      DrainedAppends(Assigned(h, n, Best(h, s.waiting)), n);
    }
  }

  lemma WaitingAppends(h: Hub, i: string, seen: int, now: int)
    requires Linked(h) && i in h.workers && h.workers[i].service.Some?
    ensures h.sent <= Waiting(h, i, seen, now).sent
  {
    var n := h.workers[i].service.value;
    var q := Queued(Listed(h, i, n, seen), n, []);
    CutLinked(q, Expired(q, now));
    DrainedAppends(Cut(q, Expired(q, now)), n);
  }

  /** MMI: in every run the answer is 200 exactly if some registered worker serves the
      name, and it goes to the client that asked, in place of the last frame. */
  lemma {:induction false} MmiTellsTruth(es: seq<Event>, client: string, front: string, body: Message, now: int)
    requires body != [] && CStr(front) == "mmi.service"
    ensures var h := After(Minimal, es);
      ClientProcessed(Minimal, h, client, [front] + body, now).sent == h.sent + [Answer(
        [CStr(client), "", "MDPC01", "mmi.service"] +
          (body[..|body| - 1] + [if Served(h, CStr(body[|body| - 1])) then "200" else "404"]))]
  {
    hide *;
    var h := After(Minimal, es);
    CodeIsTruth(h, body);
    FrontAndBody(front, body);
    GoodIsLinked(h);
    MmiCase(h, client, [front] + body, now);
    MmiFrames(Required(h, "mmi.service"), "mmi.service", client, body,
      if Served(h, CStr(body[|body| - 1])) then "200" else "404");
  }

  /** Every other reserved name is answered with 501. */
  lemma {:induction false} OtherMmiIsNotImplemented(h: Hub, client: string, m: Message, now: int)
    requires Good(h) && |m| >= 2 && CStr(m[0]) != "mmi.service"
    requires var n := CStr(m[0]); |n| >= 4 && (n[0] == 'm' || n[0] == 'i' || n[0] == '.')
    ensures Step(Minimal, h, FromClient(client, m, now)).sent ==
      h.sent + [Answer([CStr(client), "", "MDPC01", CStr(m[0])] + (m[1..][..|m| - 2] + ["501"]))]
  {
    hide *;
    var n, body := CStr(m[0]), m[1..];
    GoodIsLinked(h);
    ClientStep(h, client, m, now);
    MmiCase(h, client, m, now);
    NotImplemented(Required(h, n), n, CStr(body[|body| - 1]));
    MmiFrames(Required(h, n), n, client, body, "501");
  }

  lemma ClientStep(h: Hub, client: string, m: Message, now: int)
    requires Good(h) && |m| >= 2 && CStr(m[0]) != ""
    ensures Step(Minimal, h, FromClient(client, m, now)) == ClientProcessed(Minimal, h, client, m, now)
  {
    hide ClientProcessed, Good, CStr;
  }

  lemma NotImplemented(r: Hub, n: string, body: string)
    requires n != "mmi.service"
    ensures MmiCode(r, n, body) == "501"
  {
  }

  lemma MmiCase(h: Hub, client: string, m: Message, now: int)
    requires Linked(h) && |m| >= 2
    requires var n := CStr(m[0]); |n| >= 4 && (n[0] == 'm' || n[0] == 'i' || n[0] == '.')
    ensures var n := CStr(m[0]);
      ClientProcessed(Minimal, h, client, m, now).sent ==
        h.sent + [Answer(MmiAnswer(Required(h, n), n, Wrapped(m[1..], client, Some(""))))]
  {
    hide CStr, MmiAnswer, Linked, Wrapped, Dispatched;
  }

  lemma FrontAndBody(front: string, body: Message)
    ensures ([front] + body)[0] == front && ([front] + body)[1..] == body && |[front] + body| == |body| + 1
  {
  }

  lemma CodeIsTruth(h: Hub, body: Message)
    requires Good(h) && body != []
    ensures MmiCode(Required(h, "mmi.service"), "mmi.service", CStr(body[|body| - 1])) ==
      if Served(h, CStr(body[|body| - 1])) then "200" else "404"
  {
    ServedIsCounted(h, CStr(body[|body| - 1]));
    NoneServed(h, "mmi.service");
    hide Good, CStr, Served;
  }

  lemma NoneServed(h: Hub, n: string)
    ensures n !in h.services ==> Required(h, n).services[n].workers == 0
  {
  }

  lemma MmiFrames(r: Hub, n: string, client: string, m: Message, code: string)
    requires m != [] && CStr(n) == n && code == MmiCode(r, n, CStr(m[|m| - 1]))
    ensures MmiAnswer(r, n, Wrapped(m, client, Some("")))
      == [CStr(client), "", "MDPC01", n] + (m[..|m| - 1] + [code])
  {
    hide *;
    var answered := m[..|m| - 1] + [code];
    CodeIsPlain(r, n, CStr(m[|m| - 1]));
    BodySetInside(m, client, code);
    HeaderNames();
    UnwrapUndoesWrap(answered, client, Some(""));
    MmiAnswerIs(r, n, Wrapped(m, client, Some("")), Wrapped(answered, client, Some("")), answered);
    EnvelopeFrames(client, n, answered);
  }

  lemma CodeIsPlain(r: Hub, n: string, body: string)
    ensures CStr(MmiCode(r, n, body)) == MmiCode(r, n, body)
  {
    HeaderNames();
    hide CStr;
  }

  lemma MmiAnswerIs(r: Hub, n: string, msg: Message, answered: Message, body: Message)
    requires msg != [] && BodySet(msg, MmiCode(r, n, CStr(msg[|msg| - 1]))) == answered
    requires answered != [] && Unwrapped(answered).1 == body
    ensures MmiAnswer(r, n, msg) == Envelope(Unwrapped(answered).0, n, body)
  {
    hide CStr, Envelope, Unwrapped, BodySet, MmiCode;
  }

  lemma BodySetInside(m: Message, client: string, code: string)
    requires m != [] && CStr(code) == code
    ensures var msg := Wrapped(m, client, Some(""));
      && msg != [] && msg[|msg| - 1] == m[|m| - 1]
      && BodySet(msg, code) == Wrapped(m[..|m| - 1] + [code], client, Some("")) != []
  {
    ReplaceLast([CStr(client), CStr("")], m, code);
  }

  ghost predicate Served(h: Hub, name: string) {
    exists i :: i in h.workers && h.workers[i].service == Some(name)
  }

  lemma ServedIsCounted(h: Hub, name: string)
    requires Good(h)
    ensures Served(h, name) <==> name in h.services && h.services[name].workers != 0
  {
    if i :| i in h.workers && h.workers[i].service == Some(name) {
      assert i in Members(h.workers, name);
    }
    if name in h.services && h.services[name].workers != 0 {
      var i :| i in Members(h.workers, name);
    }
  }
}
