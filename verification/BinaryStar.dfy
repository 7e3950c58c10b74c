/** The Binary Star pair: the failover state machine of one server, and two of them joined
    by channels that keep the order but may lose messages, crashing and restarting at any time. */
module BinaryStar {
  import opened Order

  datatype State = NotSet | Primary | Backup | Active | Passive

  /** A peer's state is the event it causes. */
  datatype Event = Peer(state: State) | ClientRequest

  const HEARTBEAT: nat := 1000

  datatype Server = Server(state: State, peerExpiry: int, sendAt: int)

  /** The state machine: the next state, and whether the event is refused. */
  function Fsm(s: State, peerExpiry: int, e: Event, now: nat): (State, bool) {
    match s
    case Primary =>
      (if e == Peer(Backup) then Active else if e == Peer(Active) then Passive else Primary, false)
    case Backup =>
      (if e == Peer(Active) then Passive else Backup, e.ClientRequest?)
    case Active =>
      (Active, e == Peer(Active))
    case Passive =>
      if e == Peer(Primary) || e == Peer(Backup) then (Active, false)
      else if e == Peer(Passive) then (Passive, true)
      else if e.ClientRequest? then (if now >= peerExpiry then (Active, false) else (Passive, true))
      else (Passive, false)
    case NotSet => (NotSet, false)
  }

  /** A server as it starts. */
  function Started(state: State, now: nat): Server {
    Server(state, 0, now + HEARTBEAT)
  }

  /** The peer's state is an event, and unless refused renews the peer's expiry. */
  function Heard(s: Server, message: State, now: nat): (Server, bool) {
    var (state, fatal) := Fsm(s.state, s.peerExpiry, Peer(message), now);
    (Server(state, if fatal then s.peerExpiry else now + 2 * HEARTBEAT, s.sendAt), fatal)
  }

  function Asked(s: Server, now: nat): Server {
    s.(state := Fsm(s.state, s.peerExpiry, ClientRequest, now).0)
  }

  function Spoken(s: Server, now: nat): Server {
    s.(sendAt := now + HEARTBEAT)
  }

  class Bstar {
    var state: State
    var event: Option<Event>
    var peerExpiry: int
    var sendAt: int
    /** The states published to the peer. */
    var published: seq<State>

    ghost function Value(): Server
      reads this
    {
      Server(state, peerExpiry, sendAt)
    }

    constructor (role: State, now: nat)
      requires role == Primary || role == Backup
      ensures Value() == Started(role, now) && published == []
    {
      state, event, peerExpiry, sendAt, published := role, None, 0, now + HEARTBEAT, [];
    }

    method StateMachine(e: Event, now: nat) returns (refused: bool)
      requires state == Passive && e.ClientRequest? ==> peerExpiry > 0
      modifies `state, `event
      ensures (state, refused) == Fsm(old(state), peerExpiry, e, now) && event == Some(e)
      ensures e.ClientRequest? ==> Value() == Asked(old(Value()), now)
      ensures e.ClientRequest? && old(state) != NotSet ==> (refused <==> state == Backup || state == Passive)
      ensures e.ClientRequest? ==> state == if old(state) == Passive && now >= peerExpiry then Active else old(state)
      ensures old(state) == NotSet ==> state == NotSet && !refused
      ensures e.Peer? ==>
        (refused <==> (old(state) == Active && e.state == Active) || (old(state) == Passive && e.state == Passive))
      ensures e.Peer? ==> state in {Active, Passive, old(state)}
      ensures e.Peer? && old(state) != Active ==>
        (state == Active <==> (old(state) == Primary && e.state == Backup) ||
                              (old(state) == Passive && (e.state == Primary || e.state == Backup)))
      ensures e.Peer? && old(state) != Passive ==>
        (state == Passive <==> (old(state) == Primary || old(state) == Backup) && e.state == Active)
    {
      event := Some(e);
      refused := false;
      if state == Primary {
        if event == Some(Peer(Backup)) {
          state := Active;
        } else if event == Some(Peer(Active)) {
          state := Passive;
        }
      } else if state == Backup {
        if event == Some(Peer(Active)) {
          state := Passive;
        } else if event == Some(ClientRequest) {
          refused := true;
        }
      } else if state == Active {
        if event == Some(Peer(Active)) {
          refused := true;
        }
      } else if state == Passive {
        if event == Some(Peer(Primary)) {
          state := Active;
        } else if event == Some(Peer(Backup)) {
          state := Active;
        } else if event == Some(Peer(Passive)) {
          refused := true;
        } else if event == Some(ClientRequest) {
          if now >= peerExpiry {
            state := Active;
          } else {
            refused := true;
          }
        }
      }
    }

    /** A message from the peer; a refused one ends the server. */
    method OnState(message: State, now: nat) returns (fatal: bool)
      modifies this
      ensures (Value(), fatal) == Heard(old(Value()), message, now) && published == old(published)
      ensures fatal <==> (old(state) == Active && message == Active) || (old(state) == Passive && message == Passive)
      ensures peerExpiry == (if fatal then old(peerExpiry) else now + 2000) && sendAt == old(sendAt)
    {
      fatal := StateMachine(Peer(message), now);
      if !fatal {
        peerExpiry := now + 2 * HEARTBEAT;
      }
    }

    /** The end of a round of the main loop: when it is time, the state goes out. */
    method OnTimer(now: nat)
      modifies this
      ensures if now >= old(sendAt) then published == old(published) + [state] && Value() == Spoken(old(Value()), now)
        else published == old(published) && Value() == old(Value())
      ensures state == old(state) && sendAt == if now >= old(sendAt) then now + 1000 else old(sendAt)
    {
      if now >= sendAt {
        published := published + [state];
        sendAt := now + HEARTBEAT;
      }
    }
  }

  datatype Role = P | B {
    function Other(): Role {
      if P? then B else P
    }

    function Start(): State {
      if P? then Primary else Backup
    }
  }

  /** One thing for each role. */
  datatype Both<T> = Both(p: T, b: T) {
    function At(r: Role): T {
      if r.P? then p else b
    }

    function With(r: Role, x: T): Both<T> {
      if r.P? then Both(x, b) else Both(p, x)
    }
  }

  /** The two servers, None while down, and for each role the states in flight from it. */
  datatype Pair = Pair(server: Both<Option<Server>>, sent: Both<seq<State>>) {
    function StateOf(r: Role): Option<State> {
      if server.At(r).None? then None else Some(server.At(r).value.state)
    }

    /** Whether r is up, in state s. */
    predicate In(r: Role, s: State) {
      StateOf(r) == Some(s)
    }
  }

  datatype Step = Crash(r: Role, now: nat) | Restart(r: Role, now: nat) | Timer(r: Role, now: nat)
                | Hear(r: Role, now: nat) | Request(r: Role, now: nat) | Lose(r: Role, i: nat, now: nat)

  const DARK: Pair := Pair(Both(None, None), Both([], []))

  function Cut<T>(q: seq<T>, i: nat): seq<T> {
    if i < |q| then q[..i] + q[i + 1..] else q
  }

  /** One step. What a server has sent outlives it; what was on its way to it does not. */
  function Next(w: Pair, e: Step): Pair {
    var up, queue := w.server.At(e.r), w.sent.At(e.r.Other());
    match e
    case Crash(r, _) => w.(server := w.server.With(r, None))
    case Restart(r, now) =>
      if up.Some? then w
      else Pair(w.server.With(r, Some(Started(r.Start(), now))), w.sent.With(r.Other(), []))
    case Timer(r, now) =>
      if up.None? || now < up.value.sendAt then w
      else Pair(w.server.With(r, Some(Spoken(up.value, now))), w.sent.With(r, w.sent.At(r) + [up.value.state]))
    case Hear(r, now) =>
      if up.None? || queue == [] then w
      else
        var (s, fatal) := Heard(up.value, queue[0], now);
        Pair(w.server.With(r, if fatal then None else Some(s)), w.sent.With(r.Other(), queue[1..]))
    case Request(r, now) =>
      if up.None? then w else w.(server := w.server.With(r, Some(Asked(up.value, now))))
    case Lose(r, i, _) => w.(sent := w.sent.With(r, Cut(w.sent.At(r), i)))
  }

  /** A client request takes over only while the peer is not active and no word of it being
      active is under way; and the primary does not restart while the backup still waits
      for it and a word of its former activity is under way. */
  predicate InOrder(w: Pair, e: Step) {
    && (e.Request? && w.In(e.r, Passive) && e.now >= w.server.At(e.r).value.peerExpiry ==>
        !w.In(e.r.Other(), Active) && Active !in w.sent.At(e.r.Other()))
    && (e.Restart? && e.r.P? && w.server.p.None? && w.In(B, Backup) ==> Active !in w.sent.p)
  }

  /** Nothing but a's. */
  predicate Only(q: seq<State>, a: State) {
    q == [] || (q[0] == a && Only(q[1..], a))
  }

  /** a's, then b's; the letters are states in flight. */
  predicate Turn(q: seq<State>, a: State, b: State) {
    Only(q, b) || (q[0] == a && Turn(q[1..], a, b))
  }

  /** a's, then b's, then c's. */
  predicate Turns(q: seq<State>, a: State, b: State, c: State) {
    Turn(q, b, c) || (q[0] == a && Turns(q[1..], a, b, c))
  }

  predicate Free(q: seq<State>) {
    q == [] || (q[0] != Active && Free(q[1..]))
  }

  /** Active is the last word. */
  predicate Ends(q: seq<State>) {
    Only(q, Active) || (q[0] != Active && Ends(q[1..]))
  }

  /** What may be in flight from the primary and from the backup, given the state of each. */
  predicate Consistent(p: Option<State>, b: Option<State>, fromP: seq<State>, fromB: seq<State>) {
    match (p, b)
    case (None, None) => true
    case (Some(x), None) =>
      || (x == Primary && Turns(fromB, Passive, Active, Backup))
      || (x == Active && Free(fromB))
      || (x == Passive && Turn(fromB, Active, Backup))
    case (None, Some(y)) =>
      (y == Backup && Ends(fromP)) || (y == Active && Free(fromP)) || (y == Passive && Turn(fromP, Active, Primary))
    case (Some(x), Some(y)) => BothUp(x, y, fromP, fromB)
  }

  predicate BothUp(x: State, y: State, fromP: seq<State>, fromB: seq<State>) {
    match (x, y)
    case (Primary, Backup) =>
      (Only(fromP, Primary) && Turns(fromB, Passive, Active, Backup)) || (Free(fromP) && Only(fromB, Backup))
    case (Primary, Active) =>
      (Only(fromP, Primary) && Turn(fromB, Passive, Active)) || (Free(fromP) && Only(fromB, Active))
    case (Primary, Passive) => Turn(fromP, Active, Primary) && Only(fromB, Passive)
    case (Active, Backup) => (Only(fromP, Active) && Free(fromB)) || (Ends(fromP) && Only(fromB, Backup))
    case (Active, Passive) => Only(fromP, Active) && Free(fromB)
    case (Passive, Backup) => Free(fromP) && Turn(fromB, Active, Backup)
    case (Passive, Active) => Free(fromP) && Only(fromB, Active)
    case _ => false
  }

  /** The states and channels fit, and a passive server has heard its peer. */
  predicate Inv(w: Pair) {
    && Consistent(w.StateOf(P), w.StateOf(B), w.sent.p, w.sent.b)
    && (w.In(P, Passive) ==> w.server.p.value.peerExpiry > 0)
    && (w.In(B, Passive) ==> w.server.b.value.peerExpiry > 0)
  }

  /** Never two active, never two passive. */
  predicate Safe(w: Pair) {
    !(w.In(P, Active) && w.In(B, Active)) && !(w.In(P, Passive) && w.In(B, Passive))
  }

  lemma InvIsSafe(w: Pair)
    requires Inv(w)
    ensures Safe(w)
  {
    hide Only, Turn, Turns, Free, Ends;
  }

  lemma {:induction false} FreeIs(q: seq<State>)
    ensures Free(q) <==> Active !in q
  {
    if q != [] {
      FreeIs(q[1..]);
    }
  }

  /** Which languages lie in which. */
  lemma {:induction false} Inclusions(q: seq<State>)
    ensures Only(q, Active) ==> Ends(q) && Turn(q, Active, Primary) && Turn(q, Active, Backup)
    ensures Only(q, Passive) ==> Turn(q, Passive, Active)
    ensures Turn(q, Passive, Active) || Turn(q, Active, Backup) || Only(q, Backup) ==> Turns(q, Passive, Active, Backup)
    ensures Free(q) ==> Ends(q)
    ensures Only(q, Primary) || Only(q, Backup) || Only(q, Passive) ==> Free(q)
    ensures Turn(q, Active, Primary) && Free(q) ==> Only(q, Primary)
    ensures Turn(q, Active, Backup) && Free(q) ==> Only(q, Backup)
  {
    if q != [] {
      Inclusions(q[1..]);
    }
  }

  lemma {:induction false} OnlySnoc(q: seq<State>, a: State)
    ensures Only(q, a) ==> Only(q + [a], a)
  {
    if q != [] {
      OnlySnoc(q[1..], a);
      assert (q + [a])[1..] == q[1..] + [a];
    }
  }

  lemma {:induction false} TurnSnoc(q: seq<State>, a: State, b: State)
    ensures Turn(q, a, b) ==> Turn(q + [b], a, b)
  {
    OnlySnoc(q, b);
    if q != [] {
      TurnSnoc(q[1..], a, b);
      assert (q + [b])[1..] == q[1..] + [b];
    }
  }

  lemma {:induction false} TurnsSnoc(q: seq<State>, a: State, b: State, c: State)
    ensures Turns(q, a, b, c) ==> Turns(q + [c], a, b, c)
  {
    TurnSnoc(q, b, c);
    if q != [] {
      TurnsSnoc(q[1..], a, b, c);
      assert (q + [c])[1..] == q[1..] + [c];
    }
  }

  lemma {:induction false} FreeSnoc(q: seq<State>, a: State)
    ensures Free(q) && a != Active ==> Free(q + [a])
    ensures Ends(q) ==> Ends(q + [Active])
  {
    OnlySnoc(q, Active);
    if q != [] {
      FreeSnoc(q[1..], a);
      assert (q + [a])[1..] == q[1..] + [a] && (q + [Active])[1..] == q[1..] + [Active];
    }
  }

  lemma CutIs<T>(q: seq<T>, i: nat)
    ensures i >= |q| ==> Cut(q, i) == q
    ensures i == 0 < |q| ==> Cut(q, i) == q[1..]
    ensures 0 < i < |q| ==> Cut(q, i) == [q[0]] + Cut(q[1..], i - 1) && Cut(q, i)[1..] == Cut(q[1..], i - 1)
  {
    if i < |q| {
      assert q[..i] + q[i + 1..] == if i == 0 then q[1..] else [q[0]] + (q[1..][..i - 1] + q[1..][i..]);
    }
  }

  lemma {:induction false} TurnCut(q: seq<State>, a: State, b: State, i: nat)
    ensures Only(q, a) ==> Only(Cut(q, i), a)
    ensures Turn(q, a, b) ==> Turn(Cut(q, i), a, b)
  {
    CutIs(q, i);
    if 0 < i < |q| {
      TurnCut(q[1..], a, b, i - 1);
      TurnCut(q[1..], b, b, i - 1);
    }
  }

  lemma {:induction false} TurnsCut(q: seq<State>, a: State, b: State, c: State, i: nat)
    ensures Turns(q, a, b, c) ==> Turns(Cut(q, i), a, b, c)
  {
    TurnCut(q, b, c, i);
    CutIs(q, i);
    if 0 < i < |q| {
      TurnsCut(q[1..], a, b, c, i - 1);
    }
  }

  lemma {:induction false} FreeCut(q: seq<State>, i: nat)
    ensures Free(q) ==> Free(Cut(q, i))
    ensures Ends(q) ==> Ends(Cut(q, i))
  {
    TurnCut(q, Active, Active, i);
    CutIs(q, i);
    if 0 < i < |q| {
      FreeCut(q[1..], i - 1);
    }
  }

  lemma CrashKeeps(w: Pair, r: Role, now: nat)
    requires Inv(w)
    ensures Inv(Next(w, Crash(r, now)))
  {
    Inclusions(w.sent.p);
    Inclusions(w.sent.b);
    hide Only, Turn, Turns, Free, Ends;
  }

  lemma TimerKeeps(w: Pair, r: Role, now: nat)
    requires Inv(w)
    ensures Inv(Next(w, Timer(r, now)))
  {
    var q := w.sent.At(r);
    OnlySnoc(q, Primary);
    OnlySnoc(q, Backup);
    OnlySnoc(q, Active);
    OnlySnoc(q, Passive);
    FreeSnoc(q, Primary);
    FreeSnoc(q, Backup);
    FreeSnoc(q, Passive);
    TurnSnoc(q, Passive, Active);
    TurnSnoc(q, Active, Primary);
    TurnSnoc(q, Active, Backup);
    TurnsSnoc(q, Passive, Active, Backup);
    hide Only, Turn, Turns, Free, Ends;
  }

  lemma LoseKeeps(w: Pair, r: Role, i: nat, now: nat)
    requires Inv(w)
    ensures Inv(Next(w, Lose(r, i, now)))
  {
    var q := w.sent.At(r);
    TurnCut(q, Primary, Primary, i);
    TurnCut(q, Backup, Backup, i);
    TurnCut(q, Passive, Active, i);
    TurnCut(q, Active, Primary, i);
    TurnCut(q, Active, Backup, i);
    TurnsCut(q, Passive, Active, Backup, i);
    FreeCut(q, i);
    hide Only, Turn, Turns, Free, Ends, Cut;
  }

  /** No message the peer may have in flight is refused. */
  lemma HearingIsNotFatal(w: Pair, r: Role, now: nat)
    requires Inv(w) && w.server.At(r).Some? && w.sent.At(r.Other()) != []
    ensures !Heard(w.server.At(r).value, w.sent.At(r.Other())[0], now).1
  {
  }

  /** What the primary, or the backup, makes of the next word of the other. */
  lemma PrimaryHears(x: State, b: Option<State>, fromP: seq<State>, fromB: seq<State>, expiry: int, now: nat)
    requires Consistent(Some(x), b, fromP, fromB) && fromB != []
    ensures Consistent(Some(Fsm(x, expiry, Peer(fromB[0]), now).0), b, fromP, fromB[1..])
  {
    Inclusions(fromP);
    Inclusions(fromB[1..]);
    hide Ends;
  }

  lemma BackupHears(p: Option<State>, y: State, fromP: seq<State>, fromB: seq<State>, expiry: int, now: nat)
    requires Consistent(p, Some(y), fromP, fromB) && fromP != []
    ensures Consistent(p, Some(Fsm(y, expiry, Peer(fromP[0]), now).0), fromP[1..], fromB)
  {
    Inclusions(fromP[1..]);
    Inclusions(fromB);
    hide Turns;
  }

  lemma HearKeeps(w: Pair, r: Role, now: nat)
    requires Inv(w)
    ensures Inv(Next(w, Hear(r, now)))
  {
    if w.server.At(r).Some? && w.sent.At(r.Other()) != [] {
      var s := w.server.At(r).value;
      HearingIsNotFatal(w, r, now);
      hide Consistent;
      if r.P? {
        PrimaryHears(s.state, w.StateOf(B), w.sent.p, w.sent.b, s.peerExpiry, now);
      } else {
        BackupHears(w.StateOf(P), s.state, w.sent.p, w.sent.b, s.peerExpiry, now);
      }
    }
  }

  /** A client request keeps the invariant if and only if it does not take over out of order. */
  lemma {:induction false} RequestKeepsWhen(w: Pair, r: Role, now: nat)
    requires Inv(w)
    ensures Inv(Next(w, Request(r, now))) <==> InOrder(w, Request(r, now))
  {
    FreeIs(w.sent.At(r.Other()));
    Inclusions(w.sent.p);
    Inclusions(w.sent.b);
    hide Only, Turn, Turns, Free, Ends;
  }

  /** A restart keeps the invariant if and only if it is in order. */
  lemma {:induction false} RestartKeepsWhen(w: Pair, r: Role, now: nat)
    requires Inv(w)
    ensures Inv(Next(w, Restart(r, now))) <==> InOrder(w, Restart(r, now))
  {
    FreeIs(w.sent.At(r));
    Inclusions(w.sent.p);
    Inclusions(w.sent.b);
    assert Only([], Backup) && Free([]) && Only([], Primary) && Only([], Passive) && Turns([], Passive, Active, Backup);
    hide Only, Turn, Turns, Free, Ends;
  }

  lemma {:induction false} FirstWord(q: seq<State>, b: State)
    requires Turn(q, Active, b) && Active in q && b != Active
    ensures q[0] == Active
  {
    FreeIs(q);
    Inclusions(q);
    if b != Active && Only(q, b) {
      OnlyIs(q, b);
    }
  }

  lemma {:induction false} OnlyIs(q: seq<State>, a: State)
    requires Only(q, a)
    ensures forall s :: s in q ==> s == a
  {
    if q != [] {
      OnlyIs(q[1..], a);
      assert q == [q[0]] + q[1..];
    }
  }

  /** Out of order, a take-over either makes two active servers at once, or meets the old
      peer's word of being active next and is refused. */
  lemma {:induction false} TakeOverOutOfOrder(w: Pair, r: Role, now: nat)
    requires Inv(w) && !InOrder(w, Request(r, now))
    ensures var g, q := Next(w, Request(r, now)), w.sent.At(r.Other());
      && g.In(r, Active)
      && (g.In(r.Other(), Active) || (q != [] && forall later: nat :: Heard(g.server.At(r).value, q[0], later).1))
  {
    var q := w.sent.At(r.Other());
    if Active in q && !w.In(r.Other(), Active) {
      assert Turn(q, Active, r.Other().Start());
      FirstWord(q, r.Other().Start());
    }
  }

  function Run(w: Pair, steps: seq<Step>): Pair
    decreases |steps|
  {
    if steps == [] then w else Run(Next(w, steps[0]), steps[1..])
  }

  /** Every take-over and every restart on the way is in order. */
  predicate AllInOrder(w: Pair, steps: seq<Step>)
    decreases |steps|
  {
    steps == [] || (InOrder(w, steps[0]) && AllInOrder(Next(w, steps[0]), steps[1..]))
  }

  lemma StepKeeps(w: Pair, e: Step)
    requires Inv(w) && InOrder(w, e)
    ensures Inv(Next(w, e))
  {
    hide Inv, Next, InOrder;
    match e
    case Crash(r, now) => CrashKeeps(w, r, now);
    case Restart(r, now) => RestartKeepsWhen(w, r, now);
    case Timer(r, now) => TimerKeeps(w, r, now);
    case Hear(r, now) => HearKeeps(w, r, now);
    case Request(r, now) => RequestKeepsWhen(w, r, now);
    case Lose(r, i, now) => LoseKeeps(w, r, i, now);
  }

  lemma {:induction false} RunKeepsInv(w: Pair, steps: seq<Step>)
    requires Inv(w) && AllInOrder(w, steps)
    ensures Inv(Run(w, steps))
    decreases |steps|
  {
    if steps != [] {
      hide Inv, Next, InOrder;
      StepKeeps(w, steps[0]);
      RunKeepsInv(Next(w, steps[0]), steps[1..]);
    }
  }

  /** In every run with crashes, restarts and lost messages in which failovers and restarts
      are in order there are never two active or two passive servers, no message a server
      hears next is a fatal one, and a passive server has a peer expiry to compare the clock with. */
  lemma {:induction false} PairIsSafe(steps: seq<Step>)
    requires AllInOrder(DARK, steps)
    ensures var w := Run(DARK, steps);
      && Safe(w)
      && (forall r: Role, now: nat :: w.server.At(r).Some? && w.sent.At(r.Other()) != [] ==>
          !Heard(w.server.At(r).value, w.sent.At(r.Other())[0], now).1)
      && (forall r: Role :: w.In(r, Passive) ==> w.server.At(r).value.peerExpiry > 0)
  {
    var w := Run(DARK, steps);
    RunKeepsInv(DARK, steps);
    InvIsSafe(w);
    hide Run, Heard;
    forall r: Role, now: nat | w.server.At(r).Some? && w.sent.At(r.Other()) != []
      ensures !Heard(w.server.At(r).value, w.sent.At(r.Other())[0], now).1
    {
      HearingIsNotFatal(w, r, now);
    }
  }

  lemma {:induction false} RunConcat(w: Pair, a: seq<Step>, b: seq<Step>)
    ensures Run(w, a + b) == Run(Run(w, a), b)
    ensures AllInOrder(w, a) && AllInOrder(Run(w, a), b) ==> AllInOrder(w, a + b)
    decreases |a|
  {
    if a == [] {
      assert a + b == b;
    } else {
      assert (a + b)[1..] == a[1..] + b;
      RunConcat(Next(w, a[0]), a[1..], b);
    }
  }

  /** The backup hears all that is under way, the last word being that the primary has restarted. */
  lemma {:induction false} BackupHearsAll(w: Pair, q: seq<State>, now: nat) returns (steps: seq<Step>)
    requires w.server.b.Some? && w.sent.p == q + [Primary]
    requires (w.In(B, Backup) && Ends(q) && Active in q) || (w.In(B, Passive) && Only(q, Active))
    ensures AllInOrder(w, steps)
    ensures forall e :: e in steps ==> e.Hear?
    ensures var g := Run(w, steps); g.server.p == w.server.p && g.sent.b == w.sent.b && g.In(B, Active)
    decreases |q|
  {
    var g := Next(w, Hear(B, now));
    assert w.sent.p[0] == if q == [] then Primary else q[0];
    if q == [] {
      steps := [];
    } else {
      assert g.sent.p == q[1..] + [Primary];
      assert q == [q[0]] + q[1..];
      Inclusions(q[1..]);
      steps := BackupHearsAll(g, q[1..], now);
    }
    steps := [Hear(B, now)] + steps;
    assert steps[1..] + [] == steps[1..];
  }

  /** Out of order, a restart of the primary can be followed by two active servers: the
      backup hears the stale word and steps back, hears that the primary has restarted and
      takes over, while the primary hears of the pending backup and becomes active too. */
  lemma {:induction false} RestartOutOfOrder(w: Pair, now: nat) returns (steps: seq<Step>)
    requires Inv(w) && !InOrder(w, Restart(P, now))
    ensures var g := Next(w, Restart(P, now));
      AllInOrder(g, steps) && Run(g, steps).In(P, Active) && Run(g, steps).In(B, Active)
    ensures forall e :: e in steps ==> e.Timer? || e.Hear?
  {
    var g, q := Next(w, Restart(P, now)), w.sent.p;
    var at := if g.server.b.value.sendAt < 0 then 0 else g.server.b.value.sendAt;
    var speak := [Timer(P, now + HEARTBEAT), Timer(B, at)];
    var said := Run(g, speak);
    assert g.sent.b == [] && g.sent.p == q;
    SpeakBoth(g, now + HEARTBEAT, at);
    var hear := BackupHearsAll(said, q, at);
    var heard := Run(said, hear);
    var last := [Hear(P, at)];
    PrimaryHearsBackup(heard, at);
    RunConcat(g, speak, hear);
    RunConcat(g, speak + hear, last);
    steps := speak + hear + last;
  }

  lemma SpeakBoth(g: Pair, a: nat, b: nat)
    requires g.In(P, Primary) && g.In(B, Backup) && a >= g.server.p.value.sendAt && b >= g.server.b.value.sendAt
    ensures var w := Run(g, [Timer(P, a), Timer(B, b)]);
      && w.In(P, Primary) && w.In(B, Backup) && w.sent == Both(g.sent.p + [Primary], g.sent.b + [Backup])
      && AllInOrder(g, [Timer(P, a), Timer(B, b)])
  {
    var steps := [Timer(P, a), Timer(B, b)];
    var f := Next(g, steps[0]);
    assert steps[1..] == [Timer(B, b)] && steps[1..][1..] == [];
    assert Run(f, steps[1..]) == Next(f, Timer(B, b));
  }

  lemma PrimaryHearsBackup(w: Pair, now: nat)
    requires w.In(P, Primary) && w.sent.b == [Backup]
    ensures AllInOrder(w, [Hear(P, now)]) && Run(w, [Hear(P, now)]) == Next(w, Hear(P, now))
    ensures Next(w, Hear(P, now)).In(P, Active) && Next(w, Hear(P, now)).server.b == w.server.b
  {
    assert [Hear(P, now)][1..] == [];
  }

  /** A server that accepts a client request echoes it. */
  predicate Accepts(s: Server, now: nat) {
    !Fsm(s.state, s.peerExpiry, ClientRequest, now).1
  }

  /** Who serves clients: in every run in order an active or pending primary server always
      does, a pending backup never, and a passive server exactly once its peer's expiry has
      passed, and then it is active. A server that serves while its peer is active can only
      be the primary, pending after a restart. */
  lemma {:induction false} WhoServes(steps: seq<Step>, r: Role, now: nat)
    requires AllInOrder(DARK, steps) && Run(DARK, steps).server.At(r).Some?
    ensures var w := Run(DARK, steps);
      var s, g := w.server.At(r).value, Next(w, Request(r, now));
      && (s.state == Active || s.state == Passive || s.state == if r.P? then Primary else Backup)
      && (s.state == Active || s.state == Primary ==> Accepts(s, now) && g == w)
      && (s.state == Backup ==> !Accepts(s, now) && g == w)
      && (s.state == Passive ==>
        if now >= s.peerExpiry then Accepts(s, now) && g.In(r, Active) else !Accepts(s, now) && g == w)
      && (InOrder(w, Request(r, now)) && Accepts(s, now) && w.In(r.Other(), Active) ==> s.state == Primary)
  {
    var w := Run(DARK, steps);
    RunKeepsInv(DARK, steps);
    hide Run, AllInOrder, Only, Turn, Turns, Free, Ends;
  }

  /** One exchange: both speak, and hear each other. */
  function Exchange(now: nat): seq<Step> {
    [Timer(P, now), Timer(B, now), Hear(P, now), Hear(B, now)]
  }

  predicate Idle(w: Pair, x: State, y: State, now: nat) {
    && w.In(P, x) && w.In(B, y) && w.sent == Both([], [])
    && w.server.p.value.sendAt <= now && w.server.b.value.sendAt <= now
  }

  lemma ExchangeIs(w: Pair, x: State, y: State, now: nat)
    requires Idle(w, x, y, now) && BothUp(x, y, [], [])
    ensures AllInOrder(w, Exchange(now))
    ensures var g := Run(w, Exchange(now));
      var s, t := Fsm(x, 0, Peer(y), now).0, Fsm(y, 0, Peer(x), now).0;
      Idle(g, s, t, now + HEARTBEAT)
  {
    var p, b := w.server.p.value, w.server.b.value;
    var spoken := Pair(Both(Some(Spoken(p, now)), Some(Spoken(b, now))), Both([x], [y]));
    assert [] + [x] == [x] && [] + [y] == [y] && [x][1..] == [] && [y][1..] == [];
    assert Next(Next(w, Timer(P, now)), Timer(B, now)) == spoken;
    var heard := Next(spoken, Hear(P, now));
    assert heard.server.b == spoken.server.b && heard.sent == Both([x], []);
    RunsFour(w, Timer(P, now), Timer(B, now), Hear(P, now), Hear(B, now));
  }

  lemma RunsFour(w: Pair, a: Step, b: Step, c: Step, d: Step)
    ensures Run(w, [a, b, c, d]) == Next(Next(Next(Next(w, a), b), c), d)
    ensures (a.Timer? || a.Hear?) && (b.Timer? || b.Hear?) && (c.Timer? || c.Hear?) && (d.Timer? || d.Hear?) ==>
      AllInOrder(w, [a, b, c, d])
  {
    hide Next, Run, AllInOrder;
    RunCons(w, a, [b, c, d]);
    RunCons(Next(w, a), b, [c, d]);
    RunCons(Next(Next(w, a), b), c, [d]);
    RunCons(Next(Next(Next(w, a), b), c), d, []);
    assert [a] + [b, c, d] == [a, b, c, d] && [b] + [c, d] == [b, c, d] && [c] + [d] == [c, d] && [d] + [] == [d];
    RunNothing(Next(Next(Next(Next(w, a), b), c), d));
  }

  lemma RunCons(w: Pair, e: Step, rest: seq<Step>)
    ensures Run(w, [e] + rest) == Run(Next(w, e), rest)
    ensures AllInOrder(w, [e] + rest) <==> InOrder(w, e) && AllInOrder(Next(w, e), rest)
  {
    assert ([e] + rest)[1..] == rest;
    hide Next, InOrder;
  }

  lemma RunNothing(w: Pair)
    ensures Run(w, []) == w && AllInOrder(w, [])
  {
  }

  /** The pair settles: two servers that are up and hear each other come, by two exchanges at
      the latest, to one active and one passive, and stay so; of two that are both pending
      the primary becomes active. */
  lemma {:induction false} PairSettles(w: Pair, now: nat, later: nat)
    requires Inv(w) && w.server.p.Some? && w.server.b.Some? && w.sent == Both([], [])
    requires w.server.p.value.sendAt <= now && w.server.b.value.sendAt <= now && now + HEARTBEAT <= later
    ensures AllInOrder(w, Exchange(now) + Exchange(later))
    ensures var g := Run(w, Exchange(now) + Exchange(later));
      && ((g.In(P, Active) && g.In(B, Passive)) || (g.In(P, Passive) && g.In(B, Active)))
      && (w.In(P, Active) || w.In(B, Active) || (w.In(P, Primary) && w.In(B, Backup)) ==>
        (w.In(B, Active) <==> g.In(B, Active)))
  {
    var x, y := w.server.p.value.state, w.server.b.value.state;
    assert BothUp(x, y, [], []);
    ExchangeIs(w, x, y, now);
    var g := Run(w, Exchange(now));
    var s, t := Fsm(x, 0, Peer(y), now).0, Fsm(y, 0, Peer(x), now).0;
    assert BothUp(s, t, [], []);
    hide Exchange, Run, AllInOrder, Inv;
    ExchangeIs(g, s, t, later);
    RunConcat(w, Exchange(now), Exchange(later));
  }
}
