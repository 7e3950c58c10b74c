/** The Binary Star pair against the clock: how promptly the servers must speak and hear
    for their failovers to be in order, and what happens when they do not. */
module Heartbeats {
  import opened Order
  import opened BinaryStar

  /** The pair with its history: when each state in flight was sent, and when each server
      last went down. */
  datatype Clocked = Clocked(pair: Pair, stamps: Both<seq<nat>>, down: Both<Option<nat>>, clock: nat)

  const MIDNIGHT: Clocked := Clocked(DARK, Both([], []), Both(None, None), 0)

  predicate Speaks(w: Pair, e: Step) {
    e.Timer? && w.server.At(e.r).Some? && e.now >= w.server.At(e.r).value.sendAt
  }

  function Tick(t: Clocked, e: Step): Clocked {
    var up, other := t.pair.server.At(e.r).Some?, e.r.Other();
    var stamps :=
      if Speaks(t.pair, e) then t.stamps.With(e.r, t.stamps.At(e.r) + [e.now])
      else if e.Hear? && up && t.stamps.At(other) != [] then t.stamps.With(other, t.stamps.At(other)[1..])
      else if e.Restart? && !up then t.stamps.With(other, [])
      else if e.Lose? then t.stamps.With(e.r, Cut(t.stamps.At(e.r), e.i))
      else t.stamps;
    Clocked(BinaryStar.Next(t.pair, e), stamps, if e.Crash? && up then t.down.With(e.r, Some(e.now)) else t.down, e.now)
  }

  /** A server that is up speaks at most `slack` late and hears what was sent within `delay`;
      nothing is lost on the way to it; one that went down stays down longer than that. */
  ghost predicate OnTime(t: Clocked, e: Step, slack: nat, delay: nat) {
    && e.now >= t.clock
    && (forall r: Role :: t.pair.server.At(r).Some? ==> Prompt(t, r, e.now, slack, delay))
    && (e.Lose? ==> t.pair.server.At(e.r.Other()).None?)
    && (e.Restart? && t.down.At(e.r).Some? ==> e.now > t.down.At(e.r).value + delay)
  }

  predicate Prompt(t: Clocked, r: Role, now: nat, slack: nat, delay: nat)
    requires t.pair.server.At(r).Some?
  {
    && now <= t.pair.server.At(r).value.sendAt + slack
    && (t.stamps.At(r.Other()) != [] ==> now <= t.stamps.At(r.Other())[0] + delay)
  }

  ghost predicate AllOnTime(t: Clocked, steps: seq<Step>, slack: nat, delay: nat)
    decreases |steps|
  {
    steps == [] || (OnTime(t, steps[0], slack, delay) && AllOnTime(Tick(t, steps[0]), steps[1..], slack, delay))
  }

  /** The stamps are those of what is in flight, none later than now, nor later than the
      crash of a sender that is down. */
  ghost predicate Stamped(t: Clocked, r: Role) {
    var q := t.stamps.At(r);
    && |q| == |t.pair.sent.At(r)|
    && (forall at :: at in q ==> at <= t.clock)
    && match t.pair.server.At(r)
       case Some(s) => s.sendAt <= t.clock + HEARTBEAT
       case None => forall at :: at in q ==> t.down.At(r).Some? && at <= t.down.At(r).value
  }

  /** To a passive server the next word of its active peer is under way since less than a
      heartbeat after the last one it heard, or due by then. */
  predicate Recent(t: Clocked, r: Role, slack: nat) {
    t.pair.In(r, Passive) ==>
      var q, x, expiry := t.stamps.At(r.Other()), t.pair.server.At(r.Other()), t.pair.server.At(r).value.peerExpiry;
      if q != [] && t.pair.sent.At(r.Other()) != [] then
        t.pair.sent.At(r.Other())[0] == Active ==> q[0] + HEARTBEAT <= expiry + slack
      else t.pair.In(r.Other(), Active) ==> x.value.sendAt + HEARTBEAT <= expiry
  }

  ghost predicate Kept(t: Clocked, slack: nat) {
    Inv(t.pair) && Stamped(t, P) && Stamped(t, B) && Recent(t, P, slack) && Recent(t, B, slack)
  }

  lemma FirstStamps(t: Clocked, r: Role)
    requires Stamped(t, r)
    ensures var q := t.stamps.At(r);
      && (q != [] ==> q[0] <= t.clock)
      && (q != [] && t.pair.server.At(r).None? ==> t.down.At(r).Some? && q[0] <= t.down.At(r).value)
      && (|q| > 1 ==> q[1] <= t.clock)
  {
    var q := t.stamps.At(r);
    assert (q != [] ==> q[0] in q) && (|q| > 1 ==> q[1] in q);
  }

  lemma TimelyIsInOrder(t: Clocked, e: Step, slack: nat, delay: nat)
    requires Kept(t, slack) && OnTime(t, e, slack, delay) && slack + delay < HEARTBEAT
    ensures InOrder(t.pair, e)
  {
    var r, q := e.r, t.pair.sent.At(e.r.Other());
    FirstStamps(t, r);
    FirstStamps(t, r.Other());
    if e.Request? && t.pair.In(r, Passive) && Active in q {
      assert t.pair.In(r.Other(), Active) ==> Only(q, Active);
      Inclusions(q);
      FirstWord(q, r.Other().Start());
    }
  }

  lemma CutLess<T>(q: seq<T>, i: nat)
    ensures forall x :: x in Cut(q, i) ==> x in q
    ensures |Cut(q, i)| == if i < |q| then |q| - 1 else |q|
  {
  }

  /** The stamps go with the states they are of. */
  lemma TickQueues(t: Clocked, e: Step, r: Role)
    requires |t.stamps.At(r)| == |t.pair.sent.At(r)|
    ensures |Tick(t, e).stamps.At(r)| == |Tick(t, e).pair.sent.At(r)|
    ensures forall at :: at in Tick(t, e).stamps.At(r) ==>
      at in t.stamps.At(r) || (at == e.now && Speaks(t.pair, e) && e.r == r)
  {
    CutLess(t.stamps.At(r), if e.Lose? then e.i else 0);
    CutLess(t.pair.sent.At(r), if e.Lose? then e.i else 0);
    hide Cut, Heard, Asked;
  }

  lemma TickServer(t: Clocked, e: Step, r: Role)
    requires Stamped(t, r) && e.now >= t.clock && (Inv(t.pair) && InOrder(t.pair, e))
    ensures match Tick(t, e).pair.server.At(r)
      case Some(s) => s.sendAt <= e.now + HEARTBEAT && (t.pair.server.At(r).None? ==> e.Restart? && e.r == r)
      case None =>
        if t.pair.server.At(r).None? then Tick(t, e).down.At(r) == t.down.At(r)
        else e.Crash? && Tick(t, e).down.At(r) == Some(e.now)
  {
    if e.Hear? && t.pair.server.At(e.r).Some? && t.pair.sent.At(e.r.Other()) != [] {
      HearingIsNotFatal(t.pair, e.r, e.now);
    }
    hide Inv, Fsm, Cut, InOrder;
  }

  lemma TickStamps(t: Clocked, e: Step, slack: nat, delay: nat, r: Role)
    requires Kept(t, slack) && OnTime(t, e, slack, delay) && InOrder(t.pair, e)
    ensures Stamped(Tick(t, e), r)
  {
    assert Stamped(t, r);
    TickQueues(t, e, r);
    TickServer(t, e, r);
    hide Tick, Inv, Recent, Prompt, InOrder;
  }

  /** Nobody becomes active next to a passive peer, except by a take-over. */
  lemma NoNewActive(w: Pair, e: Step, r: Role)
    requires Inv(w) && InOrder(w, e) && !(e.Hear? && e.r == r) && BinaryStar.Next(w, e).In(r, Passive)
    ensures w.In(r, Passive) && BinaryStar.Next(w, e).server.At(r).value.peerExpiry == w.server.At(r).value.peerExpiry
    ensures BinaryStar.Next(w, e).In(r.Other(), Active) ==> w.In(r.Other(), Active)
    ensures BinaryStar.Next(w, e).In(r.Other(), Active) && !(e.Timer? && e.r == r.Other()) ==>
      BinaryStar.Next(w, e).server.At(r.Other()).value.sendAt == w.server.At(r.Other()).value.sendAt
  {
    StepKeeps(w, e);
  }

  lemma HearRecent(t: Clocked, e: Step, slack: nat)
    requires Inv(t.pair) && Stamped(t, e.r.Other()) && Recent(t, e.r, slack) && e.Hear? && e.now >= t.clock
    ensures Recent(Tick(t, e), e.r, slack)
  {
    FirstStamps(t, e.r.Other());
    if t.pair.server.At(e.r).Some? && t.pair.sent.At(e.r.Other()) != [] {
      HearingIsNotFatal(t.pair, e.r, e.now);
    }
    hide Inv;
  }

  lemma OtherRecent(t: Clocked, e: Step, slack: nat, delay: nat, r: Role)
    requires Kept(t, slack) && OnTime(t, e, slack, delay) && InOrder(t.pair, e) && !(e.Hear? && e.r == r)
    ensures Recent(Tick(t, e), r, slack)
  {
    if Tick(t, e).pair.In(r, Passive) {
      NoNewActive(t.pair, e, r);
    }
    hide Inv, Stamped, Cut, Fsm, InOrder;
  }

  lemma TickRecent(t: Clocked, e: Step, slack: nat, delay: nat, r: Role)
    requires Kept(t, slack) && OnTime(t, e, slack, delay) && InOrder(t.pair, e)
    ensures Recent(Tick(t, e), r, slack)
  {
    if e.Hear? && e.r == r {
      hide Tick, Recent, Inv, Stamped;
      HearRecent(t, e, slack);
    } else {
      hide *;
      OtherRecent(t, e, slack, delay, r);
    }
  }

  /** Timely runs are runs in order. */
  lemma {:induction false} TimelyRun(t: Clocked, steps: seq<Step>, slack: nat, delay: nat)
    requires Kept(t, slack) && AllOnTime(t, steps, slack, delay) && slack + delay < HEARTBEAT
    ensures AllInOrder(t.pair, steps)
    decreases |steps|
  {
    if steps != [] {
      var e := steps[0];
      hide Kept, OnTime, InOrder;
      TimelyIsInOrder(t, e, slack, delay);
      TickKeeps(t, e, slack, delay);
      assert Tick(t, e).pair == BinaryStar.Next(t.pair, e);
      hide Tick;
      TimelyRun(Tick(t, e), steps[1..], slack, delay);
    }
  }

  lemma TickKeeps(t: Clocked, e: Step, slack: nat, delay: nat)
    requires Kept(t, slack) && OnTime(t, e, slack, delay) && InOrder(t.pair, e)
    ensures Kept(Tick(t, e), slack)
  {
    hide Inv, Stamped, Recent, OnTime, InOrder;
    StepKeeps(t.pair, e);
    TickStamps(t, e, slack, delay, P);
    TickStamps(t, e, slack, delay, B);
    TickRecent(t, e, slack, delay, P);
    TickRecent(t, e, slack, delay, B);
  }

  /** If servers speak at most `slack` late and hear within `delay`, which together come to
      less than a heartbeat, the pair is safe in every run, and nothing heard is fatal. */
  lemma {:induction false} TimelyPairIsSafe(steps: seq<Step>, slack: nat, delay: nat)
    requires AllOnTime(MIDNIGHT, steps, slack, delay) && slack + delay < HEARTBEAT
    ensures AllInOrder(DARK, steps) && Safe(Run(DARK, steps))
  {
    assert Kept(MIDNIGHT, slack);
    TimelyRun(MIDNIGHT, steps, slack, delay);
    PairIsSafe(steps);
  }

  function Later(t: Clocked, steps: seq<Step>): Clocked
    decreases |steps|
  {
    if steps == [] then t else Later(Tick(t, steps[0]), steps[1..])
  }

  lemma {:induction false} LaterIsRun(t: Clocked, steps: seq<Step>)
    ensures Later(t, steps).pair == Run(t.pair, steps)
    decreases |steps|
  {
    if steps != [] {
      LaterIsRun(Tick(t, steps[0]), steps[1..]);
    }
  }

  lemma {:induction false} OneMore(t: Clocked, steps: seq<Step>, e: Step, slack: nat, delay: nat)
    ensures Later(t, steps + [e]) == Tick(Later(t, steps), e)
    ensures AllOnTime(t, steps, slack, delay) && OnTime(Later(t, steps), e, slack, delay) ==>
      AllOnTime(t, steps + [e], slack, delay)
    decreases |steps|
  {
    hide OnTime, Tick;
    if steps == [] {
      assert [] + [e] == [e] && [e][1..] == [];
    } else {
      assert (steps + [e])[1..] == steps[1..] + [e];
      OneMore(Tick(t, steps[0]), steps[1..], e, slack, delay);
    }
  }

  /** The steps lead, on time, to g. */
  ghost predicate Leads(steps: seq<Step>, g: Clocked, slack: nat, delay: nat) {
    AllOnTime(MIDNIGHT, steps, slack, delay) && Later(MIDNIGHT, steps) == g
  }

  lemma Then(steps: seq<Step>, t: Clocked, e: Step, g: Clocked, slack: nat, delay: nat)
    requires Leads(steps, t, slack, delay) && OnTime(t, e, slack, delay) && Tick(t, e) == g
    ensures Leads(steps + [e], g, slack, delay)
  {
    OneMore(MIDNIGHT, steps, e, slack, delay);
    hide OnTime, Tick, AllOnTime, Later;
  }

  lemma Nothing(slack: nat, delay: nat)
    ensures Leads([], MIDNIGHT, slack, delay)
  {
  }

  /** The stages of two runs, by what the servers are and what is in flight. */
  function Stage(p: Server, b: Server, fromP: seq<State>, fromB: seq<State>, stampsP: seq<nat>, stampsB: seq<nat>,
                 now: nat): Clocked {
    Clocked(Pair(Both(Some(p), Some(b)), Both(fromP, fromB)), Both(stampsP, stampsB), Both(None, None), now)
  }

  /** The primary is active, and its word of it is under way to the pending backup. */
  const MET: Clocked := Stage(Server(Active, 3000, 2000), Server(Backup, 0, 2000), [Active], [], [1000], [], 1000)

  lemma HandShake(slack: nat, delay: nat) returns (steps: seq<Step>)
    ensures Leads(steps, MET, slack, delay)
  {
    var p, b := Server(Primary, 0, 1000), Server(Backup, 0, 1000);
    var alone := Clocked(Pair(Both(Some(p), None), Both([], [])), Both([], []), Both(None, None), 0);
    var up, said := Stage(p, b, [], [], [], [], 0), Stage(p, Spoken(b, 1000), [], [Backup], [], [1000], 1000);
    var heard := Stage(Server(Active, 3000, 1000), Spoken(b, 1000), [], [], [], [], 1000);
    assert [] + [1000] == [1000] && [1000][1..] == [] && [] + [Backup] == [Backup] && [Backup][1..] == [];
    assert [] + [Active] == [Active];
    hide Leads, AllOnTime, Later;
    Nothing(slack, delay);
    Then([], MIDNIGHT, Restart(P, 0), alone, slack, delay);
    steps := [] + [Restart(P, 0)];
    Then(steps, alone, Restart(B, 0), up, slack, delay);
    steps := steps + [Restart(B, 0)];
    Then(steps, up, Timer(B, 1000), said, slack, delay);
    steps := steps + [Timer(B, 1000)];
    Then(steps, said, Hear(P, 1000), heard, slack, delay);
    steps := steps + [Hear(P, 1000)];
    Then(steps, heard, Timer(P, 1000), MET, slack, delay);
    steps := steps + [Timer(P, 1000)];
  }

  /** The backup has heard the primary at 1000, and takes it for dead from 3000 on. */
  const SETTLED: Clocked := Stage(Server(Active, 3000, 2000), Server(Passive, 3000, 2000), [], [], [], [], 1000)

  lemma Settles(slack: nat, delay: nat) returns (steps: seq<Step>)
    ensures Leads(steps, SETTLED, slack, delay)
  {
    steps := HandShake(slack, delay);
    assert [Active][1..] == [] && [1000][1..] == [];
    hide Leads;
    Then(steps, MET, Hear(B, 1000), SETTLED, slack, delay);
    steps := steps + [Hear(B, 1000)];
  }

  lemma BackupSpeaks(slack: nat, delay: nat) returns (steps: seq<Step>, t: Clocked)
    ensures t == Stage(Server(Active, 4000, 2000), Server(Passive, 3000, 3000), [], [], [], [], 2000)
    ensures Leads(steps, t, slack, delay)
  {
    steps := Settles(slack, delay);
    var said := Stage(Server(Active, 3000, 2000), Server(Passive, 3000, 3000), [], [Passive], [], [2000], 2000);
    t := Stage(Server(Active, 4000, 2000), Server(Passive, 3000, 3000), [], [], [], [], 2000);
    assert [] + [2000] == [2000] && [2000][1..] == [] && [] + [Passive] == [Passive] && [Passive][1..] == [];
    hide Leads;
    Then(steps, SETTLED, Timer(B, 2000), said, slack, delay);
    steps := steps + [Timer(B, 2000)];
    Then(steps, said, Hear(P, 2000), t, slack, delay);
    steps := steps + [Hear(P, 2000)];
  }

  /** With less than a heartbeat of slack: the backup speaks in time and is heard, the primary
      speaks as late as it may, and its word is under way as long as it may be. */
  lemma Lingers(slack: nat, delay: nat) returns (steps: seq<Step>, t: Clocked)
    requires slack < HEARTBEAT
    ensures var at := 2000 + slack;
      t == Stage(Server(Active, 4000, at + HEARTBEAT), Server(Passive, 3000, 3000), [Active], [], [at], [], at)
    ensures Leads(steps, t, slack, delay)
  {
    var heard;
    steps, heard := BackupSpeaks(slack, delay);
    var at := 2000 + slack;
    t := Stage(Server(Active, 4000, at + HEARTBEAT), Server(Passive, 3000, 3000), [Active], [], [at], [], at);
    assert [] + [Active] == [Active] && [] + [at] == [at];
    hide Leads;
    Then(steps, heard, Timer(P, at), t, slack, delay);
    steps := steps + [Timer(P, at)];
  }

  lemma TakesOver(t: Clocked, slack: nat, delay: nat)
    requires OnTime(t, Request(B, 3000), slack, delay) && t.pair.In(P, Active) && t.pair.In(B, Passive)
    requires t.pair.server.b.value.peerExpiry == 3000
    ensures Tick(t, Request(B, 3000)).pair.In(P, Active) && Tick(t, Request(B, 3000)).pair.In(B, Active)
  {
  }

  /** A whole heartbeat of slack and delay is too much: a primary that is that slow to speak,
      or to be heard, and a client of the backup just before, make two active servers. */
  lemma {:induction false} SlowPeerMakesTwoActive(slack: nat, delay: nat) returns (steps: seq<Step>)
    requires slack + delay >= HEARTBEAT
    ensures AllOnTime(MIDNIGHT, steps, slack, delay)
    ensures Run(DARK, steps).In(P, Active) && Run(DARK, steps).In(B, Active)
  {
    var t := SETTLED;
    if slack < HEARTBEAT {
      steps, t := Lingers(slack, delay);
    } else {
      steps := Settles(slack, delay);
    }
    TakesOver(t, slack, delay);
    Then(steps, t, Request(B, 3000), Tick(t, Request(B, 3000)), slack, delay);
    steps := steps + [Request(B, 3000)];
    LaterIsRun(MIDNIGHT, steps);
  }

  /** Timely runs are safe if and only if slack and delay come to less than a heartbeat. */
  lemma {:induction false} TimelyIsSafeWhen(slack: nat, delay: nat)
    ensures (forall steps :: AllOnTime(MIDNIGHT, steps, slack, delay) ==> Safe(Run(DARK, steps))) <==>
      slack + delay < HEARTBEAT
  {
    hide AllOnTime, Run;
    if slack + delay < HEARTBEAT {
      forall steps | AllOnTime(MIDNIGHT, steps, slack, delay)
        ensures Safe(Run(DARK, steps))
      {
        TimelyPairIsSafe(steps, slack, delay);
      }
    } else {
      var steps := SlowPeerMakesTwoActive(slack, delay);
      assert !Safe(Run(DARK, steps));
    }
  }

  /** A primary that restarts while its former word of being active is still under way to
      the pending backup: without any client the two can both become active. */
  lemma {:induction false} StaleWordMakesTwoActive() returns (steps: seq<Step>, more: seq<Step>)
    ensures AllInOrder(DARK, steps) && !InOrder(Run(DARK, steps), Restart(P, 1001))
    ensures var w := Run(DARK, steps + [Restart(P, 1001)] + more); w.In(P, Active) && w.In(B, Active)
    ensures forall e :: e in more ==> e.Timer? || e.Hear?
  {
    steps := HandShake(0, 0);
    Then(steps, MET, Crash(P, 1000), Tick(MET, Crash(P, 1000)), 0, 0);
    steps := steps + [Crash(P, 1000)];
    LaterIsRun(MIDNIGHT, steps);
    var w := Run(DARK, steps);
    assert Kept(MIDNIGHT, 0);
    TimelyRun(MIDNIGHT, steps, 0, 0);
    RunKeepsInv(DARK, steps);
    Stale(w);
    hide Run, AllInOrder, InOrder, Leads, Tick;
    more := RestartOutOfOrder(w, 1001);
    OneRestart(w, steps, more);
  }

  lemma Stale(w: Pair)
    requires w == Tick(MET, Crash(P, 1000)).pair
    ensures !InOrder(w, Restart(P, 1001))
  {
    assert Active in [Active];
  }

  lemma OneRestart(w: Pair, steps: seq<Step>, more: seq<Step>)
    requires w == Run(DARK, steps)
    ensures Run(DARK, steps + [Restart(P, 1001)] + more) == Run(BinaryStar.Next(w, Restart(P, 1001)), more)
  {
    RunConcat(DARK, steps, [Restart(P, 1001)]);
    RunConcat(DARK, steps + [Restart(P, 1001)], more);
    assert [Restart(P, 1001)][1..] == [];
  }
}
