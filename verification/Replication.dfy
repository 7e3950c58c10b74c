/** A network of replicas of one shopping list. Each replica edits its own state under its
    own id, publishes snapshots, and joins any snapshot ever published, in any order and any
    number of times. The log of writes is history: no step reads it. */
module Replication {
  import opened Order
  import opened Contexts
  import opened Counters
  import opened States

  /** What a user does to a list; the guards are those of ShoppingList. */
  datatype Op = Create(item: string, quantity: int) | Increase(item: string, quantity: int)
              | Buy(item: string, quantity: int) | Remove(item: string)
  {
    function Delta(): int {
      match this
      case Create(_, q) => q
      case Increase(_, q) => q
      case Buy(_, q) => -q
      case Remove(_) => 0
    }

    ghost predicate Edits(s: State) {
      match this
      case Create(k, _) => s.Quantity(k) <= 0
      case Increase(k, _) => s.Quantity(k) > 0
      case Buy(k, _) => s.Quantity(k) > 0
      case Remove(_) => false
    }

    ghost function Apply(s: State, id: string): State {
      if Edits(s) then Edit(s, item, id, Delta())
      else if Remove? && s.Quantity(item) > 0 then Drop(s, item)
      else s
    }
  }

  datatype Write = Write(item: string, delta: int, value: int)

  type Log = map<string, seq<Write>>

  datatype Event = Do(id: string, op: Op) | Publish(id: string) | Merge(id: string, snapshot: State)

  datatype Net = Net(local: map<string, State>, published: set<State>, log: Log)

  function Init(ids: set<string>): Net {
    Net(map r | r in ids :: EMPTY_STATE, {}, map r | r in ids :: [])
  }

  predicate Enabled(n: Net, e: Event) {
    e.id in n.local && e.id in n.log && (e.Merge? ==> e.snapshot in n.published)
  }

  /** One event; an event that is not enabled does not happen. */
  ghost function Step(n: Net, e: Event): Net {
    if !Enabled(n, e) then n
    else
      var s := n.local[e.id];
      match e
      case Do(r, op) =>
        Net(n.local[r := op.Apply(s, r)], n.published, if op.Edits(s) then Logged(n.log, s, r, op) else n.log)
      case Publish(_) => n.(published := n.published + {s})
      case Merge(r, snapshot) => n.(local := n.local[r := Join(s, snapshot)])
  }

  ghost function Logged(log: Log, s: State, r: string, op: Op): Log
    requires r in log
  {
    log[r := log[r] + [Write(op.item, op.Delta(), Peak(s.At(op.item), r) + op.Delta())]]
  }

  /** The network after any sequence of events. */
  ghost function After(ids: set<string>, es: seq<Event>): Net {
    if es == [] then Init(ids) else Step(After(ids, es[..|es| - 1]), es[|es| - 1])
  }

  lemma AfterSnoc(ids: set<string>, es: seq<Event>, e: Event)
    ensures After(ids, es + [e]) == Step(After(ids, es), e)
  {
    assert (es + [e])[..|es|] == es;
    hide Step;
  }

  ghost predicate InNet(n: Net, s: State) {
    s in n.published || s in n.local.Values
  }

  /** How many of r's writes the state has seen. */
  function Known(s: State, r: string): nat {
    if r in s.ctx.vc then s.ctx.vc[r] else 0
  }

  /** Dot d is the latest write to k by its replica that the state knows of. */
  ghost predicate Latest(s: State, log: Log, k: string, d: Dot) {
    && d.id in log && 1 <= d.number <= Known(s, d.id) <= |log[d.id]|
    && log[d.id][d.number - 1].item == k
    && forall m :: d.number <= m < Known(s, d.id) ==> log[d.id][m].item != k
  }

  /** A live dot is the latest write known, with the value that write left. */
  ghost predicate Backed(s: State, log: Log, k: string, d: Dot)
    requires d in s.At(k)
  {
    Latest(s, log, k, d) && s.At(k)[d] == log[d.id][d.number - 1].value
  }

  ghost predicate Fits(s: State, log: Log) {
    && s.ctx.dc == {}
    && (forall r :: r in s.ctx.vc ==> r in log && 1 <= s.ctx.vc[r] <= |log[r]|)
    && (forall k, d :: d in s.At(k) ==> Backed(s, log, k, d))
  }

  ghost predicate Inv(n: Net) {
    && n.log.Keys == n.local.Keys
    && (forall s :: s in n.published ==> Fits(s, n.log))
    && (forall r :: r in n.local ==> Fits(n.local[r], n.log) && Known(n.local[r], r) == |n.log[r]|)
  }

  lemma FitsIsSound(s: State, log: Log)
    requires Fits(s, log)
    ensures Sound(s)
  {
  }

  lemma FitsAgree(a: State, b: State, log: Log)
    requires Fits(a, log) && Fits(b, log)
    ensures Agree(a, b)
  {
    forall k, d | d in a.At(k) && d in b.At(k)
      ensures a.At(k)[d] == b.At(k)[d]
    {
      assert Backed(a, log, k, d) && Backed(b, log, k, d);
    }
  }

  lemma JoinKnown(a: State, b: State, log: Log)
    requires Fits(a, log) && Fits(b, log)
    ensures Join(a, b).ctx.dc == {}
    ensures forall r :: r in Join(a, b).ctx.vc ==> r in log && 1 <= Join(a, b).ctx.vc[r] <= |log[r]|
    ensures forall r :: Known(Join(a, b), r) == Max(Known(a, r), Known(b, r))
  {
    CloudFreeJoin(a.ctx, b.ctx);
  }

  /** A dot that survives a join is still the latest: a later write known to one side only
      would have been seen together with this dot, and so have removed it. */
  lemma JoinLatest(a: State, b: State, log: Log, k: string, d: Dot)
    requires Fits(a, log) && Fits(b, log) && d in Join(a, b).At(k)
    ensures Backed(Join(a, b), log, k, d)
  {
    hide Join, CtxJoin;
    JoinAt(a, b, k);
    JoinValues(a, b, k, d);
    JoinKnown(a, b, log);
    assert d in a.At(k) ==> Backed(a, log, k, d);
    assert d in b.At(k) ==> Backed(b, log, k, d);
  }

  lemma {:induction false} JoinFits(a: State, b: State, log: Log)
    requires Fits(a, log) && Fits(b, log)
    ensures Fits(Join(a, b), log)
  {
    hide Join, CtxJoin, KernelJoin, Backed;
    JoinKnown(a, b, log);
    forall k, d | d in Join(a, b).At(k)
      ensures Backed(Join(a, b), log, k, d)
    {
      JoinLatest(a, b, log, k, d);
    }
  }

  lemma {:induction false} EditFits(s: State, log: Log, r: string, op: Op)
    requires Fits(s, log) && r in log && Known(s, r) == |log[r]|
    ensures var t := Edit(s, op.item, r, op.Delta());
      Fits(t, Logged(log, s, r, op)) && Known(t, r) == |Logged(log, s, r, op)[r]|
  {
    var t, longer := Edit(s, op.item, r, op.Delta()), Logged(log, s, r, op);
    forall j, d | d in t.At(j)
      ensures Backed(t, longer, j, d)
    {
      if d in s.At(j) {
        assert Backed(s, log, j, d);
      }
    }
  }

  lemma LongerLogFits(s: State, log: Log, t: State, r: string, op: Op)
    requires Fits(s, log) && r in log
    ensures Fits(s, Logged(log, t, r, op))
  {
    forall k, d | d in s.At(k)
      ensures Backed(s, Logged(log, t, r, op), k, d)
    {
      assert Backed(s, log, k, d);
    }
  }

  lemma DropFits(s: State, log: Log, k: string)
    requires Fits(s, log)
    ensures Fits(Drop(s, k), log)
  {
    forall j, d | d in Drop(s, k).At(j)
      ensures Backed(Drop(s, k), log, j, d)
    {
      assert Backed(s, log, j, d);
    }
  }

  lemma ReplicaChanges(n: Net, r: string, t: State, log: Log)
    requires Inv(n) && r in n.local && log.Keys == n.log.Keys
    requires forall q :: q in n.log && q != r ==> log[q] == n.log[q]
    requires Fits(t, log) && Known(t, r) == |log[r]|
    requires forall s :: Fits(s, n.log) ==> Fits(s, log)
    ensures Inv(Net(n.local[r := t], n.published, log))
  {
    hide Fits, Known;
  }

  lemma {:induction false} DoKeepsInv(n: Net, r: string, op: Op)
    requires Inv(n) && Enabled(n, Do(r, op))
    ensures Inv(Step(n, Do(r, op)))
  {
    hide Fits, Edit, Drop, Op.Edits, Known;
    var s := n.local[r];
    if op.Edits(s) {
      EditFits(s, n.log, r, op);
      forall t | Fits(t, n.log)
        ensures Fits(t, Logged(n.log, s, r, op))
      {
        LongerLogFits(t, n.log, s, r, op);
      }
      ReplicaChanges(n, r, op.Apply(s, r), Logged(n.log, s, r, op));
    } else {
      DropFits(s, n.log, op.item);
      DropKnown(s, op.item, r);
      ReplicaChanges(n, r, op.Apply(s, r), n.log);
    }
  }

  lemma DropKnown(s: State, k: string, r: string)
    ensures Known(Drop(s, k), r) == Known(s, r)
  {
  }

  lemma {:induction false} MergeKeepsInv(n: Net, r: string, snapshot: State)
    requires Inv(n) && Enabled(n, Merge(r, snapshot))
    ensures Inv(Step(n, Merge(r, snapshot)))
  {
    hide Fits, Join, Known;
    JoinFits(n.local[r], snapshot, n.log);
    JoinKnown(n.local[r], snapshot, n.log);
    KnownIsLogged(snapshot, n.log, r);
    ReplicaChanges(n, r, Join(n.local[r], snapshot), n.log);
  }

  lemma PublishKeepsInv(n: Net, r: string)
    requires Inv(n) && Enabled(n, Publish(r))
    ensures Inv(Step(n, Publish(r)))
  {
    hide Fits, Known;
  }

  lemma {:induction false} StepKeepsInv(n: Net, e: Event)
    requires Inv(n)
    ensures Inv(Step(n, e))
  {
    if Enabled(n, e) {
      hide Inv, Step;
      match e
      case Do(r, op) => DoKeepsInv(n, r, op);
      case Publish(r) => PublishKeepsInv(n, r);
      case Merge(r, snapshot) => MergeKeepsInv(n, r, snapshot);
    }
  }

  lemma KnownIsLogged(s: State, log: Log, r: string)
    requires Fits(s, log) && r in log
    ensures Known(s, r) <= |log[r]|
  {
  }

  lemma {:induction false} RunKeepsInv(ids: set<string>, es: seq<Event>)
    ensures Inv(After(ids, es))
    decreases |es|
  {
    if es != [] {
      hide Inv, Step;
      RunKeepsInv(ids, es[..|es| - 1]);
      StepKeepsInv(After(ids, es[..|es| - 1]), es[|es| - 1]);
    }
  }

  lemma NetFits(ids: set<string>, es: seq<Event>, s: State)
    requires InNet(After(ids, es), s)
    ensures Fits(s, After(ids, es).log)
  {
    RunKeepsInv(ids, es);
    hide After, Fits;
  }

  /** In every state of every run a counter holds at most one live dot per replica, the
      replica's latest write to the item that the state knows; a dot has one item and one
      value wherever it is live. */
  lemma {:induction false} LiveDotsAreLatest(ids: set<string>, es: seq<Event>, s: State, t: State)
    requires InNet(After(ids, es), s) && InNet(After(ids, es), t)
    ensures forall k, d :: d in s.At(k) ==> s.ctx.Contains(d) && Latest(s, After(ids, es).log, k, d)
    ensures forall k, d, e :: d in s.At(k) && e in s.At(k) && d.id == e.id ==> d == e
    ensures forall k, j, d :: d in s.At(k) && d in t.At(j) ==> k == j && s.At(k)[d] == t.At(j)[d]
  {
    hide After, Fits, Latest, InNet;
    var n := After(ids, es);
    NetFits(ids, es, s);
    NetFits(ids, es, t);
    forall k, d | d in s.At(k)
      ensures s.ctx.Contains(d) && Latest(s, n.log, k, d)
    {
      LiveIsLatest(s, n.log, k, d);
    }
    forall k, d, e | d in s.At(k) && e in s.At(k) && d.id == e.id
      ensures d == e
    {
      OnePerReplica(s, n.log, k, d, e);
    }
    forall k, j, d | d in s.At(k) && d in t.At(j)
      ensures k == j && s.At(k)[d] == t.At(j)[d]
    {
      OneItemOneValue(s, t, n.log, k, j, d);
    }
  }

  lemma LiveIsLatest(s: State, log: Log, k: string, d: Dot)
    requires Fits(s, log) && d in s.At(k)
    ensures s.ctx.Contains(d) && Latest(s, log, k, d)
  {
    assert Backed(s, log, k, d);
  }

  lemma OnePerReplica(s: State, log: Log, k: string, d: Dot, e: Dot)
    requires Fits(s, log) && d in s.At(k) && e in s.At(k) && d.id == e.id
    ensures d == e
  {
    assert Backed(s, log, k, d) && Backed(s, log, k, e);
  }

  lemma OneItemOneValue(s: State, t: State, log: Log, k: string, j: string, d: Dot)
    requires Fits(s, log) && Fits(t, log) && d in s.At(k) && d in t.At(j)
    ensures k == j && s.At(k)[d] == t.At(j)[d]
  {
    assert Backed(s, log, k, d) && Backed(t, log, j, d);
  }

  /** No step takes a replica down in the order of states. */
  lemma {:induction false} StepInflates(ids: set<string>, es: seq<Event>, e: Event)
    ensures var before, after := After(ids, es), After(ids, es + [e]);
      && before.local.Keys == after.local.Keys && before.published <= after.published
      && forall r :: r in before.local ==> Leq(before.local[r], after.local[r])
  {
    RunKeepsInv(ids, es);
    AfterSnoc(ids, es, e);
    hide After, Inv, Step, Leq;
    OneStepInflates(After(ids, es), e);
  }

  lemma OneStepInflates(n: Net, e: Event)
    requires Inv(n)
    ensures Step(n, e).local.Keys == n.local.Keys && n.published <= Step(n, e).published
    ensures forall r :: r in n.local ==> Leq(n.local[r], Step(n, e).local[r])
  {
    hide Fits, Leq, Edit, Drop, Op.Edits, Join;
    forall s: State
      ensures Leq(s, s)
    {
      LeqReflexive(s);
    }
    if Enabled(n, e) {
      var s := n.local[e.id];
      assert Fits(s, n.log) && (e.Merge? ==> Fits(e.snapshot, n.log));
      hide Inv;
      FitsIsSound(s, n.log);
      CloudFree(s, n.log);
      match e
      case Do(r, op) =>
        EditInflates(s, op.item, r, op.Delta());
        DropInflates(s, op.item);
      case Publish(_) =>
      case Merge(r, snapshot) =>
        FitsIsSound(snapshot, n.log);
        JoinInflates(s, snapshot);
    }
  }

  lemma CloudFree(s: State, log: Log)
    requires Fits(s, log)
    ensures s.ctx.dc == {}
  {
  }

  lemma LeqReflexive(s: State)
    ensures Leq(s, s)
  {
  }

  lemma JoinInflates(a: State, b: State)
    requires Sound(a) && Sound(b)
    ensures Leq(a, Join(a, b)) && Leq(b, Join(a, b))
  {
    JoinIsMax(a, b);
  }

  /** Absorbing states one after the other, starting from nothing. */
  ghost function Fold(ss: seq<State>): State {
    if ss == [] then EMPTY_STATE else Join(Fold(ss[..|ss| - 1]), ss[|ss| - 1])
  }

  lemma {:induction false} FoldFits(ss: seq<State>, log: Log)
    requires forall s :: s in ss ==> Fits(s, log)
    ensures Fits(Fold(ss), log)
  {
    if ss != [] {
      hide Fits, Join;
      FoldFits(ss[..|ss| - 1], log);
      JoinFits(Fold(ss[..|ss| - 1]), ss[|ss| - 1], log);
    }
  }

  /** The fold has seen a dot, or has an entry, exactly if one of the states has. */
  lemma {:induction false} FoldIsUnion(ss: seq<State>)
    ensures forall d :: Fold(ss).ctx.Contains(d) <==> exists s :: s in ss && s.ctx.Contains(d)
    ensures forall k :: k in Fold(ss).live <==> exists s :: s in ss && k in s.live
  {
    if ss != [] {
      var init, last := ss[..|ss| - 1], ss[|ss| - 1];
      assert forall s :: s in ss <==> s in init || s == last;
      FoldIsUnion(init);
      CtxJoinContains(Fold(init).ctx, last.ctx);
    }
  }

  /** Each dot stands in the fold where it stands furthest among the states. */
  lemma {:induction false} FoldIsMax(ss: seq<State>, log: Log, k: string, d: Dot)
    requires forall s :: s in ss ==> Fits(s, log)
    ensures forall s :: s in ss ==> RankIn(s, k, d) <= RankIn(Fold(ss), k, d)
    ensures RankIn(Fold(ss), k, d) == 0 || exists s :: s in ss && RankIn(s, k, d) == RankIn(Fold(ss), k, d)
  {
    if ss != [] {
      var init, last := ss[..|ss| - 1], ss[|ss| - 1];
      assert Fold(ss) == Join(Fold(init), last);
      assert forall s :: s in ss <==> s in init || s == last;
      hide Fits, Join, RankIn, Fold;
      FoldIsMax(init, log, k, d);
      FoldRank(init, last, log, k, d);
    }
  }

  lemma FoldRank(ss: seq<State>, s: State, log: Log, k: string, d: Dot)
    requires (forall t :: t in ss ==> Fits(t, log)) && Fits(s, log)
    ensures RankIn(Join(Fold(ss), s), k, d) == Max(RankIn(Fold(ss), k, d), RankIn(s, k, d))
  {
    hide Fits, Join, RankIn, Sound, Fold;
    FoldFits(ss, log);
    FitsIsSound(Fold(ss), log);
    FitsIsSound(s, log);
    JoinIsMax(Fold(ss), s);
  }

  /** Convergence: two sequences drawn from one run, with the same states in any order and
      multiplicity, fold to the same state, entries and all. */
  lemma {:induction false} Convergence(ids: set<string>, es: seq<Event>, ss: seq<State>, ts: seq<State>)
    requires forall s :: s in ss ==> InNet(After(ids, es), s)
    requires forall s :: s in ss <==> s in ts
    ensures Fold(ss) == Fold(ts)
  {
    var n := After(ids, es);
    RunKeepsInv(ids, es);
    hide After, RankIn, Fold, Fits;
    FoldFits(ss, n.log);
    FoldFits(ts, n.log);
    FitsIsSound(Fold(ss), n.log);
    FitsIsSound(Fold(ts), n.log);
    FitsAgree(Fold(ss), Fold(ts), n.log);
    FoldIsUnion(ss);
    FoldIsUnion(ts);
    forall k, d
      ensures RankIn(Fold(ss), k, d) == RankIn(Fold(ts), k, d)
    {
      FoldIsMax(ss, n.log, k, d);
      FoldIsMax(ts, n.log, k, d);
    }
    Extensional(Fold(ss), Fold(ts));
  }
}
