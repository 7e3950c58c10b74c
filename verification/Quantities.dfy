/** What the counters of a run add up to: a concurrent update survives a removal, and
    without removals every quantity is accounted for by the writes that were made. */
module Quantities {
  import opened Order
  import opened Contexts
  import opened Counters
  import opened States
  import opened Replication

  /** The dots of one version that another context has not seen. */
  ghost function Unseen(values: Values, c: Ctx): Values {
    map d | d in values && !c.Contains(d) :: values[d]
  }

  lemma MergeWithEmpty(values: Values, c: Ctx, seen: Ctx)
    ensures KernelJoin(map[], seen, values, c) == Unseen(values, seen)
    ensures KernelJoin(values, c, map[], seen) == Unseen(values, seen)
  {
  }

  lemma MergeWithRemoved(sa: State, written: State, k: string)
    ensures Join(Drop(sa, k), written).At(k) == Unseen(written.At(k), sa.ctx)
    ensures Join(written, Drop(sa, k)).At(k) == Unseen(written.At(k), sa.ctx)
  {
    hide Join, KernelJoin;
    JoinAt(Drop(sa, k), written, k);
    JoinAt(written, Drop(sa, k), k);
    assert Drop(sa, k).At(k) == map[];
    MergeWithEmpty(written.At(k), written.ctx, sa.ctx);
  }

  lemma WriterSurvives(sa: State, sb: State, log: Log, b: string, k: string, delta: int)
    requires Fits(sa, log) && Fits(sb, log) && Known(sa, b) <= Known(sb, b)
    ensures var kept := Unseen(Edit(sb, k, b, delta).At(k), sa.ctx);
      && sb.ctx.Next(b) in kept
      && Contribution(kept, b) == Max(0, Contribution(sb.At(k), b)) + delta
  {
    var newest, values := sb.ctx.Next(b), sb.At(k);
    AtMostOne(sb, log, k, b);
    NextNotSeen(sa, sb, log, k, b);
    hide Fits, Known;
    SoleDot(values, b);
    EditAt(sb, k, b, delta, k);
    hide Edit;
    WrittenOnce(values, sb.ctx, sa.ctx, b, delta);
  }

  lemma AtMostOne(s: State, log: Log, k: string, r: string)
    requires Fits(s, log)
    ensures forall d, e :: d in OwnDots(s.At(k), r) && e in OwnDots(s.At(k), r) ==> d == e
  {
    hide Fits;
    forall d, e | d in OwnDots(s.At(k), r) && e in OwnDots(s.At(k), r)
      ensures d == e
    {
      OnePerReplica(s, log, k, d, e);
    }
  }

  lemma NextNotSeen(sa: State, sb: State, log: Log, k: string, b: string)
    requires Fits(sa, log) && Fits(sb, log) && Known(sa, b) <= Known(sb, b)
    ensures !sa.ctx.Contains(sb.ctx.Next(b)) && sb.ctx.Next(b) !in sb.At(k)
  {
    if sb.ctx.Next(b) in sb.At(k) {
      LiveIsLatest(sb, log, k, sb.ctx.Next(b));
    }
  }

  /** Of b's dots only the new one is left, which the other context has not seen. */
  lemma WrittenOnce(values: Values, c: Ctx, seen: Ctx, b: string, delta: int)
    requires c.Next(b) !in values && !seen.Contains(c.Next(b))
    ensures var kept := Unseen(Update(values, c, b, delta), seen);
      c.Next(b) in kept && Contribution(kept, b) == Peak(values, b) + delta
  {
    hide Peak;
    var kept := Unseen(Update(values, c, b, delta), seen);
    assert OwnDots(kept, b) == {c.Next(b)};
    SoleDot(kept, b);
  }

  /** Add wins: when a removes an item while b writes to it, the merge holds exactly the dots
      of b's version that a had not seen, among them b's new one, worth max(0, what b had
      contributed) changed by the amount. */
  lemma {:induction false} AddWins(ids: set<string>, es: seq<Event>, a: string, b: string, sa: State, sb: State, op: Op)
    requires a in After(ids, es).local && b in After(ids, es).local && a != b
    requires sa == After(ids, es).local[a] && sb == After(ids, es).local[b]
    requires sa.Quantity(op.item) > 0 && op.Edits(sb)
    ensures var removed, written := Remove(op.item).Apply(sa, a), op.Apply(sb, b);
      && Join(removed, written).At(op.item) == Unseen(written.At(op.item), sa.ctx)
      && Join(written, removed).At(op.item) == Unseen(written.At(op.item), sa.ctx)
      && sb.ctx.Next(b) in Unseen(written.At(op.item), sa.ctx)
      && Contribution(Unseen(written.At(op.item), sa.ctx), b) == Max(0, Contribution(sb.At(op.item), b)) + op.Delta()
  {
    hide *;
    NetKnowledge(ids, es, a, b);
    var written := op.Apply(sb, b);
    AppliedOps(sa, sb, op, a, b);
    MergeWithRemoved(sa, written, op.item);
    WriterSurvives(sa, sb, After(ids, es).log, b, op.item, op.Delta());
  }

  lemma AppliedOps(sa: State, sb: State, op: Op, a: string, b: string)
    requires sa.Quantity(op.item) > 0 && op.Edits(sb)
    ensures op.Apply(sb, b) == Edit(sb, op.item, b, op.Delta()) && Remove(op.item).Apply(sa, a) == Drop(sa, op.item)
  {
    hide Edit, Drop, State.Quantity;
  }

  /** No replica knows more of b's writes than b does. */
  lemma NetKnowledge(ids: set<string>, es: seq<Event>, a: string, b: string)
    requires a in After(ids, es).local && b in After(ids, es).local
    ensures var n := After(ids, es);
      Fits(n.local[a], n.log) && Fits(n.local[b], n.log) && Known(n.local[a], b) <= Known(n.local[b], b)
  {
    RunKeepsInv(ids, es);
    hide After;
  }

  ghost function SumOver(rs: set<string>, f: string -> int): int {
    if rs == {} then 0
    else
      var r :| r in rs;
      f(r) + SumOver(rs - {r}, f)
  }

  lemma {:induction false} SumOverEqual(rs: set<string>, f: string -> int, g: string -> int)
    requires forall r :: r in rs ==> f(r) == g(r)
    ensures SumOver(rs, f) == SumOver(rs, g)
  {
    if rs != {} {
      var r :| r in rs && SumOver(rs, f) == f(r) + SumOver(rs - {r}, f);
      SumOverTake(rs, g, r);
      SumOverEqual(rs - {r}, f, g);
    }
  }

  lemma {:induction false} SumOverTake(rs: set<string>, f: string -> int, r: string)
    requires r in rs
    ensures SumOver(rs, f) == f(r) + SumOver(rs - {r}, f)
    decreases |rs|
  {
    var q :| q in rs && SumOver(rs, f) == f(q) + SumOver(rs - {q}, f);
    if q != r {
      SumOverTake(rs - {q}, f, r);
      SumOverTake(rs - {r}, f, q);
      assert rs - {q} - {r} == rs - {r} - {q};
    }
  }

  lemma {:induction false} SumOverLeq(rs: set<string>, f: string -> int, g: string -> int)
    requires forall r :: r in rs ==> f(r) <= g(r)
    ensures SumOver(rs, f) <= SumOver(rs, g)
    ensures SumOver(rs, f) == SumOver(rs, g) <==> forall r :: r in rs ==> f(r) == g(r)
  {
    if rs != {} {
      var r :| r in rs && SumOver(rs, f) == f(r) + SumOver(rs - {r}, f);
      SumOverTake(rs, g, r);
      SumOverLeq(rs - {r}, f, g);
    }
  }

  /** The total of a counter is the sum of the replicas' contributions. */
  lemma {:induction false} SumByReplica(values: Values, rs: set<string>)
    requires forall d :: d in values ==> d.id in rs
    ensures Sum(values) == SumOver(rs, r => Contribution(values, r))
    decreases |rs|
  {
    var f := r => Contribution(values, r);
    if rs == {} {
      assert values == map[];
    } else {
      var r :| r in rs && SumOver(rs, f) == f(r) + SumOver(rs - {r}, f);
      var rest := values - OwnDots(values, r);
      SumByReplica(rest, rs - {r});
      SumSplit(values, OwnDots(values, r));
      var g := q => Contribution(rest, q);
      forall q | q in rs - {r}
        ensures f(q) == g(q)
      {
        assert OwnDots(rest, q) == OwnDots(values, q);
        SumSame(rest, values, OwnDots(rest, q));
      }
      SumOverEqual(rs - {r}, f, g);
    }
  }

  lemma {:induction false} SumSplit(values: Values, part: set<Dot>)
    requires part <= values.Keys
    ensures Sum(values) == Sum(map d | d in part :: values[d]) + Sum(values - part)
    decreases |part|
  {
    if part == {} {
      assert values - part == values;
      assert (map d | d in part :: values[d]) == map[];
    } else {
      var d :| d in part;
      SumSplit(values, part - {d});
      SumRemove(map e | e in part :: values[e], d);
      assert (map e | e in part :: values[e]) - {d} == map e | e in part - {d} :: values[e];
      SumRemove(values - (part - {d}), d);
      assert values - (part - {d}) - {d} == values - part;
    }
  }

  /** What a replica's writes leave at k: each one starts from the last, clamped at 0. */
  function FoldValue(ws: seq<Write>, k: string): int {
    if ws == [] then 0
    else
      var before, w := FoldValue(ws[..|ws| - 1], k), ws[|ws| - 1];
      if w.item == k then Max(0, before) + w.delta else before
  }

  function TotalDelta(ws: seq<Write>, k: string): int {
    if ws == [] then 0
    else TotalDelta(ws[..|ws| - 1], k) + if ws[|ws| - 1].item == k then ws[|ws| - 1].delta else 0
  }

  /** No write to k found a negative value to clamp. */
  ghost predicate NeverClamped(ws: seq<Write>, k: string) {
    forall i :: 0 <= i < |ws| && ws[i].item == k ==> FoldValue(ws[..i], k) >= 0
  }

  lemma {:induction false} ClampingOnlyAdds(ws: seq<Write>, k: string)
    ensures TotalDelta(ws, k) <= FoldValue(ws, k)
    ensures TotalDelta(ws, k) == FoldValue(ws, k) <==> NeverClamped(ws, k)
  {
    if ws != [] {
      var init := ws[..|ws| - 1];
      ClampingOnlyAdds(init, k);
      assert forall i :: 0 <= i < |init| ==> ws[..i] == init[..i] && ws[i] == init[i];
    }
  }

  /** The recorded values are those of the fold. */
  ghost predicate Recorded(log: Log) {
    forall r, i :: r in log && 0 <= i < |log[r]| ==>
      log[r][i].value == Max(0, FoldValue(log[r][..i], log[r][i].item)) + log[r][i].delta
  }

  /** Every latest known write is live: nothing was ever removed. */
  ghost predicate Kept(s: State, log: Log) {
    forall k, d :: Latest(s, log, k, d) ==> d in s.At(k)
  }

  /** The fold over a prefix is the value of the last write to k in it. */
  lemma {:induction false} FoldAtLast(log: Log, r: string, k: string, upTo: nat, m: nat)
    requires Recorded(log) && r in log && m < upTo <= |log[r]| && log[r][m].item == k
    requires forall i :: m < i < upTo ==> log[r][i].item != k
    ensures FoldValue(log[r][..upTo], k) == log[r][m].value
    decreases upTo
  {
    var ws := log[r][..upTo];
    assert ws[..upTo - 1] == log[r][..upTo - 1];
    if m < upTo - 1 {
      FoldAtLast(log, r, k, upTo - 1, m);
    }
  }

  lemma {:induction false} FoldWithout(ws: seq<Write>, k: string)
    requires forall i :: 0 <= i < |ws| ==> ws[i].item != k
    ensures FoldValue(ws, k) == 0
  {
    if ws != [] {
      FoldWithout(ws[..|ws| - 1], k);
    }
  }

  lemma {:induction false} LastWrite(ws: seq<Write>, k: string, upTo: nat) returns (m: int)
    requires upTo <= |ws|
    ensures m == -1 ==> forall i :: 0 <= i < upTo ==> ws[i].item != k
    ensures m != -1 ==> 0 <= m < upTo && ws[m].item == k && forall i :: m < i < upTo ==> ws[i].item != k
  {
    m := upTo - 1;
    while m >= 0 && ws[m].item != k
      invariant -1 <= m < upTo
      invariant forall i :: m < i < upTo ==> ws[i].item != k
    {
      m := m - 1;
    }
  }

  /** What a replica contributes to a state is the fold of its writes that the state knows. */
  lemma {:induction false} ContributionIsFold(s: State, log: Log, k: string, r: string)
    requires Fits(s, log) && Kept(s, log) && Recorded(log) && r in log
    ensures Known(s, r) <= |log[r]|
    ensures Contribution(s.At(k), r) == FoldValue(log[r][..Known(s, r)], k)
    ensures Peak(s.At(k), r) == Max(0, FoldValue(log[r][..Known(s, r)], k))
  {
    KnownIsLogged(s, log, r);
    var m := LastWrite(log[r], k, Known(s, r));
    forall d, e | d in OwnDots(s.At(k), r) && e in OwnDots(s.At(k), r)
      ensures d == e
    {
      OnePerReplica(s, log, k, d, e);
    }
    SoleDot(s.At(k), r);
    if m == -1 {
      forall d | d in s.At(k)
        ensures d.id != r
      {
        LiveIsLatest(s, log, k, d);
      }
      assert OwnDots(s.At(k), r) == {};
      FoldWithout(log[r][..Known(s, r)], k);
    } else {
      var d := Dot(r, m + 1);
      assert Latest(s, log, k, d);
      assert d in OwnDots(s.At(k), r) && Backed(s, log, k, d);
      FoldAtLast(log, r, k, Known(s, r), m);
    }
  }

  lemma LongerLogKept(s: State, log: Log, t: State, r: string, op: Op)
    requires Fits(s, log) && Kept(s, log) && r in log
    ensures Kept(s, Logged(log, t, r, op))
  {
    forall k, d | Latest(s, Logged(log, t, r, op), k, d)
      ensures d in s.At(k)
    {
      KnownIsLogged(s, log, d.id);
      assert forall i :: 0 <= i < |log[d.id]| ==> log[d.id][i] == Logged(log, t, r, op)[d.id][i];
      assert Latest(s, log, k, d);
    }
  }

  lemma EditRecorded(s: State, log: Log, r: string, op: Op)
    requires Fits(s, log) && Kept(s, log) && Recorded(log) && r in log && Known(s, r) == |log[r]|
    ensures Recorded(Logged(log, s, r, op))
  {
    ContributionIsFold(s, log, op.item, r);
    assert log[r][..Known(s, r)] == log[r];
    hide FoldValue, Peak, Fits, Kept, Known;
    var longer: Log := Logged(log, s, r, op);
    forall q: string, i: int | q in longer && 0 <= i < |longer[q]|
      ensures longer[q][i].value == Max(0, FoldValue(longer[q][..i], longer[q][i].item)) + longer[q][i].delta
    {
      if q in log && i < |log[q]| {
        assert longer[q][..i] == log[q][..i];
      } else {
        assert longer[q][..i] == log[r];
      }
    }
  }

  lemma EditKept(s: State, log: Log, r: string, op: Op)
    requires Fits(s, log) && Kept(s, log) && r in log && Known(s, r) == |log[r]|
    ensures Kept(Edit(s, op.item, r, op.Delta()), Logged(log, s, r, op))
  {
    var t, longer := Edit(s, op.item, r, op.Delta()), Logged(log, s, r, op);
    assert t.At(op.item) == Update(s.At(op.item), s.ctx, r, op.Delta());
    forall k, d | Latest(t, longer, k, d)
      ensures d in t.At(k)
    {
      if d != s.ctx.Next(r) {
        KnownIsLogged(s, log, d.id);
        assert d.id in log && Known(t, d.id) == if d.id == r then Known(s, r) + 1 else Known(s, d.id);
        assert forall i :: 0 <= i < |log[d.id]| ==> log[d.id][i] == longer[d.id][i];
        assert Latest(s, log, k, d);
        assert longer[r][Known(s, r)].item == op.item;
      }
    }
  }

  lemma JoinKept(a: State, b: State, log: Log)
    requires Fits(a, log) && Fits(b, log) && Kept(a, log) && Kept(b, log)
    ensures Kept(Join(a, b), log)
  {
    JoinKnown(a, b, log);
    hide Join, CtxJoin;
    forall k, d | Latest(Join(a, b), log, k, d)
      ensures d in Join(a, b).At(k)
    {
      JoinAt(a, b, k);
      if d.number <= Known(a, d.id) {
        assert Latest(a, log, k, d);
      }
      if d.number <= Known(b, d.id) {
        assert Latest(b, log, k, d);
      }
    }
  }

  ghost predicate Accounted(n: Net) {
    Recorded(n.log) && forall s :: InNet(n, s) ==> Kept(s, n.log)
  }

  predicate NoRemovals(es: seq<Event>) {
    forall e :: e in es ==> !(e.Do? && e.op.Remove?)
  }

  lemma {:induction false} DoAccounted(n: Net, r: string, op: Op)
    requires Inv(n) && Accounted(n) && Enabled(n, Do(r, op)) && !op.Remove?
    ensures Accounted(Step(n, Do(r, op)))
  {
    var s := n.local[r];
    if op.Edits(s) {
      hide Fits, Kept, Recorded, Edit, Logged, Known, Op.Edits;
      EditRecorded(s, n.log, r, op);
      EditKept(s, n.log, r, op);
      forall t | InNet(n, t)
        ensures Kept(t, Logged(n.log, s, r, op))
      {
        LongerLogKept(t, n.log, s, r, op);
      }
    }
  }

  lemma {:induction false} StepAccounted(n: Net, e: Event)
    requires Inv(n) && Accounted(n) && !(e.Do? && e.op.Remove?)
    ensures Accounted(Step(n, e))
  {
    hide Fits, Kept, Recorded, Join;
    if Enabled(n, e) {
      match e
      case Do(r, op) => DoAccounted(n, r, op);
      case Publish(_) =>
      case Merge(r, snapshot) => JoinKept(n.local[r], snapshot, n.log);
    }
  }

  lemma {:induction false} RunAccounted(ids: set<string>, es: seq<Event>)
    requires NoRemovals(es)
    ensures Accounted(After(ids, es)) && After(ids, es).log.Keys == ids
    decreases |es|
  {
    if es != [] {
      var before, e := es[..|es| - 1], es[|es| - 1];
      assert es == before + [e] && NoRemovals(before) && !(e.Do? && e.op.Remove?);
      hide *;
      RunAccounted(ids, before);
      RunKeepsInv(ids, before);
      AfterSnoc(ids, before, e);
      StepAccounted(After(ids, before), e);
      StepKeys(After(ids, before), e);
    }
  }

  lemma StepKeys(n: Net, e: Event)
    ensures Step(n, e).log.Keys == n.log.Keys
  {
    hide Op.Edits, Op.Apply, Join;
  }

  /** The writes of r that the state knows of. */
  function KnownWrites(s: State, log: Log, r: string): seq<Write> {
    if r in log && Known(s, r) <= |log[r]| then log[r][..Known(s, r)] else []
  }

  /** Conservation: in a run without removals any state reads, for each item, the sum over
      the replicas of the fold of those writes of each that it knows. That is at least the
      increases minus the decreases, and equal to them exactly when no known write started
      from a negative value. A state that knows all writes accounts for the whole log. */
  lemma {:induction false} QuantityIsFoldOfWrites(ids: set<string>, es: seq<Event>, n: Net, s: State, k: string)
    requires NoRemovals(es) && n == After(ids, es) && InNet(n, s)
    ensures s.Quantity(k) == SumOver(ids, r => FoldValue(KnownWrites(s, n.log, r), k))
    ensures s.Quantity(k) >= SumOver(ids, r => TotalDelta(KnownWrites(s, n.log, r), k))
    ensures s.Quantity(k) == SumOver(ids, r => TotalDelta(KnownWrites(s, n.log, r), k))
            <==> forall r :: r in ids ==> NeverClamped(KnownWrites(s, n.log, r), k)
    ensures forall r :: r in ids ==> r in n.log && (Known(s, r) == |n.log[r]| ==> KnownWrites(s, n.log, r) == n.log[r])
  {
    RunAccounted(ids, es);
    NetFits(ids, es, s);
    hide After;
    forall d | d in s.At(k)
      ensures d.id in ids
    {
      LiveIsLatest(s, n.log, k, d);
    }
    SumByReplica(s.At(k), ids);
    var f, g, h := r => Contribution(s.At(k), r), r => FoldValue(KnownWrites(s, n.log, r), k),
      r => TotalDelta(KnownWrites(s, n.log, r), k);
    forall r | r in ids
      ensures f(r) == g(r) && h(r) <= g(r) && (h(r) == g(r) <==> NeverClamped(KnownWrites(s, n.log, r), k))
    {
      ContributionIsFold(s, n.log, k, r);
      ClampingOnlyAdds(KnownWrites(s, n.log, r), k);
    }
    SumOverEqual(ids, f, g);
    SumOverLeq(ids, h, g);
  }

  /** What replica r asked for of item k in the run, increases less decreases, counted from the
      events that take place: creating what is not there, increasing or buying what is. */
  ghost function Wanted(ids: set<string>, es: seq<Event>, r: string, k: string): int {
    if es == [] then 0
    else
      var before, n := Wanted(ids, es[..|es| - 1], r, k), After(ids, es[..|es| - 1]);
      var there := r in n.local && n.local[r].Quantity(k) > 0;
      before + match es[|es| - 1]
        case Do(q, Create(item, amount)) => if r in ids && q == r && item == k && !there then amount else 0
        case Do(q, Increase(item, amount)) => if r in ids && q == r && item == k && there then amount else 0
        case Do(q, Buy(item, amount)) => if r in ids && q == r && item == k && there then -amount else 0
        case _ => 0
  }

  lemma AfterKeys(ids: set<string>, es: seq<Event>)
    ensures After(ids, es).local.Keys == ids && After(ids, es).log.Keys == ids
    decreases |es|
  {
    if es != [] {
      AfterKeys(ids, es[..|es| - 1]);
      AfterSnoc(ids, es[..|es| - 1], es[|es| - 1]);
      assert es == es[..|es| - 1] + [es[|es| - 1]];
      hide After, Op.Edits, Op.Apply, Join;
    }
  }

  /** One event adds its write, if any, to the log of the replica it happens at. */
  lemma StepLogs(n: Net, e: Event, r: string, k: string)
    requires n.local.Keys == n.log.Keys && r in n.log
    ensures r in Step(n, e).log && n.log[r] <= Step(n, e).log[r] && |Step(n, e).log[r]| <= |n.log[r]| + 1
    ensures var there := n.local[r].Quantity(k) > 0;
      TotalDelta(Step(n, e).log[r], k) == TotalDelta(n.log[r], k) + match e
        case Do(q, Create(item, amount)) => if q == r && item == k && !there then amount else 0
        case Do(q, Increase(item, amount)) => if q == r && item == k && there then amount else 0
        case Do(q, Buy(item, amount)) => if q == r && item == k && there then -amount else 0
        case _ => 0
  {
    hide Join, Edit, Drop, Peak, State.Quantity;
    if Enabled(n, e) && e.Do? && e.id == r && e.op.Edits(n.local[r]) {
      var w := Write(e.op.item, e.op.Delta(), Peak(n.local[r].At(e.op.item), r) + e.op.Delta());
      assert (n.log[r] + [w])[..|n.log[r]|] == n.log[r];
    }
  }

  /** The log counts what the events asked for. */
  lemma {:induction false} LogIsWanted(ids: set<string>, es: seq<Event>, r: string, k: string)
    requires r in ids
    ensures r in After(ids, es).log && TotalDelta(After(ids, es).log[r], k) == Wanted(ids, es, r, k)
    decreases |es|
  {
    hide After, Step, TotalDelta, State.Quantity;
    AfterKeys(ids, es);
    if es == [] {
      BeginsUnlogged(ids, r, k);
    } else {
      var before, e := es[..|es| - 1], es[|es| - 1];
      LogIsWanted(ids, before, r, k);
      AfterKeys(ids, before);
      AfterSnoc(ids, before, e);
      assert es == before + [e];
      StepLogs(After(ids, before), e, r, k);
    }
  }

  lemma BeginsUnlogged(ids: set<string>, r: string, k: string)
    requires r in ids
    ensures r in After(ids, []).log && TotalDelta(After(ids, []).log[r], k) == 0
  {
  }

  /** The writes of r that a state knows are those of r's events up to some point of the run. */
  lemma {:induction false} KnownIsWanted(ids: set<string>, es: seq<Event>, n: Net, s: State, r: string, k: string)
    returns (j: nat)
    requires n == After(ids, es) && InNet(n, s) && r in ids
    ensures j <= |es| && TotalDelta(KnownWrites(s, n.log, r), k) == Wanted(ids, es[..j], r, k)
    ensures r in n.log && (Known(s, r) == |n.log[r]| ==> j == |es|)
  {
    hide After, Wanted, TotalDelta, Fits, InNet;
    AfterKeys(ids, es);
    NetFits(ids, es, s);
    KnownIsLogged(s, n.log, r);
    j := LogReached(ids, es, r, Known(s, r));
    LogIsWanted(ids, es[..j], r, k);
  }

  lemma {:induction false} LogReached(ids: set<string>, es: seq<Event>, r: string, c: nat) returns (j: nat)
    requires r in ids && r in After(ids, es).log && c <= |After(ids, es).log[r]|
    ensures j <= |es| && r in After(ids, es[..j]).log && After(ids, es[..j]).log[r] == After(ids, es).log[r][..c]
    ensures c == |After(ids, es).log[r]| ==> j == |es|
    decreases |es|
  {
    j := |es|;
    assert es[..|es|] == es;
    if c < |After(ids, es).log[r]| {
      LogGrows(ids, es, r);
      hide After, Step;
      j := LogReached(ids, es[..|es| - 1], r, c);
      assert es[..j] == es[..|es| - 1][..j];
    }
  }

  lemma LogGrows(ids: set<string>, es: seq<Event>, r: string)
    requires r in ids && r in After(ids, es).log && After(ids, es).log[r] != []
    ensures es != [] && r in After(ids, es[..|es| - 1]).log
    ensures var before, after := After(ids, es[..|es| - 1]).log[r], After(ids, es).log[r];
      before <= after && |after| <= |before| + 1
  {
    assert es != [];
    var before, e := es[..|es| - 1], es[|es| - 1];
    AfterKeys(ids, before);
    AfterSnoc(ids, before, e);
    assert es == before + [e];
    hide After, Step;
    StepLogs(After(ids, before), e, r, "");
  }

  /** In a run without removals a state that knows all writes reads at least what was asked for:
      increases less decreases, as the events have them, and exactly that if and only if no
      write started from a negative value. */
  lemma {:induction false} QuantityIsWanted(ids: set<string>, es: seq<Event>, n: Net, s: State, k: string)
    requires NoRemovals(es) && n == After(ids, es) && InNet(n, s)
    requires forall r :: r in ids ==> r in n.log && Known(s, r) == |n.log[r]|
    ensures s.Quantity(k) >= SumOver(ids, r => Wanted(ids, es, r, k))
    ensures s.Quantity(k) == SumOver(ids, r => Wanted(ids, es, r, k))
            <==> forall r :: r in ids ==> NeverClamped(n.log[r], k)
  {
    QuantityIsFoldOfWrites(ids, es, n, s, k);
    hide After, Wanted, TotalDelta, InNet, State.Quantity, NeverClamped;
    forall r | r in ids
      ensures TotalDelta(KnownWrites(s, n.log, r), k) == Wanted(ids, es, r, k)
    {
      LogIsWanted(ids, es, r, k);
    }
    SumOverEqual(ids, r => TotalDelta(KnownWrites(s, n.log, r), k), r => Wanted(ids, es, r, k));
  }

  /** Replica A alone, its n-th write having left v of the one item. */
  function Solo(n: nat, v: int, ws: seq<Write>): Net {
    var s := if n == 0 then EMPTY_STATE else State(Ctx(map["A" := n], {}), map["milk" := map[Dot("A", n) := v]]);
    Net(map["A" := s], {}, map["A" := ws])
  }

  lemma SoloReads(n: nat, v: int, ws: seq<Write>)
    requires n == 0 ==> v == 0
    ensures Solo(n, v, ws).local["A"].Quantity("milk") == v
    ensures Peak(Solo(n, v, ws).local["A"].At("milk"), "A") == Max(0, v)
  {
    var values := Solo(n, v, ws).local["A"].At("milk");
    assert OwnDots(values, "A") == values.Keys;
    if n == 0 {
      assert values == map[];
    } else {
      SumAdd(map[], Dot("A", n), v);
      assert map[][Dot("A", n) := v] == values;
      assert Dot("A", n) in OwnDots(values, "A");
    }
  }

  lemma SoloWrites(n: nat, v: int, ws: seq<Write>, op: Op)
    requires (n == 0 ==> v == 0) && op.item == "milk" && op.Edits(Solo(n, v, ws).local["A"])
    ensures Step(Solo(n, v, ws), Do("A", op)) ==
      Solo(n + 1, Max(0, v) + op.Delta(), ws + [Write("milk", op.Delta(), Max(0, v) + op.Delta())])
  {
    SoloReads(n, v, ws);
    SoloEdit(n, v, ws, op.Delta());
    hide Peak, Op.Edits, Edit, State.At;
  }

  lemma SoloGoesOn(es: seq<Event>, n: nat, v: int, ws: seq<Write>, op: Op)
    requires After({"A"}, es) == Solo(n, v, ws) && (n == 0 ==> v == 0)
    requires op.item == "milk" && !op.Remove? && (op.Create? <==> v <= 0)
    ensures After({"A"}, es + [Do("A", op)]) ==
      Solo(n + 1, Max(0, v) + op.Delta(), ws + [Write("milk", op.Delta(), Max(0, v) + op.Delta())])
  {
    AfterSnoc({"A"}, es, Do("A", op));
    SoloReads(n, v, ws);
    assert op.Edits(Solo(n, v, ws).local["A"]);
    hide *;
    SoloWrites(n, v, ws, op);
  }

  lemma SoloEdit(n: nat, v: int, ws: seq<Write>, delta: int)
    requires n == 0 ==> v == 0
    ensures Edit(Solo(n, v, ws).local["A"], "milk", "A", delta) == Solo(n + 1, Max(0, v) + delta, ws).local["A"]
  {
    var s := Solo(n, v, ws).local["A"];
    SoloReads(n, v, ws);
    hide Peak;
    assert s.At("milk") - OwnDots(s.At("milk"), "A") == map[];
  }

  const OVERBOUGHT: seq<Event> := [Do("A", Create("milk", 1)), Do("A", Buy("milk", 3)), Do("A", Create("milk", 1))]

  /** Where clamping shows: 1 wanted, 3 bought, 1 wanted again, and the quantity is 1, not -1. */
  lemma {:induction false} OverboughtReadsHigh()
    ensures NoRemovals(OVERBOUGHT)
    ensures var n := After({"A"}, OVERBOUGHT);
      && "A" in n.local && "A" in n.log
      && n.local["A"].Quantity("milk") == 1 && TotalDelta(n.log["A"], "milk") == -1
  {
    OverboughtRun();
    OverboughtWrites();
    hide *;
    SoloReads(3, 1, OVERBOUGHT_WRITES);
    SoloHolds(3, 1, OVERBOUGHT_WRITES);
  }

  const OVERBOUGHT_WRITES: seq<Write> := [Write("milk", 1, 1), Write("milk", -3, -2), Write("milk", 1, 1)]

  lemma OverboughtWrites()
    ensures NoRemovals(OVERBOUGHT) && TotalDelta(OVERBOUGHT_WRITES, "milk") == -1
  {
    assert OVERBOUGHT_WRITES[..2][..1] == OVERBOUGHT_WRITES[..1] && OVERBOUGHT_WRITES[..1][..0] == [];
    assert TotalDelta(OVERBOUGHT_WRITES[..1], "milk") == 1;
    assert TotalDelta(OVERBOUGHT_WRITES[..2], "milk") == -2;
  }

  lemma SoloHolds(n: nat, v: int, ws: seq<Write>)
    ensures "A" in Solo(n, v, ws).local && "A" in Solo(n, v, ws).log && Solo(n, v, ws).log["A"] == ws
  {
  }

  lemma OverboughtRun()
    ensures After({"A"}, OVERBOUGHT) == Solo(3, 1, OVERBOUGHT_WRITES)
  {
    BoughtRun();
    assert OVERBOUGHT == OVERBOUGHT[..2] + [Do("A", Create("milk", 1))];
    assert OVERBOUGHT_WRITES == OVERBOUGHT_WRITES[..2] + [Write("milk", 1, 1)];
    hide After, Solo;
    SoloGoesOn(OVERBOUGHT[..2], 2, -2, OVERBOUGHT_WRITES[..2], Create("milk", 1));
  }

  lemma BoughtRun()
    ensures After({"A"}, OVERBOUGHT[..2]) == Solo(2, -2, OVERBOUGHT_WRITES[..2])
  {
    CreatedRun();
    assert OVERBOUGHT[..2] == OVERBOUGHT[..1] + [Do("A", Buy("milk", 3))];
    assert OVERBOUGHT_WRITES[..2] == OVERBOUGHT_WRITES[..1] + [Write("milk", -3, -2)];
    hide After, Solo;
    SoloGoesOn(OVERBOUGHT[..1], 1, 1, OVERBOUGHT_WRITES[..1], Buy("milk", 3));
  }

  lemma CreatedRun()
    ensures After({"A"}, OVERBOUGHT[..1]) == Solo(1, 1, OVERBOUGHT_WRITES[..1])
  {
    assert After({"A"}, []) == Init({"A"}) == Solo(0, 0, []);
    assert OVERBOUGHT[..1] == [] + [Do("A", Create("milk", 1))];
    assert OVERBOUGHT_WRITES[..1] == [] + [Write("milk", 1, 1)];
    hide After, Solo;
    SoloGoesOn([], 0, 0, [], Create("milk", 1));
  }
}
