/** Runs with removals. Every state is traced together with the removals in its causal past;
    the traces are history, and forgetting them gives the network of module Replication. */
module Histories {
  import opened Order
  import opened Contexts
  import opened States
  import opened Replication

  /** A removal of an item, and what the remover had seen by then. */
  datatype Removal = Removal(item: string, seen: Ctx)

  datatype Trace = Trace(state: State, removals: set<Removal>)

  /** `learned` has, beside each write, the removals its writer knew of when it was made. */
  datatype History = History(local: map<string, Trace>, published: set<Trace>, log: Log,
                             learned: map<string, seq<set<Removal>>>)

  datatype Move = Act(id: string, op: Op) | Share(id: string) | Take(id: string, trace: Trace)

  function Begin(ids: set<string>): History {
    History(map r | r in ids :: Trace(EMPTY_STATE, {}), {}, map r | r in ids :: [], map r | r in ids :: [])
  }

  predicate Possible(h: History, m: Move) {
    m.id in h.local && m.id in h.log && m.id in h.learned && (m.Take? ==> m.trace in h.published)
  }

  ghost function Moved(h: History, m: Move): History {
    if !Possible(h, m) then h
    else
      var t := h.local[m.id];
      match m
      case Act(r, op) =>
        h.(local := h.local[r := Trace(op.Apply(t.state, r), t.removals + Removes(t.state, op))],
           log := if op.Edits(t.state) then Logged(h.log, t.state, r, op) else h.log,
           learned := if op.Edits(t.state) then h.learned[r := h.learned[r] + [t.removals]] else h.learned)
      case Share(r) => h.(published := h.published + {t})
      case Take(r, trace) => h.(local := h.local[r := Trace(Join(t.state, trace.state), t.removals + trace.removals)])
  }

  ghost function Removes(s: State, op: Op): set<Removal> {
    if op.Remove? && s.Quantity(op.item) > 0 then {Removal(op.item, s.ctx)} else {}
  }

  ghost function Past(ids: set<string>, ms: seq<Move>): History {
    if ms == [] then Begin(ids) else Moved(Past(ids, ms[..|ms| - 1]), ms[|ms| - 1])
  }

  /** The network without its history. */
  function Forget(h: History): Net {
    Net(map r | r in h.local :: h.local[r].state, set t | t in h.published :: t.state, h.log)
  }

  function Erased(m: Move): Event {
    match m
    case Act(r, op) => Do(r, op)
    case Share(r) => Publish(r)
    case Take(r, trace) => Merge(r, trace.state)
  }

  lemma MoveIsStep(h: History, m: Move)
    requires Possible(h, m)
    ensures Forget(Moved(h, m)) == Step(Forget(h), Erased(m))
  {
    var g, n := Moved(h, m), Step(Forget(h), Erased(m));
    hide Op.Apply, Op.Edits, Join, Logged, Removes;
    assert Forget(g).local == n.local;
    assert Forget(g).published == n.published;
  }

  /** A removal among these had seen d, at item k. */
  ghost predicate Removed(removals: set<Removal>, k: string, d: Dot) {
    exists rm :: rm in removals && rm.item == k && rm.seen.Contains(d)
  }

  /** Whoever knows of a removal knows all that the remover had seen. */
  ghost predicate Closed(t: Trace) {
    forall rm, d :: rm in t.removals && rm.seen.Contains(d) ==> t.state.ctx.Contains(d)
  }

  /** Observed-remove: a dot is live exactly if it is its replica's latest write to the item
      that the state knows, and no removal of the item the state knows had seen it. */
  ghost predicate Observed(t: Trace, log: Log) {
    forall k, d :: d in t.state.At(k) <==> Latest(t.state, log, k, d) && !Removed(t.removals, k, d)
  }

  ghost predicate Explained(t: Trace, log: Log) {
    Fits(t.state, log) && Closed(t) && Observed(t, log)
  }

  lemma LatestContained(s: State, log: Log, k: string, d: Dot)
    requires Fits(s, log) && Latest(s, log, k, d)
    ensures s.ctx.Contains(d)
  {
  }

  lemma JoinClosed(a: Trace, b: Trace)
    requires Closed(a) && Closed(b)
    ensures Closed(Trace(Join(a.state, b.state), a.removals + b.removals))
  {
    CtxJoinContains(a.state.ctx, b.state.ctx);
    hide CtxJoin;
  }

  /** What survives a join is what both sides' pasts together leave live. */
  lemma JoinObserved(a: Trace, b: Trace, log: Log, k: string, d: Dot)
    requires Explained(a, log) && Explained(b, log)
    ensures var t := Trace(Join(a.state, b.state), a.removals + b.removals);
      d in t.state.At(k) <==> Latest(t.state, log, k, d) && !Removed(t.removals, k, d)
  {
    var j, removals := Join(a.state, b.state), a.removals + b.removals;
    JoinFits(a.state, b.state, log);
    JoinKnown(a.state, b.state, log);
    JoinAt(a.state, b.state, k);
    RemovedOfBoth(a.removals, b.removals, k, d);
    hide Join, CtxJoin, Removed;
    if d in j.At(k) {
      assert Backed(j, log, k, d);
      RemovedIsContained(a, log, k, d);
      RemovedIsContained(b, log, k, d);
    }
    if Latest(j, log, k, d) && !Removed(removals, k, d) {
      if d.number <= Known(a.state, d.id) {
        assert Latest(a.state, log, k, d);
      }
      if d.number <= Known(b.state, d.id) {
        assert Latest(b.state, log, k, d);
      }
    }
  }

  lemma RemovedOfBoth(a: set<Removal>, b: set<Removal>, k: string, d: Dot)
    ensures Removed(a + b, k, d) <==> Removed(a, k, d) || Removed(b, k, d)
  {
  }

  lemma RemovedIsContained(t: Trace, log: Log, k: string, d: Dot)
    requires Explained(t, log)
    ensures Removed(t.removals, k, d) ==> t.state.ctx.Contains(d) && d !in t.state.At(k)
  {
  }

  lemma {:induction false} JoinExplained(a: Trace, b: Trace, log: Log)
    requires Explained(a, log) && Explained(b, log)
    ensures Explained(Trace(Join(a.state, b.state), a.removals + b.removals), log)
  {
    JoinFits(a.state, b.state, log);
    JoinClosed(a, b);
    hide Fits, Closed, Join;
    forall k, d
      ensures var t := Trace(Join(a.state, b.state), a.removals + b.removals);
        d in t.state.At(k) <==> Latest(t.state, log, k, d) && !Removed(t.removals, k, d)
    {
      JoinObserved(a, b, log, k, d);
    }
  }

  /** A removal with a positive quantity, or one that does nothing. */
  lemma {:induction false} DropExplained(t: Trace, log: Log, k: string)
    requires Explained(t, log)
    ensures Explained(Trace(Drop(t.state, k), t.removals + {Removal(k, t.state.ctx)}), log)
  {
    var g := Trace(Drop(t.state, k), t.removals + {Removal(k, t.state.ctx)});
    DropFits(t.state, log, k);
    assert Closed(g);
    assert forall j :: g.state.At(j) == if j == k then map[] else t.state.At(j);
    forall j, d
      ensures d in g.state.At(j) <==> Latest(g.state, log, j, d) && !Removed(g.removals, j, d)
    {
      assert Latest(g.state, log, j, d) <==> Latest(t.state, log, j, d);
      RemovedOfBoth(t.removals, {Removal(k, t.state.ctx)}, j, d);
      RemovedByOne(k, t.state.ctx, j, d);
      if Latest(t.state, log, j, d) {
        LatestContained(t.state, log, j, d);
      }
      hide Fits, Latest, Removed, Drop;
    }
    hide Fits, Closed;
  }

  lemma RemovedByOne(k: string, c: Ctx, j: string, d: Dot)
    ensures Removed({Removal(k, c)}, j, d) <==> j == k && c.Contains(d)
  {
    if j == k && c.Contains(d) {
      assert Removal(k, c) in {Removal(k, c)};
    }
  }

  lemma LongerLogExplained(t: Trace, log: Log, s: State, r: string, op: Op)
    requires Explained(t, log) && r in log
    ensures Explained(t, Logged(log, s, r, op))
  {
    LongerLogFits(t.state, log, s, r, op);
    forall k, d
      ensures Latest(t.state, Logged(log, s, r, op), k, d) <==> Latest(t.state, log, k, d)
    {
      LongerLogLatest(t.state, log, s, r, op, k, d);
    }
    hide Fits, Latest, Removed, Logged;
  }

  lemma LongerLogLatest(t: State, log: Log, s: State, r: string, op: Op, k: string, d: Dot)
    requires Fits(t, log) && r in log
    ensures Latest(t, Logged(log, s, r, op), k, d) <==> Latest(t, log, k, d)
  {
    if d.id in log {
      KnownIsLogged(t, log, d.id);
      assert forall i :: 0 <= i < |log[d.id]| ==> log[d.id][i] == Logged(log, s, r, op)[d.id][i];
    }
  }

  /** A write takes the place of its replica's earlier write to the item, and is new to
      every removal known to the writer. */
  lemma {:induction false} EditExplained(t: Trace, log: Log, r: string, op: Op)
    requires Explained(t, log) && r in log && Known(t.state, r) == |log[r]|
    ensures Explained(Trace(Edit(t.state, op.item, r, op.Delta()), t.removals), Logged(log, t.state, r, op))
  {
    var g, longer := Trace(Edit(t.state, op.item, r, op.Delta()), t.removals), Logged(log, t.state, r, op);
    EditFits(t.state, log, r, op);
    EditAt(t.state, op.item, r, op.Delta(), op.item);
    assert Closed(g);
    forall k, d
      ensures d in g.state.At(k) <==> Latest(g.state, longer, k, d) && !Removed(g.removals, k, d)
    {
      EditObserved(t, log, r, op, k, d);
    }
    hide Fits, Closed;
  }

  lemma EditLatest(s: State, log: Log, r: string, op: Op, k: string, d: Dot)
    requires Fits(s, log) && r in log && Known(s, r) == |log[r]|
    ensures var t, longer := Edit(s, op.item, r, op.Delta()), Logged(log, s, r, op);
      Latest(t, longer, k, d) <==>
        if d == s.ctx.Next(r) then k == op.item else Latest(s, log, k, d) && !(k == op.item && d.id == r)
  {
    var t := Edit(s, op.item, r, op.Delta());
    var longer: Log := Logged(log, s, r, op);
    assert s.ctx.Next(r) == Dot(r, |log[r]| + 1) && Known(t, r) == |log[r]| + 1;
    assert d.id != r ==> Known(t, d.id) == Known(s, d.id);
    assert longer[r][|log[r]|].item == op.item;
    if d.id in log {
      KnownIsLogged(s, log, d.id);
      assert forall i :: 0 <= i < |log[d.id]| ==> log[d.id][i] == longer[d.id][i];
    }
  }

  lemma EditObserved(t: Trace, log: Log, r: string, op: Op, k: string, d: Dot)
    requires Explained(t, log) && r in log && Known(t.state, r) == |log[r]|
    ensures var g, longer := Edit(t.state, op.item, r, op.Delta()), Logged(log, t.state, r, op);
      d in g.At(k) <==> Latest(g, longer, k, d) && !Removed(t.removals, k, d)
  {
    var s := t.state;
    var newest := s.ctx.Next(r);
    EditLatest(s, log, r, op, k, d);
    EditAt(s, op.item, r, op.Delta(), k);
    NextIsNew(s, log, r);
    assert d in s.At(k) <==> Latest(s, log, k, d) && !Removed(t.removals, k, d);
    RemovedIsContained(t, log, k, d);
    hide Fits, Latest, Removed, Edit, Logged, Closed, Observed;
  }

  lemma NextIsNew(s: State, log: Log, r: string)
    requires Fits(s, log)
    ensures !s.ctx.Contains(s.ctx.Next(r))
  {
  }

  /** Every local and published trace is explained, and each replica knows its own writes. */
  ghost predicate WellTraced(h: History) {
    && h.log.Keys == h.local.Keys
    && (forall t :: t in h.published ==> Explained(t, h.log))
    && (forall r :: r in h.local ==> Explained(h.local[r], h.log) && Known(h.local[r].state, r) == |h.log[r]|)
  }

  lemma TraceChanges(h: History, g: History, r: string)
    requires WellTraced(h) && r in h.local && r in g.local && g.local == h.local[r := g.local[r]]
    requires g.published == h.published
    requires g.log.Keys == h.log.Keys && forall q :: q in h.log && q != r ==> g.log[q] == h.log[q]
    requires Explained(g.local[r], g.log) && Known(g.local[r].state, r) == |g.log[r]|
    requires forall u :: Explained(u, h.log) ==> Explained(u, g.log)
    ensures WellTraced(g)
  {
    hide Explained, Known;
  }

  lemma ActEditKeeps(h: History, r: string, op: Op)
    requires WellTraced(h) && Possible(h, Act(r, op)) && op.Edits(h.local[r].state)
    ensures WellTraced(Moved(h, Act(r, op)))
  {
    var t, g := h.local[r], Moved(h, Act(r, op));
    assert Explained(t, h.log) && Known(t.state, r) == |h.log[r]|;
    EditMoves(h, r, op);
    hide *;
    EditExplained(t, h.log, r, op);
    EditKnows(t, h.log, r, op);
    forall u | Explained(u, h.log)
      ensures Explained(u, g.log)
    {
      LongerLogExplained(u, h.log, t.state, r, op);
    }
    TraceChanges(h, g, r);
  }

  lemma EditMoves(h: History, r: string, op: Op)
    requires Possible(h, Act(r, op)) && op.Edits(h.local[r].state)
    ensures var t, g := h.local[r], Moved(h, Act(r, op));
      && g.published == h.published && g.log == Logged(h.log, t.state, r, op) && r in g.local
      && g.local == h.local[r := g.local[r]] && g.local[r] == Trace(Edit(t.state, op.item, r, op.Delta()), t.removals)
      && g.learned == h.learned[r := h.learned[r] + [t.removals]]
  {
    var t := h.local[r];
    assert Removes(t.state, op) == {} && t.removals + {} == t.removals;
    hide Op.Edits, Edit, Logged;
  }

  lemma ActDropKeeps(h: History, r: string, op: Op)
    requires WellTraced(h) && Possible(h, Act(r, op)) && !op.Edits(h.local[r].state)
    ensures WellTraced(Moved(h, Act(r, op)))
  {
    var t, g := h.local[r], Moved(h, Act(r, op));
    assert Explained(t, h.log) && Known(t.state, r) == |h.log[r]|;
    DropMoves(h, r, op);
    hide *;
    DropExplained(t, h.log, op.item);
    DropKnown(t.state, op.item, r);
    TraceChanges(h, g, r);
  }

  lemma DropMoves(h: History, r: string, op: Op)
    requires Possible(h, Act(r, op)) && !op.Edits(h.local[r].state)
    ensures var t, g := h.local[r], Moved(h, Act(r, op));
      && g.published == h.published && g.log == h.log && r in g.local && g.local == h.local[r := g.local[r]]
      && (g.local[r] == Trace(Drop(t.state, op.item), t.removals + {Removal(op.item, t.state.ctx)}) || g.local[r] == t)
  {
    hide Op.Edits, Drop, Edit;
    var t := h.local[r];
    assert t.removals + {} == t.removals;
  }

  lemma EditKnows(t: Trace, log: Log, r: string, op: Op)
    requires Explained(t, log) && r in log && Known(t.state, r) == |log[r]|
    ensures var longer := Logged(log, t.state, r, op);
      && Known(Edit(t.state, op.item, r, op.Delta()), r) == |longer[r]| && longer.Keys == log.Keys
      && forall q :: q in log && q != r ==> longer[q] == log[q]
  {
    EditFits(t.state, log, r, op);
  }

  lemma TakeKeeps(h: History, r: string, trace: Trace)
    requires WellTraced(h) && Possible(h, Take(r, trace))
    ensures WellTraced(Moved(h, Take(r, trace)))
  {
    var t, g := h.local[r], Moved(h, Take(r, trace));
    hide *;
    TakeMoves(h, r, trace);
    TakeSources(h, r, trace);
    JoinExplained(t, trace, h.log);
    JoinKnows(t, trace, h.log, r);
    TraceChanges(h, g, r);
  }

  lemma TakeMoves(h: History, r: string, trace: Trace)
    requires Possible(h, Take(r, trace))
    ensures r in h.local
    ensures var t, g := h.local[r], Moved(h, Take(r, trace));
      && g.published == h.published && g.log == h.log && r in g.local
      && g.local == h.local[r := g.local[r]]
      && g.local[r] == Trace(Join(t.state, trace.state), t.removals + trace.removals)
  {
    hide Join;
  }

  lemma TakeSources(h: History, r: string, trace: Trace)
    requires WellTraced(h) && Possible(h, Take(r, trace))
    ensures r in h.log && Explained(h.local[r], h.log) && Explained(trace, h.log)
    ensures Known(h.local[r].state, r) == |h.log[r]|
  {
    hide Explained;
  }

  lemma JoinKnows(t: Trace, o: Trace, log: Log, r: string)
    requires Explained(t, log) && Explained(o, log) && r in log && Known(t.state, r) == |log[r]|
    ensures Known(Join(t.state, o.state), r) == |log[r]|
  {
    JoinKnown(t.state, o.state, log);
    KnownIsLogged(o.state, log, r);
  }

  lemma ShareKeeps(h: History, r: string)
    requires WellTraced(h) && Possible(h, Share(r))
    ensures WellTraced(Moved(h, Share(r)))
  {
    hide Explained, Known;
  }

  lemma MoveKeeps(h: History, m: Move)
    requires WellTraced(h)
    ensures WellTraced(Moved(h, m))
  {
    if Possible(h, m) {
      hide WellTraced, Moved;
      match m
      case Act(r, op) =>
        if op.Edits(h.local[r].state) {
          ActEditKeeps(h, r, op);
        } else {
          ActDropKeeps(h, r, op);
        }
      case Share(r) => ShareKeeps(h, r);
      case Take(r, trace) => TakeKeeps(h, r, trace);
    }
  }

  lemma {:induction false} PastKept(ids: set<string>, ms: seq<Move>)
    ensures WellTraced(Past(ids, ms))
  {
    if ms != [] {
      PastKept(ids, ms[..|ms| - 1]);
      hide WellTraced, Moved;
      MoveKeeps(Past(ids, ms[..|ms| - 1]), ms[|ms| - 1]);
    }
  }

  ghost predicate Occurs(h: History, t: Trace) {
    t in h.published || exists r :: r in h.local && h.local[r] == t
  }

  /** Observed-remove semantics: in every run with any writes, removals and joins, a dot is
      live at an item of a state exactly if it is its replica's latest write to the item
      that the state knows of, and no removal of the item in the state's past had seen it. */
  lemma {:induction false} ObservedRemove(ids: set<string>, ms: seq<Move>, t: Trace, k: string, d: Dot)
    requires Occurs(Past(ids, ms), t)
    ensures d in t.state.At(k) <==> Latest(t.state, Past(ids, ms).log, k, d) && !Removed(t.removals, k, d)
  {
    PastKept(ids, ms);
    assert Explained(t, Past(ids, ms).log) by { hide Past, Explained; }
    hide Past;
  }

  /** Every run of the network has a history: nothing is lost by tracing. */
  lemma {:induction false} EveryRunHasPast(ids: set<string>, es: seq<Event>) returns (ms: seq<Move>)
    ensures Forget(Past(ids, ms)) == After(ids, es)
  {
    hide *;
    if es == [] {
      ms := [];
      BeginIsInit(ids);
    } else {
      var before, e := es[..|es| - 1], es[|es| - 1];
      ms := EveryRunHasPast(ids, before);
      var h := Past(ids, ms);
      PastKeys(ids, ms);
      if Enabled(Forget(h), e) {
        var m := MoveOf(h, e);
        MoveIsStep(h, m);
        PastSnoc(ids, ms, m);
        ms := ms + [m];
      } else {
        IdleStep(Forget(h), e);
      }
      AfterSnoc(ids, before, e);
      assert es == before + [e];
    }
  }

  lemma BeginIsInit(ids: set<string>)
    ensures Forget(Past(ids, [])) == After(ids, [])
  {
  }

  /** The move that makes an event of the network, with the trace of the state it merges. */
  lemma MoveOf(h: History, e: Event) returns (m: Move)
    requires Enabled(Forget(h), e) && h.log.Keys == h.local.Keys == h.learned.Keys
    ensures Possible(h, m) && Erased(m) == e
  {
    match e
    case Do(r, op) => m := Act(r, op);
    case Publish(r) => m := Share(r);
    case Merge(r, snapshot) =>
      var t :| t in h.published && t.state == snapshot;
      m := Take(r, t);
  }

  lemma IdleStep(n: Net, e: Event)
    requires !Enabled(n, e)
    ensures Step(n, e) == n
  {
  }

  lemma PastSnoc(ids: set<string>, ms: seq<Move>, m: Move)
    ensures Past(ids, ms + [m]) == Moved(Past(ids, ms), m)
  {
    assert (ms + [m])[..|ms|] == ms;
  }

  lemma {:induction false} PastKeys(ids: set<string>, ms: seq<Move>)
    ensures var h := Past(ids, ms); h.local.Keys == ids && h.log.Keys == ids && h.learned.Keys == ids
    ensures forall r :: r in Past(ids, ms).learned ==> |Past(ids, ms).learned[r]| == |Past(ids, ms).log[r]|
  {
    if ms != [] {
      PastKeys(ids, ms[..|ms| - 1]);
      hide Op.Edits, Op.Apply, Join, Removes;
    }
  }
}
