/** What the quantities of a run with removals add up to: each replica's writes fold as without
    removals, but start again from 0 once their writer has learned of a removal of the last. */
module Tallies {
  import opened Order
  import opened Counters
  import opened States
  import opened Replication
  import opened Quantities
  import opened Histories

  /** The last write to k among ws, which are r's first writes, had been seen by a removal. */
  ghost predicate LastRemoved(r: string, ws: seq<Write>, removals: set<Removal>, k: string) {
    exists m ::
      && 0 <= m < |ws| && ws[m].item == k && (forall i :: m < i < |ws| ==> ws[i].item != k)
      && Removed(removals, k, Dot(r, m + 1))
  }

  /** What r's writes leave at k: each starts from the last, clamped at 0, or from 0 again if
      by then the writer had learned of a removal of the last. */
  ghost function FoldLearned(r: string, ws: seq<Write>, learned: seq<set<Removal>>, k: string): int
    requires |ws| <= |learned|
    decreases |ws|, 0
  {
    if ws == [] then 0
    else
      var n := |ws| - 1;
      if ws[n].item == k then Max(0, Standing(r, ws[..n], learned, learned[n], k)) + ws[n].delta
      else FoldLearned(r, ws[..n], learned, k)
  }

  /** What still stands of it for someone who knows these removals. */
  ghost function Standing(r: string, ws: seq<Write>, learned: seq<set<Removal>>, removals: set<Removal>, k: string): int
    requires |ws| <= |learned|
    decreases |ws|, 1
  {
    if LastRemoved(r, ws, removals, k) then 0 else FoldLearned(r, ws, learned, k)
  }

  lemma {:induction false} LastRemovedAt(r: string, ws: seq<Write>, removals: set<Removal>, k: string, m: nat)
    requires m < |ws| && ws[m].item == k && forall i :: m < i < |ws| ==> ws[i].item != k
    ensures LastRemoved(r, ws, removals, k) <==> Removed(removals, k, Dot(r, m + 1))
  {
    hide Removed;
  }

  lemma {:induction false} StandingWithout(r: string, ws: seq<Write>, learned: seq<set<Removal>>,
                                           removals: set<Removal>, k: string)
    requires |ws| <= |learned| && forall i :: 0 <= i < |ws| ==> ws[i].item != k
    ensures FoldLearned(r, ws, learned, k) == 0 && Standing(r, ws, learned, removals, k) == 0
  {
    if ws != [] {
      StandingWithout(r, ws[..|ws| - 1], learned, removals, k);
    }
  }

  /** Later entries of what was learned do not matter. */
  lemma {:induction false} StandingPrefix(r: string, ws: seq<Write>, learned: seq<set<Removal>>, more: set<Removal>,
                                          removals: set<Removal>, k: string)
    requires |ws| <= |learned|
    ensures FoldLearned(r, ws, learned + [more], k) == FoldLearned(r, ws, learned, k)
    ensures Standing(r, ws, learned + [more], removals, k) == Standing(r, ws, learned, removals, k)
  {
    if ws != [] {
      hide LastRemoved;
      var n := |ws| - 1;
      StandingPrefix(r, ws[..n], learned, more, learned[n], k);
    }
  }

  /** Nothing removed, nothing starts again: this is the fold of runs without removals. */
  lemma {:induction false} StandingIsFold(r: string, ws: seq<Write>, learned: seq<set<Removal>>, k: string)
    requires |ws| <= |learned| && forall i :: 0 <= i < |ws| ==> learned[i] == {}
    ensures FoldLearned(r, ws, learned, k) == FoldValue(ws, k) && Standing(r, ws, learned, {}, k) == FoldValue(ws, k)
  {
    if ws != [] {
      StandingIsFold(r, ws[..|ws| - 1], learned, k);
    }
  }

  /** The recorded values are those of the fold. */
  ghost predicate RecordedWith(log: Log, learned: map<string, seq<set<Removal>>>) {
    forall r :: r in log ==>
      && r in learned && |learned[r]| == |log[r]|
      && forall i :: 0 <= i < |log[r]| ==> WellValued(r, log[r], learned[r], i)
  }

  ghost predicate WellValued(r: string, ws: seq<Write>, learned: seq<set<Removal>>, i: nat)
    requires i < |ws| && |ws| <= |learned|
  {
    ws[i].value == Max(0, Standing(r, ws[..i], learned, learned[i], ws[i].item)) + ws[i].delta
  }

  /** The fold over a prefix is the value of the last write to k in it. */
  lemma {:induction false} FoldLearnedAtLast(r: string, ws: seq<Write>, learned: seq<set<Removal>>, k: string,
                                             upTo: nat, m: nat)
    requires |ws| == |learned| && m < upTo <= |ws| && ws[m].item == k && WellValued(r, ws, learned, m)
    requires forall i :: m < i < upTo ==> ws[i].item != k
    ensures FoldLearned(r, ws[..upTo], learned, k) == ws[m].value
    decreases upTo
  {
    assert ws[..upTo][..upTo - 1] == ws[..upTo - 1];
    if m < upTo - 1 {
      FoldLearnedAtLast(r, ws, learned, k, upTo - 1, m);
    }
  }

  /** What a replica contributes to a state is what stands of its writes that the state knows. */
  lemma {:induction false} ContributionStands(t: Trace, log: Log, learned: map<string, seq<set<Removal>>>, k: string,
                                              r: string)
    requires Explained(t, log) && RecordedWith(log, learned) && r in log
    ensures Known(t.state, r) <= |log[r]|
    ensures Contribution(t.state.At(k), r) == Standing(r, log[r][..Known(t.state, r)], learned[r], t.removals, k)
    ensures Peak(t.state.At(k), r) == Max(0, Standing(r, log[r][..Known(t.state, r)], learned[r], t.removals, k))
  {
    KnownIsLogged(t.state, log, r);
    OwnIsLatest(t, log, k, r);
    SoleDot(t.state.At(k), r);
    var m := LastWrite(log[r], k, Known(t.state, r));
    if m == -1 {
      NoneLatest(t, log, k, r);
      StandingWithout(r, log[r][..Known(t.state, r)], learned[r], t.removals, k);
    } else {
      LatestLives(t, log, k, r, m);
      LastRemovedAt(r, log[r][..Known(t.state, r)], t.removals, k, m);
      FoldLearnedAtLast(r, log[r], learned[r], k, Known(t.state, r), m);
    }
  }

  lemma OwnIsLatest(t: Trace, log: Log, k: string, r: string)
    requires Explained(t, log)
    ensures forall d, e :: d in OwnDots(t.state.At(k), r) && e in OwnDots(t.state.At(k), r) ==> d == e
  {
    forall d, e | d in OwnDots(t.state.At(k), r) && e in OwnDots(t.state.At(k), r)
      ensures d == e
    {
      OnePerReplica(t.state, log, k, d, e);
    }
  }

  lemma NoneLatest(t: Trace, log: Log, k: string, r: string)
    requires Explained(t, log) && r in log && Known(t.state, r) <= |log[r]|
    requires forall i :: 0 <= i < Known(t.state, r) ==> log[r][i].item != k
    ensures OwnDots(t.state.At(k), r) == {}
  {
    forall d | d in OwnDots(t.state.At(k), r)
      ensures false
    {
      LiveIsLatest(t.state, log, k, d);
    }
  }

  /** The last write either lives with its value, or a known removal had seen it. */
  lemma LatestLives(t: Trace, log: Log, k: string, r: string, m: nat)
    requires Explained(t, log) && r in log && m < Known(t.state, r) <= |log[r]| && log[r][m].item == k
    requires forall i :: m < i < Known(t.state, r) ==> log[r][i].item != k
    ensures Removed(t.removals, k, Dot(r, m + 1)) ==> OwnDots(t.state.At(k), r) == {}
    ensures !Removed(t.removals, k, Dot(r, m + 1)) ==>
      Dot(r, m + 1) in OwnDots(t.state.At(k), r) && t.state.At(k)[Dot(r, m + 1)] == log[r][m].value
  {
    var d, values := Dot(r, m + 1), t.state.At(k);
    assert Latest(t.state, log, k, d);
    assert d in values ==> Backed(t.state, log, k, d);
    if Removed(t.removals, k, d) {
      forall e | e in OwnDots(values, r)
        ensures e == d
      {
        LiveIsLatest(t.state, log, k, e);
      }
    }
  }

  lemma AppendWellValued(r: string, ws: seq<Write>, learned: seq<set<Removal>>, w: Write, more: set<Removal>)
    requires |learned| == |ws| && forall i :: 0 <= i < |ws| ==> WellValued(r, ws, learned, i)
    requires w.value == Max(0, Standing(r, ws, learned, more, w.item)) + w.delta
    ensures forall i :: 0 <= i <= |ws| ==> WellValued(r, ws + [w], learned + [more], i)
  {
    hide Standing;
    forall i | 0 <= i <= |ws|
      ensures WellValued(r, ws + [w], learned + [more], i)
    {
      assert (ws + [w])[..i] == ws[..i];
      if i < |ws| {
        assert WellValued(r, ws, learned, i);
        StandingPrefix(r, ws[..i], learned, more, learned[i], ws[i].item);
      } else {
        assert ws[..i] == ws;
        StandingPrefix(r, ws, learned, more, more, w.item);
      }
    }
  }

  lemma AppendRecords(log: Log, learned: map<string, seq<set<Removal>>>, r: string, w: Write, more: set<Removal>)
    requires RecordedWith(log, learned) && r in log
    requires w.value == Max(0, Standing(r, log[r], learned[r], more, w.item)) + w.delta
    ensures RecordedWith(log[r := log[r] + [w]], learned[r := learned[r] + [more]])
  {
    hide Standing, WellValued;
    AppendWellValued(r, log[r], learned[r], w, more);
  }

  lemma {:induction false} EditRecords(t: Trace, log: Log, learned: map<string, seq<set<Removal>>>, r: string, op: Op)
    requires Explained(t, log) && RecordedWith(log, learned) && r in log && Known(t.state, r) == |log[r]|
    ensures RecordedWith(Logged(log, t.state, r, op), learned[r := learned[r] + [t.removals]])
  {
    var w := Write(op.item, op.Delta(), Peak(t.state.At(op.item), r) + op.Delta());
    assert Logged(log, t.state, r, op) == log[r := log[r] + [w]] && |learned[r]| == |log[r]|;
    hide *;
    EditContributes(t, log, learned, r, op);
    AppendRecords(log, learned, r, w, t.removals);
  }

  lemma EditContributes(t: Trace, log: Log, learned: map<string, seq<set<Removal>>>, r: string, op: Op)
    requires Explained(t, log) && RecordedWith(log, learned) && r in log && Known(t.state, r) == |log[r]|
    ensures r in learned && |log[r]| <= |learned[r]|
    ensures Peak(t.state.At(op.item), r) == Max(0, Standing(r, log[r], learned[r], t.removals, op.item))
  {
    ContributionStands(t, log, learned, op.item, r);
    assert log[r][..Known(t.state, r)] == log[r];
    hide Peak, Explained, Standing, WellValued;
  }

  lemma MoveRecords(h: History, m: Move)
    requires WellTraced(h) && RecordedWith(h.log, h.learned)
    ensures RecordedWith(Moved(h, m).log, Moved(h, m).learned)
  {
    if Possible(h, m) && m.Act? && m.op.Edits(h.local[m.id].state) {
      EditMoves(h, m.id, m.op);
      assert Explained(h.local[m.id], h.log);
      hide Explained, RecordedWith;
      EditRecords(h.local[m.id], h.log, h.learned, m.id, m.op);
    }
  }

  lemma {:induction false} PastRecords(ids: set<string>, ms: seq<Move>)
    ensures RecordedWith(Past(ids, ms).log, Past(ids, ms).learned)
  {
    if ms != [] {
      PastRecords(ids, ms[..|ms| - 1]);
      PastKept(ids, ms[..|ms| - 1]);
      hide WellTraced, Moved, RecordedWith;
      MoveRecords(Past(ids, ms[..|ms| - 1]), ms[|ms| - 1]);
    }
  }

  /** What stands at k, in a trace, of the writes of r known to it. */
  ghost function Left(h: History, t: Trace, k: string, r: string): int {
    if r in h.learned && |KnownWrites(t.state, h.log, r)| <= |h.learned[r]|
    then Standing(r, KnownWrites(t.state, h.log, r), h.learned[r], t.removals, k) else 0
  }

  lemma LeftIsContribution(h: History, t: Trace, k: string, r: string)
    requires Explained(t, h.log) && RecordedWith(h.log, h.learned) && r in h.log
    ensures r in h.learned && |KnownWrites(t.state, h.log, r)| <= |h.learned[r]|
    ensures Left(h, t, k, r) == Contribution(t.state.At(k), r)
  {
    ContributionStands(t, h.log, h.learned, k, r);
    hide Explained, Contribution, Standing;
  }

  lemma {:induction false} QuantityStands(h: History, t: Trace, k: string)
    requires Explained(t, h.log) && RecordedWith(h.log, h.learned)
    ensures t.state.Quantity(k) == SumOver(h.log.Keys, r => Left(h, t, k, r))
  {
    IdsAreReplicas(t, h.log, k);
    hide *;
    hide Sum;
    SumByReplica(t.state.At(k), h.log.Keys);
    forall r | r in h.log.Keys
      ensures Contribution(t.state.At(k), r) == Left(h, t, k, r)
    {
      LeftIsContribution(h, t, k, r);
    }
    SumOverEqual(h.log.Keys, r => Contribution(t.state.At(k), r), r => Left(h, t, k, r));
    assert t.state.Quantity(k) == Sum(t.state.At(k)) by { QuantityIsSum(t.state, k); }
  }

  lemma QuantityIsSum(s: State, k: string)
    ensures s.Quantity(k) == Sum(s.At(k))
  {
  }

  /** Conservation with removals: in every run any state reads, for each item, the sum over
      the replicas of what stands there of their known writes. */
  lemma {:induction false} QuantityIsWhatStands(ids: set<string>, ms: seq<Move>, t: Trace, k: string)
    requires Occurs(Past(ids, ms), t)
    ensures t.state.Quantity(k) == SumOver(ids, r => Left(Past(ids, ms), t, k, r))
    ensures forall r :: r in ids ==>
      r in Past(ids, ms).learned && |KnownWrites(t.state, Past(ids, ms).log, r)| <= |Past(ids, ms).learned[r]|
  {
    var h := Past(ids, ms);
    PastKept(ids, ms);
    PastRecords(ids, ms);
    PastKeys(ids, ms);
    OccursExplained(h, t);
    hide *;
    QuantityStands(h, t, k);
    forall r | r in ids
      ensures r in h.learned && |KnownWrites(t.state, h.log, r)| <= |h.learned[r]|
    {
      LeftIsContribution(h, t, k, r);
    }
  }

  lemma OccursExplained(h: History, t: Trace)
    requires WellTraced(h) && Occurs(h, t)
    ensures Explained(t, h.log)
  {
    hide Explained;
  }

  lemma IdsAreReplicas(t: Trace, log: Log, k: string)
    requires Explained(t, log)
    ensures forall d :: d in t.state.At(k) ==> d.id in log
  {
    forall d | d in t.state.At(k)
      ensures d.id in log
    {
      LiveIsLatest(t.state, log, k, d);
    }
  }
}
