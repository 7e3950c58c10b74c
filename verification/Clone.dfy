/** The Clone pattern: a server that numbers and publishes updates and hands out snapshots
    of a subtree, and a client that joins a snapshot with the updates it has queued. */
module Clone {
  import opened Order

  datatype Kv = Kv(key: string, sequence: int, body: string)

  type Table = map<string, Kv>

  const END := "KTHXBAI"

  /** Both the snapshot and the subscription select by prefix. */
  predicate Under(subtree: string, key: string) {
    subtree <= key
  }

  /** The server's table after a run of updates. */
  function TableOf(log: seq<Kv>): Table {
    if log == [] then map[] else TableOf(log[..|log| - 1])[log[|log| - 1].key := log[|log| - 1]]
  }

  function Restricted(t: Table, subtree: string): Table {
    map k | k in t && Under(subtree, k) :: t[k]
  }

  function Published(log: seq<Kv>, subtree: string): seq<Kv> {
    if log == [] then []
    else Published(log[..|log| - 1], subtree) + (if Under(subtree, log[|log| - 1].key) then [log[|log| - 1]] else [])
  }

  /** A snapshot lists the entries under the subtree, in no particular order. */
  ghost predicate IsSnapshot(t: Table, subtree: string, entries: seq<Kv>) {
    && (forall e :: e in entries <==> e.key in t && Under(subtree, e.key) && t[e.key] == e)
    && (forall i, j :: 0 <= i < j < |entries| ==> entries[i] != entries[j])
  }

  /** The answer to a snapshot request: the entries, then the end marker with the current number. */
  ghost predicate IsAnswer(channel: seq<Kv>, t: Table, sequence: int, subtree: string) {
    && channel != [] && channel[|channel| - 1] == Kv(END, sequence, subtree)
    && IsSnapshot(t, subtree, channel[..|channel| - 1])
  }

  /** An update from a client: numbered and stored; the entry is what gets published. */
  function Collected(t: Table, sequence: int, key: string, body: string): (Table, Kv) {
    var kv := Kv(key, sequence + 1, body);
    (t[key := kv], kv)
  }

  /** An update from the subscription; one the snapshot already held is dropped. */
  function Received(t: Table, last: int, kv: Kv): (Table, int) {
    if kv.sequence > last then (t[kv.key := kv], kv.sequence) else (t, last)
  }

  predicate HasEnd(channel: seq<Kv>) {
    exists i :: 0 <= i < |channel| && channel[i].key == END
  }

  /** The snapshot loop: what it stores before the end marker, and the marker's number. */
  function Loaded(channel: seq<Kv>, t: Table): (Table, int)
    requires HasEnd(channel)
  {
    if channel[0].key == END then (t, channel[0].sequence)
    else Loaded(channel[1..], t[channel[0].key := channel[0]])
  }

  class Server {
    var kvmap: Table
    var sequence: int

    constructor ()
      ensures kvmap == map[] && sequence == 0 && Valid()
    {
      kvmap, sequence := map[], 0;
    }

    /** Every entry sits under its own key. */
    ghost predicate Valid()
      reads this
    {
      forall k :: k in kvmap ==> kvmap[k].key == k
    }

    method Collect(key: string, body: string) returns (published: Kv)
      requires Valid()
      modifies this
      ensures Valid()
      ensures (kvmap, published) == Collected(old(kvmap), old(sequence), key, body) && sequence == old(sequence) + 1
    {
      sequence := sequence + 1;
      published := Kv(key, sequence, body);
      kvmap := kvmap[key := published];
    }

    method SendSnapshot(subtree: string) returns (channel: seq<Kv>)
      requires Valid()
      ensures IsAnswer(channel, kvmap, sequence, subtree)
      ensures channel[|channel| - 1] == Kv("KTHXBAI", sequence, subtree)
      ensures forall e :: e in channel[..|channel| - 1] <==> e.key in kvmap && subtree <= e.key && kvmap[e.key] == e
    {
      channel := [];
      var todo := kvmap.Keys;
      while todo != {}
        invariant todo <= kvmap.Keys
        invariant forall e :: e in channel <==> e.key in kvmap.Keys - todo && Under(subtree, e.key) && kvmap[e.key] == e
        invariant forall i, j :: 0 <= i < j < |channel| ==> channel[i] != channel[j]
        decreases |todo|
      {
        var k :| k in todo;
        if Under(subtree, k) {
          channel := channel + [kvmap[k]];
        }
        todo := todo - {k};
      }
      channel := channel + [Kv(END, sequence, subtree)];
    }
  }

  class Client {
    var kvmap: Table
    var sequence: int

    constructor ()
      ensures kvmap == map[] && sequence == 0
    {
      kvmap, sequence := map[], 0;
    }

    method ReadSnapshot(channel: seq<Kv>)
      requires HasEnd(channel)
      modifies this
      ensures (kvmap, sequence) == Loaded(channel, old(kvmap))
    {
      var i := 0;
      while channel[i].key != END
        invariant i < |channel| && exists j :: i <= j < |channel| && channel[j].key == END
        invariant channel[i..][0] == channel[i] && HasEnd(channel[i..])
        invariant Loaded(channel[i..], kvmap) == Loaded(channel, old(kvmap))
        decreases |channel| - i
      {
        kvmap := kvmap[channel[i].key := channel[i]];
        i := i + 1;
      }
      sequence := channel[i].sequence;
    }

    method Receive(kv: Kv)
      modifies this
      ensures (kvmap, sequence) == Received(old(kvmap), old(sequence), kv)
    {
      if kv.sequence > sequence {
        sequence := kv.sequence;
        kvmap := kvmap[kv.key := kv];
      }
    }
  }

  /** A server with its history of updates, the subscription and snapshot channels of one
      client, and that client. How far the channels have got is history too: `position` is
      how many updates the subscription has been through, `taken` where the snapshot is. */
  datatype Net = Net(log: seq<Kv>, server: Table, subscribed: bool, queue: seq<Kv>, position: nat,
                     snapshot: Option<seq<Kv>>, taken: nat, loaded: bool, client: Table, last: int)

  const START: Net := Net([], map[], false, [], 0, None, 0, false, map[], 0)

  datatype Event = Collect(key: string, body: string) | Subscribe | Answer(channel: seq<Kv>) | Load | Receive

  /** The snapshot is asked for after subscribing, and the subscription read after loading. */
  ghost predicate Enabled(n: Net, subtree: string, e: Event) {
    match e
    case Collect(_, _) => true
    case Subscribe => !n.subscribed
    case Answer(channel) => n.subscribed && n.snapshot.None? && IsAnswer(channel, n.server, |n.log|, subtree)
    case Load => n.snapshot.Some? && !n.loaded && HasEnd(n.snapshot.value)
    case Receive => n.loaded && n.queue != []
  }

  ghost function Step(n: Net, subtree: string, e: Event): Net {
    if !Enabled(n, subtree, e) then n
    else
      match e
      case Collect(key, body) =>
        var (server, kv) := Collected(n.server, |n.log|, key, body);
        n.(log := n.log + [kv], server := server,
           queue := if n.subscribed && Under(subtree, key) then n.queue + [kv] else n.queue)
      case Subscribe => n.(subscribed := true, position := |n.log|)
      case Answer(channel) => n.(snapshot := Some(channel), taken := |n.log|)
      case Load =>
        var (t, last) := Loaded(n.snapshot.value, n.client);
        n.(client := t, last := last, loaded := true)
      case Receive =>
        var kv := n.queue[0];
        var (t, last) := Received(n.client, n.last, kv);
        n.(client := t, last := last, queue := n.queue[1..], position := if kv.sequence >= 0 then kv.sequence else 0)
  }

  ghost predicate Numbered(log: seq<Kv>) {
    forall i :: 0 <= i < |log| ==> log[i].sequence == i + 1
  }

  /** The server had no entry with the end marker's key when the snapshot was taken. */
  ghost predicate MarkerFree(n: Net, subtree: string)
    requires n.taken <= |n.log|
  {
    END !in Restricted(TableOf(n.log[..n.taken]), subtree)
  }

  /** The queue holds what was published for the subtree since `position`. */
  ghost predicate Queueing(n: Net, subtree: string) {
    && n.server == TableOf(n.log) && Numbered(n.log) && n.position <= |n.log|
    && (if n.subscribed then n.queue == Published(n.log[n.position..], subtree) else n.queue == [] && n.snapshot.None?)
  }

  /** A snapshot under way is the server's as of `taken`. */
  ghost predicate Snapshotting(n: Net, subtree: string) {
    n.snapshot.Some? && !n.loaded ==>
      n.position <= n.taken <= |n.log| && IsAnswer(n.snapshot.value, TableOf(n.log[..n.taken]), n.taken, subtree)
  }

  /** Once loaded, the client is where the server was after `last` updates. */
  ghost predicate Follows(n: Net, subtree: string) {
    n.position <= n.last <= |n.log| && n.client == Restricted(TableOf(n.log[..n.last]), subtree)
  }

  ghost predicate Following(n: Net, subtree: string) {
    && n.taken <= |n.log|
    && if !n.loaded then n.client == map[] else n.snapshot.Some? && (MarkerFree(n, subtree) ==> Follows(n, subtree))
  }

  ghost predicate Inv(n: Net, subtree: string) {
    Queueing(n, subtree) && Snapshotting(n, subtree) && Following(n, subtree)
  }

  lemma {:induction false} PublishedConcat(a: seq<Kv>, b: seq<Kv>, subtree: string)
    ensures Published(a + b, subtree) == Published(a, subtree) + Published(b, subtree)
  {
    if b == [] {
      assert a + b == a;
    } else {
      var init, last := b[..|b| - 1], b[|b| - 1];
      PublishedConcat(a, init, subtree);
      assert (a + b)[..|a + b| - 1] == a + init && (a + b)[|a + b| - 1] == last;
      hide Under;
      assert Published(a + b, subtree) ==
        Published(a + init, subtree) + if Under(subtree, last.key) then [last] else [];
    }
  }

  /** Updates outside the subtree do not show in it. */
  lemma {:induction false} OutsideDoesNotShow(log: seq<Kv>, more: seq<Kv>, subtree: string)
    requires Published(more, subtree) == []
    ensures Restricted(TableOf(log + more), subtree) == Restricted(TableOf(log), subtree)
  {
    if more == [] {
      assert log + more == log;
    } else {
      var init, last := more[..|more| - 1], more[|more| - 1];
      assert (log + more)[..|log + more| - 1] == log + init;
      OutsideDoesNotShow(log, init, subtree);
    }
  }

  lemma PublishedCons(first: Kv, rest: seq<Kv>, subtree: string)
    ensures Published([first] + rest, subtree) ==
      (if Under(subtree, first.key) then [first] else []) + Published(rest, subtree)
  {
    PublishedConcat([first], rest, subtree);
    assert [first][..0] == [];
  }

  /** The first update for the subtree among some. */
  lemma {:induction false} FirstPublished(log: seq<Kv>, subtree: string) returns (j: nat)
    requires Published(log, subtree) != []
    ensures j < |log| && Under(subtree, log[j].key) && Published(log[..j], subtree) == []
    ensures Published(log, subtree) == [log[j]] + Published(log[j + 1..], subtree)
  {
    var first, rest := log[0], log[1..];
    assert log == [first] + rest;
    PublishedCons(first, rest, subtree);
    if Under(subtree, first.key) {
      j := 0;
    } else {
      var i := FirstPublished(rest, subtree);
      PublishedCons(first, rest[..i], subtree);
      assert log[..i + 1] == [first] + rest[..i] && log[i + 2..] == rest[i + 1..];
      j := i + 1;
    }
  }

  /** The next update in the queue: where it stands in the log, with nothing for the
      subtree before it. */
  lemma NextPublished(log: seq<Kv>, position: nat, subtree: string) returns (j: nat)
    requires position <= |log| && Published(log[position..], subtree) != []
    ensures position <= j < |log| && Under(subtree, log[j].key)
    ensures Published(log[position..j], subtree) == []
    ensures Published(log[position..], subtree) == [log[j]] + Published(log[j + 1..], subtree)
  {
    var rest := log[position..];
    var i := FirstPublished(rest, subtree);
    j := position + i;
    assert log[position..j] == rest[..i] && log[j + 1..] == rest[i + 1..];
  }

  /** What the snapshot loop stores of a run of entries. */
  function Stored(entries: seq<Kv>, t: Table): Table {
    if entries == [] then t else Stored(entries[1..], t[entries[0].key := entries[0]])
  }

  lemma {:induction false} LoadsUpToEnd(entries: seq<Kv>, end: Kv, more: seq<Kv>, t: Table)
    requires end.key == END && forall e :: e in entries ==> e.key != END
    ensures HasEnd(entries + [end] + more) && Loaded(entries + [end] + more, t) == (Stored(entries, t), end.sequence)
  {
    var all := entries + [end] + more;
    assert all[|entries|] == end;
    if entries == [] {
    } else {
      assert all[0] == entries[0] && entries[0] in entries && all[1..] == entries[1..] + [end] + more;
      LoadsUpToEnd(entries[1..], end, more, t[entries[0].key := entries[0]]);
    }
  }

  lemma {:induction false} StoredIs(entries: seq<Kv>, t: Table, all: Table)
    requires forall e :: e in entries ==> e.key in all && all[e.key] == e
    ensures forall k :: k in Stored(entries, t) <==> k in t || (k in all && all[k] in entries && all[k].key == k)
    ensures forall k :: k in Stored(entries, t) ==>
      Stored(entries, t)[k] == if k in all && all[k] in entries && all[k].key == k then all[k] else t[k]
  {
    if entries != [] {
      var e := entries[0];
      assert e in entries;
      StoredIs(entries[1..], t[e.key := e], all);
      assert forall x :: x in entries <==> x == e || x in entries[1..];
    }
  }

  lemma {:induction false} TableKeyed(log: seq<Kv>)
    ensures forall k :: k in TableOf(log) ==> TableOf(log)[k].key == k && TableOf(log)[k] in log
  {
    if log != [] {
      TableKeyed(log[..|log| - 1]);
    }
  }

  /** Without the marker among its entries, a snapshot loads to the server's subtree. */
  lemma LoadIsSubtree(t: Table, subtree: string, entries: seq<Kv>, end: Kv)
    requires IsSnapshot(t, subtree, entries) && end.key == END && (forall k :: k in t ==> t[k].key == k)
    requires END !in Restricted(t, subtree)
    ensures HasEnd(entries + [end]) && Loaded(entries + [end], map[]) == (Restricted(t, subtree), end.sequence)
  {
    forall e | e in entries
      ensures e.key != END
    {
      assert e.key in Restricted(t, subtree);
    }
    assert entries + [end] + [] == entries + [end];
    LoadsUpToEnd(entries, end, [], map[]);
    StoredIs(entries, map[], t);
    forall k
      ensures k in Stored(entries, map[]) <==> k in Restricted(t, subtree)
    {
      if k in Restricted(t, subtree) {
        assert t[k] in entries;
      }
    }
    assert Stored(entries, map[]) == Restricted(t, subtree);
  }

  lemma {:induction false} FirstWithKey(entries: seq<Kv>, e: Kv) returns (i: nat)
    requires e in entries && forall x :: x in entries && x.key == e.key ==> x == e
    ensures i < |entries| && entries[i] == e && forall x :: x in entries[..i] ==> x.key != e.key
  {
    if entries[0] == e {
      i := 0;
    } else {
      var rest := entries[1..];
      assert entries == [entries[0]] + rest && entries[0] in entries;
      i := FirstWithKey(rest, e);
      assert entries[..i + 1] == [entries[0]] + rest[..i];
      i := i + 1;
    }
  }

  /** A loaded snapshot is the server's subtree as of its number if and only if the end
      marker is not itself a key there. */
  lemma {:induction false} MarkerDecides(log: seq<Kv>, subtree: string, entries: seq<Kv>)
    requires Numbered(log) && IsSnapshot(TableOf(log), subtree, entries)
    ensures HasEnd(entries + [Kv(END, |log|, subtree)])
    ensures var (t, last) := Loaded(entries + [Kv(END, |log|, subtree)], map[]);
      0 <= last <= |log| && t == Restricted(TableOf(log[..last]), subtree) <==>
        END !in Restricted(TableOf(log), subtree)
  {
    var table, end := TableOf(log), Kv(END, |log|, subtree);
    TableKeyed(log);
    assert (entries + [end])[|entries|] == end;
    if END !in Restricted(table, subtree) {
      LoadIsSubtree(table, subtree, entries, end);
      assert log[..|log|] == log;
    } else {
      var marker := table[END];
      var i := FirstWithKey(entries, marker);
      var last := MarkerSpoils(log, subtree, entries, i, marker, end);
    }
  }

  lemma MarkerSpoils(log: seq<Kv>, subtree: string, entries: seq<Kv>, i: nat, marker: Kv, end: Kv) returns (last: int)
    requires Numbered(log) && i < |entries| && entries[i] == marker && marker.key == END && marker in log
    requires Under(subtree, END)
    requires forall x :: x in entries[..i] ==> x.key != END
    requires forall e :: e in entries ==> e.key in TableOf(log) && TableOf(log)[e.key] == e
    ensures HasEnd(entries + [end]) && last == Loaded(entries + [end], map[]).1 && 0 <= last <= |log|
    ensures END !in Loaded(entries + [end], map[]).0 && END in Restricted(TableOf(log[..last]), subtree)
  {
    var more := entries[i + 1..] + [end];
    assert entries + [end] == entries[..i] + [marker] + more;
    last := marker.sequence;
    MarkerIsThere(log, subtree, marker);
    StoredIs(entries[..i], map[], TableOf(log));
    hide TableOf, Restricted, Under, Loaded, Stored;
    LoadsUpToEnd(entries[..i], marker, more, map[]);
  }

  lemma MarkerIsThere(log: seq<Kv>, subtree: string, marker: Kv)
    requires Numbered(log) && marker.key == END && marker in log && Under(subtree, END)
    ensures 1 <= marker.sequence <= |log| && END in Restricted(TableOf(log[..marker.sequence]), subtree)
  {
    var j :| 0 <= j < |log| && log[j] == marker;
    assert log[..j + 1][..j] == log[..j] && log[..j + 1][j] == marker;
  }

  lemma PublishedSnoc(log: seq<Kv>, kv: Kv, subtree: string)
    ensures Published(log + [kv], subtree) == Published(log, subtree) + if Under(subtree, kv.key) then [kv] else []
  {
    assert (log + [kv])[..|log|] == log;
  }

  lemma Appended(log: seq<Kv>, kv: Kv, position: nat, k: nat, subtree: string)
    requires position <= |log|
    ensures TableOf(log + [kv]) == TableOf(log)[kv.key := kv]
    ensures Published((log + [kv])[position..], subtree) ==
      Published(log[position..], subtree) + if Under(subtree, kv.key) then [kv] else []
    ensures k <= |log| ==> (log + [kv])[..k] == log[..k]
    ensures Numbered(log) && kv.sequence == |log| + 1 ==> Numbered(log + [kv])
  {
    assert (log + [kv])[..|log|] == log;
    assert (log + [kv])[position..] == log[position..] + [kv];
    PublishedSnoc(log[position..], kv, subtree);
  }

  lemma CollectKeeps(n: Net, subtree: string, key: string, body: string)
    requires Inv(n, subtree)
    ensures Inv(Step(n, subtree, Collect(key, body)), subtree)
  {
    var kv := Kv(key, |n.log| + 1, body);
    var g := Step(n, subtree, Collect(key, body));
    hide TableOf, Published, Restricted, IsAnswer, Under, Numbered;
    assert Queueing(g, subtree) by { Appended(n.log, kv, n.position, 0, subtree); }
    hide Queueing;
    assert Snapshotting(g, subtree) by { Appended(n.log, kv, 0, n.taken, subtree); }
    hide Snapshotting;
    assert MarkerFree(g, subtree) == MarkerFree(n, subtree) by { Appended(n.log, kv, 0, n.taken, subtree); }
    hide MarkerFree;
    assert Following(g, subtree) by { Appended(n.log, kv, 0, if 0 <= n.last <= |n.log| then n.last else 0, subtree); }
  }

  lemma LoadKeeps(n: Net, subtree: string)
    requires Inv(n, subtree) && Enabled(n, subtree, Load)
    ensures Inv(Step(n, subtree, Load), subtree)
  {
    if MarkerFree(n, subtree) {
      var channel, table := n.snapshot.value, TableOf(n.log[..n.taken]);
      var entries := channel[..|channel| - 1];
      assert channel == entries + [Kv(END, n.taken, subtree)];
      TableKeyed(n.log[..n.taken]);
      LoadIsSubtree(table, subtree, entries, Kv(END, n.taken, subtree));
    }
  }

  /** Nothing for the subtree from `position` to j: its table has not changed since `last`. */
  lemma NothingMissed(log: seq<Kv>, position: nat, last: nat, j: nat, subtree: string)
    requires position <= last <= j <= |log| && Published(log[position..j], subtree) == []
    ensures Restricted(TableOf(log[..j]), subtree) == Restricted(TableOf(log[..last]), subtree)
  {
    hide *;
    CutAt(log, position, last, j);
    NoneAmong(log[..last], log[position..last], log[last..j], subtree);
  }

  lemma CutAt(log: seq<Kv>, i: nat, j: nat, k: nat)
    requires i <= j <= k <= |log|
    ensures log[i..k] == log[i..j] + log[j..k] && log[..k] == log[..j] + log[j..k]
  {
    hide *;
  }

  lemma NoneAmong(log: seq<Kv>, earlier: seq<Kv>, later: seq<Kv>, subtree: string)
    requires Published(earlier + later, subtree) == []
    ensures Restricted(TableOf(log + later), subtree) == Restricted(TableOf(log), subtree)
  {
    hide *;
    PublishedConcat(earlier, later, subtree);
    OutsideDoesNotShow(log, later, subtree);
  }

  lemma Applied(log: seq<Kv>, j: nat, subtree: string)
    requires j < |log| && Under(subtree, log[j].key)
    ensures Restricted(TableOf(log[..j + 1]), subtree) == Restricted(TableOf(log[..j]), subtree)[log[j].key := log[j]]
  {
    assert log[..j + 1][..j] == log[..j] && log[..j + 1][j] == log[j];
  }

  /** The next word of the queue is update j, and applying it, or not, keeps the client in step. */
  lemma ReceiveFollows(log: seq<Kv>, position: nat, j: nat, client: Table, last: int, subtree: string)
    requires Numbered(log) && position <= j < |log| && Under(subtree, log[j].key)
    requires Published(log[position..j], subtree) == []
    requires position <= last <= |log| && client == Restricted(TableOf(log[..last]), subtree)
    ensures var (t, now) := Received(client, last, log[j]);
      j + 1 <= now <= |log| && t == Restricted(TableOf(log[..now]), subtree)
  {
    hide TableOf, Restricted, Published;
    if j + 1 > last {
      NothingMissed(log, position, last, j, subtree);
      Applied(log, j, subtree);
    }
  }

  lemma NextInQueue(n: Net, subtree: string) returns (j: nat)
    requires Queueing(n, subtree) && n.subscribed && n.queue != []
    ensures n.position <= j < |n.log| && Under(subtree, n.log[j].key) && Published(n.log[n.position..j], subtree) == []
    ensures n.queue[0] == n.log[j] && n.log[j].sequence == j + 1 && n.queue[1..] == Published(n.log[j + 1..], subtree)
  {
    hide Published, TableOf, Under;
    j := NextPublished(n.log, n.position, subtree);
    var rest := Published(n.log[j + 1..], subtree);
    assert ([n.log[j]] + rest)[1..] == rest;
  }

  lemma ReceiveKeeps(n: Net, subtree: string)
    requires Inv(n, subtree) && Enabled(n, subtree, Receive)
    ensures Inv(Step(n, subtree, Receive), subtree)
  {
    var j := NextInQueue(n, subtree);
    hide Published, TableOf, Restricted, Under, IsAnswer, Numbered, Received;
    if MarkerFree(n, subtree) {
      ReceiveFollows(n.log, n.position, j, n.client, n.last, subtree);
    }
  }

  ghost function After(subtree: string, es: seq<Event>): Net {
    if es == [] then START else Step(After(subtree, es[..|es| - 1]), subtree, es[|es| - 1])
  }

  lemma SubscribeKeeps(n: Net, subtree: string)
    requires Inv(n, subtree) && Enabled(n, subtree, Subscribe)
    ensures Inv(Step(n, subtree, Subscribe), subtree)
  {
    assert n.log[|n.log|..] == [];
  }

  lemma AnswerKeeps(n: Net, subtree: string, channel: seq<Kv>)
    requires Inv(n, subtree) && Enabled(n, subtree, Answer(channel))
    ensures Inv(Step(n, subtree, Answer(channel)), subtree)
  {
    assert n.log[..|n.log|] == n.log;
    hide TableOf, Published, Restricted, IsAnswer;
  }

  lemma StepKeeps(n: Net, subtree: string, e: Event)
    requires Inv(n, subtree)
    ensures Inv(Step(n, subtree, e), subtree)
  {
    if Enabled(n, subtree, e) {
      hide *;
      match e
      case Collect(key, body) => CollectKeeps(n, subtree, key, body);
      case Load => LoadKeeps(n, subtree);
      case Receive => ReceiveKeeps(n, subtree);
      case Subscribe => SubscribeKeeps(n, subtree);
      case Answer(channel) => AnswerKeeps(n, subtree, channel);
    } else {
      NotEnabled(n, subtree, e);
    }
  }

  lemma NotEnabled(n: Net, subtree: string, e: Event)
    requires !Enabled(n, subtree, e)
    ensures Step(n, subtree, e) == n
  {
  }

  lemma {:induction false} RunKeepsInv(subtree: string, es: seq<Event>)
    ensures Inv(After(subtree, es), subtree)
  {
    if es != [] {
      var init, last := es[..|es| - 1], es[|es| - 1];
      RunKeepsInv(subtree, init);
      hide Inv, Step;
      StepKeeps(After(subtree, init), subtree, last);
    }
  }

  /** In every run in which the subscription was opened before the snapshot was asked for,
      the client's table is, at every point after the snapshot, the server's after its
      first `last` updates, restricted to the subtree, and the rest of the subtree's
      updates are queued, in order, behind some it already has: provided that the server's table held no entry with
      the end marker's key under the subtree when the snapshot was taken. */
  lemma {:induction false} ClientFollows(subtree: string, es: seq<Event>)
    ensures var n := After(subtree, es);
      && n.taken <= |n.log| && n.server == TableOf(n.log)
      && (forall k :: k in n.server && subtree <= k ==> k in Restricted(n.server, subtree))
      && (forall k :: k in Restricted(n.server, subtree) ==> subtree <= k)
      && (n.loaded && MarkerFree(n, subtree) ==>
        && n.position <= n.last <= |n.log| && n.client == Restricted(TableOf(n.log[..n.last]), subtree)
        && n.queue == Published(n.log[n.position..n.last], subtree) + Published(n.log[n.last..], subtree)
        && (n.queue == [] ==> n.client == Restricted(n.server, subtree)))
  {
    var n := After(subtree, es);
    RunKeepsInv(subtree, es);
    RestrictedIs(n.server, subtree);
    hide *;
    QueueSplits(n, subtree);
  }

  /** The subtree is what begins with its name. */
  lemma RestrictedIs(t: Table, subtree: string)
    ensures forall k :: k in Restricted(t, subtree) <==> k in t && subtree <= k
    ensures forall k :: k in Restricted(t, subtree) ==> Restricted(t, subtree)[k] == t[k]
  {
  }

  /** The server's table holds, under each key, the last update of that key. */
  lemma {:induction false} TableIsLatest(log: seq<Kv>, i: nat)
    requires i < |log| && forall j :: i < j < |log| ==> log[j].key != log[i].key
    ensures log[i].key in TableOf(log) && TableOf(log)[log[i].key] == log[i]
  {
    if i < |log| - 1 {
      TableIsLatest(log[..|log| - 1], i);
    }
  }

  lemma QueueSplits(n: Net, subtree: string)
    requires Inv(n, subtree)
    ensures n.taken <= |n.log| && n.server == TableOf(n.log)
    ensures n.loaded && MarkerFree(n, subtree) ==>
      && n.position <= n.last <= |n.log| && n.client == Restricted(TableOf(n.log[..n.last]), subtree)
      && n.queue == Published(n.log[n.position..n.last], subtree) + Published(n.log[n.last..], subtree)
      && (n.queue == [] ==> n.client == Restricted(n.server, subtree))
  {
    if n.loaded && MarkerFree(n, subtree) {
      hide MarkerFree, TableOf, Published, Restricted, Snapshotting, Numbered;
      PublishedSplits(n.log, n.position, n.last, subtree);
      if n.queue == [] {
        NothingLeft(n.log, n.position, n.last, subtree);
      }
    }
  }

  lemma PublishedSplits(log: seq<Kv>, position: nat, last: nat, subtree: string)
    requires position <= last <= |log|
    ensures Published(log[position..], subtree) ==
      Published(log[position..last], subtree) + Published(log[last..], subtree)
  {
    assert log[position..] == log[position..last] + log[last..];
    hide *;
    PublishedConcat(log[position..last], log[last..], subtree);
  }

  lemma NothingLeft(log: seq<Kv>, position: nat, last: nat, subtree: string)
    requires position <= last <= |log| && Published(log[position..], subtree) == []
    ensures Restricted(TableOf(log[..last]), subtree) == Restricted(TableOf(log), subtree)
  {
    assert log[position..|log|] == log[position..] && log[..|log|] == log;
    hide *;
    NothingMissed(log, position, last, |log|, subtree);
  }

  /** Where it fails: the marker's key among the data of the whole tree. The client takes it
      for the end, keeps nothing, and believes to be where the server is. */
  lemma {:induction false} MarkerAmongData() returns (es: seq<Event>)
    ensures var n := After("", es);
      n.loaded && n.last == |n.log| && n.queue == [] && n.client != Restricted(n.server, "")
  {
    var kv := Kv(END, 1, "body");
    var one := [Collect(END, "body")];
    var two := one + [Subscribe];
    var channel := [kv] + [Kv(END, 1, "")];
    var three := two + [Answer(channel)];
    es := three + [Load];
    AfterSnoc("", [], Collect(END, "body"));
    assert [] + [Collect(END, "body")] == one && [] + [kv] == [kv];
    AfterSnoc("", one, Subscribe);
    assert After("", two).server == map[END := kv];
    AfterSnoc("", two, Answer(channel));
    AfterSnoc("", three, Load);
    assert channel[0] == kv && After("", three).snapshot == Some(channel);
    assert END in Restricted(map[END := kv], "");
  }

  lemma AfterSnoc(subtree: string, es: seq<Event>, e: Event)
    ensures After(subtree, es + [e]) == Step(After(subtree, es), subtree, e)
  {
    assert (es + [e])[..|es|] == es;
  }
}
