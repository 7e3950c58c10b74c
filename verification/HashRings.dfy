/** The consistent-hash ring and where it places the replicas of a list. */
module HashRings {
  import opened Order

  type Ring = map<int, string>

  predicate Less(a: int, b: int) { a < b }

  predicate More(a: int, b: int) { a > b }

  /** Clockwise from h, a comes before b. */
  predicate Closer(h: int, a: int, b: int) {
    if (a >= h) == (b >= h) then a < b else a >= h
  }

  function FromHash(h: int): (int, int) -> bool {
    (a: int, b: int) => Closer(h, a, b)
  }

  lemma Ordered(h: int)
    ensures StrictTotalOrder(Less) && StrictTotalOrder(More) && StrictTotalOrder(FromHash(h))
  {
  }

  /** The elements in ascending order. */
  function Sorted<T(!new, ==)>(less: (T, T) -> bool, s: set<T>): seq<T>
    requires StrictTotalOrder(less)
  {
    match First(less, s)
    case None => []
    case Some(k) => [k] + Sorted(less, s - {k})
  }

  lemma {:induction false} SortedIs<T(!new)>(less: (T, T) -> bool, s: set<T>)
    requires StrictTotalOrder(less)
    ensures |Sorted(less, s)| == |s| && forall k :: k in Sorted(less, s) <==> k in s
    ensures var q := Sorted(less, s); forall i, j :: 0 <= i < j < |q| ==> less(q[i], q[j])
  {
    var first := First(less, s);
    hide First, StrictTotalOrder;
    if first.Some? {
      var rest := Sorted(less, s - {first.value});
      var q := Sorted(less, s);
      SortedIs(less, s - {first.value});
      assert q == [first.value] + rest;
      assert forall k :: k in rest ==> less(first.value, k);
      hide Sorted, IsLeast;
      ConsSorted(less, first.value, rest);
    } else {
      assert s == {} && Sorted(less, s) == [];
    }
  }

  lemma ConsSorted<T(!new)>(less: (T, T) -> bool, x: T, rest: seq<T>)
    requires (forall k :: k in rest ==> less(x, k)) && forall i, j :: 0 <= i < j < |rest| ==> less(rest[i], rest[j])
    ensures var q := [x] + rest; forall i, j :: 0 <= i < j < |q| ==> less(q[i], q[j])
  {
    var q := [x] + rest;
    forall i, j | 0 <= i < j < |q|
      ensures less(q[i], q[j])
    {
      assert q[j] == rest[j - 1] && rest[j - 1] in rest;
    }
  }

  /** The keys in clockwise order, the first at or after h in front. */
  function Around(keys: set<int>, h: int): seq<int> {
    Ordered(h);
    Sorted(FromHash(h), keys)
  }

  lemma AroundIs(keys: set<int>, h: int)
    ensures var q := Around(keys, h);
      && |q| == |keys| && (forall k :: k in q <==> k in keys)
      && forall i, j :: 0 <= i < j < |q| ==> Closer(h, q[i], q[j])
  {
    Ordered(h);
    SortedIs(FromHash(h), keys);
  }

  /** ring.lower_bound(h), or ring.begin() at the end. */
  function Locate(keys: set<int>, h: int): (k: int)
    requires keys != {}
  {
    Ordered(h);
    match First(Less, set k | k in keys && k >= h)
    case Some(k) => k
    case None => First(Less, keys).value
  }

  /** std::next(it), or ring.begin() at the end. */
  function Clockwise(keys: set<int>, k: int): int
    requires k in keys
  {
    Ordered(k);
    match Next(Less, keys, k)
    case Some(next) => next
    case None => First(Less, keys).value
  }

  /** std::prev(it), from ring.end() at the beginning. */
  function Counterclockwise(keys: set<int>, k: int): int
    requires k in keys
  {
    Ordered(k);
    match Next(More, keys, k)
    case Some(previous) => previous
    case None => First(More, keys).value
  }

  lemma LocateIsClosest(keys: set<int>, h: int)
    requires keys != {}
    ensures Locate(keys, h) in keys && forall x :: x in keys && x != Locate(keys, h) ==> Closer(h, Locate(keys, h), x)
  {
    var from := set k | k in keys && k >= h;
    assert forall x :: x in keys && x >= h ==> x in from;
  }

  lemma LocateIsFirst(keys: set<int>, h: int)
    requires keys != {}
    ensures Around(keys, h) != [] && Locate(keys, h) == Around(keys, h)[0]
  {
    AroundIs(keys, h);
    var q, k := Around(keys, h), Locate(keys, h);
    LocateIsClosest(keys, h);
    hide Locate, Around;
    assert q[0] in q && k in q;
  }

  /** The next key clockwise: next in the order from h, or the first again. */
  lemma ClockwiseStep(keys: set<int>, h: int, k: int)
    requires k in keys
    ensures var c := Clockwise(keys, k);
      && c in keys
      && ((Closer(h, k, c) && forall x :: x in keys && Closer(h, k, x) && x != c ==> Closer(h, c, x))
        || ((forall x :: x in keys ==> !Closer(h, k, x)) && (forall x :: x in keys && x != c ==> Closer(h, c, x))))
  {
  }

  lemma ClockwiseIsNext(keys: set<int>, h: int, i: nat)
    requires i < |keys|
    ensures |Around(keys, h)| == |keys| && Around(keys, h)[i] in keys
    ensures Clockwise(keys, Around(keys, h)[i]) == Around(keys, h)[if i + 1 < |keys| then i + 1 else 0]
  {
    AroundIs(keys, h);
    var q := Around(keys, h);
    assert q[i] in q;
    ClockwiseStep(keys, h, q[i]);
    hide Clockwise, Around;
    var c := Clockwise(keys, q[i]);
    var j :| 0 <= j < |q| && q[j] == c;
    var expected := if i + 1 < |keys| then i + 1 else 0;
    assert q[expected] in q;
    if i + 1 < |keys| {
      assert Closer(h, q[i], q[i + 1]);
    }
  }

  lemma CounterclockwiseIsLast(keys: set<int>, h: int)
    requires keys != {}
    ensures |Around(keys, h)| == |keys| && Around(keys, h)[0] in keys
    ensures Counterclockwise(keys, Around(keys, h)[0]) == Around(keys, h)[|keys| - 1]
  {
    AroundIs(keys, h);
    var q := Around(keys, h);
    assert q[0] in q && q[|q| - 1] in q;
    var c := Counterclockwise(keys, q[0]);
    assert c in keys;
    var j :| 0 <= j < |q| && q[j] == c;
  }

  lemma SortedHead<T(!new)>(less: (T, T) -> bool, s: set<T>, first: T)
    requires StrictTotalOrder(less) && IsLeast(less, s, first)
    ensures Sorted(less, s) == [first] + Sorted(less, s - {first})
  {
    assert First(less, s) == Some(first);
  }

  /** `longer` is q with x put in before its j-th element. */
  predicate Inserted<T(==)>(q: seq<T>, longer: seq<T>, j: nat, x: T) {
    j <= |q| && longer == q[..j] + [x] + q[j..]
  }

  lemma InsertBehind<T>(first: T, q: seq<T>, longer: seq<T>, j: nat, x: T)
    requires Inserted(q, longer, j, x)
    ensures Inserted([first] + q, [first] + longer, j + 1, x)
  {
  }

  lemma InsertFirst<T(!new)>(less: (T, T) -> bool, s: set<T>, x: T)
    requires StrictTotalOrder(less) && x !in s && IsLeast(less, s + {x}, x)
    ensures Inserted(Sorted(less, s), Sorted(less, s + {x}), 0, x)
  {
    SortedHead(less, s + {x}, x);
    hide *;
    assert s + {x} - {x} == s;
    InsertFront(Sorted(less, s), x);
  }

  lemma InsertFront<T>(q: seq<T>, x: T)
    ensures Inserted(q, [x] + q, 0, x)
  {
  }

  lemma InsertLater<T(!new)>(less: (T, T) -> bool, s: set<T>, x: T, first: T, j: nat)
    requires StrictTotalOrder(less) && x !in s && first != x && IsLeast(less, s + {x}, first)
    requires Inserted(Sorted(less, s - {first}), Sorted(less, (s - {first}) + {x}), j, x)
    ensures Inserted(Sorted(less, s), Sorted(less, s + {x}), j + 1, x)
  {
    SortedHead(less, s + {x}, first);
    SortedHead(less, s, first);
    hide *;
    assert s + {x} - {first} == (s - {first}) + {x};
    InsertBehind(first, Sorted(less, s - {first}), Sorted(less, (s - {first}) + {x}), j, x);
  }

  /** One more element goes in at one place; the order of the others stays. */
  lemma {:induction false} SortedInsert<T(!new)>(less: (T, T) -> bool, s: set<T>, x: T) returns (j: nat)
    requires StrictTotalOrder(less) && x !in s
    ensures Inserted(Sorted(less, s), Sorted(less, s + {x}), j, x)
    decreases |s|
  {
    var first := First(less, s + {x}).value;
    hide Sorted, Inserted, First;
    if first == x {
      InsertFirst(less, s, x);
      j := 0;
    } else {
      j := SortedInsert(less, s - {first}, x);
      InsertLater(less, s, x, first, j);
      j := j + 1;
    }
  }

  lemma AroundInsert(keys: set<int>, h: int, x: int) returns (j: nat)
    requires x !in keys
    ensures Inserted(Around(keys, h), Around(keys + {x}, h), j, x)
  {
    Ordered(h);
    j := SortedInsert(FromHash(h), keys, x);
  }

  /** Every server sits at its own hash. */
  ghost predicate Placed(ring: Ring, hash: string -> int) {
    forall h :: h in ring ==> hash(ring[h]) == h
  }

  /** The servers in clockwise order from h. */
  function Circle(ring: Ring, h: int): (r: seq<string>)
    ensures |r| == |ring|
  {
    AroundIs(ring.Keys, h);
    var q := Around(ring.Keys, h);
    assert |ring.Keys| == |ring|;
    assert forall i :: 0 <= i < |q| ==> q[i] in q;
    seq(|q|, i requires 0 <= i < |q| => ring[q[i]])
  }

  lemma CircleAt(ring: Ring, h: int, i: nat)
    requires i < |ring|
    ensures |ring.Keys| == |ring| && |Around(ring.Keys, h)| == |ring| && Around(ring.Keys, h)[i] in ring
    ensures Circle(ring, h)[i] == ring[Around(ring.Keys, h)[i]]
  {
    AroundIs(ring.Keys, h);
    assert |ring.Keys| == |ring|;
    assert Around(ring.Keys, h)[i] in Around(ring.Keys, h);
  }

  function Min(a: int, b: int): int { if a < b then a else b }

  /** How many servers hold a list: the primary and the replicas, as far as there are servers. */
  function Copies(replicas: int, servers: nat): int {
    Min((if replicas < 0 then 0 else replicas) + 1, servers)
  }

  /** How far the walk gets: it breaks off at a server without a name. */
  function Reach(names: seq<string>, n: nat): (k: nat)
    requires 1 <= n <= |names|
    ensures 1 <= k <= n && forall i :: 1 <= i < k ==> names[i] != ""
    ensures k < n ==> names[k] == ""
  {
    if n == 1 then 1
    else
      var k := Reach(names, n - 1);
      if k == n - 1 && names[k] != "" then n else k
  }

  function FirstServer(ring: Ring, h: int): string {
    if ring == map[] then "" else Circle(ring, h)[0]
  }

  function SecondServer(ring: Ring, h: int): string {
    if ring == map[] then "" else Circle(ring, h)[if |ring| > 1 then 1 else 0]
  }

  /** k is the least key from h on, or the least of all if there is none. */
  ghost predicate IsFrom(keys: set<int>, h: int, k: int) {
    && k in keys
    && if exists x :: x in keys && x >= h then k >= h && forall x :: x in keys && x >= h ==> k <= x
      else forall x :: x in keys ==> k <= x
  }

  lemma LocateIs(keys: set<int>, h: int)
    requires keys != {}
    ensures IsFrom(keys, h, Locate(keys, h))
  {
    var from := set k | k in keys && k >= h;
    assert forall x :: x in keys && x >= h ==> x in from;
  }

  lemma ClockwiseIs(keys: set<int>, k: int)
    requires k in keys
    ensures IsFrom(keys, k + 1, Clockwise(keys, k))
  {
  }

  lemma CounterclockwiseIs(keys: set<int>, k: int)
    requires k in keys
    ensures IsFrom(keys, Counterclockwise(keys, k) + 1, k)
  {
  }

  /** The three servers in terms of the keys: the one at the least key from h on, the one at the
      next key, and the one after whose key that of the first is next. */
  lemma {:induction false} ServersAre(ring: Ring, h: int) returns (j: int, next: int, last: int)
    requires ring != map[]
    ensures IsFrom(ring.Keys, h, j) && IsFrom(ring.Keys, j + 1, next) && IsFrom(ring.Keys, last + 1, j)
    ensures next in ring && last in ring
    ensures FirstServer(ring, h) == ring[j] && SecondServer(ring, h) == ring[next]
    ensures Circle(ring, h)[|ring| - 1] == ring[last]
  {
    var keys := ring.Keys;
    hide Around, Locate, Clockwise, Counterclockwise, Circle, IsFrom;
    LocateIsFirst(keys, h);
    CircleAt(ring, h, 0);
    j := Locate(keys, h);
    LocateIs(keys, h);
    ClockwiseIsNext(keys, h, 0);
    CircleAt(ring, h, if |ring| > 1 then 1 else 0);
    next := Clockwise(keys, j);
    ClockwiseIs(keys, j);
    CounterclockwiseIsLast(keys, h);
    CircleAt(ring, h, |ring| - 1);
    last := Counterclockwise(keys, j);
    CounterclockwiseIs(keys, j);
  }

  /** From server to server: each is looked up by its name, and followed by the one after
      it, until that has no name or was met before, or enough have been met. */
  function Round(ring: Ring, hash: string -> int, targets: seq<string>, next: string, left: int): seq<string>
    decreases if left < 0 then 0 else left
  {
    if left <= 0 then targets
    else
      var later := SecondServer(ring, hash(next));
      if later != "" && later !in targets then Round(ring, hash, targets + [later], later, left - 1) else targets
  }

  function TargetsOf(ring: Ring, hash: string -> int, url: string, replicas: int): seq<string> {
    Round(ring, hash, [FirstServer(ring, hash(url))], FirstServer(ring, hash(url)), replicas)
  }

  class ConsistentHashing {
    const hash: string -> int
    var ring: Ring
    var servers: seq<string>
    /** The address each push socket is connected to, by the hash it is filed under. */
    var pushSockets: map<int, string>

    constructor (hash: string -> int)
      ensures this.hash == hash && ring == map[] && servers == [] && pushSockets == map[]
    {
      this.hash, ring, servers, pushSockets := hash, map[], [], map[];
    }

    /** A socket already filed there is replaced. */
    method AddPushSocketViaServer(server: string, socket: string)
      modifies `pushSockets
      ensures pushSockets == old(pushSockets)[hash(server) := socket]
    {
      pushSockets := pushSockets[hash(server) := socket];
    }

    method AddServer(server: string)
      modifies `ring, `servers
      ensures server in old(servers) ==> ring == old(ring) && servers == old(servers)
      ensures server !in old(servers) ==>
        ring == old(ring)[hash(server) := server] && servers == old(servers) + [server]
      ensures Placed(old(ring), hash) ==> Placed(ring, hash)
    {
      if server in servers {
        return;
      }
      servers := servers + [server];
      ring := ring[hash(server) := server];
    }

    method UpdateCH(ring: Ring, servers: seq<string>)
      modifies `ring, `servers
      ensures this.ring == ring && this.servers == servers
    {
      this.ring, this.servers := ring, servers;
    }

    method GetServer(key: string) returns (server: string)
      ensures server == FirstServer(ring, hash(key))
    {
      if ring == map[] {
        return "";
      }
      LocateIsFirst(ring.Keys, hash(key));
      CircleAt(ring, hash(key), 0);
      return ring[Locate(ring.Keys, hash(key))];
    }

    method GetNextServer(key: string) returns (server: string)
      ensures server == SecondServer(ring, hash(key))
    {
      if ring == map[] {
        return "";
      }
      LocateIsFirst(ring.Keys, hash(key));
      CircleAt(ring, hash(key), if |ring| > 1 then 1 else 0);
      ClockwiseIsNext(ring.Keys, hash(key), 0);
      return ring[Clockwise(ring.Keys, Locate(ring.Keys, hash(key)))];
    }

    method GetPreviousServer(key: string) returns (server: string)
      ensures server == if ring == map[] then "" else Circle(ring, hash(key))[|ring| - 1]
    {
      if ring == map[] {
        return "";
      }
      LocateIsFirst(ring.Keys, hash(key));
      CircleAt(ring, hash(key), |ring| - 1);
      CounterclockwiseIsLast(ring.Keys, hash(key));
      return ring[Counterclockwise(ring.Keys, Locate(ring.Keys, hash(key)))];
    }

    /** mdwrk::distribute_work */
    method DistributeWork(url: string, replicas: int) returns (targets: seq<string>)
      ensures targets == TargetsOf(ring, hash, url, replicas)
    {
      hide *;
      var next := GetServer(url);
      targets := [next];
      var i := 0;
      while i < replicas
        invariant 0 <= i
        invariant Round(ring, hash, targets, next, replicas - i) ==
          Round(ring, hash, [FirstServer(ring, hash(url))], FirstServer(ring, hash(url)), replicas)
      {
        RoundTurn(ring, hash, targets, next, replicas - i);
        next := GetNextServer(next);
        if next != "" && next !in targets {
          targets := targets + [next];
        } else {
          break;
        }
        i := i + 1;
      }
      RoundTurn(ring, hash, targets, next, replicas - i);
      TargetsAre(ring, hash, url, replicas);
    }
  }

  /** The walk has collected the first i + 1 names and stands on the last of them. */
  ghost predicate Walked(circle: seq<string>, i: nat, targets: seq<string>, next: string) {
    i < |circle| && targets == circle[..i + 1] && next == circle[i] && Reach(circle, i + 1) == i + 1
  }

  lemma CircleStart(circle: seq<string>)
    requires circle != []
    ensures Walked(circle, 0, [circle[0]], circle[0])
  {
  }

  lemma CircleStep(circle: seq<string>, i: nat, targets: seq<string>, next: string)
    requires Walked(circle, i, targets, next) && Distinct(circle)
    ensures var later := circle[if i + 1 < |circle| then i + 1 else 0];
      if later != "" && later !in targets then Walked(circle, i + 1, targets + [later], later)
      else forall n :: i < n <= |circle| ==> Reach(circle, n) == i + 1
  {
    hide Distinct, Reach;
    if i + 1 < |circle| {
      PrefixLacks(circle, i + 1);
      assert circle[..i + 1] + [circle[i + 1]] == circle[..i + 2];
      if circle[i + 1] == "" {
        ReachesNoFurther(circle, i);
      } else {
        ReachesOn(circle, i);
      }
    } else {
      assert circle[0] == targets[0];
    }
  }

  lemma ReachesOn(circle: seq<string>, i: nat)
    requires i + 1 < |circle| && Reach(circle, i + 1) == i + 1 && circle[i + 1] != ""
    ensures Reach(circle, i + 2) == i + 2
  {
  }

  lemma PrefixLacks(names: seq<string>, i: nat)
    requires Distinct(names) && i < |names|
    ensures names[i] !in names[..i]
  {
  }

  lemma ReachesNoFurther(names: seq<string>, i: nat)
    requires i + 1 < |names| && Reach(names, i + 1) == i + 1 && names[i + 1] == ""
    ensures forall n :: i < n <= |names| ==> Reach(names, n) == i + 1
  {
    forall n | i < n <= |names|
      ensures Reach(names, n) == i + 1
    {
      ReachStops(names, i + 1, n);
    }
  }

  lemma CircleEnd(circle: seq<string>, i: nat, left: int, targets: seq<string>)
    requires i < |circle| && targets == circle[..i + 1]
    requires left <= 0 || forall n :: i < n <= |circle| ==> Reach(circle, n) == i + 1
    requires Reach(circle, i + 1) == i + 1
    ensures var copies := Goal(i, left, |circle|);
      1 <= copies <= |circle| && targets == circle[..Reach(circle, copies)]
  {
  }

  /** If every server sits at its hash, the walk goes round the circle, as far as it reaches. */
  lemma {:induction false} RoundOnCircle(ring: Ring, hash: string -> int, h: int, i: nat, targets: seq<string>,
                                         next: string, left: int)
    requires ring != map[] && Placed(ring, hash) && Walked(Circle(ring, h), i, targets, next)
    ensures var circle := Circle(ring, h); var copies := Goal(i, left, |circle|);
      1 <= copies <= |circle| && Round(ring, hash, targets, next, left) == circle[..Reach(circle, copies)]
    decreases if left < 0 then 0 else left
  {
    var circle := Circle(ring, h);
    hide *;
    WalkedIs(circle, i, targets, next);
    SecondOnCircle(ring, hash, h, i);
    CircleStep(circle, i, targets, next);
    var later := SecondServer(ring, hash(next));
    RoundTurn(ring, hash, targets, next, left);
    if left > 0 && later != "" && later !in targets {
      WalkedIs(circle, i + 1, targets + [later], later);
      RoundOnCircle(ring, hash, h, i + 1, targets + [later], later, left - 1);
      GoalStays(i, left, |circle|);
    } else {
      CircleEnd(circle, i, left, targets);
    }
  }

  lemma WalkedIs(circle: seq<string>, i: nat, targets: seq<string>, next: string)
    requires Walked(circle, i, targets, next)
    ensures i < |circle| && targets == circle[..i + 1] && next == circle[i] && Reach(circle, i + 1) == i + 1
  {
  }

  /** How far a round gets that stands at i and has `left` more to go. */
  function Goal(i: nat, left: int, size: nat): int {
    Min(if left < 0 then i + 1 else i + 1 + left, size)
  }

  lemma GoalStays(i: nat, left: int, size: nat)
    requires left > 0
    ensures Goal(i + 1, left - 1, size) == Goal(i, left, size)
  {
  }

  lemma SecondOnCircle(ring: Ring, hash: string -> int, h: int, i: nat)
    requires Placed(ring, hash) && i < |ring|
    ensures SecondServer(ring, hash(Circle(ring, h)[i])) == Circle(ring, h)[if i + 1 < |ring| then i + 1 else 0]
    ensures Distinct(Circle(ring, h))
  {
    NextOnCircle(ring, hash, h, i);
    hide Circle, Placed, Distinct;
  }

  /** The targets of a list, when every server sits at its hash: the circle from the list's
      hash on, as far as the walk reaches among the first replicas + 1 servers. */
  lemma {:induction false} TargetsOnCircle(ring: Ring, hash: string -> int, url: string, replicas: int)
    requires ring != map[] && Placed(ring, hash)
    ensures var circle := Circle(ring, hash(url));
      TargetsOf(ring, hash, url, replicas) == circle[..Reach(circle, Copies(replicas, |ring|))]
  {
    CircleStart(Circle(ring, hash(url)));
    hide Circle, Placed, Reach;
    var first := FirstServer(ring, hash(url));
    RoundOnCircle(ring, hash, hash(url), 0, [first], first, replicas);
  }

  /** On any ring no target comes twice, the list's own server is the first of them, and
      there are at most replicas + 1. */
  lemma {:induction false} TargetsDistinct(ring: Ring, hash: string -> int, url: string, replicas: int)
    ensures var targets := TargetsOf(ring, hash, url, replicas);
      && Distinct(targets) && targets != [] && targets[0] == FirstServer(ring, hash(url))
      && |targets| <= (if replicas < 0 then 0 else replicas) + 1
  {
    var first := FirstServer(ring, hash(url));
    RoundDistinct(ring, hash, [first], first, replicas);
  }

  lemma {:induction false} RoundDistinct(ring: Ring, hash: string -> int, targets: seq<string>, next: string, left: int)
    requires Distinct(targets)
    ensures var all := Round(ring, hash, targets, next, left);
      Distinct(all) && targets <= all && |all| <= |targets| + if left < 0 then 0 else left
    decreases if left < 0 then 0 else left
  {
    var later := SecondServer(ring, hash(next));
    if left > 0 && later != "" && later !in targets {
      RoundDistinct(ring, hash, targets + [later], later, left - 1);
    }
  }

  lemma RoundTurn(ring: Ring, hash: string -> int, targets: seq<string>, next: string, left: int)
    ensures var later := SecondServer(ring, hash(next));
      Round(ring, hash, targets, next, left) ==
        if left > 0 && later != "" && later !in targets
        then Round(ring, hash, targets + [later], later, left - 1) else targets
  {
  }

  lemma TargetsAre(ring: Ring, hash: string -> int, url: string, replicas: int)
    ensures TargetsOf(ring, hash, url, replicas) ==
      Round(ring, hash, [FirstServer(ring, hash(url))], FirstServer(ring, hash(url)), replicas)
  {
  }

  lemma {:induction false} ReachStops(names: seq<string>, k: nat, n: nat)
    requires 1 <= k <= n <= |names| && Reach(names, k) == k && (k < |names| ==> names[k] == "")
    ensures Reach(names, n) == k
  {
    if k < n {
      ReachStops(names, k, n - 1);
    }
  }

  lemma CircleDistinct(ring: Ring, hash: string -> int, h: int)
    requires Placed(ring, hash)
    ensures Distinct(Circle(ring, h))
  {
    AroundIs(ring.Keys, h);
    var q, circle := Around(ring.Keys, h), Circle(ring, h);
    forall a, b | 0 <= a < b < |circle|
      ensures circle[a] != circle[b]
    {
      CircleAt(ring, h, a);
      CircleAt(ring, h, b);
      assert Closer(h, q[a], q[b]);
      assert hash(circle[a]) == q[a] && hash(circle[b]) == q[b];
    }
  }

  /** From the i-th server of the circle, the next server is the next on the circle; the
      names on it are all different. */
  lemma NextOnCircle(ring: Ring, hash: string -> int, h: int, i: nat)
    requires Placed(ring, hash) && i < |ring|
    ensures var circle := Circle(ring, h);
      && Circle(ring, hash(circle[i]))[if |ring| > 1 then 1 else 0] == circle[if i + 1 < |ring| then i + 1 else 0]
      && Distinct(circle)
  {
    CircleDistinct(ring, hash, h);
    var keys, q := ring.Keys, Around(ring.Keys, h);
    CircleAt(ring, h, i);
    CircleAt(ring, h, if i + 1 < |ring| then i + 1 else 0);
    CircleAt(ring, q[i], if |ring| > 1 then 1 else 0);
    assert hash(Circle(ring, h)[i]) == q[i];
    LocateIsFirst(keys, q[i]);
    LocateIsClosest(keys, q[i]);
    hide Around, Locate, Clockwise, Circle, Placed;
    assert Around(keys, q[i])[0] == q[i];
    ClockwiseIsNext(keys, q[i], 0);
    ClockwiseIsNext(keys, h, i);
  }

  /** The walk collects as many servers as it is asked to if and only if none of them but
      the first is nameless. */
  lemma {:induction false} ReachIsFull(names: seq<string>, n: nat)
    requires 1 <= n <= |names|
    ensures Reach(names, n) == n <==> forall i :: 1 <= i < n ==> names[i] != ""
  {
    if n > 1 {
      ReachIsFull(names, n - 1);
    }
  }

  /** The servers that hold a list, when all servers have names. */
  function Holders(ring: Ring, h: int, replicas: int): seq<string> {
    Circle(ring, h)[..Copies(replicas, |ring|)]
  }

  /** Where no server is without a name, the targets are the list's holders. */
  lemma {:induction false} HoldersAreTargets(ring: Ring, hash: string -> int, url: string, replicas: int)
    requires ring != map[] && Placed(ring, hash) && "" !in ring.Values
    ensures TargetsOf(ring, hash, url, replicas) == Holders(ring, hash(url), replicas)
    ensures Distinct(Holders(ring, hash(url), replicas))
    ensures |Holders(ring, hash(url), replicas)| == Copies(replicas, |ring|)
  {
    var h := hash(url);
    var circle, n := Circle(ring, h), Copies(replicas, |ring|);
    TargetsOnCircle(ring, hash, url, replicas);
    forall i | 1 <= i < n
      ensures circle[i] != ""
    {
      CircleAt(ring, h, i);
    }
    ReachIsFull(circle, n);
    CircleDistinct(ring, hash, h);
  }

  /** A new server, at a hash of its own, goes into every circle at one place. */
  lemma {:induction false} CircleInsert(ring: Ring, h: int, k: int, server: string) returns (j: nat)
    requires k !in ring
    ensures Inserted(Circle(ring, h), Circle(ring[k := server], h), j, server)
  {
    var more := ring[k := server];
    j := AroundInsert(ring.Keys, h, k);
    assert |more| == |ring| + 1;
    var q, longer := Circle(ring, h), Circle(more, h);
    AroundSize(ring.Keys, h);
    hide Circle, Around;
    forall i | 0 <= i <= |q|
      ensures i < j ==> longer[i] == q[i]
      ensures i == j ==> longer[i] == server
      ensures i > j ==> longer[i] == q[i - 1]
    {
      CircleInsertAt(ring, h, k, server, j, i);
    }
    assert longer == q[..j] + [server] + q[j..];
  }

  lemma CircleInsertAt(ring: Ring, h: int, k: int, server: string, j: nat, i: nat)
    requires k !in ring && i <= |ring|
    requires Inserted(Around(ring.Keys, h), Around(ring.Keys + {k}, h), j, k)
    ensures |ring[k := server]| == |ring| + 1 && j <= |ring|
    ensures Circle(ring[k := server], h)[i] ==
      if i < j then Circle(ring, h)[i] else if i == j then server else Circle(ring, h)[i - 1]
  {
    hide *;
    var more := ring[k := server];
    assert more.Keys == ring.Keys + {k};
    assert |ring.Keys| == |ring| && |more.Keys| == |more|;
    AroundSize(ring.Keys, h);
    InsertedAt(Around(ring.Keys, h), Around(more.Keys, h), j, k, i);
    CircleAt(more, h, i);
    if i < j {
      CircleAt(ring, h, i);
    } else if i > j {
      CircleAt(ring, h, i - 1);
    }
  }

  lemma AroundSize(keys: set<int>, h: int)
    ensures |Around(keys, h)| == |keys|
  {
    AroundIs(keys, h);
  }

  lemma InsertedAt<T>(q: seq<T>, longer: seq<T>, j: nat, x: T, i: nat)
    requires Inserted(q, longer, j, x) && i <= |q|
    ensures |longer| == |q| + 1 && j <= |q| && longer[i] == if i < j then q[i] else if i == j then x else q[i - 1]
  {
  }

  /** Adding a server leaves the holders of a list alone, or puts the new server among
      them and, if there were replicas + 1 of them already, drops the last. */
  lemma {:induction false} OneServerMore(ring: Ring, h: int, k: int, server: string, replicas: int) returns (j: nat)
    requires k !in ring
    ensures var before, after := Holders(ring, h, replicas), Holders(ring[k := server], h, replicas);
      var full := (if replicas < 0 then 0 else replicas) + 1;
      if j > |before| || j == full then after == before
      else after == (before[..j] + [server] + before[j..])[..if |before| == full then full else |before| + 1]
  {
    j := CircleInsert(ring, h, k, server);
    assert |ring[k := server]| == |ring| + 1;
    hide Circle, Inserted;
    FrontOfInserted(Circle(ring, h), Circle(ring[k := server], h), j, server,
      (if replicas < 0 then 0 else replicas) + 1);
  }

  lemma FrontOfInserted<T>(q: seq<T>, longer: seq<T>, j: nat, x: T, full: nat)
    requires Inserted(q, longer, j, x)
    ensures |longer| == |q| + 1
    ensures var before, after := q[..Min(full, |q|)], longer[..Min(full, |q| + 1)];
      if j > |before| || j == full then after == before
      else after == (before[..j] + [x] + before[j..])[..if |before| == full then full else |before| + 1]
  {
    assert full <= |q| ==> full <= j || (q[..full][..j] + [x] + q[..full][j..])[..full] == longer[..full];
    assert full > |q| ==> q[..|q|] == q && longer[..|longer|] == longer;
  }

  /** A nameless server on the ring ends the walk, and what lies behind it gets no copy. */
  lemma {:induction false} NamelessServerStopsWalk(hash: string -> int)
    requires hash("a") != hash("")
    ensures var ring: Ring := map[hash("a") := "a", hash("") := ""];
      Placed(ring, hash) && Copies(1, |ring|) == 2 && |TargetsOf(ring, hash, "a", 1)| == 1
  {
    var ring: Ring := map[hash("a") := "a", hash("") := ""];
    assert |ring| == |map[hash("a") := "a"]| + 1;
    CircleDistinct(ring, hash, hash("a"));
    CircleAt(ring, hash("a"), 0);
    CircleAt(ring, hash("a"), 1);
    LocateIsFirst(ring.Keys, hash("a"));
    LocateIsClosest(ring.Keys, hash("a"));
    assert Reach(Circle(ring, hash("a")), 1) == 1;
    TargetsOnCircle(ring, hash, "a", 1);
  }
}
