/** Workers joining the ring: the contact adds the newcomer and broadcasts its ring to all
    it has a push socket to; who hears the ring connects to whom it does not know yet. */
module RingJoins {
  import opened Order
  import opened HashRings

  /** What workers send each other; the address says whose pull socket it goes to. */
  datatype Note = JoinRing(to: string, address: string)
                | BroadcastRing(to: string, bind: string, ring: Ring, servers: seq<string>)

  datatype Peer = Peer(address: string, ring: Ring, servers: seq<string>, sockets: map<int, string>)

  /** What follows the last colon, or everything if there is none. */
  function Port(address: string): string {
    if address == "" || address[|address| - 1] == ':' then ""
    else Port(address[..|address| - 1]) + [address[|address| - 1]]
  }

  function ConnectAddress(address: string): string {
    "tcp://localhost:" + Port(address)
  }

  /** The port is all that follows the last colon. */
  lemma {:induction false} PortIs(host: string, port: string)
    requires ':' !in port
    ensures Port(host + ":" + port) == port && Port(port) == port
  {
    var address := host + ":" + port;
    if port == "" {
      assert address[|address| - 1] == ':';
    } else {
      var init, last := port[..|port| - 1], port[|port| - 1];
      PortIs(host, init);
      assert last in port && last != ':' && port == init + [last];
      assert address[..|address| - 1] == host + ":" + init && address[|address| - 1] == last;
    }
  }

  lemma {:induction false} ConnectAddressIs(host: string, port: string)
    requires ':' !in port
    ensures ConnectAddress(host + ":" + port) == "tcp://localhost:" + port
    ensures ConnectAddress(port) == "tcp://localhost:" + port
  {
    PortIs(host, port);
    hide Port;
  }

  /** A port of localhost, by name. */
  ghost predicate IsLocal(address: string) {
    exists port: string :: ':' !in port && address == "tcp://localhost:" + port
  }

  lemma {:induction false} LocalConnects(address: string)
    ensures ConnectAddress(address) == address <==> IsLocal(address)
  {
    if port: string :| ':' !in port && address == "tcp://localhost:" + port {
      assert address == "tcp://localhost" + ":" + port;
      ConnectAddressIs("tcp://localhost", port);
    }
    if ConnectAddress(address) == address {
      NoColonInPort(address);
      assert ':' !in Port(address);
    }
  }

  lemma {:induction false} NoColonInPort(address: string)
    ensures ':' !in Port(address)
  {
    if address != "" && address[|address| - 1] != ':' {
      NoColonInPort(address[..|address| - 1]);
    }
  }

  /** connect_to_broker: where a worker starts. */
  function Started(hash: string -> int, address: string, contact: string): Peer {
    if contact == "" then Peer(address, map[hash(address) := address], [address], map[])
    else Peer(address, map[hash(contact) := contact], [contact], map[hash(contact) := contact])
  }

  /** JOIN_RING */
  function Greeted(p: Peer, hash: string -> int, newcomer: string): Peer {
    Peer(p.address,
         if newcomer in p.servers then p.ring else p.ring[hash(newcomer) := newcomer],
         if newcomer in p.servers then p.servers else p.servers + [newcomer],
         p.sockets[hash(newcomer) := ConnectAddress(newcomer)])
  }

  predicate AreKeys(keys: seq<int>, m: map<int, string>) {
    forall i :: 0 <= i < |keys| ==> keys[i] in m
  }

  /** One turn of the loop over a broadcast ring. */
  function Connected(own: string, hash: string -> int, sockets: map<int, string>, h: int,
                     address: string): map<int, string> {
    if address == own || h in sockets then sockets else sockets[hash(address) := address]
  }

  function ConnectedAll(own: string, hash: string -> int, sockets: map<int, string>, ring: Ring,
                        keys: seq<int>): map<int, string>
    requires AreKeys(keys, ring)
  {
    if keys == [] then sockets
    else
      var last := keys[|keys| - 1];
      Connected(own, hash, ConnectedAll(own, hash, sockets, ring, keys[..|keys| - 1]), last, ring[last])
  }

  /** The order std::map iterates in. */
  function Keys(m: map<int, string>): (q: seq<int>)
    ensures AreKeys(q, m)
  {
    Ordered(0);
    SortedIs(Less, m.Keys);
    var q := Sorted(Less, m.Keys);
    assert forall i :: 0 <= i < |q| ==> q[i] in q;
    q
  }

  lemma KeysAre(m: map<int, string>)
    ensures Distinct(Keys(m)) && forall k :: k in m ==> k in Keys(m)
  {
    Ordered(0);
    SortedIs(Less, m.Keys);
  }

  /** BROADCAST_RING */
  function Informed(p: Peer, hash: string -> int, ring: Ring, servers: seq<string>): Peer {
    Peer(p.address, ring, servers, ConnectedAll(p.address, hash, p.sockets, ring, Keys(ring)))
  }

  function Broadcasts(p: Peer, bind: string, keys: seq<int>): seq<Note>
    requires AreKeys(keys, p.sockets)
  {
    if keys == [] then []
    else Broadcasts(p, bind, keys[..|keys| - 1]) + [BroadcastRing(p.sockets[keys[|keys| - 1]], bind, p.ring, p.servers)]
  }

  class Worker {
    const address: string
    const bind: string
    const ch: ConsistentHashing
    var outbox: seq<Note>

    ghost function View(): Peer
      reads this, ch
    {
      Peer(address, ch.ring, ch.servers, ch.pushSockets)
    }

    constructor (hash: string -> int, address: string, bind: string, connectTo: string)
      ensures this.address == address && this.bind == bind && fresh(ch) && ch.hash == hash
      ensures View() == Started(hash, address, connectTo)
      ensures outbox == if connectTo == "" then [] else [JoinRing(connectTo, address)]
      ensures var known := if connectTo == "" then address else connectTo;
        ch.servers == [known] && ch.ring.Keys == {hash(known)} && ch.ring[hash(known)] == known
    {
      this.address, this.bind, outbox := address, bind, [];
      ch := new ConsistentHashing(hash);
      new;
      if connectTo != "" {
        outbox := outbox + [JoinRing(connectTo, address)];
        ch.AddServer(connectTo);
        ch.AddPushSocketViaServer(connectTo, connectTo);
      } else {
        ch.AddServer(address);
      }
    }

    method OnJoinRing(received: string)
      modifies this, ch
      ensures View() == Greeted(old(View()), ch.hash, received)
      ensures received in old(ch.servers) ==> ch.ring == old(ch.ring) && ch.servers == old(ch.servers)
      ensures outbox == old(outbox) + Broadcasts(View(), bind, Keys(View().sockets))
    {
      hide Port;
      var socket := ConnectAddress(received);
      ch.AddServer(received);
      ch.AddPushSocketViaServer(received, socket);
      var keys, i := Keys(ch.pushSockets), 0;
      while i < |keys|
        modifies `outbox
        invariant i <= |keys|
        invariant outbox == old(outbox) + Broadcasts(View(), bind, keys[..i])
      {
        outbox := outbox + [BroadcastRing(ch.pushSockets[keys[i]], bind, ch.ring, ch.servers)];
        assert keys[..i + 1][..i] == keys[..i];
        i := i + 1;
      }
      assert keys[..i] == keys;
    }

    method OnBroadcastRing(ring: Ring, servers: seq<string>)
      modifies ch
      ensures View() == Informed(old(View()), ch.hash, ring, servers)
      ensures ch.ring == ring && ch.servers == servers
      ensures forall k :: k in ch.pushSockets && k !in old(ch.pushSockets) ==> ch.hash(ch.pushSockets[k]) == k
    {
      ch.UpdateCH(ring, servers);
      var keys, i := Keys(ring), 0;
      while i < |keys|
        invariant i <= |keys| && ch.ring == ring && ch.servers == servers
        invariant ch.pushSockets == ConnectedAll(address, ch.hash, old(ch.pushSockets), ring, keys[..i])
        invariant forall k :: k in ch.pushSockets && k !in old(ch.pushSockets) ==> ch.hash(ch.pushSockets[k]) == k
      {
        var known := ring[keys[i]];
        if known != address && keys[i] !in ch.pushSockets {
          ch.AddPushSocketViaServer(known, known);
        }
        assert keys[..i + 1][..i] == keys[..i];
        i := i + 1;
      }
      assert keys[..i] == keys;
    }
  }

  /** The workers its push sockets are connected to. */
  function Targets(p: Peer): set<string> {
    set h | h in p.sockets :: p.sockets[h]
  }

  type Cluster = map<string, Peer>

  /** One worker joins, and every broadcast it causes is delivered. */
  function Join(c: Cluster, hash: string -> int, address: string, contact: string): Cluster
    requires contact in c
  {
    var host := Greeted(c[contact], hash, address);
    var met := c[address := Started(hash, address, contact)][contact := host];
    map a | a in met :: if a in Targets(host) then Informed(met[a], hash, host.ring, host.servers) else met[a]
  }

  /** Broadcasts reach the workers they are addressed to, one after the other. */
  function Delivered(c: Cluster, hash: string -> int, notes: seq<Note>): Cluster {
    if notes == [] then c
    else
      var d, last := Delivered(c, hash, notes[..|notes| - 1]), notes[|notes| - 1];
      if last.BroadcastRing? && last.to in d
      then d[last.to := Informed(d[last.to], hash, last.ring, last.servers)] else d
  }

  /** All of them broadcast this ring. */
  predicate Carry(notes: seq<Note>, ring: Ring, servers: seq<string>) {
    forall i :: 0 <= i < |notes| ==> notes[i].BroadcastRing? && notes[i].ring == ring && notes[i].servers == servers
  }

  predicate Addressed(notes: seq<Note>, a: string) {
    exists i :: 0 <= i < |notes| && notes[i].to == a
  }

  /** Whoever is addressed has heard the broadcast; to hear it again changes nothing. */
  lemma {:induction false} DeliveredIs(c: Cluster, hash: string -> int, notes: seq<Note>, ring: Ring,
                                       servers: seq<string>)
    requires Carry(notes, ring, servers) && Placed(ring, hash)
    ensures Delivered(c, hash, notes) ==
      map a | a in c :: if Addressed(notes, a) then Informed(c[a], hash, ring, servers) else c[a]
  {
    if notes != [] {
      var init, last := notes[..|notes| - 1], notes[|notes| - 1];
      assert notes == init + [last];
      hide Informed, Addressed, Placed;
      DeliveredIs(c, hash, init, ring, servers);
      forall a
        ensures Addressed(notes, a) <==> Addressed(init, a) || a == last.to
      {
        AddressedSnoc(init, last, a);
      }
      if last.to in c {
        InformedAgain(c[last.to], hash, ring, servers);
      }
    } else {
      NoneAddressed();
    }
  }

  lemma NoneAddressed()
    ensures forall a :: !Addressed([], a)
  {
  }

  lemma InformedAgain(p: Peer, hash: string -> int, ring: Ring, servers: seq<string>)
    requires Placed(ring, hash)
    ensures Informed(Informed(p, hash, ring, servers), hash, ring, servers) == Informed(p, hash, ring, servers)
  {
    var keys := Keys(ring);
    ConnectsAll(p.address, hash, p.sockets, ring, keys);
    hide ConnectedAll, Placed;
    ConnectsNothing(p.address, hash, ConnectedAll(p.address, hash, p.sockets, ring, keys), ring, keys);
  }

  /** The loop finds or makes a socket for every entry but its own, and touches none that is there. */
  lemma {:induction false} ConnectsAll(own: string, hash: string -> int, sockets: map<int, string>, ring: Ring,
                                       keys: seq<int>)
    requires AreKeys(keys, ring) && Placed(ring, hash)
    ensures var after := ConnectedAll(own, hash, sockets, ring, keys);
      && (forall h :: h in sockets ==> h in after && after[h] == sockets[h])
      && (forall i :: 0 <= i < |keys| && ring[keys[i]] != own ==> keys[i] in after)
  {
    if keys != [] {
      ConnectsAll(own, hash, sockets, ring, keys[..|keys| - 1]);
    }
  }

  lemma {:induction false} ConnectsNothing(own: string, hash: string -> int, sockets: map<int, string>, ring: Ring,
                                           keys: seq<int>)
    requires AreKeys(keys, ring) && forall i :: 0 <= i < |keys| && ring[keys[i]] != own ==> keys[i] in sockets
    ensures ConnectedAll(own, hash, sockets, ring, keys) == sockets
  {
    if keys != [] {
      ConnectsNothing(own, hash, sockets, ring, keys[..|keys| - 1]);
    }
  }

  lemma AddressedSnoc(notes: seq<Note>, last: Note, a: string)
    ensures Addressed(notes + [last], a) <==> Addressed(notes, a) || a == last.to
  {
    if Addressed(notes, a) {
      var i :| 0 <= i < |notes| && notes[i].to == a;
      assert (notes + [last])[i].to == a;
    }
    assert (notes + [last])[|notes|] == last;
  }

  lemma {:induction false} BroadcastsAre(p: Peer, bind: string, keys: seq<int>)
    requires AreKeys(keys, p.sockets)
    ensures var notes := Broadcasts(p, bind, keys);
      |notes| == |keys| && forall i :: 0 <= i < |keys| ==>
        notes[i] == BroadcastRing(p.sockets[keys[i]], bind, p.ring, p.servers)
  {
    if keys != [] {
      BroadcastsAre(p, bind, keys[..|keys| - 1]);
    }
  }

  /** A join is what the contact's OnJoinRing and the delivery of what it puts into its
      outbox come to, if the contact's ring has every server at its hash. */
  lemma {:induction false} JoinIsDelivery(c: Cluster, hash: string -> int, address: string, contact: string,
                                          bind: string)
    requires contact in c && Placed(c[contact].ring, hash)
    ensures var host := Greeted(c[contact], hash, address);
      Join(c, hash, address, contact) ==
        Delivered(c[address := Started(hash, address, contact)][contact := host], hash,
          Broadcasts(host, bind, Keys(host.sockets)))
  {
    var host := Greeted(c[contact], hash, address);
    var notes := Broadcasts(host, bind, Keys(host.sockets));
    var met := c[address := Started(hash, address, contact)][contact := host];
    GreetedPlaced(c[contact], hash, address);
    hide Placed, Informed, Started, Greeted, Broadcasts, Keys, Targets, Addressed, Carry, Delivered;
    BroadcastsCarry(host, bind);
    AddressedAre(host, bind);
    DeliveredIs(met, hash, notes, host.ring, host.servers);
  }

  lemma BroadcastsCarry(p: Peer, bind: string)
    ensures Carry(Broadcasts(p, bind, Keys(p.sockets)), p.ring, p.servers)
  {
    hide Keys, Broadcasts;
    BroadcastsAre(p, bind, Keys(p.sockets));
  }

  lemma AddressedAt(notes: seq<Note>, i: nat)
    requires i < |notes|
    ensures Addressed(notes, notes[i].to)
  {
  }

  lemma TargetAt(p: Peer, h: int)
    requires h in p.sockets
    ensures p.sockets[h] in Targets(p)
  {
  }

  lemma AddressedAre(p: Peer, bind: string)
    ensures forall a :: Addressed(Broadcasts(p, bind, Keys(p.sockets)), a) <==> a in Targets(p)
  {
    var keys := Keys(p.sockets);
    var notes := Broadcasts(p, bind, keys);
    hide Keys, Broadcasts;
    KeysAre(p.sockets);
    BroadcastsAre(p, bind, keys);
    forall a | a in Targets(p)
      ensures Addressed(notes, a)
    {
      var h :| h in p.sockets && p.sockets[h] == a;
      var i :| 0 <= i < |keys| && keys[i] == h;
      AddressedAt(notes, i);
    }
    forall a | Addressed(notes, a)
      ensures a in Targets(p)
    {
      var i :| 0 <= i < |notes| && notes[i].to == a;
      TargetAt(p, keys[i]);
    }
  }

  /** m holds exactly the given addresses, each at its own hash. */
  ghost predicate Holds(m: map<int, string>, hash: string -> int, addresses: set<string>) {
    && (forall a :: a in addresses ==> hash(a) in m && m[hash(a)] == a)
    && (forall h :: h in m ==> m[h] in addresses && hash(m[h]) == h)
  }

  ghost predicate Apart(hash: string -> int, addresses: set<string>) {
    forall a, b :: a in addresses && b in addresses && hash(a) == hash(b) ==> a == b
  }

  /** Every worker knows the whole ring and has a push socket to every other worker. */
  ghost predicate Complete(c: Cluster, hash: string -> int) {
    forall a :: a in c ==> IsMember(c[a], hash, a, c.Keys)
  }

  ghost predicate IsMember(p: Peer, hash: string -> int, a: string, members: set<string>) {
    && p.address == a && Holds(p.ring, hash, members) && (forall s :: s in p.servers <==> s in members)
    && Holds(p.sockets, hash, members - {a})
  }

  /** The addresses other than its own that a worker finds in a ring. */
  function Others(own: string, ring: Ring, keys: seq<int>): set<string>
    requires AreKeys(keys, ring)
  {
    if keys == [] then {}
    else
      var last := ring[keys[|keys| - 1]];
      Others(own, ring, keys[..|keys| - 1]) + (if last == own then {} else {last})
  }

  lemma {:induction false} OthersAre(own: string, ring: Ring, keys: seq<int>)
    requires AreKeys(keys, ring)
    ensures forall a :: a in Others(own, ring, keys) <==> a != own && exists i :: 0 <= i < |keys| && ring[keys[i]] == a
  {
    if keys != [] {
      var init := keys[..|keys| - 1];
      OthersAre(own, ring, init);
      forall a | a != own && exists i :: 0 <= i < |keys| && ring[keys[i]] == a
        ensures a in Others(own, ring, keys)
      {
        var i :| 0 <= i < |keys| && ring[keys[i]] == a;
        assert i < |init| ==> ring[init[i]] == a;
      }
      forall a | a in Others(own, ring, init)
        ensures exists i :: 0 <= i < |keys| && ring[keys[i]] == a
      {
        var i :| 0 <= i < |init| && ring[init[i]] == a;
        assert ring[keys[i]] == a;
      }
    }
  }

  lemma {:induction false} ConnectsMissing(own: string, hash: string -> int, sockets: map<int, string>, ring: Ring,
                                           keys: seq<int>, known: set<string>, members: set<string>)
    requires Apart(hash, members) && Holds(ring, hash, members) && Holds(sockets, hash, known) && known <= members
    requires AreKeys(keys, ring)
    ensures Holds(ConnectedAll(own, hash, sockets, ring, keys), hash, known + Others(own, ring, keys))
  {
    if keys != [] {
      var init, last := keys[..|keys| - 1], keys[|keys| - 1];
      ConnectsMissing(own, hash, sockets, ring, init, known, members);
      OthersAre(own, ring, init);
      var before := ConnectedAll(own, hash, sockets, ring, init);
      if last in before {
        if before[last] !in known {
          var i :| 0 <= i < |init| && ring[init[i]] == before[last];
          HoldsAt(ring, hash, members, init[i]);
        }
        HoldsAt(before, hash, known + Others(own, ring, init), last);
        HoldsAt(ring, hash, members, last);
      }
    }
  }

  lemma HoldsAt(m: map<int, string>, hash: string -> int, addresses: set<string>, h: int)
    requires Holds(m, hash, addresses) && h in m
    ensures m[h] in addresses && hash(m[h]) == h
  {
  }

  lemma InformedHolds(p: Peer, hash: string -> int, ring: Ring, servers: seq<string>, known: set<string>,
                      members: set<string>)
    requires Apart(hash, members) && Holds(ring, hash, members) && Holds(p.sockets, hash, known) && known <= members
    requires p.address !in known && forall s :: s in servers <==> s in members
    ensures IsMember(Informed(p, hash, ring, servers), hash, p.address, members)
  {
    var keys := Keys(ring);
    ConnectsMissing(p.address, hash, p.sockets, ring, keys, known, members);
    OthersInRing(p.address, hash, ring, members);
    assert known + Others(p.address, ring, keys) == members - {p.address};
    hide ConnectedAll, Others, Holds, Apart;
  }

  lemma OthersInRing(own: string, hash: string -> int, ring: Ring, members: set<string>)
    requires Holds(ring, hash, members)
    ensures Others(own, ring, Keys(ring)) == members - {own}
  {
    var keys := Keys(ring);
    KeysAre(ring);
    OthersAre(own, ring, keys);
    forall a | a in members && a != own
      ensures a in Others(own, ring, keys)
    {
      var i :| 0 <= i < |keys| && keys[i] == hash(a);
      assert ring[keys[i]] == a;
    }
  }

  /** What a join needs: the newcomer's name is the address its contact connects to, and no
      two members have one hash. */
  ghost predicate Proper(hash: string -> int, members: set<string>, address: string) {
    ConnectAddress(address) == address && Apart(hash, members + {address})
  }

  lemma GreetedHolds(p: Peer, hash: string -> int, members: set<string>, newcomer: string)
    requires IsMember(p, hash, p.address, members) && p.address in members
    requires newcomer != p.address && Proper(hash, members, newcomer)
    ensures IsMember(Greeted(p, hash, newcomer), hash, p.address, members + {newcomer})
    ensures Targets(Greeted(p, hash, newcomer)) == members + {newcomer} - {p.address}
  {
    var g := Greeted(p, hash, newcomer);
    hide ConnectAddress;
    assert newcomer !in members ==> g.servers == p.servers + [newcomer];
    forall a | a in members + {newcomer} - {p.address}
      ensures a in Targets(g)
    {
      assert g.sockets[hash(a)] == a;
    }
  }

  lemma ProperJoinCompletes(c: Cluster, hash: string -> int, address: string, contact: string)
    requires Complete(c, hash) && contact in c && contact != "" && contact != address && Proper(hash, c.Keys, address)
    ensures Complete(Join(c, hash, address, contact), hash)
  {
    var members, host := c.Keys + {address}, Greeted(c[contact], hash, address);
    assert Join(c, hash, address, contact).Keys == members;
    assert IsMember(c[contact], hash, contact, c.Keys);
    GreetedHolds(c[contact], hash, c.Keys, address);
    hide Informed, Greeted, Started, Holds, Proper;
    forall a | a in members
      ensures IsMember(Join(c, hash, address, contact)[a], hash, a, members)
    {
      if a == address {
        NewcomerIsMember(c, hash, address, contact);
      } else if a != contact {
        MemberStays(c, hash, address, contact, a);
      }
    }
  }

  lemma MemberOf(c: Cluster, hash: string -> int, a: string)
    requires Complete(c, hash) && a in c
    ensures IsMember(c[a], hash, a, c.Keys)
  {
  }

  lemma JoinAt(c: Cluster, hash: string -> int, address: string, contact: string, a: string)
    requires contact in c && a in c.Keys + {address}
    ensures var host := Greeted(c[contact], hash, address);
      var met := if a == contact then host else if a == address then Started(hash, address, contact) else c[a];
      && a in Join(c, hash, address, contact)
      && Join(c, hash, address, contact)[a] ==
        if a in Targets(host) then Informed(met, hash, host.ring, host.servers) else met
  {
    hide Informed, Greeted, Started, Targets;
  }

  lemma NewcomerIsMember(c: Cluster, hash: string -> int, address: string, contact: string)
    requires Complete(c, hash) && contact in c && contact != "" && contact != address && Proper(hash, c.Keys, address)
    ensures address in Join(c, hash, address, contact)
    ensures IsMember(Join(c, hash, address, contact)[address], hash, address, c.Keys + {address})
  {
    hide Complete, Join, Greeted, Informed, ConnectAddress, Targets, Apart;
    var members, host := c.Keys + {address}, Greeted(c[contact], hash, address);
    MemberOf(c, hash, contact);
    GreetedHolds(c[contact], hash, c.Keys, address);
    JoinAt(c, hash, address, contact, address);
    InformedHolds(Started(hash, address, contact), hash, host.ring, host.servers, {contact}, members);
  }

  lemma MemberStays(c: Cluster, hash: string -> int, address: string, contact: string, a: string)
    requires Complete(c, hash) && contact in c && contact != address && Proper(hash, c.Keys, address)
    requires a in c && a != contact && a != address
    ensures a in Join(c, hash, address, contact)
    ensures IsMember(Join(c, hash, address, contact)[a], hash, a, c.Keys + {address})
  {
    hide Complete, Join, Greeted, Informed, ConnectAddress, Started, Targets, Apart, Holds;
    var members, host := c.Keys + {address}, Greeted(c[contact], hash, address);
    MemberOf(c, hash, contact);
    MemberOf(c, hash, a);
    GreetedHolds(c[contact], hash, c.Keys, address);
    JoinAt(c, hash, address, contact, a);
    InformedHolds(c[a], hash, host.ring, host.servers, c.Keys - {a}, members);
  }

  ghost predicate AllPlaced(c: Cluster, hash: string -> int) {
    forall a :: a in c ==> Placed(c[a].ring, hash)
  }

  lemma CompleteIsPlaced(c: Cluster, hash: string -> int)
    requires Complete(c, hash)
    ensures AllPlaced(c, hash)
  {
    forall a | a in c
      ensures Placed(c[a].ring, hash)
    {
      assert IsMember(c[a], hash, a, c.Keys);
    }
  }

  /** The contact's socket for the newcomer stays the one it made when the newcomer said so. */
  lemma ContactHolds(c: Cluster, hash: string -> int, address: string, contact: string)
    requires contact in c && AllPlaced(c, hash)
    ensures var p := Join(c, hash, address, contact)[contact];
      hash(address) in p.sockets && p.sockets[hash(address)] == ConnectAddress(address)
  {
    hide ConnectAddress, Informed, Join, Targets, Placed;
    var host := Greeted(c[contact], hash, address);
    GreetedPlaced(c[contact], hash, address);
    JoinAt(c, hash, address, contact, contact);
    assert hash(address) in host.sockets && host.sockets[hash(address)] == ConnectAddress(address);
    InformedKeeps(host, hash, host.ring, host.servers, hash(address));
  }

  lemma InformedKeeps(p: Peer, hash: string -> int, ring: Ring, servers: seq<string>, h: int)
    requires Placed(ring, hash) && h in p.sockets
    ensures var g := Informed(p, hash, ring, servers); h in g.sockets && g.sockets[h] == p.sockets[h]
  {
    ConnectsAll(p.address, hash, p.sockets, ring, Keys(ring));
    hide ConnectedAll, Keys, Placed;
  }

  lemma GreetedPlaced(p: Peer, hash: string -> int, newcomer: string)
    requires Placed(p.ring, hash)
    ensures Placed(Greeted(p, hash, newcomer).ring, hash)
  {
    hide ConnectAddress;
  }

  lemma CompleteIsApart(c: Cluster, hash: string -> int)
    requires Complete(c, hash)
    ensures Apart(hash, c.Keys)
  {
    forall a, b | a in c && b in c && hash(a) == hash(b)
      ensures a == b
    {
      assert IsMember(c[a], hash, a, c.Keys);
    }
  }

  lemma CompleteJoinIsProper(c: Cluster, hash: string -> int, address: string, contact: string)
    requires AllPlaced(c, hash) && contact in c && contact != address && Complete(Join(c, hash, address, contact), hash)
    ensures Proper(hash, c.Keys, address)
  {
    var j := Join(c, hash, address, contact);
    hide ConnectAddress, Join, Apart, AllPlaced, Complete;
    JoinKeys(c, hash, address, contact);
    ContactHolds(c, hash, address, contact);
    CompleteIsApart(j, hash);
    SocketIsAddress(j, hash, address, contact);
  }

  lemma JoinKeys(c: Cluster, hash: string -> int, address: string, contact: string)
    requires contact in c
    ensures Join(c, hash, address, contact).Keys == c.Keys + {address}
  {
    hide Informed, Greeted, Started, Targets;
  }

  lemma SocketIsAddress(c: Cluster, hash: string -> int, address: string, contact: string)
    requires Complete(c, hash) && contact in c && address in c && contact != address
    ensures hash(address) in c[contact].sockets && c[contact].sockets[hash(address)] == address
  {
    assert IsMember(c[contact], hash, contact, c.Keys);
  }

  /** A worker joins a complete cluster through any other member, for the first time or after
      a restart: once the broadcasts are delivered the cluster is complete again, with it in
      it, if and only if its address is what the contact connects to, tcp://localhost and
      its port, and no other member has its hash. */
  lemma {:induction false} JoinCompletesWhen(c: Cluster, hash: string -> int, address: string, contact: string)
    requires Complete(c, hash) && contact in c && contact != "" && contact != address
    ensures Complete(Join(c, hash, address, contact), hash) <==>
      IsLocal(address) && Apart(hash, c.Keys + {address})
    ensures Join(c, hash, address, contact).Keys == c.Keys + {address}
  {
    hide Complete, Join, ConnectAddress, IsLocal, Apart, AllPlaced;
    LocalConnects(address);
    JoinKeys(c, hash, address, contact);
    CompleteIsPlaced(c, hash);
    if Complete(Join(c, hash, address, contact), hash) {
      CompleteJoinIsProper(c, hash, address, contact);
    }
    if ConnectAddress(address) == address && Apart(hash, c.Keys + {address}) {
      ProperJoinCompletes(c, hash, address, contact);
    }
  }

  /** A worker joins through another that is there; no other join takes place. */
  predicate TakesPlace(c: Cluster, join: (string, string)) {
    join.1 in c && join.1 != "" && join.0 != join.1
  }

  /** The cluster after workers joined one after the other; one that joins again has restarted. */
  function After(hash: string -> int, first: string, joins: seq<(string, string)>): Cluster {
    if joins == [] then map[first := Started(hash, first, "")]
    else
      var c, last := After(hash, first, joins[..|joins| - 1]), joins[|joins| - 1];
      if TakesPlace(c, last) then Join(c, hash, last.0, last.1) else c
  }

  /** Whoever joins has the address its contact connects to. */
  ghost predicate Named(hash: string -> int, first: string, joins: seq<(string, string)>) {
    forall k :: 0 <= k < |joins| && TakesPlace(After(hash, first, joins[..k]), joins[k]) ==>
      IsLocal(joins[k].0)
  }

  /** Nobody joins twice. */
  ghost predicate JoinedOnce(hash: string -> int, first: string, joins: seq<(string, string)>) {
    forall k :: 0 <= k < |joins| && TakesPlace(After(hash, first, joins[..k]), joins[k]) ==>
      joins[k].0 !in After(hash, first, joins[..k])
  }

  ghost predicate AlwaysComplete(hash: string -> int, first: string, joins: seq<(string, string)>) {
    forall k :: 0 <= k <= |joins| ==> Complete(After(hash, first, joins[..k]), hash)
  }

  /** A longer run is the shorter one and its last join, and so is what the three say of it. */
  lemma OneMoreJoin(hash: string -> int, first: string, joins: seq<(string, string)>)
    requires joins != []
    ensures var init, last := joins[..|joins| - 1], joins[|joins| - 1];
      var c, g := After(hash, first, init), After(hash, first, joins);
      && g == (if TakesPlace(c, last) then Join(c, hash, last.0, last.1) else c)
      && g.Keys == (if TakesPlace(c, last) then c.Keys + {last.0} else c.Keys)
      && (AlwaysComplete(hash, first, joins) <==> AlwaysComplete(hash, first, init) && Complete(g, hash))
      && (Named(hash, first, joins) <==>
        Named(hash, first, init) && (TakesPlace(c, last) ==> IsLocal(last.0)))
      && (JoinedOnce(hash, first, joins) <==> JoinedOnce(hash, first, init) && (TakesPlace(c, last) ==> last.0 !in c))
  {
    var init, last := joins[..|joins| - 1], joins[|joins| - 1];
    assert joins == init + [last];
    hide *;
    AfterSnoc(hash, first, init, last);
    JoinKeysIf(After(hash, first, init), hash, last);
    AlwaysSnoc(hash, first, init, last);
    NamedSnoc(hash, first, init, last);
    OnceSnoc(hash, first, init, last);
  }

  lemma AfterSnoc(hash: string -> int, first: string, joins: seq<(string, string)>, last: (string, string))
    ensures var c := After(hash, first, joins);
      After(hash, first, joins + [last]) == if TakesPlace(c, last) then Join(c, hash, last.0, last.1) else c
  {
    assert (joins + [last])[..|joins|] == joins;
    hide Join;
  }

  lemma Prefix(joins: seq<(string, string)>, last: (string, string), k: nat)
    requires k <= |joins|
    ensures (joins + [last])[..k] == joins[..k] && joins[..|joins|] == joins
    ensures (joins + [last])[..|joins + [last]|] == joins + [last]
    ensures k < |joins| ==> (joins + [last])[k] == joins[k]
    ensures (joins + [last])[|joins|] == last
  {
  }

  lemma AlwaysSnoc(hash: string -> int, first: string, joins: seq<(string, string)>, last: (string, string))
    ensures AlwaysComplete(hash, first, joins + [last]) <==>
      AlwaysComplete(hash, first, joins) && Complete(After(hash, first, joins + [last]), hash)
  {
    hide Complete, After;
    Prefix(joins, last, 0);
    forall k | 0 <= k <= |joins|
      ensures (joins + [last])[..k] == joins[..k]
    {
      Prefix(joins, last, k);
    }
  }

  lemma NamedSnoc(hash: string -> int, first: string, joins: seq<(string, string)>, last: (string, string))
    ensures Named(hash, first, joins + [last]) <==>
      Named(hash, first, joins) && (TakesPlace(After(hash, first, joins), last) ==> IsLocal(last.0))
  {
    hide IsLocal, TakesPlace, After;
    Prefix(joins, last, |joins|);
    forall k | 0 <= k < |joins|
      ensures (joins + [last])[..k] == joins[..k] && (joins + [last])[k] == joins[k]
    {
      Prefix(joins, last, k);
    }
  }

  lemma OnceSnoc(hash: string -> int, first: string, joins: seq<(string, string)>, last: (string, string))
    ensures var c := After(hash, first, joins);
      JoinedOnce(hash, first, joins + [last]) <==>
        JoinedOnce(hash, first, joins) && (TakesPlace(c, last) ==> last.0 !in c)
  {
    hide TakesPlace, After;
    Prefix(joins, last, |joins|);
    forall k | 0 <= k < |joins|
      ensures (joins + [last])[..k] == joins[..k] && (joins + [last])[k] == joins[k]
    {
      Prefix(joins, last, k);
    }
  }

  lemma JoinKeysIf(c: Cluster, hash: string -> int, join: (string, string))
    ensures TakesPlace(c, join) ==> join.1 in c && Join(c, hash, join.0, join.1).Keys == c.Keys + {join.0}
  {
    if TakesPlace(c, join) {
      JoinKeys(c, hash, join.0, join.1);
    }
  }

  lemma BeginsComplete(hash: string -> int, first: string)
    ensures Complete(After(hash, first, []), hash) && AlwaysComplete(hash, first, []) && Named(hash, first, [])
    ensures Apart(hash, After(hash, first, []).Keys) && AllPlaced(After(hash, first, []), hash)
    ensures first in After(hash, first, [])
  {
    var c := After(hash, first, []);
    assert IsMember(c[first], hash, first, {first}) && c.Keys == {first};
  }

  lemma Narrower(hash: string -> int, addresses: set<string>, fewer: set<string>)
    requires Apart(hash, addresses) && fewer <= addresses
    ensures Apart(hash, fewer)
  {
  }

  lemma LastComplete(hash: string -> int, first: string, joins: seq<(string, string)>)
    requires AlwaysComplete(hash, first, joins)
    ensures Complete(After(hash, first, joins), hash)
  {
    assert joins[..|joins|] == joins;
  }

  /** Serial joins of any number of workers: the cluster is complete after every one of them
      if and only if all who join have the address their contact connects to, and no two
      members have one hash. */
  lemma {:induction false} AlwaysCompleteWhen(hash: string -> int, first: string, joins: seq<(string, string)>)
    ensures AlwaysComplete(hash, first, joins) <==>
      Named(hash, first, joins) && Apart(hash, After(hash, first, joins).Keys)
  {
    hide *;
    if joins == [] {
      BeginsComplete(hash, first);
    } else {
      var init, last := joins[..|joins| - 1], joins[|joins| - 1];
      var c, g := After(hash, first, init), After(hash, first, joins);
      AlwaysCompleteWhen(hash, first, init);
      OneMoreJoin(hash, first, joins);
      if AlwaysComplete(hash, first, init) {
        LastComplete(hash, first, init);
        if TakesPlace(c, last) {
          PlaceTaken(c, last);
          JoinCompletesWhen(c, hash, last.0, last.1);
        }
      } else if Apart(hash, g.Keys) {
        Narrower(hash, g.Keys, c.Keys);
      }
    }
  }

  lemma PlaceTaken(c: Cluster, join: (string, string))
    requires TakesPlace(c, join)
    ensures join.1 in c && join.1 != "" && join.0 != join.1
  {
  }

  /** p has the socket for a that it made when a joined, unless another member has a's hash. */
  ghost predicate Remembers(c: Cluster, hash: string -> int, p: string, a: string) {
    && p in c && a in c && p != a
    && (Apart(hash, c.Keys) ==> hash(a) in c[p].sockets && c[p].sockets[hash(a)] == ConnectAddress(a))
  }

  lemma JoinKeepsPlaced(c: Cluster, hash: string -> int, address: string, contact: string)
    requires AllPlaced(c, hash) && contact in c
    ensures AllPlaced(Join(c, hash, address, contact), hash)
  {
    hide ConnectedAll, ConnectAddress, Targets, Keys;
  }

  lemma {:induction false} RunPlaced(hash: string -> int, first: string, joins: seq<(string, string)>)
    ensures AllPlaced(After(hash, first, joins), hash)
  {
    hide AllPlaced, Join, After, TakesPlace;
    if joins == [] {
      BeginsComplete(hash, first);
    } else {
      var init, last := joins[..|joins| - 1], joins[|joins| - 1];
      RunPlaced(hash, first, init);
      OneMoreJoin(hash, first, joins);
      if TakesPlace(After(hash, first, init), last) {
        PlaceTaken(After(hash, first, init), last);
        JoinKeepsPlaced(After(hash, first, init), hash, last.0, last.1);
      }
    }
  }

  lemma JoinRemembers(c: Cluster, hash: string -> int, address: string, contact: string, p: string, a: string)
    requires AllPlaced(c, hash) && contact in c && contact != address && address !in c && Remembers(c, hash, p, a)
    ensures Remembers(Join(c, hash, address, contact), hash, p, a)
  {
    var j := Join(c, hash, address, contact);
    hide ConnectAddress, Informed, Join, Targets, Placed;
    JoinKeys(c, hash, address, contact);
    if Apart(hash, j.Keys) {
      Narrower(hash, j.Keys, c.Keys);
      assert hash(a) != hash(address);
      var host := Greeted(c[contact], hash, address);
      var met := if p == contact then host else c[p];
      GreetedPlaced(c[contact], hash, address);
      JoinAt(c, hash, address, contact, p);
      InformedKeeps(met, hash, host.ring, host.servers, hash(a));
    }
  }

  lemma {:induction false} RunRemembers(hash: string -> int, first: string, joins: seq<(string, string)>, k: nat)
    requires k < |joins| && JoinedOnce(hash, first, joins) && TakesPlace(After(hash, first, joins[..k]), joins[k])
    ensures Remembers(After(hash, first, joins), hash, joins[k].1, joins[k].0)
  {
    var init, last := joins[..|joins| - 1], joins[|joins| - 1];
    var c := After(hash, first, init);
    hide *;
    OneMoreJoin(hash, first, joins);
    RunPlaced(hash, first, init);
    if k < |init| {
      assert init[..k] == joins[..k] && init[k] == joins[k];
      RunRemembers(hash, first, init, k);
      if TakesPlace(c, last) {
        PlaceTaken(c, last);
        JoinRemembers(c, hash, last.0, last.1, joins[k].1, joins[k].0);
      }
    } else {
      assert init == joins[..k];
      PlaceTaken(c, last);
      FreshlyRemembered(c, hash, last.0, last.1);
    }
  }

  lemma FreshlyRemembered(c: Cluster, hash: string -> int, address: string, contact: string)
    requires AllPlaced(c, hash) && contact in c && contact != address
    ensures Remembers(Join(c, hash, address, contact), hash, contact, address)
  {
    hide Join, Apart, AllPlaced, ConnectAddress;
    JoinKeys(c, hash, address, contact);
    ContactHolds(c, hash, address, contact);
  }

  /** If nobody joins twice, whether the cluster is complete in the end depends on nothing else
      either: a wrong socket stays wrong, and a lost member stays lost. */
  lemma {:induction false} CompleteWhen(hash: string -> int, first: string, joins: seq<(string, string)>)
    requires JoinedOnce(hash, first, joins)
    ensures Complete(After(hash, first, joins), hash) <==>
      Named(hash, first, joins) && Apart(hash, After(hash, first, joins).Keys)
  {
    var g := After(hash, first, joins);
    hide Complete, After, Apart, ConnectAddress, IsLocal, AlwaysComplete, TakesPlace, JoinedOnce;
    AlwaysCompleteWhen(hash, first, joins);
    if Named(hash, first, joins) && Apart(hash, g.Keys) {
      LastComplete(hash, first, joins);
    }
    if Complete(g, hash) {
      CompleteIsApart(g, hash);
      forall k | 0 <= k < |joins| && TakesPlace(After(hash, first, joins[..k]), joins[k])
        ensures IsLocal(joins[k].0)
      {
        LocalConnects(joins[k].0);
        RunRemembers(hash, first, joins, k);
        SocketIsAddress(g, hash, joins[k].0, joins[k].1);
      }
    }
  }

  function Addresses(first: string, joins: seq<(string, string)>): set<string> {
    {first} + set i | 0 <= i < |joins| :: joins[i].0
  }

  lemma AddressesSnoc(first: string, joins: seq<(string, string)>)
    requires joins != []
    ensures Addresses(first, joins) == Addresses(first, joins[..|joins| - 1]) + {joins[|joins| - 1].0}
  {
  }

  /** Whoever joins through the first worker is a member. */
  lemma {:induction false} AllJoin(hash: string -> int, first: string, joins: seq<(string, string)>)
    requires first != "" && forall i :: 0 <= i < |joins| ==> joins[i].1 == first
    ensures first in After(hash, first, joins) && After(hash, first, joins).Keys == Addresses(first, joins)
  {
    if joins != [] {
      AddressesSnoc(first, joins);
      OneMoreJoin(hash, first, joins);
      AllJoin(hash, first, joins[..|joins| - 1]);
      hide After, Addresses;
    }
  }

  /** What it is to be complete after serial joins: all workers hold the same ring and the same
      servers, those of the full membership, every one at its hash, and each has a push
      socket to exactly every other one. All who ever joined are members if they joined
      through the first worker. */
  lemma {:induction false} SerialJoins(hash: string -> int, first: string, joins: seq<(string, string)>)
    ensures var c := After(hash, first, joins);
      Complete(c, hash) ==>
        && (forall a :: a in c ==> Holds(c[a].ring, hash, c.Keys) && Placed(c[a].ring, hash))
        && (forall a :: a in c ==> Holds(c[a].sockets, hash, c.Keys - {a}))
        && (forall a, s :: a in c ==> (s in c[a].servers <==> s in c.Keys))
        && (forall a, b :: a in c && b in c ==> c[a].ring == c[b].ring)
    ensures first != "" && (forall i :: 0 <= i < |joins| ==> joins[i].1 == first) ==>
      After(hash, first, joins).Keys == Addresses(first, joins)
  {
    var c := After(hash, first, joins);
    if (forall i :: 0 <= i < |joins| ==> joins[i].1 == first) && first != "" {
      AllJoin(hash, first, joins);
    }
    hide After, Addresses;
    if Complete(c, hash) {
      CompleteIsUniform(c, hash);
    }
  }

  lemma CompleteIsUniform(c: Cluster, hash: string -> int)
    requires Complete(c, hash)
    ensures forall a :: a in c ==>
      Holds(c[a].ring, hash, c.Keys) && Placed(c[a].ring, hash) && Holds(c[a].sockets, hash, c.Keys - {a})
    ensures forall a, s :: a in c ==> (s in c[a].servers <==> s in c.Keys)
    ensures forall a, b :: a in c && b in c ==> c[a].ring == c[b].ring
  {
    CompleteIsPlaced(c, hash);
    hide Holds, Placed;
    forall a, s | a in c
      ensures s in c[a].servers <==> s in c.Keys
    {
      assert IsMember(c[a], hash, a, c.Keys);
    }
    forall a, b | a in c && b in c
      ensures c[a].ring == c[b].ring
    {
      assert IsMember(c[a], hash, a, c.Keys) && IsMember(c[b], hash, b, c.Keys);
      OneRing(c[a].ring, c[b].ring, hash, c.Keys);
    }
  }

  lemma OneRing(m: Ring, n: Ring, hash: string -> int, addresses: set<string>)
    requires Holds(m, hash, addresses) && Holds(n, hash, addresses)
    ensures m == n
  {
    forall h | h in m
      ensures h in n && m[h] == n[h]
    {
      assert m[h] in addresses;
    }
    forall h | h in n
      ensures h in m
    {
      assert n[h] in addresses;
    }
    assert m.Keys == n.Keys;
  }

  lemma TwoWorkers(hash: string -> int, first: string, second: string)
    requires first != "" && first != second
    ensures var joins := [(second, first)];
      && JoinedOnce(hash, first, joins) && After(hash, first, joins).Keys == {first, second}
      && (Named(hash, first, joins) <==> IsLocal(second))
  {
    var joins := [(second, first)];
    assert joins[..0] == [] && joins[0] == (second, first);
    Alone(hash, first, second);
    hide *;
    BeginsComplete(hash, first);
    OneMoreJoin(hash, first, joins);
  }

  lemma Alone(hash: string -> int, first: string, second: string)
    requires first != "" && first != second
    ensures After(hash, first, []).Keys == {first} && TakesPlace(After(hash, first, []), (second, first))
    ensures JoinedOnce(hash, first, [])
  {
  }

  /** Where a join fails: a worker bound at another host goes on the ring under that address,
      while its contact connects to the same port of localhost. */
  lemma {:induction false} ForeignHostIsNotReached(hash: string -> int, first: string, host: string, port: string)
    requires first != "" && ':' !in port && host != "tcp://localhost" && host + ":" + port != first
    ensures ConnectAddress(host + ":" + port) == "tcp://localhost:" + port
    ensures !Complete(After(hash, first, [(host + ":" + port, first)]), hash)
  {
    ConnectAddressIs(host, port);
    hide *;
    var address := host + ":" + port;
    OtherHost(host, port);
    LocalConnects(address);
    TwoWorkers(hash, first, address);
    CompleteWhen(hash, first, [(address, first)]);
  }

  lemma OtherHost(host: string, port: string)
    requires host != "tcp://localhost"
    ensures host + ":" + port != "tcp://localhost:" + port
  {
    var a, b := host + ":" + port, "tcp://localhost:" + port;
    assert |a| == |b| ==> a[..|host|] == host && b[..|host|] == "tcp://localhost";
  }

  /** And two workers whose hashes collide have one place on the ring. */
  lemma {:induction false} SameHashIsLost(hash: string -> int, first: string, second: string)
    requires first != "" && first != second && hash(first) == hash(second)
    ensures !Complete(After(hash, first, [(second, first)]), hash)
  {
    hide *;
    TwoWorkers(hash, first, second);
    CompleteWhen(hash, first, [(second, first)]);
    NotApart(hash, {first, second}, first, second);
  }

  lemma NotApart(hash: string -> int, addresses: set<string>, a: string, b: string)
    requires a in addresses && b in addresses && a != b && hash(a) == hash(b)
    ensures !Apart(hash, addresses)
  {
  }
}
