/** The broker as it is built: worker and service objects that point at each other, and
    the broker's maps over them. Each method is proved to do to the objects what the state
    machine of module Majordomo does to its values. */
module Brokers {
  import opened Order
  import opened Messages
  import opened Majordomo
  import opened Dispatching
  import opened BrokerRuns

  class Worker {
    const identity: string
    var service: Service?
    var expiry: int

    constructor (identity: string)
      ensures this.identity == identity && service == null && expiry == 0
    {
      this.identity, service, expiry := identity, null, 0;
    }
  }

  class Service {
    const name: string
    var requests: seq<Message>
    var waiting: seq<Worker>
    var workers: int

    constructor (name: string)
      ensures this.name == name && requests == [] && waiting == [] && workers == 0
    {
      this.name, requests, waiting, workers := name, [], [], 0;
    }

    /** Takes w out of the waiting list, wherever it occurs. */
    method Unlist(w: Worker)
      requires forall v :: v in waiting && v.identity == w.identity ==> v == w
      modifies this`waiting
      ensures Names(waiting) == Without(Names(old(waiting)), {w.identity})
      ensures forall v :: v in waiting ==> v in old(waiting) && v != w
    {
      hide *;
      ghost var all, done := waiting, 0;
      var it := 0;
      UnlistStart(all, w);
      while it < |waiting|
        invariant UnlistedTo(all, waiting, it, done, w)
        decreases |waiting| - it
      {
        UnlistTurn(all, waiting, it, done, w);
        if waiting[it] == w {
          waiting := waiting[..it] + waiting[it + 1..];
        } else {
          it := it + 1;
        }
        done := done + 1;
      }
      UnlistEnd(all, waiting, it, done, w);
    }
  }

  lemma UnlistStart(all: seq<Worker>, w: Worker)
    ensures UnlistedTo(all, all, 0, 0, w)
  {
  }

  lemma UnlistTurn(all: seq<Worker>, ws: seq<Worker>, it: nat, done: nat, w: Worker)
    requires UnlistedTo(all, ws, it, done, w) && it < |ws|
    requires forall v :: v in all && v.identity == w.identity ==> v == w
    ensures if ws[it] == w then UnlistedTo(all, ws[..it] + ws[it + 1..], it, done + 1, w)
      else UnlistedTo(all, ws, it + 1, done + 1, w)
  {
    assert ws[it..][0] == ws[it] && all[done..][0] == all[done] && all[done] in all;
    assert ws[it..][1..] == ws[it + 1..] && all[done..][1..] == all[done + 1..];
    hide Unlisted;
    UnlistStep(all, ws[..it], done, w);
    if ws[it] == w {
      CutAt(ws, it);
    } else {
      assert ws[..it] + [ws[it]] == ws[..it + 1];
    }
  }

  lemma CutAt<T>(q: seq<T>, it: nat)
    requires it < |q|
    ensures var cut := q[..it] + q[it + 1..]; cut[..it] == q[..it] && cut[it..] == q[it + 1..]
  {
  }

  lemma UnlistEnd(all: seq<Worker>, ws: seq<Worker>, it: nat, done: nat, w: Worker)
    requires UnlistedTo(all, ws, it, done, w) && it >= |ws|
    ensures Names(ws) == Without(Names(all), {w.identity}) && forall v :: v in ws ==> v in all && v != w
  {
    assert ws[..it] == ws && all[done..] == [] && all[..|all|] == all;
  }

  function Names(ws: seq<Worker>): seq<string> {
    seq(|ws|, i requires 0 <= i < |ws| => ws[i].identity)
  }

  /** `kept` is what is left of the first `done` of `all`. */
  ghost predicate Unlisted(all: seq<Worker>, kept: seq<Worker>, done: nat, w: Worker) {
    && done <= |all| && Names(kept) == Without(Names(all[..done]), {w.identity})
    && forall v :: v in kept ==> v in all && v != w
  }

  /** The first `it` of ws are what is left of the first `done` of `all`; the others are still to do. */
  ghost predicate UnlistedTo(all: seq<Worker>, ws: seq<Worker>, it: nat, done: nat, w: Worker) {
    it <= |ws| && done <= |all| && Unlisted(all, ws[..it], done, w) && ws[it..] == all[done..]
  }

  lemma NamesSnoc(ws: seq<Worker>, w: Worker)
    ensures Names(ws + [w]) == Names(ws) + [w.identity]
  {
  }

  lemma UnlistStep(all: seq<Worker>, kept: seq<Worker>, done: nat, w: Worker)
    requires done < |all| && Unlisted(all, kept, done, w)
    requires all[done].identity == w.identity ==> all[done] == w
    ensures Unlisted(all, if all[done] == w then kept else kept + [all[done]], done + 1, w)
  {
    UnlistName(all, kept, done, w.identity);
    assert all[done] in all;
    hide Without, Names;
  }

  lemma UnlistName(all: seq<Worker>, kept: seq<Worker>, done: nat, i: string)
    requires done < |all| && Names(kept) == Without(Names(all[..done]), {i})
    ensures Names(if all[done].identity == i then kept else kept + [all[done]]) == Without(Names(all[..done + 1]), {i})
  {
    assert all[..done + 1] == all[..done] + [all[done]];
    hide *;
    NamesSnoc(all[..done], all[done]);
    NamesSnoc(kept, all[done]);
    WithoutSnoc(Names(all[..done]), all[done].identity, {i});
  }

  ghost function ServiceView(s: Service): Svc
    reads s
  {
    Svc(s.requests, Names(s.waiting), s.workers)
  }

  ghost function WorkerView(w: Worker): Wkr
    reads w
  {
    Wkr(if w.service == null then None else Some(w.service.name), w.expiry)
  }

  ghost predicate SeenOne(h: Hub, w: Worker)
    reads w
  {
    w.identity in h.workers && h.workers[w.identity].expiry == w.expiry
  }

  ghost predicate SeenAll(h: Hub, ws: seq<Worker>)
    reads ws
  {
    forall k :: 0 <= k < |ws| ==> SeenOne(h, ws[k])
  }

  lemma SeenAs(h: Hub, ws: seq<Worker>, k: nat)
    requires SeenAll(h, ws) && k < |ws|
    ensures Names(ws)[k] == ws[k].identity && ws[k].identity in h.workers
    ensures h.workers[ws[k].identity].expiry == ws[k].expiry
  {
    assert SeenOne(h, ws[k]);
  }

  ghost predicate AllIn(h: Hub, ws: seq<string>) {
    forall i :: i in ws ==> i in h.workers
  }

  lemma AllSeen(h: Hub, ws: seq<Worker>)
    requires SeenAll(h, ws)
    ensures AllIn(h, Names(ws))
  {
    forall i | i in Names(ws)
      ensures i in h.workers
    {
      var k :| 0 <= k < |ws| && ws[k].identity == i;
      assert SeenOne(h, ws[k]);
    }
  }

  /** k is the best of the first `next`. */
  ghost predicate BestSoFar(h: Hub, ws: seq<Worker>, next: nat, k: nat) {
    k < next <= |ws| && AllIn(h, Names(ws)[..next]) && k == Best(h, Names(ws)[..next])
  }

  lemma BestOfOne(h: Hub, ws: seq<Worker>)
    requires ws != [] && SeenAll(h, ws)
    ensures BestSoFar(h, ws, 1, 0)
  {
    AllSeen(h, ws);
  }

  lemma BestOfMore(h: Hub, ws: seq<Worker>, next: nat, k: nat)
    requires next < |ws| && SeenAll(h, ws) && BestSoFar(h, ws, next, k)
    ensures BestSoFar(h, ws, next + 1, if ws[next].expiry > ws[k].expiry then next else k)
  {
    var names := Names(ws);
    SeenAs(h, ws, next);
    SeenAs(h, ws, k);
    assert names[..next + 1][..next] == names[..next] && names[..next + 1][next] == names[next];
  }

  lemma BestOfAll(h: Hub, ws: seq<Worker>, k: nat)
    requires BestSoFar(h, ws, |ws|, k)
    ensures k < |ws| && AllIn(h, Names(ws)) && k == Best(h, Names(ws))
  {
    assert Names(ws)[..|ws|] == Names(ws);
  }

  class Broker {
    const variant: Variant
    var services: map<string, Service>
    var workers: map<string, Worker>
    var waiting: set<Worker>
    var clients: set<string>
    var sent: seq<Sent>
    /** The worker and service objects. */
    ghost var repr: set<object>

    constructor (variant: Variant)
      ensures this.variant == variant && Wired() && fresh(repr) && View() == EMPTY_HUB
    {
      this.variant := variant;
      services, workers, waiting, clients, sent, repr := map[], map[], {}, {}, [], {};
    }

    ghost predicate Owned()
      reads this
    {
      && this !in repr
      && (forall i :: i in workers ==> workers[i] in repr && workers[i].identity == i)
      && (forall n :: n in services ==> services[n] in repr && services[n].name == n)
    }

    ghost predicate Registered(w: Worker)
      reads this
    {
      w.identity in workers && workers[w.identity] == w
    }

    ghost predicate Offered(s: Service)
      reads this
    {
      s.name in services && services[s.name] == s
    }

    /** No pointer dangles: what waits is registered, where it belongs. */
    ghost predicate Wired()
      reads this, repr
    {
      && Owned()
      && (forall i :: i in workers ==> PointsHome(workers[i]))
      && (forall w :: w in waiting ==> Registered(w))
      && (forall n :: n in services ==> ListsHome(services[n]))
    }

    ghost predicate ListsHome(s: Service)
      requires Owned()
      reads this, s, repr
    {
      forall w :: w in s.waiting ==> Registered(w) && w.service == s
    }

    ghost predicate PointsHome(w: Worker)
      reads this, w
    {
      w.service != null ==> Offered(w.service)
    }

    ghost function View(): Hub
      requires Owned()
      reads this, repr
    {
      Hub(map n | n in services :: ServiceView(services[n]),
          map i | i in workers :: WorkerView(workers[i]),
          set w | w in waiting :: w.identity, clients, sent)
    }

    lemma WiredIsLinked()
      requires Wired()
      ensures Linked(View())
    {
      var h := View();
      forall n | n in services
        ensures WaitsHere(h, n)
      {
        forall i | i in h.services[n].waiting
          ensures i in h.workers && h.workers[i].service == Some(n)
        {
          var ws := services[n].waiting;
          assert ListsHome(services[n]) && h.services[n].waiting == Names(ws);
          var k :| 0 <= k < |ws| && ws[k].identity == i;
          assert ws[k] in ws;
        }
      }
    }

    /** No worker object has changed, except possibly x. */
    twostate predicate WorkersAsBefore(new x: Worker?)
      reads this, repr
    {
      forall w: Worker :: w in old(repr) * repr && w != x ==> w.service == old(w.service) && w.expiry == old(w.expiry)
    }

    /** No service object has changed, except possibly s. */
    twostate predicate ServicesAsBefore(new s: Service?)
      reads this, repr
    {
      forall t: Service :: t in old(repr) * repr && t != s ==>
        t.requests == old(t.requests) && t.waiting == old(t.waiting) && t.workers == old(t.workers)
    }

    /** No object has come or gone, and none has changed, except possibly s and x. */
    twostate predicate Touched(new s: Service?, new x: Worker?)
      reads this, repr
    {
      && services == old(services) && workers == old(workers) && repr == old(repr)
      && WorkersAsBefore(x) && ServicesAsBefore(s)
    }

    /** What both views have of the maps' keys and of the broker's own fields. */
    twostate lemma Fields()
      requires old(Owned()) && Owned()
      ensures View().services.Keys == services.Keys && View().workers.Keys == workers.Keys
      ensures old(View()).services.Keys == old(services).Keys && old(View()).workers.Keys == old(workers).Keys
      ensures View().clients == clients && View().sent == sent && old(View()).clients == old(clients)
      ensures old(View()).sent == old(sent)
      ensures waiting == old(waiting) ==> View().waiting == old(View()).waiting
    {
    }

    twostate lemma KeptWorkers(new x: Worker?)
      requires old(Owned()) && Owned() && old(repr) <= repr && WorkersAsBefore(x)
      requires forall i :: i in workers && i in old(workers) ==> workers[i] == old(workers)[i]
      ensures forall i :: i in workers && i in old(workers) && workers[i] != x ==>
        View().workers[i] == old(View()).workers[i]
    {
      forall i | i in workers && i in old(workers) && workers[i] != x
        ensures WorkerView(workers[i]) == old(WorkerView(workers[i]))
      {
        assert workers[i] in old(repr) * repr;
      }
    }

    twostate lemma KeptServices(new s: Service?)
      requires old(Owned()) && Owned() && old(repr) <= repr && ServicesAsBefore(s)
      requires forall n :: n in services && n in old(services) ==> services[n] == old(services)[n]
      ensures forall n :: n in services && n in old(services) && services[n] != s ==>
        View().services[n] == old(View()).services[n]
    {
      hide Names;
      forall n | n in services && n in old(services) && services[n] != s
        ensures ServiceView(services[n]) == old(ServiceView(services[n]))
      {
        assert services[n] in old(repr) * repr;
      }
    }

    /** A new service object, with everything else as it was. */
    twostate lemma ServiceAdded(new s: Service)
      requires old(Owned()) && Owned() && s.name !in old(services)
      requires s.requests == [] && s.waiting == [] && s.workers == 0
      requires services == old(services)[s.name := s] && repr == old(repr) + {s}
      requires workers == old(workers) && waiting == old(waiting) && clients == old(clients) && sent == old(sent)
      requires WorkersAsBefore(null) && ServicesAsBefore(null)
      ensures View() == Required(old(View()), s.name)
    {
      hide *;
      SeenService(s);
      EmptyService(s);
      Fields();
      KeptServices(null);
      KeptWorkers(null);
      RequiredAsNew(old(View()), s.name);
      assert View().services == old(View()).services[s.name := Svc([], [], 0)];
      assert View().workers == old(View()).workers;
    }

    lemma EmptyService(s: Service)
      requires s.requests == [] && s.waiting == [] && s.workers == 0
      ensures ServiceView(s) == Svc([], [], 0)
    {
    }

    twostate lemma ServiceAddedWired(new s: Service)
      requires old(Wired()) && s !in old(repr) && s.name !in old(services) && s.waiting == []
      requires services == old(services)[s.name := s] && repr == old(repr) + {s}
      requires workers == old(workers) && waiting == old(waiting)
      requires WorkersAsBefore(null) && ServicesAsBefore(null)
      ensures Wired()
    {
      forall i | i in workers
        ensures PointsHome(workers[i])
      {
        assert old(PointsHome(workers[i]));
      }
      forall n | n in services
        ensures ListsHome(services[n])
      {
        if n != s.name {
          assert old(ListsHome(services[n]));
        }
      }
    }

    method ServiceRequire(name: string) returns (srv: Service)
      requires Wired() && name != ""
      modifies this
      ensures Wired() && fresh(repr - old(repr)) && Offered(srv) && srv.name == name
      ensures View() == Required(old(View()), name)
      ensures workers == old(workers) && waiting == old(waiting)
    {
      hide Wired, View;
      WiredOwned();
      if name in services {
        srv := services[name];
        RequiredAgain(name);
      } else {
        srv := new Service(name);
        services, repr := services[name := srv], repr + {srv};
        ServiceAddedWired(srv);
        WiredOwned();
        ServiceAdded(srv);
      }
    }

    lemma WiredOwned()
      requires Wired()
      ensures Owned()
    {
    }

    lemma RequiredAgain(n: string)
      requires Owned() && n in services
      ensures Required(View(), n) == View()
    {
    }

    twostate lemma WorkerAdded(new w: Worker)
      requires old(Owned()) && Owned() && w.identity !in old(workers)
      requires w.service == null && w.expiry == 0
      requires workers == old(workers)[w.identity := w] && repr == old(repr) + {w}
      requires services == old(services) && waiting == old(waiting) && clients == old(clients) && sent == old(sent)
      requires WorkersAsBefore(null) && ServicesAsBefore(null)
      ensures View() == Majordomo.Registered(old(View()), w.identity)
    {
      assert WorkerView(w) == Wkr(None, 0);
      hide *;
      AddedWorkers(w);
      Fields();
      KeptServices(null);
      RegisteredAsNew(old(View()), w.identity);
      assert View().services == old(View()).services;
    }

    twostate lemma AddedWorkers(new w: Worker)
      requires old(Owned()) && Owned() && w.identity !in old(workers)
      requires workers == old(workers)[w.identity := w] && repr == old(repr) + {w} && WorkersAsBefore(null)
      ensures View().workers == old(View()).workers[w.identity := WorkerView(w)]
    {
      assert Registered(w);
      hide *;
      SeenWorker(w);
      Fields();
      KeptWorkers(null);
      var before, after := old(View()).workers, View().workers;
      assert after.Keys == before.Keys + {w.identity};
    }

    twostate lemma WorkerAddedWired(new w: Worker)
      requires old(Wired()) && w !in old(repr) && w.identity !in old(workers) && w.service == null
      requires workers == old(workers)[w.identity := w] && repr == old(repr) + {w}
      requires services == old(services) && waiting == old(waiting)
      requires WorkersAsBefore(null) && ServicesAsBefore(null)
      ensures Wired()
    {
      forall i | i in workers
        ensures PointsHome(workers[i])
      {
        if i != w.identity {
          assert old(PointsHome(workers[i]));
        }
      }
      forall n | n in services
        ensures ListsHome(services[n])
      {
        assert old(ListsHome(services[n]));
      }
    }

    method WorkerRequire(identity: string) returns (wrk: Worker)
      requires Wired() && identity != ""
      modifies this
      ensures Wired() && fresh(repr - old(repr)) && Registered(wrk) && wrk.identity == identity
      ensures View() == Majordomo.Registered(old(View()), identity)
      ensures services == old(services) && waiting == old(waiting)
      ensures identity in old(workers) ==> workers == old(workers) && wrk == workers[identity]
      ensures identity !in old(workers) ==> fresh(wrk) && wrk.service == null
    {
      hide Wired, View;
      assert Owned() by { WiredOwned(); }
      if identity in workers {
        wrk := workers[identity];
        RegisteredAgain(identity);
      } else {
        wrk := new Worker(identity);
        workers, repr := workers[identity := wrk], repr + {wrk};
        WorkerAddedWired(wrk);
        WiredOwned();
        WorkerAdded(wrk);
      }
    }

    lemma RegisteredAgain(i: string)
      requires Owned() && i in workers
      ensures Majordomo.Registered(View(), i) == View()
    {
    }

    /** The service lost w, as worker_delete takes it out. */
    twostate predicate Left(new w: Worker, s: Service)
      reads s
    {
      && s.requests == old(s.requests) && s.workers == old(s.workers) - 1
      && Names(s.waiting) == Without(old(Names(s.waiting)), {w.identity})
      && forall v :: v in s.waiting ==> v in old(s.waiting) && v != w
    }

    /** w has gone, with its place in its service's list and in the waiting set. */
    twostate predicate Deleted(w: Worker)
      reads this, repr, w, w.service
    {
      && services == old(services) && repr == old(repr) && clients == old(clients)
      && workers == old(workers) - {w.identity} && waiting == old(waiting) - {w}
      && WorkersAsBefore(null) && ServicesAsBefore(w.service)
      && w.service == old(w.service) && (w.service == null || Left(w, w.service))
    }

    twostate lemma DeletedIs(w: Worker)
      requires Deleted(w)
      ensures services == old(services) && workers == old(workers) - {w.identity} && repr == old(repr)
      ensures WorkersAsBefore(null) && ServicesAsBefore(w.service)
      ensures w.service == old(w.service) && (w.service == null || Left(w, w.service))
    {
    }

    twostate lemma DeletedWired(w: Worker)
      requires old(Wired()) && old(Registered(w))
      requires Deleted(w)
      ensures Wired()
    {
      assert Owned();
      forall i | i in workers
        ensures PointsHome(workers[i])
      {
        assert old(PointsHome(workers[i])) && workers[i] in old(repr);
      }
      forall n | n in services
        ensures ListsHome(services[n])
      {
        assert old(ListsHome(services[n]));
        forall v | v in services[n].waiting
          ensures Registered(v) && v.service == services[n]
        {
          assert v in old(services[n].waiting) && v in old(repr) && v != w;
        }
      }
    }

    twostate lemma DeletedView(w: Worker)
      requires old(Wired()) && old(Registered(w)) && Owned()
      requires Deleted(w)
      ensures old(View()).workers[w.identity].service.Some? ==>
        old(View()).workers[w.identity].service.value in old(services)
      ensures View() == Removed(old(View()), w.identity, false).(sent := sent)
    {
      hide *;
      WasAtHome(w);
      DeletedWorkers(w);
      DeletedOthers(w);
      DeletedServices(w);
      RemovedIs(old(View()), w.identity);
    }

    twostate lemma WasAtHome(w: Worker)
      requires old(Wired()) && old(Registered(w))
      ensures old(Owned()) && w in old(repr) && w.identity in old(View()).workers
      ensures var s := old(w.service);
        && old(View()).workers[w.identity].service == (if s == null then None else Some(s.name))
        && (s != null ==>
          && s.name in old(services) && old(services)[s.name] == s && s in old(repr)
          && s.name in old(View()).services && old(View()).services[s.name] == old(ServiceView(s)))
    {
      assert old(PointsHome(w)) && old(View()).workers[w.identity] == old(WorkerView(w));
    }

    twostate lemma DeletedWorkers(w: Worker)
      requires old(Wired()) && Owned() && Deleted(w)
      ensures View().workers == old(View()).workers - {w.identity}
    {
      hide *;
      WiredOwnedBefore();
      DeletedIs(w);
      Fields();
      KeptWorkers(null);
    }

    twostate lemma WiredOwnedBefore()
      requires old(Wired())
      ensures old(Owned())
    {
    }

    twostate lemma DeletedOthers(w: Worker)
      requires old(Wired()) && old(Registered(w)) && Owned() && Deleted(w)
      ensures View().waiting == old(View()).waiting - {w.identity} && View().clients == old(View()).clients
      ensures View().sent == sent
      ensures w.service == old(w.service)
    {
      WiredOwnedBefore();
      DeletedWaiting(w);
      hide Wired, View;
      SeenWaiting(w);
      Fields();
    }

    twostate lemma StillOffered(w: Worker)
      requires old(Wired()) && old(Registered(w)) && services == old(services) && w.service == old(w.service)
      requires w.service != null
      ensures Offered(w.service)
    {
      assert old(PointsHome(w));
    }

    twostate lemma DeletedServices(w: Worker)
      requires old(Wired()) && old(Registered(w)) && Owned() && Deleted(w)
      ensures var h, s := old(View()), w.service;
        if s == null then View().services == h.services
        else
          s.name in h.services && View().services ==
            h.services[s.name := Svc(h.services[s.name].requests, Without(h.services[s.name].waiting, {w.identity}),
              h.services[s.name].workers - 1)]
    {
      hide *;
      WiredOwnedBefore();
      DeletedIs(w);
      WasAtHome(w);
      Fields();
      if w.service == null {
        KeptServices(null);
        assert View().services == old(View()).services;
      } else {
        StillOffered(w);
        ServiceChanged(w.service);
        LeftView(w, w.service);
      }
    }

    twostate lemma LeftView(new w: Worker, s: Service)
      requires s in old(repr) && Left(w, s)
      ensures ServiceView(s) == Svc(old(ServiceView(s)).requests, Without(old(ServiceView(s)).waiting, {w.identity}),
        old(ServiceView(s)).workers - 1)
    {
    }

    twostate lemma DeletedWaiting(w: Worker)
      requires old(Wired()) && old(Registered(w)) && waiting == old(waiting) - {w}
      ensures (set v | v in waiting :: v.identity) == old(set v | v in waiting :: v.identity) - {w.identity}
    {
    }

    twostate lemma DeletedDone(w: Worker)
      requires old(Wired()) && old(Registered(w)) && Deleted(w)
      ensures Wired()
      ensures old(View()).workers[w.identity].service.Some? ==>
        old(View()).workers[w.identity].service.value in old(services)
      ensures View() == Removed(old(View()), w.identity, false).(sent := sent)
    {
      hide *;
      WasAtHome(w);
      DeletedWired(w);
      WiredOwned();
      DeletedView(w);
    }

    /** Out of the service's list and count. */
    method Leave(wrk: Worker)
      requires Wired() && Registered(wrk) && wrk.service != null
      modifies wrk.service
      ensures Left(wrk, wrk.service)
    {
      hide Wired, View, Without, Names, Offered, Registered;
      AtHome(wrk);
      wrk.service.Unlist(wrk);
      wrk.service.workers := wrk.service.workers - 1;
    }

    /** Out of its service, out of the waiting set, out of the registry. */
    method TakeOut(wrk: Worker)
      requires Wired() && Registered(wrk)
      modifies this`waiting, this`workers, repr
      ensures Wired() && View() == old(Removed(View(), wrk.identity, false))
      ensures workers == old(workers) - {wrk.identity} && waiting == old(waiting) - {wrk}
    {
      hide Wired, View, Names, Without, Registered;
      InRepr(wrk);
      WorkerHome(wrk);
      if wrk.service != null {
        Leave(wrk);
      }
      waiting := waiting - {wrk};
      workers := workers - {wrk.identity};
      DeletedDone(wrk);
    }

    method WorkerDelete(wrk: Worker, disconnect: bool)
      requires Wired() && Registered(wrk)
      modifies this, repr
      ensures Wired() && repr == old(repr)
      ensures View() == old(Removed(View(), wrk.identity, disconnect))
      ensures services == old(services) && workers == old(workers) - {wrk.identity} && waiting == old(waiting) - {wrk}
    {
      hide Wired, View, Owned, Registered, Removed;
      WiredOwned();
      WorkerHome(wrk);
      if disconnect {
        sent := sent + [Disconnect(wrk.identity)];
      }
      SentDone(wrk);
      RemovedOfSent(old(View()), wrk.identity, disconnect);
      TakeOut(wrk);
    }

    lemma WorkerHome(w: Worker)
      requires Wired() && Registered(w)
      ensures w.identity in View().workers
      ensures View().workers[w.identity].service.Some? ==> View().workers[w.identity].service.value in View().services
      ensures View().sent == sent
    {
      assert PointsHome(w) && View().workers[w.identity] == WorkerView(w);
    }

    lemma OfferedInRepr(s: Service)
      requires Owned() && Offered(s)
      ensures s in repr
    {
    }

    lemma InRepr(w: Worker)
      requires Wired() && Registered(w)
      ensures w in repr && (w.service != null ==> w.service in repr)
    {
      assert PointsHome(w);
    }

    /** Worker and service maps as before; s and x are the objects that may have changed. */
    twostate lemma StaysWired(new s: Service, new x: Worker?)
      requires old(Wired()) && Offered(s) && Touched(s, x)
      requires x == null || (Registered(x) && x.service == old(x.service))
      requires forall v :: v in s.waiting ==> v in old(s.waiting) || (Registered(v) && v.service == s)
      requires forall v :: v in waiting ==> Registered(v)
      ensures Wired()
    {
      forall i | i in workers
        ensures PointsHome(workers[i])
      {
        assert old(PointsHome(workers[i])) && workers[i] in old(repr);
      }
      forall n | n in services
        ensures ListsHome(services[n])
      {
        assert old(ListsHome(services[n])) && services[n] in old(repr);
        forall v | v in services[n].waiting
          ensures Registered(v) && v.service == services[n]
        {
          assert v in old(services[n].waiting) ==> v in old(repr);
        }
      }
    }

    twostate lemma ServiceChanged(new s: Service)
      requires old(Owned()) && Owned() && services == old(services) && repr == old(repr)
      requires Offered(s) && ServicesAsBefore(s)
      ensures View().services == old(View()).services[s.name := ServiceView(s)]
    {
      KeptServices(s);
      hide ServiceView, WorkerView;
    }

    twostate lemma WorkersUnchanged()
      requires old(Owned()) && Owned() && workers == old(workers) && repr == old(repr) && WorkersAsBefore(null)
      ensures View().workers == old(View()).workers
    {
      KeptWorkers(null);
      hide ServiceView, WorkerView;
    }

    twostate lemma WorkerChanged(new x: Worker)
      requires old(Owned()) && Owned() && workers == old(workers) && repr == old(repr) && WorkersAsBefore(x)
      requires Registered(x)
      ensures View().workers == old(View()).workers[x.identity := WorkerView(x)]
    {
      KeptWorkers(x);
      hide ServiceView, WorkerView;
    }

    /** purge_workers: the waiting set is walked in no particular order. */
    method PurgeWorkers(now: int)
      requires Wired()
      modifies this, repr
      ensures Wired() && repr == old(repr) && services == old(services)
      ensures View() == old(Cut(View(), Expired(View(), now)))
    {
      hide Cut, Expired, Removed, View, PointsHome, ListsHome;
      var toCull := Cull(now);
      ghost var before, gone := View(), {};
      WiredIsLinked();
      CutNothing(before);
      var k := 0;
      while k < |toCull|
        invariant k <= |toCull| && Wired() && repr == old(repr) && services == old(services)
        invariant View() == Cut(before, gone) && gone <= Expired(before, now)
        invariant forall j :: 0 <= j < k ==> toCull[j].identity in gone
        invariant forall j :: k <= j < |toCull| ==> Registered(toCull[j])
      {
        NotGone(toCull[k], before, gone);
        CutOne(before, gone, toCull[k].identity);
        WorkerDelete(toCull[k], false);
        gone := gone + {toCull[k].identity};
        k := k + 1;
      }
      assert gone == Expired(before, now);
    }

    /** The expired workers among those that wait. */
    method Cull(now: int) returns (toCull: seq<Worker>)
      requires Wired()
      ensures forall j, k :: 0 <= j < k < |toCull| ==> toCull[j] != toCull[k]
      ensures forall k :: 0 <= k < |toCull| ==> Registered(toCull[k]) && toCull[k].identity in Expired(View(), now)
      ensures forall i :: i in Expired(View(), now) ==> exists k :: 0 <= k < |toCull| && toCull[k].identity == i
    {
      toCull := [];
      var todo := waiting;
      while todo != {}
        invariant todo <= waiting
        invariant forall w :: w in toCull <==> w in waiting - todo && w.expiry <= now
        invariant forall j, k :: 0 <= j < k < |toCull| ==> toCull[j] != toCull[k]
        decreases |todo|
      {
        var w :| w in todo;
        if w.expiry <= now {
          toCull := toCull + [w];
        }
        todo := todo - {w};
      }
      CullIsExpired(toCull, now);
    }

    lemma NotGone(w: Worker, before: Hub, gone: set<string>)
      requires Owned() && Registered(w) && View() == Cut(before, gone)
      ensures w.identity in before.workers && w.identity !in gone
    {
      assert w.identity in View().workers;
    }

    lemma CullIsExpired(toCull: seq<Worker>, now: int)
      requires Wired() && forall w :: w in toCull <==> w in waiting && w.expiry <= now
      ensures forall k :: 0 <= k < |toCull| ==> Registered(toCull[k]) && toCull[k].identity in Expired(View(), now)
      ensures forall i :: i in Expired(View(), now) ==> exists k :: 0 <= k < |toCull| && toCull[k].identity == i
    {
      forall k | 0 <= k < |toCull|
        ensures Registered(toCull[k]) && toCull[k].identity in Expired(View(), now)
      {
        assert toCull[k] in toCull;
      }
      forall i | i in Expired(View(), now)
        ensures exists k :: 0 <= k < |toCull| && toCull[k].identity == i
      {
        var w :| w in waiting && w.identity == i;
        assert w in toCull;
        var k :| 0 <= k < |toCull| && toCull[k] == w;
      }
    }

    /** The most recently seen of the waiting workers. */
    method Choose(srv: Service) returns (wrk: nat)
      requires Wired() && Offered(srv) && srv.waiting != []
      ensures wrk < |srv.waiting| && AllIn(View(), Names(srv.waiting))
      ensures wrk == Best(View(), Names(srv.waiting))
    {
      hide *;
      WiredOwned();
      SeenList(srv);
      ghost var h := View();
      BestOfOne(h, srv.waiting);
      wrk := 0;
      var next := 1;
      while next < |srv.waiting|
        invariant wrk < next <= |srv.waiting| && BestSoFar(h, srv.waiting, next, wrk)
      {
        BestOfMore(h, srv.waiting, next, wrk);
        if srv.waiting[next].expiry > srv.waiting[wrk].expiry {
          wrk := next;
        }
        next := next + 1;
      }
      BestOfAll(h, srv.waiting, wrk);
    }

    lemma SeenList(srv: Service)
      requires Wired() && Offered(srv)
      ensures SeenAll(View(), srv.waiting)
    {
      ListKnown(srv);
      forall k | 0 <= k < |srv.waiting|
        ensures SeenOne(View(), srv.waiting[k])
      {
        assert srv.waiting[k] in srv.waiting;
      }
    }

    lemma ListKnown(srv: Service)
      requires Wired() && Offered(srv)
      ensures AllIn(View(), Names(srv.waiting))
      ensures forall w :: w in srv.waiting ==> Registered(w) && w.service == srv
    {
      assert ListsHome(srv);
      forall i | i in Names(srv.waiting)
        ensures i in View().workers
      {
        var k :| 0 <= k < |srv.waiting| && srv.waiting[k].identity == i;
        assert srv.waiting[k] in srv.waiting;
      }
    }

    /** One turn of the loop in service_dispatch. */
    method Assign(srv: Service, wrk: nat)
      requires Wired() && Offered(srv) && wrk < |srv.waiting| && srv.requests != []
      modifies this, srv
      ensures Wired() && repr == old(repr) && services == old(services)
      ensures View() == old(Assigned(View(), srv.name, wrk))
    {
      hide View, PointsHome, ListsHome;
      ListKnown(srv);
      var msg := srv.requests[0];
      var chosen := srv.waiting[wrk];
      srv.requests := srv.requests[1..];
      sent := sent + [Request(srv.name, chosen.identity, msg)];
      waiting := waiting - {chosen};
      srv.waiting := srv.waiting[..wrk] + srv.waiting[wrk + 1..];
      StaysWired(srv, null);
      AssignedView(srv, wrk);
    }

    twostate lemma AssignedView(new srv: Service, wrk: nat)
      requires old(Wired()) && Wired() && Offered(srv) && Touched(srv, null) && clients == old(clients)
      requires wrk < |old(srv.waiting)| && old(srv.requests) != []
      requires srv.requests == old(srv.requests)[1..] && srv.workers == old(srv.workers)
      requires srv.waiting == old(srv.waiting)[..wrk] + old(srv.waiting)[wrk + 1..]
      requires waiting == old(waiting) - {old(srv.waiting)[wrk]}
      requires sent == old(sent) + [Request(srv.name, old(srv.waiting)[wrk].identity, old(srv.requests)[0])]
      ensures View() == Assigned(old(View()), srv.name, wrk)
    {
      var chosen := old(srv.waiting)[wrk];
      assert old(Registered(chosen)) by { assert old(ListsHome(srv)) && chosen in old(srv.waiting); }
      DeletedWaiting(chosen);
      hide Wired;
      NamesWithout(old(srv.waiting), wrk);
      ServiceChanged(srv);
      WorkersUnchanged();
    }

    lemma NamesWithout(ws: seq<Worker>, k: nat)
      requires k < |ws|
      ensures Names(ws[..k] + ws[k + 1..]) == Names(ws)[..k] + Names(ws)[k + 1..]
    {
    }

    lemma SeenService(srv: Service)
      requires Owned() && Offered(srv)
      ensures srv.name in View().services && View().services[srv.name] == ServiceView(srv)
      ensures Names(srv.waiting) == [] <==> srv.waiting == []
    {
    }

    method Enqueue(srv: Service, msg: Option<Message>)
      requires Wired() && Offered(srv)
      modifies srv
      ensures Wired() && srv.name in old(View()).services
      ensures View() == Queued(old(View()), srv.name, if msg.Some? then [msg.value] else [])
    {
      SeenService(srv);
      hide View, PointsHome, ListsHome, Names;
      if msg.Some? {
        srv.requests := srv.requests + [msg.value];
      } else {
        assert srv.requests + [] == srv.requests;
      }
      StaysWired(srv, null);
      hide Wired;
      EnqueuedView(srv);
    }

    twostate lemma EnqueuedView(new srv: Service)
      requires old(Owned()) && Owned() && Offered(srv) && Touched(srv, null)
      requires clients == old(clients) && sent == old(sent) && waiting == old(waiting)
      ensures View() == old(View()).(services := old(View()).services[srv.name := ServiceView(srv)])
    {
      ServiceChanged(srv);
      WorkersUnchanged();
      hide ServiceView, WorkerView;
    }

    lemma DrainedTurn(h: Hub, n: string)
      requires Linked(h) && n in h.services
      ensures var s := h.services[n];
        if s.waiting == [] || s.requests == [] then Drained(h, n) == h
        else
          && (forall i :: i in s.waiting ==> i in h.workers)
          && var g := Assigned(h, n, Best(h, s.waiting));
            Linked(g) && n in g.services && |g.services[n].requests| < |s.requests| && Drained(h, n) == Drained(g, n)
    {
      assert WaitsHere(h, n);
      if h.services[n].waiting != [] && h.services[n].requests != [] {
        AssignedLinked(h, n, Best(h, h.services[n].waiting));
      }
      hide Linked, WaitsHere, Best, IsBest;
    }

    /** service_dispatch */
    method ServiceDispatch(srv: Service, msg: Option<Message>, now: int)
      requires Wired() && Offered(srv)
      modifies this, repr
      ensures Wired() && repr == old(repr) && services == old(services)
      ensures Linked(old(View()))
      ensures View() == Dispatched(old(View()), srv.name, if msg.Some? then [msg.value] else [], now)
    {
      hide Wired, Drained, Cut, View, Linked, Names, Expired, Owned;
      WiredOwned();
      WiredIsLinked();
      SeenService(srv);
      ghost var n, h := srv.name, View();
      Enqueue(srv, msg);
      SameExpired(h, View(), now);
      PurgeWorkers(now);
      WiredIsLinked();
      Drain(srv);
    }

    /** The loop of service_dispatch. */
    method Drain(srv: Service)
      requires Wired() && Offered(srv)
      modifies this, srv
      ensures Wired() && repr == old(repr) && services == old(services)
      ensures Linked(old(View())) && View() == Drained(old(View()), srv.name)
    {
      hide View, Drained, Best, Assigned, Linked, Names, PointsHome, ListsHome;
      ghost var n, start := srv.name, View();
      WiredIsLinked();
      SeenService(srv);
      while |srv.waiting| > 0 && |srv.requests| > 0
        invariant Wired() && repr == old(repr) && services == old(services)
        invariant Linked(View()) && n in View().services && View().services[n] == ServiceView(srv)
        invariant Names(srv.waiting) == [] <==> srv.waiting == []
        invariant Drained(View(), n) == Drained(start, n)
        decreases |srv.requests|
      {
        DrainedTurn(View(), n);
        var wrk := Choose(srv);
        Assign(srv, wrk);
        SeenService(srv);
      }
      DrainedTurn(View(), n);
    }

    /** Into the waiting set and the list of its service, seen just now. */
    method Enlist(wrk: Worker, seen: int)
      requires Wired() && Registered(wrk) && wrk.service != null
      modifies this, repr
      ensures Wired() && repr == old(repr) && services == old(services) && wrk.service == old(wrk.service)
      ensures Offered(wrk.service)
      ensures wrk.identity in old(View()).workers && wrk.service.name in old(View()).services
      ensures View() == Listed(old(View()), wrk.identity, wrk.service.name, seen)
    {
      hide Wired, View, Names, ListsHome, PointsHome;
      InRepr(wrk);
      AtHome(wrk);
      var srv := wrk.service;
      waiting := waiting + {wrk};
      srv.waiting := srv.waiting + [wrk];
      wrk.expiry := seen + EXPIRY;
      EnlistedWired(srv, wrk);
      ListedView(srv, wrk, seen);
    }

    twostate lemma EnlistedWired(new s: Service, new x: Worker)
      requires old(Wired()) && Offered(s) && Touched(s, x) && Registered(x) && x.service == old(x.service) == s
      requires s.waiting == old(s.waiting) + [x] && waiting == old(waiting) + {x}
      ensures Wired()
    {
      hide PointsHome, ListsHome;
      StaysWired(s, x);
    }

    /** worker_waiting */
    method WorkerWaiting(wrk: Worker, seen: int, now: int)
      requires Wired() && Registered(wrk) && wrk.service != null
      modifies this, repr
      ensures Wired() && repr == old(repr)
      ensures Linked(old(View())) && wrk.identity in old(View()).workers
      ensures old(View()).workers[wrk.identity].service.Some?
      ensures View() == Waiting(old(View()), wrk.identity, seen, now)
    {
      hide Wired, View, Names, Linked, Listed, Dispatched, Offered, Registered;
      WiredIsLinked();
      AtHome(wrk);
      Enlist(wrk, seen);
      ServiceDispatch(wrk.service, None, now);
    }

    lemma SeenWorker(w: Worker)
      requires Owned() && Registered(w)
      ensures w.identity in View().workers && View().workers[w.identity] == WorkerView(w)
    {
    }

    twostate lemma ListedView(new srv: Service, new w: Worker, seen: int)
      requires old(Wired()) && Wired() && Offered(srv) && Touched(srv, w) && clients == old(clients)
      requires Registered(w) && w.service == old(w.service) == srv && w.expiry == seen + EXPIRY
      requires srv.requests == old(srv.requests) && srv.workers == old(srv.workers)
      requires srv.waiting == old(srv.waiting) + [w]
      requires waiting == old(waiting) + {w} && sent == old(sent)
      ensures w.identity in old(View()).workers && srv.name in old(View()).services
      ensures View() == Listed(old(View()), w.identity, srv.name, seen)
    {
      assert old(Registered(w));
      WaitingPlus(w);
      hide Wired;
      assert Names(old(srv.waiting) + [w]) == Names(old(srv.waiting)) + [w.identity];
      ServiceChanged(srv);
      WorkerChanged(w);
    }

    twostate lemma WaitingPlus(new w: Worker)
      requires old(Owned()) && Owned() && waiting == old(waiting) + {w}
      ensures View().waiting == old(View()).waiting + {w.identity}
    {
    }

    method Attach(wrk: Worker, srv: Service)
      requires Wired() && Registered(wrk) && wrk.service == null && Offered(srv)
      modifies wrk, srv
      ensures Wired() && Registered(wrk) && wrk.service == srv
      ensures wrk.identity in old(View()).workers && srv.name in old(View()).services
      ensures View() == Attached(old(View()), wrk.identity, srv.name)
    {
      hide View, Names, Linked;
      SeenWorker(wrk);
      SeenService(srv);
      wrk.service := srv;
      srv.workers := srv.workers + 1;
      AttachedWired(srv, wrk);
      hide Wired, PointsHome, ListsHome;
      ServiceChanged(srv);
      WorkerChanged(wrk);
      AttachedView(srv, wrk);
    }

    twostate lemma AttachedWired(new s: Service, new x: Worker)
      requires old(Wired()) && Offered(s) && Touched(s, x) && waiting == old(waiting)
      requires Registered(x) && old(x.service) == null && x.service == s && s.waiting == old(s.waiting)
      ensures Wired()
    {
      forall i | i in workers
        ensures PointsHome(workers[i])
      {
        assert old(PointsHome(workers[i])) && workers[i] in old(repr);
      }
      forall n | n in services
        ensures ListsHome(services[n])
      {
        assert old(ListsHome(services[n])) && services[n] in old(repr);
        forall v | v in services[n].waiting
          ensures Registered(v) && v.service == services[n]
        {
          assert v in old(services[n].waiting) && v in old(repr);
        }
      }
    }

    twostate lemma AttachedView(new s: Service, new x: Worker)
      requires old(Owned()) && Owned() && waiting == old(waiting) && clients == old(clients) && sent == old(sent)
      requires services == old(services) && workers == old(workers)
      requires Offered(s) && Registered(x)
      requires x.identity in old(View()).workers && s.name in old(View()).services
      requires View().services == old(View()).services[s.name := ServiceView(s)]
      requires View().workers == old(View()).workers[x.identity := WorkerView(x)]
      requires old(View()).services[s.name] == old(ServiceView(s))
      requires old(View()).workers[x.identity] == old(WorkerView(x))
      requires x.service == s && x.expiry == old(x.expiry)
      requires s.requests == old(s.requests) && s.waiting == old(s.waiting) && s.workers == old(s.workers) + 1
      ensures View() == Attached(old(View()), x.identity, s.name)
    {
    }

    /** What WORKER_OCCUPIED does to the worker it names. */
    method Occupy(wrk: Worker)
      requires Wired() && Registered(wrk) && wrk.service != null
      modifies this, repr
      ensures Wired() && repr == old(repr)
      ensures wrk.identity in old(View()).workers && old(View()).workers[wrk.identity].service.Some?
      ensures old(View()).workers[wrk.identity].service.value in old(View()).services
      ensures View() == Occupied(old(View()), wrk.identity)
    {
      hide View, Names, Linked, Without, PointsHome, ListsHome, Wired, Occupied;
      AtHome(wrk);
      waiting := waiting - {wrk};
      wrk.service.Unlist(wrk);
      OccupiedWired(wrk);
      WiredOwned();
      OccupiedDone(wrk, wrk.service);
    }

    /** Where a worker's own list is, and that no one else goes by its name there. */
    lemma AtHome(w: Worker)
      requires Wired() && Registered(w) && w.service != null
      ensures Owned() && Offered(w.service) && w.service in repr
      ensures forall v :: v in w.service.waiting && v.identity == w.identity ==> v == w
      ensures w.identity in View().workers && View().workers[w.identity].service == Some(w.service.name)
      ensures w.service.name in View().services
    {
      assert PointsHome(w) && ListsHome(w.service) && w in repr;
      assert View().workers[w.identity] == WorkerView(w);
    }

    twostate lemma OccupiedWired(new w: Worker)
      requires old(Wired()) && Registered(w) && w.service != null && Offered(w.service)
      requires Touched(w.service, null) && waiting == old(waiting) - {w}
      requires forall v :: v in w.service.waiting ==> v in old(w.service.waiting)
      ensures Wired()
    {
      hide PointsHome, ListsHome;
      StaysWired(w.service, null);
    }

    twostate lemma OccupiedDone(new w: Worker, new srv: Service)
      requires old(Wired()) && Owned() && Touched(srv, null)
      requires Registered(w) && w.service == srv && Offered(srv)
      requires waiting == old(waiting) - {w}
      requires clients == old(clients) && sent == old(sent)
      requires srv.requests == old(srv.requests) && srv.workers == old(srv.workers)
      requires Names(srv.waiting) == Without(old(Names(srv.waiting)), {w.identity})
      ensures w.identity in old(View()).workers && old(View()).workers[w.identity].service == Some(srv.name)
      ensures srv.name in old(View()).services && View() == Occupied(old(View()), w.identity)
    {
      assert old(Owned()) && w in old(repr) && old(Registered(w));
      assert old(View()).workers[w.identity].service == Some(srv.name) &&
        old(View()).services[srv.name] == old(ServiceView(srv));
      var h, s := old(View()), ServiceView(srv);
      assert s == Svc(h.services[srv.name].requests, Without(h.services[srv.name].waiting, {w.identity}),
        h.services[srv.name].workers);
      DeletedWaiting(w);
      hide *;
      SeenWaiting(w);
      Fields();
      ServiceChanged(srv);
      WorkersUnchanged();
      OccupiedView(h, View(), w.identity, srv.name, s);
    }

    lemma OccupiedView(h: Hub, g: Hub, i: string, n: string, s: Svc)
      requires i in h.workers && h.workers[i].service == Some(n) && n in h.services
      requires s == Svc(h.services[n].requests, Without(h.services[n].waiting, {i}), h.services[n].workers)
      requires g == Hub(h.services[n := s], h.workers, h.waiting - {i}, h.clients, h.sent)
      ensures g == Occupied(h, i)
    {
    }

    twostate lemma SeenWaiting(new w: Worker)
      requires old(Owned()) && Owned()
      requires (set v | v in waiting :: v.identity) == old(set v | v in waiting :: v.identity) - {w.identity}
      ensures View().waiting == old(View()).waiting - {w.identity}
    {
    }

    /** service_internal */
    method ServiceInternal(name: string, msg: Message)
      requires Wired() && msg != []
      modifies `sent
      ensures Wired()
      ensures var h := old(View());
        View() == if variant.Minimal? then h.(sent := h.sent + [Answer(MmiAnswer(h, name, msg))]) else h
    {
      hide MmiAnswer, CStr, Wired, View, BodySet, Unwrapped;
      WiredOwned();
      var code := "501";
      if name == "mmi.service" {
        var body := CStr(msg[|msg| - 1]);
        SeenCount(body);
        code := if body in services && services[body].workers != 0 then "200" else "404";
      }
      assert code == MmiCode(View(), name, CStr(msg[|msg| - 1]));
      if variant.Minimal? {
        BodyNotEmpty(msg, code);
        var (client, body) := Unwrapped(BodySet(msg, code));
        var answer := Wrapped(Wrapped(body, MDP_CLIENT, Some(name)), client, Some(""));
        assert answer == MmiAnswer(View(), name, msg) by { MmiIs(View(), name, msg, code); }
        sent := sent + [Answer(answer)];
        SentWired();
        SentView();
      }
    }

    lemma SeenCount(n: string)
      requires Owned()
      ensures n in services <==> n in View().services
      ensures n in services ==> View().services[n].workers == services[n].workers
    {
    }

    lemma BodyNotEmpty(msg: Message, code: string)
      ensures BodySet(msg, code) != []
    {
    }

    lemma MmiIs(h: Hub, n: string, msg: Message, code: string)
      requires msg != [] && BodySet(msg, code) != [] && code == MmiCode(h, n, CStr(msg[|msg| - 1]))
      ensures MmiAnswer(h, n, msg) == Envelope(Unwrapped(BodySet(msg, code)).0, n, Unwrapped(BodySet(msg, code)).1)
    {
    }

    twostate lemma SentView()
      requires old(Owned()) && Owned() && Touched(null, null) && waiting == old(waiting) && clients == old(clients)
      ensures View() == old(View()).(sent := sent) && old(View()).sent == old(sent)
    {
      KeptServices(null);
      WorkersUnchanged();
      hide ServiceView, WorkerView;
      assert View().services == old(View()).services;
    }

    twostate lemma SentDone(w: Worker)
      requires old(Wired()) && Touched(null, null) && waiting == old(waiting) && clients == old(clients)
      ensures Wired() && View() == old(View()).(sent := sent) && old(View()).sent == old(sent)
      ensures old(Registered(w)) ==> Registered(w)
    {
      WiredOwnedBefore();
      assert old(Registered(w)) ==> Registered(w);
      hide Wired, View, Owned, Registered;
      SentWired();
      WiredOwned();
      SentView();
    }

    twostate lemma HeardDone()
      requires old(Wired()) && Touched(null, null) && waiting == old(waiting) && sent == old(sent)
      ensures Wired() && View() == old(View()).(clients := clients) && old(View()).clients == old(clients)
    {
      hide Wired, View, Owned;
      WiredOwnedBefore();
      SentWired();
      WiredOwned();
      Fields();
      KeptServices(null);
      WorkersUnchanged();
      assert View().services == old(View()).services;
    }

    /** client_process */
    method ClientProcess(sender: string, m: Message, now: int)
      requires Wired() && |m| >= 2 && CStr(m[0]) != ""
      modifies this, repr
      ensures Wired() && fresh(repr - old(repr))
      ensures Linked(old(View())) && View() == ClientProcessed(variant, old(View()), sender, m, now)
    {
      hide Dispatched, Required, MmiAnswer, Wrapped, CStr, Linked, View, Wired, Owned;
      WiredIsLinked();
      WiredOwned();
      ghost var h := View();
      var name := CStr(m[0]);
      if variant.Ring? && name == "HEARTBEAT" {
        clients := clients + {sender};
        HeardDone();
      } else {
        var srv := ServiceRequire(name);
        WiredIsLinked();
        var msg := Wrapped(m[1..], sender, Some(""));
        if Reserved(name) {
          MessageSome(m[1..], sender, h, name);
          ServiceInternal(name, msg);
        } else {
          ServiceDispatch(srv, Some(msg), now);
        }
      }
    }

    twostate lemma SentWired()
      requires old(Wired()) && Touched(null, null) && waiting == old(waiting)
      ensures Wired()
    {
    }

    lemma MessageSome(m: Message, a: string, h: Hub, n: string)
      ensures Wrapped(m, a, Some("")) != [] && Required(h, n).sent == h.sent
    {
    }

    /** READY from a new worker: it is attached to its service and waits. */
    method Welcome(wrk: Worker, name: string, seen: int, now: int)
      requires Wired() && Registered(wrk) && wrk.service == null && name != ""
      modifies this, repr
      ensures Wired() && fresh(repr - old(repr))
      ensures wrk.identity in old(View()).workers && wrk.identity in Required(old(View()), name).workers
      ensures name in Required(old(View()), name).services
      ensures var a := Attached(Required(old(View()), name), wrk.identity, name);
        && Linked(a) && wrk.identity in a.workers && a.workers[wrk.identity].service.Some?
        && View() == Waiting(a, wrk.identity, seen, now)
    {
      hide Wired, View, Waiting, Required, Linked, Owned;
      WiredOwned();
      InRepr(wrk);
      SeenWorker(wrk);
      var srv := ServiceRequire(name);
      WiredOwned();
      OfferedInRepr(srv);
      Attach(wrk, srv);
      WorkerWaiting(wrk, seen, now);
    }

    /** The body of a reply, in the envelope for the client. */
    method PassBody(wrk: Worker, m: Message)
      requires Wired() && Registered(wrk) && wrk.service != null && m != []
      modifies `sent
      ensures Wired() && Registered(wrk)
      ensures var (client, body) := Unwrapped(m);
        View() == old(View()).(sent := old(View()).sent + [Answer(Envelope(client, wrk.service.name, body))])
    {
      hide Wired, View, Unwrapped, Registered, Wrapped, Owned;
      WiredOwned();
      var (client, body) := Unwrapped(m);
      sent := sent + [Answer(Wrapped(Wrapped(body, MDP_CLIENT, Some(wrk.service.name)), client, Some("")))];
      SentDone(wrk);
    }

    /** REPLY from a known worker: the body goes on to the client, the worker waits again. */
    method PassReply(wrk: Worker, m: Message, seen: int, now: int)
      requires Wired() && Registered(wrk) && wrk.service != null && m != []
      modifies this, repr
      ensures Wired() && repr == old(repr)
      ensures Linked(old(View())) && wrk.identity in old(View()).workers
      ensures old(View()).workers[wrk.identity].service.Some?
      ensures View() == Replied(old(View()), wrk.identity, m, seen, now)
    {
      hide Wired, View, Waiting, Linked, Envelope, Unwrapped, Registered, Offered;
      WiredIsLinked();
      AtHome(wrk);
      PassBody(wrk, m);
      WorkerWaiting(wrk, seen, now);
    }

    method Heartbeat(wrk: Worker, seen: int)
      requires Wired() && Registered(wrk)
      modifies wrk`expiry
      ensures Wired() && wrk.identity in old(View()).workers
      ensures var h, i := old(View()), wrk.identity;
        View() == h.(workers := h.workers[i := Wkr(h.workers[i].service, seen + EXPIRY)])
    {
      SeenWorker(wrk);
      hide View, Names;
      wrk.expiry := seen + EXPIRY;
      BeatWired(wrk);
      hide Wired;
      WorkerChanged(wrk);
      BeatView();
    }

    twostate lemma BeatWired(new x: Worker)
      requires old(Wired()) && Touched(null, x) && waiting == old(waiting)
      requires Registered(x) && x.service == old(x.service)
      ensures Wired()
    {
      forall i | i in workers
        ensures PointsHome(workers[i])
      {
        assert old(PointsHome(workers[i])) && workers[i] in old(repr);
      }
      forall n | n in services
        ensures ListsHome(services[n])
      {
        assert old(ListsHome(services[n])) && services[n] in old(repr);
        assert forall v :: v in services[n].waiting ==> v in old(repr);
      }
    }

    twostate lemma BeatView()
      requires old(Owned()) && Owned() && repr == old(repr) && services == old(services) && ServicesAsBefore(null)
      requires waiting == old(waiting) && clients == old(clients) && sent == old(sent)
      ensures View() == old(View()).(workers := View().workers)
    {
      KeptServices(null);
      hide ServiceView, WorkerView;
      assert View().services == old(View()).services;
    }

    /** Between events: the objects are wired, and their values are as every run keeps them. */
    ghost predicate Valid()
      reads this, repr
    {
      Wired() && Good(View())
    }

    /** worker_process */
    method WorkerProcess(sender: string, m: Message, seen: int, now: int)
      requires Valid() && ValidCommand(variant, View(), sender, m)
      modifies this, repr
      ensures Valid() && fresh(repr - old(repr))
      ensures View() == WorkerProcessed(variant, old(View()), sender, m, seen, now)
    {
      hide Wired, Good, View, WorkerProcessed, ValidCommand, Registered, Majordomo.Registered, Settled;
      BeforeCommand(sender);
      ghost var h := View();
      CommandHasSender(variant, h, sender, m);
      WorkerKeeps(variant, h, sender, m, seen, now);
      var ready := sender in workers;
      var wrk := WorkerRequire(sender);
      if ready {
        FromKnown(wrk, m, seen, now);
      } else {
        FromStranger(wrk, m, seen, now, h);
      }
    }

    /** worker_process, for a worker that was registered before. */
    method FromKnown(wrk: Worker, m: Message, seen: int, now: int)
      requires Wired() && Registered(wrk) && wrk.service != null
      requires Settled(View()) && ValidCommand(variant, View(), wrk.identity, m)
      modifies this, repr
      ensures Wired() && repr == old(repr) && wrk.identity in old(View()).workers
      ensures View() == WorkerProcessed(variant, old(View()), wrk.identity, m, seen, now)
    {
      hide Wired, View, CStr, Removed, Occupied, Replied, WorkerProcessed, ValidCommand, Settled, Linked, Registered,
        Offered;
      AtHome(wrk);
      InRepr(wrk);
      ghost var h := View();
      KnownIs(variant, h, wrk.identity, m, seen, now);
      var command := CStr(m[0]);
      if command == READY {
        WorkerDelete(wrk, true);
      } else if variant.Ring? && command == OCCUPIED {
        Named(CStr(m[1]));
        Occupy(workers[CStr(m[1])]);
      } else if command == REPLY {
        PassReply(wrk, m[1..], seen, now);
      } else if command == HEARTBEAT {
        Heartbeat(wrk, seen);
      } else if command == DISCONNECT {
        WorkerDelete(wrk, false);
      }
    }

    lemma Named(i: string)
      requires Wired() && Settled(View()) && i in View().workers
      ensures i in workers && Registered(workers[i]) && workers[i].identity == i && workers[i].service != null
    {
      assert View().workers[i] == WorkerView(workers[i]);
    }

    /** worker_process, for a worker that has just been registered, under the identity that h lacks. */
    method FromStranger(wrk: Worker, m: Message, seen: int, now: int, ghost h: Hub)
      requires Wired() && Registered(wrk) && wrk.service == null
      requires Good(h) && wrk.identity !in h.workers && View() == Majordomo.Registered(h, wrk.identity)
      requires ValidCommand(variant, h, wrk.identity, m)
      modifies this, repr
      ensures Wired() && fresh(repr - old(repr))
      ensures View() == WorkerProcessed(variant, h, wrk.identity, m, seen, now)
    {
      StrangerIs(h, wrk.identity);
      var command := CStr(m[0]);
      if command == READY && !Reserved(wrk.identity) {
        JoinedIs(h, wrk.identity, CStr(m[1]), seen, now);
        hide Wired, View, CStr, Good, Waiting, Attached, Required, Majordomo.Registered;
        Welcome(wrk, CStr(m[1]), seen, now);
      } else {
        hide Wired, View, CStr, Good, Removed, Refused, Majordomo.Registered;
        WorkerDelete(wrk, command != DISCONNECT);
      }
    }

    /** One round of start_brokering: a client's message, a worker's message, or the clock. */
    method Process(e: Event)
      requires Valid() && Enabled(variant, View(), e)
      modifies this, repr
      ensures Valid() && fresh(repr - old(repr))
      ensures View() == Step(variant, old(View()), e)
    {
      HandledKeeps(variant, View(), e);
      hide Wired, Good, View, ClientProcessed, WorkerProcessed, ValidCommand, Cut;
      match e
      case FromClient(sender, m, now) => ClientProcess(sender, m, now);
      case FromWorker(sender, m, seen, now) => WorkerProcess(sender, m, seen, now);
      case Purge(now) => PurgeWorkers(now);
    }

    lemma BeforeCommand(sender: string)
      requires Valid()
      ensures Wired() && Settled(View()) && (sender in workers <==> sender in View().workers)
      ensures sender in workers ==> Majordomo.Registered(View(), sender) == View() && workers[sender].service != null
    {
      if sender in workers {
        assert View().workers[sender] == WorkerView(workers[sender]);
      }
    }
  }

  /** Joined, in the steps the broker takes. */
  ghost predicate JoinedAs(h: Hub, i: string, n: string, seen: int, now: int) {
    && Linked(h) && i !in h.workers
    && var r := Required(Majordomo.Registered(h, i), n);
      && i in r.workers && n in r.services
      && var a := Attached(r, i, n);
        Linked(a) && i in a.workers && a.workers[i].service.Some? &&
          Joined(h, i, n, seen, now) == Waiting(a, i, seen, now)
  }

  lemma RemovedIs(h: Hub, i: string)
    requires i in h.workers && (h.workers[i].service.Some? ==> h.workers[i].service.value in h.services)
    ensures Removed(h, i, false) == Hub(
      match h.workers[i].service
      case None => h.services
      case Some(n) => h.services[n := Svc(h.services[n].requests, Without(h.services[n].waiting, {i}),
        h.services[n].workers - 1)],
      h.workers - {i}, h.waiting - {i}, h.clients, h.sent)
  {
  }

  lemma RequiredAsNew(h: Hub, n: string)
    ensures n !in h.services ==> Required(h, n) == h.(services := h.services[n := Svc([], [], 0)])
  {
  }

  lemma RegisteredAsNew(h: Hub, i: string)
    ensures i !in h.workers ==> Majordomo.Registered(h, i) == h.(workers := h.workers[i := Wkr(None, 0)])
  {
  }

  lemma CommandHasSender(v: Variant, h: Hub, sender: string, m: Message)
    requires ValidCommand(v, h, sender, m)
    ensures sender != ""
  {
  }

  lemma KnownIs(v: Variant, h: Hub, i: string, m: Message, seen: int, now: int)
    requires Settled(h) && ValidCommand(v, h, i, m) && i in h.workers
    ensures |m| >= 1
    ensures var command, g := CStr(m[0]), WorkerProcessed(v, h, i, m, seen, now);
      if command == READY then g == Removed(h, i, true)
      else if v.Ring? && command == OCCUPIED then |m| >= 2 && CStr(m[1]) in h.workers && g == Occupied(h, CStr(m[1]))
      else if command == REPLY then |m| >= 2 && g == Replied(h, i, m[1..], seen, now)
      else if command == HEARTBEAT then g == h.(workers := h.workers[i := Wkr(h.workers[i].service, seen + EXPIRY)])
      else if command == DISCONNECT then g == Removed(h, i, false)
      else g == h
  {
    hide CStr, Removed, Occupied, Replied, Linked;
  }

  lemma RemovedOfSent(h: Hub, i: string, disconnect: bool)
    requires i in h.workers && (h.workers[i].service.Some? ==> h.workers[i].service.value in h.services)
    ensures Removed(h.(sent := if disconnect then h.sent + [Disconnect(i)] else h.sent), i, false) ==
      Removed(h, i, disconnect)
  {
  }

  lemma SameExpired(h: Hub, g: Hub, now: int)
    requires g.workers == h.workers && g.waiting == h.waiting
    ensures Expired(g, now) == Expired(h, now)
  {
  }

  lemma StrangerIs(h: Hub, i: string)
    ensures i !in h.workers ==>
      i in Majordomo.Registered(h, i).workers && Majordomo.Registered(h, i).workers[i].service.None?
    ensures i !in h.workers ==> forall d :: Refused(h, i, d) == Removed(Majordomo.Registered(h, i), i, d)
  {
  }

  lemma JoinedIs(h: Hub, i: string, n: string, seen: int, now: int)
    requires Good(h) && i !in h.workers
    ensures JoinedAs(h, i, n, seen, now)
  {
    NewcomerKeeps(h, i, n);
    hide Waiting;
  }
}
