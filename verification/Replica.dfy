/** Monitors: replaying the list messages of a monitor connection through
    MonitorView gives exactly the current registry. */
module Replica {
  import opened Wire
  import opened Peers
  import opened Registry
  import opened Calls
  import opened Broker
  import opened Quiet
  import opened Gate
  import opened Agreement
  import Conservation

  // ---- the view of monitor/main.cc ----

  /** The list without the first entry that has an id. */
  function RemoveFirst(v: seq<Item>, id: int): seq<Item> {
    if v == [] then [] else if v[0].id == id then v[1..] else [v[0]] + RemoveFirst(v[1..], id)
  }

  function Absorb(v: seq<Item>, f: Frame): seq<Item> {
    match f
    case MonitorAll(items) => v + items
    case MonitorAdd(item) => v + [item]
    case MonitorRemove(id) => RemoveFirst(v, id)
    case _ => v
  }

  class MonitorView {
    var floraClients: seq<Item>

    constructor ()
      ensures floraClients == []
    {
      floraClients := [];
    }

    method ListAll(items: seq<Item>)
      modifies this
      ensures floraClients == Absorb(old(floraClients), MonitorAll(items))
    {
      var i := 0;
      while i < |items|
        invariant 0 <= i <= |items| && floraClients == old(floraClients) + items[..i]
      {
        floraClients := floraClients + [items[i]];
        i := i + 1;
      }
    }

    method ListAdd(item: Item)
      modifies this
      ensures floraClients == Absorb(old(floraClients), MonitorAdd(item))
    {
      floraClients := floraClients + [item];
    }

    method ListRemove(id: int)
      modifies this
      ensures floraClients == Absorb(old(floraClients), MonitorRemove(id))
    {
      var i := 0;
      while i < |floraClients|
        invariant 0 <= i <= |floraClients| && floraClients == old(floraClients)
        invariant RemoveFirst(floraClients, id) == floraClients[..i] + RemoveFirst(floraClients[i..], id)
      {
        if floraClients[i].id == id {
          floraClients := floraClients[..i] + floraClients[i + 1..];
          return;
        }
        i := i + 1;
      }
    }
  }

  /** What a fresh view shows after a sequence of frames. */
  function Replay(l: seq<Sent>): seq<Item> {
    if l == [] then [] else Absorb(Replay(l[..|l| - 1]), l[|l| - 1].frame)
  }

  function View(sent: seq<Sent>): seq<Item> { Replay(Select(sent, IsList())) }

  // ---- the registry as a multiset of items ----

  lemma LeastOther(s: set<Id>, a: Id)
    requires s != {} && Least(s) != a
    ensures s - {a} != {} && Least(s - {a}) == Least(s)
  {
    assert Least(s) in s - {a};
  }

  lemma ItemsCons(infos: map<Id, Info>, k: Id)
    requires infos.Keys != {} && k == Least(infos.Keys)
    ensures multiset(Items(infos)) == multiset{ToItem(infos[k])} + multiset(Items(infos - {k}))
  {}

  lemma {:induction false} ItemsWithout(infos: map<Id, Info>, a: Id)
    requires a in infos
    ensures multiset(Items(infos)) == multiset(Items(infos - {a})) + multiset{ToItem(infos[a])}
    decreases infos.Keys
  {
    var k := Least(infos.Keys);
    if a == k {
      ItemsCons(infos, k);
    } else {
      ItemsWithout(infos - {k}, a);
      ItemsWithoutOther(infos, a, k);
    }
  }

  lemma ItemsWithoutOther(infos: map<Id, Info>, a: Id, k: Id)
    requires a in infos && k == Least(infos.Keys) && a != k
    requires multiset(Items(infos - {k})) == multiset(Items(infos - {k} - {a})) + multiset{ToItem(infos[a])}
    ensures multiset(Items(infos)) == multiset(Items(infos - {a})) + multiset{ToItem(infos[a])}
  {
    ItemsCons(infos, k);
    SameLeast(infos, a, k);
    ItemsCons(infos - {a}, k);
    Exchange(multiset(Items(infos)), multiset(Items(infos - {k})), multiset(Items(infos - {k} - {a})),
             multiset(Items(infos - {a})), ToItem(infos[k]), ToItem(infos[a]));
  }

  lemma SameLeast(infos: map<Id, Info>, a: Id, k: Id)
    requires a in infos && k == Least(infos.Keys) && a != k
    ensures (infos - {a}).Keys != {} && k == Least((infos - {a}).Keys) && infos - {a} - {k} == infos - {k} - {a}
  {
    LeastOther(infos.Keys, a);
    assert (infos - {a}).Keys == infos.Keys - {a};
  }

  lemma Exchange(all: multiset<Item>, noK: multiset<Item>, neither: multiset<Item>, noA: multiset<Item>, k: Item, a: Item)
    requires all == multiset{k} + noK && noK == neither + multiset{a} && noA == multiset{k} + neither
    ensures all == noA + multiset{a}
  {}

  lemma {:induction false} ItemsSame(infos: map<Id, Info>, infos': map<Id, Info>)
    requires infos.Keys == infos'.Keys && forall a | a in infos :: ToItem(infos[a]) == ToItem(infos'[a])
    ensures Items(infos) == Items(infos')
    decreases infos.Keys
  {
    if infos != map[] {
      assert infos' != map[] by { var a :| a in infos; }
      ItemsSame(infos - {Least(infos.Keys)}, infos' - {Least(infos.Keys)});
    }
  }

  lemma {:induction false} ItemFrom(infos: map<Id, Info>, x: Item) returns (a: Id)
    requires x in Items(infos)
    ensures a in infos && ToItem(infos[a]) == x
    decreases infos.Keys
  {
    var k := Least(infos.Keys);
    if x == ToItem(infos[k]) { a := k; } else { a := ItemFrom(infos - {k}, x); }
  }

  lemma {:induction false} RemoveUnique(v: seq<Item>, x: Item)
    requires x in v && forall y | y in v && y.id == x.id :: y == x
    ensures multiset(v) == multiset(RemoveFirst(v, x.id)) + multiset{x}
  {
    assert v == [v[0]] + v[1..];
    if v[0].id != x.id {
      RemoveUnique(v[1..], x);
    }
  }

  // ---- the invariant ----

  /** An open monitor shows exactly these entries. */
  ghost predicate Shows(p: Peer, items: multiset<Item>) {
    p.open ==> multiset(View(p.sent)) == items
  }

  /** A monitor shows exactly the registry. */
  ghost predicate Mirrored(s: Core, m: Id) {
    m in s.reg.monitors ==> m in s.peers && Shows(s.peers[m], multiset(Items(s.reg.infos)))
  }

  /** No list message was written to a connection. */
  ghost predicate Unlisted(ps: PeerMap, m: Id) { m in ps ==> Select(ps[m].sent, IsList()) == [] }

  lemma WriteView(p: Peer, at: nat, net: bool, f: Frame)
    requires IsList()(f)
    ensures var q := Write(p, at, net, f); q.open ==> p.open && View(q.sent) == Absorb(View(p.sent), f)
  {
    WriteSelect(p, at, net, f, IsList());
  }

  lemma AddShows(p: Peer, items: multiset<Item>, at: nat, x: Item)
    requires Shows(p, items)
    ensures Shows(Write(p, at, p.net, MonitorAdd(x)), items + multiset{x})
  {
    WriteView(p, at, p.net, MonitorAdd(x));
    assert multiset(View(p.sent) + [x]) == multiset(View(p.sent)) + multiset{x};
  }

  lemma RemoveShows(p: Peer, items: multiset<Item>, at: nat, x: Item)
    requires Shows(p, items) && x in items && forall y | y in items && y.id == x.id :: y == x
    ensures Shows(Write(p, at, p.net, MonitorRemove(x.id)), items - multiset{x})
  {
    WriteView(p, at, p.net, MonitorRemove(x.id));
    if p.open {
      var v := View(p.sent);
      assert x in multiset(v);
      forall y | y in v ensures y in items { assert y in multiset(v); }
      RemoveUnique(v, x);
    }
  }

  lemma AllShowsAll(p: Peer, at: nat, l: seq<Item>)
    requires Select(p.sent, IsList()) == []
    ensures Shows(Write(p, at, p.net, MonitorAll(l)), multiset(l))
  {
    WriteView(p, at, p.net, MonitorAll(l));
    assert Absorb([], MonitorAll(l)) == l;
  }

  lemma ItemsDistinct(r: Registry, a: Id)
    requires IdsDistinct(r) && a in r.infos
    ensures var items := multiset(Items(r.infos)); var x := ToItem(r.infos[a]);
            x in items && forall y | y in items && y.id == x.id :: y == x
  {
    ItemsWithout(r.infos, a);
    forall y | y in Items(r.infos) && y.id == r.infos[a].id ensures y == ToItem(r.infos[a]) {
      var b := ItemFrom(r.infos, y);
    }
  }

  lemma TwiceIsMore(items: multiset<Item>, x: Item)
    ensures items + multiset{x} != items
  {
    assert (items + multiset{x})[x] == items[x] + 1;
  }

  lemma StillMirrors(s: Core, s': Core, m: Id)
    requires Mirrored(s, m) && Still(s.peers, s'.peers, IsList())
    requires s'.reg.monitors.Keys <= s.reg.monitors.Keys && Items(s'.reg.infos) == Items(s.reg.infos)
    ensures Mirrored(s', m)
  {}

  /** Up to its answer an auth writes no list message. */
  lemma GreetStill(s: Core, a: Id, r: Request)
    requires r.Auth?
    ensures Still(s.peers, Enroll(s, a, r).peers, IsList())
    ensures Still(s.peers, SendTo(Enroll(s, a, r), a, AuthResp(AuthResult(s, r), FLORA_VERSION)).peers, IsList())
  {
    var s1 := Enroll(s, a, r);
    var f := AuthResp(AuthResult(s, r), FLORA_VERSION);
    assert Still(s.peers, s1.peers, IsList());
    SendStill(s1.peers, a, s.step, f, IsList());
    StillTwice(s.peers, s1.peers, SendTo(s1, a, f).peers, IsList());
  }

  // ---- a client joins ----

  /** The entry of a client that registers now. */
  function NewItem(s: Core, r: Request): Item
    requires r.Auth?
  {
    Item(s.reg.idseq + 1, r.pid, r.extra, r.flags)
  }

  lemma JoinItems(r: Registry, a: Id, name: string, flags: uint32, pid: int)
    requires a !in r.infos && !NameTaken(r, name)
    ensures var infos := AddAdapter(r, a, name, flags, pid).infos;
            multiset(Items(infos)) == multiset(Items(r.infos)) + multiset{Item(r.idseq + 1, pid, name, flags)}
  {
    ItemsWith(r.infos, a, Info(r.idseq + 1, pid, name, {}, flags));
  }

  lemma ItemsWith(infos: map<Id, Info>, a: Id, i: Info)
    requires a !in infos
    ensures multiset(Items(infos[a := i])) == multiset(Items(infos)) + multiset{ToItem(i)}
  {
    ItemsWithout(infos[a := i], a);
    assert infos[a := i] - {a} == infos;
  }

  /** What a first auth of a client does: if its answer does not fit nobody is told. */
  lemma JoinAnnounces(s: Core, a: Id, r: Request)
    requires r.Auth? && a !in s.reg.infos && a !in s.reg.monitors && AuthResult(s, r) == SUCCESS && !IsMonitor(r.flags)
    ensures var s1 := Enroll(s, a, r);
            var s2 := SendTo(s1, a, AuthResp(SUCCESS, FLORA_VERSION));
            && s1.reg == AddAdapter(s.reg, a, r.extra, r.flags, r.pid)
            && HandleAuth(s, a, r) ==
               if Fits(s, a, AuthResp(SUCCESS, FLORA_VERSION)) then Outcome(ToMonitors(s2, MonitorAdd(NewItem(s, r))), true)
               else Outcome(s1, false)
  {}

  /** A new client appears in a monitor's view exactly if the answer to the client and the
      message to the monitor fit. */
  lemma JoinMirrors(s: Core, a: Id, r: Request, m: Id)
    requires r.Auth? && a !in s.reg.infos && a !in s.reg.monitors && AuthResult(s, r) == SUCCESS && !IsMonitor(r.flags)
    requires Mirrored(s, m)
    ensures var o := HandleAuth(s, a, r);
            Mirrored(o.core.(peers := Settle(o, a)), m)
            <==> (m in s.reg.monitors && IsOpen(s.peers, m) ==>
                    Fits(s, a, AuthResp(SUCCESS, FLORA_VERSION)) && Fits(s, m, MonitorAdd(NewItem(s, r))))
  {
    var o := HandleAuth(s, a, r);
    JoinRegistry(s, a, r);
    if m in s.reg.monitors { JoinPeer(s, a, r, m); }
    JoinMirrored(s, o.core.(peers := Settle(o, a)), a, r, m);
  }

  lemma JoinMirrored(s: Core, s': Core, a: Id, r: Request, m: Id)
    requires r.Auth? && a !in s.reg.infos && !NameTaken(s.reg, r.extra) && Mirrored(s, m)
    requires s'.reg == AddAdapter(s.reg, a, r.extra, r.flags, r.pid)
    requires m in s.reg.monitors ==> m in s'.peers
    requires var told := Fits(s, a, AuthResp(SUCCESS, FLORA_VERSION)) && Fits(s, m, MonitorAdd(NewItem(s, r)));
             m in s.reg.monitors ==>
               s'.peers[m] == (if told then Write(s.peers[m], s.step, s.peers[m].net, MonitorAdd(NewItem(s, r))) else s.peers[m])
    ensures Mirrored(s', m)
            <==> (m in s.reg.monitors && IsOpen(s.peers, m) ==>
                    Fits(s, a, AuthResp(SUCCESS, FLORA_VERSION)) && Fits(s, m, MonitorAdd(NewItem(s, r))))
  {
    if m in s.reg.monitors {
      var x := NewItem(s, r);
      JoinItems(s.reg, a, r.extra, r.flags, r.pid);
      JoinShows(s, s', m, x, Fits(s, a, AuthResp(SUCCESS, FLORA_VERSION)) && Fits(s, m, MonitorAdd(x)));
    }
  }

  /** One more client is registered, and a monitor is told or not. */
  lemma JoinShows(s: Core, s': Core, m: Id, x: Item, told: bool)
    requires Mirrored(s, m) && m in s.reg.monitors && m in s'.reg.monitors && m in s'.peers
    requires multiset(Items(s'.reg.infos)) == multiset(Items(s.reg.infos)) + multiset{x}
    requires s'.peers[m] == if told then Write(s.peers[m], s.step, s.peers[m].net, MonitorAdd(x)) else s.peers[m]
    ensures Mirrored(s', m) <==> (s.peers[m].open ==> told)
  {
    MoreShows(s.peers[m], multiset(Items(s.reg.infos)), s.step, x, told);
  }

  lemma JoinRegistry(s: Core, a: Id, r: Request)
    requires r.Auth? && AuthResult(s, r) == SUCCESS && !IsMonitor(r.flags)
    ensures HandleAuth(s, a, r).core.reg == AddAdapter(s.reg, a, r.extra, r.flags, r.pid)
  {}

  /** What a monitor gets of it. */
  lemma JoinPeer(s: Core, a: Id, r: Request, m: Id)
    requires r.Auth? && a !in s.reg.infos && a !in s.reg.monitors && AuthResult(s, r) == SUCCESS && !IsMonitor(r.flags)
    requires m in s.reg.monitors && m in s.peers
    ensures var ps := Settle(HandleAuth(s, a, r), a);
            m in ps && ps[m] ==
              if Fits(s, a, AuthResp(SUCCESS, FLORA_VERSION)) && Fits(s, m, MonitorAdd(NewItem(s, r)))
              then Write(s.peers[m], s.step, s.peers[m].net, MonitorAdd(NewItem(s, r))) else s.peers[m]
  {
    JoinAnnounces(s, a, r);
    EnrollPeers(s, a, r, m);
  }

  lemma MoreShows(p: Peer, items: multiset<Item>, at: nat, x: Item, fits: bool)
    requires Shows(p, items)
    ensures Shows(if fits then Write(p, at, p.net, MonitorAdd(x)) else p, items + multiset{x}) <==> (p.open ==> fits)
  {
    AddShows(p, items, at, x);
    TwiceIsMore(items, x);
  }

  /** Authenticating once is needed: a client that is already registered and passes an
      auth again is listed twice by every open monitor that is told. */
  lemma SecondAuthDoubles(s: Core, a: Id, r: Request, m: Id)
    requires r.Auth? && a in s.peers && a in s.reg.infos && a !in s.reg.monitors
    requires AuthResult(s, r) == SUCCESS && !IsMonitor(r.flags)
    requires m in s.reg.monitors && m in s.peers && s.peers[m].open && s.peers[m].room > 0
    requires Fits(s, a, AuthResp(SUCCESS, FLORA_VERSION)) && Fits(s, m, MonitorAdd(ToItem(s.reg.infos[a])))
    requires Shows(s.peers[m], multiset(Items(s.reg.infos)))
    ensures var s' := HandleAuth(s, a, r).core;
            && s'.reg.infos == s.reg.infos && s'.peers[m].open
            && multiset(View(s'.peers[m].sent)) == multiset(Items(s.reg.infos)) + multiset{ToItem(s.reg.infos[a])}
            && !Shows(s'.peers[m], multiset(Items(s'.reg.infos)))
  {
    var x := ToItem(s.reg.infos[a]);
    var s1 := Enroll(s, a, r);
    var s2 := SendTo(s1, a, AuthResp(SUCCESS, FLORA_VERSION));
    SecondAuthAnnounces(s, a, r);
    assert s2.peers[m] == s.peers[m];
    AddShows(s.peers[m], multiset(Items(s.reg.infos)), s.step, x);
    TwiceIsMore(multiset(Items(s.reg.infos)), x);
  }

  lemma SecondAuthAnnounces(s: Core, a: Id, r: Request)
    requires r.Auth? && a in s.reg.infos && a !in s.reg.monitors && Fits(s, a, AuthResp(SUCCESS, FLORA_VERSION))
    requires AuthResult(s, r) == SUCCESS && !IsMonitor(r.flags)
    ensures var s1 := Enroll(s, a, r);
            var s2 := SendTo(s1, a, AuthResp(SUCCESS, FLORA_VERSION));
            && s1.reg.infos == s.reg.infos && s1.reg.monitors == s.reg.monitors
            && HandleAuth(s, a, r).core == ToMonitors(s2, MonitorAdd(ToItem(s.reg.infos[a])))
  {}

  // ---- a monitor joins ----

  lemma WatchAnnounces(s: Core, a: Id, r: Request)
    requires r.Auth? && a !in s.reg.monitors && AuthResult(s, r) == SUCCESS && IsMonitor(r.flags)
    ensures var s1 := Enroll(s, a, r); var all := MonitorAll(Items(s.reg.infos));
            var s2 := SendTo(s1, a, AuthResp(SUCCESS, FLORA_VERSION));
            && s1.reg.monitors.Keys == s.reg.monitors.Keys + {a} && s1.reg.infos == s.reg.infos
            && HandleAuth(s, a, r) ==
               if !Fits(s, a, AuthResp(SUCCESS, FLORA_VERSION)) then Outcome(s1, false)
               else Outcome(if Fits(s, a, all) then SendTo(s2, a, all) else s2, true)
  {}

  /** The list is due to a new monitor: its connection is still open after the answer. */
  predicate ListDue(s: Core, a: Id) {
    IsOpen(s.peers, a) && s.peers[a].room > 0 && Fits(s, a, AuthResp(SUCCESS, FLORA_VERSION))
  }

  /** A new monitor shows the registry exactly if the whole list fits or is empty, unless
      its connection does not live to see it. */
  lemma WatchMirrors(s: Core, a: Id, r: Request, m: Id)
    requires r.Auth? && a in s.peers && a !in s.reg.monitors && AuthResult(s, r) == SUCCESS && IsMonitor(r.flags)
    requires Mirrored(s, m) && Unlisted(s.peers, a)
    ensures var o := HandleAuth(s, a, r);
            Mirrored(o.core.(peers := Settle(o, a)), m)
            <==> (m == a && ListDue(s, a) ==> Items(s.reg.infos) == [] || Fits(s, a, MonitorAll(Items(s.reg.infos))))
  {
    WatchAnnounces(s, a, r);
    if m == a {
      var l, s2 := Items(s.reg.infos), SendTo(Enroll(s, a, r), a, AuthResp(SUCCESS, FLORA_VERSION));
      Greeted(s, a, r);
      FirstList(s2.peers[a], s.step, l, Fits(s, a, MonitorAll(l)));
    } else {
      WatchOther(s, a, r, m);
    }
  }

  lemma WatchOther(s: Core, a: Id, r: Request, m: Id)
    requires r.Auth? && m != a
    ensures m in s.peers ==> m in HandleAuth(s, a, r).core.peers
    ensures m in s.peers && IsMonitor(r.flags) ==> Settle(HandleAuth(s, a, r), a)[m] == s.peers[m]
  {}

  /** The connection of a new monitor after the answer. */
  lemma Greeted(s: Core, a: Id, r: Request)
    requires r.Auth? && a in s.peers && Unlisted(s.peers, a)
    ensures var ps := SendTo(Enroll(s, a, r), a, AuthResp(AuthResult(s, r), FLORA_VERSION)).peers;
            && a in ps && ps[a].net == s.peers[a].net && Select(ps[a].sent, IsList()) == []
            && (ps[a].open <==> s.peers[a].open && s.peers[a].room > 0)
  {
    EnrollPeers(s, a, r, a);
    var p, f := Enroll(s, a, r).peers[a], AuthResp(AuthResult(s, r), FLORA_VERSION);
    WriteSelect(p, s.step, p.net, f, IsList());
  }

  /** The first list message of a connection. */
  lemma FirstList(p: Peer, at: nat, l: seq<Item>, fits: bool)
    requires Select(p.sent, IsList()) == []
    ensures Shows(if fits then Write(p, at, p.net, MonitorAll(l)) else p, multiset(l)) <==> (p.open ==> l == [] || fits)
  {
    AllShowsAll(p, at, l);
    EmptyShows(p, l);
  }

  lemma EmptyShows(p: Peer, l: seq<Item>)
    requires Select(p.sent, IsList()) == []
    ensures Shows(p, multiset(l)) <==> p.open ==> l == []
  {
    assert View(p.sent) == [];
    if l != [] { assert l[0] in multiset(l); }
  }

  // ---- a refused auth ----

  lemma RefusedAnswers(s: Core, a: Id, r: Request)
    requires r.Auth? && AuthResult(s, r) != SUCCESS
    ensures var o := HandleAuth(s, a, r); var s1 := Enroll(s, a, r);
            && !o.ok && o.core.reg == s.reg
            && (o.core.peers == s1.peers || o.core.peers == SendTo(s1, a, AuthResp(AuthResult(s, r), FLORA_VERSION)).peers)
  {}

  lemma RefusedMirrors(s: Core, a: Id, r: Request, m: Id)
    requires r.Auth? && Mirrored(s, m) && AuthResult(s, r) != SUCCESS
    ensures var o := HandleAuth(s, a, r); Mirrored(o.core.(peers := Settle(o, a)), m)
  {
    GreetStill(s, a, r);
    RefusedAnswers(s, a, r);
    var o := HandleAuth(s, a, r);
    assert Still(s.peers, o.core.peers, IsList());
    ShutStill(s.peers, o.core.peers, a, IsList());
    StillMirrors(s, o.core.(peers := Settle(o, a)), m);
  }

  // ---- someone leaves ----

  lemma EraseAnnounces(s: Core, a: Id, now: int)
    requires a !in s.reg.monitors && a in s.reg.infos
    ensures var s' := DoErase(s, a, now);
            && s'.reg.infos == s.reg.infos - {a} && s'.reg.monitors == s.reg.monitors
            && s'.peers == Broadcast(s.peers, s.reg.monitors.Keys, s.step, MonitorRemove(s.reg.infos[a].id), s.cfg.fits)
  {}

  lemma EraseMonitor(s: Core, a: Id, now: int)
    requires a in s.reg.monitors || a !in s.reg.infos
    ensures var s' := DoErase(s, a, now);
            s'.reg.infos == s.reg.infos && s'.reg.monitors == s.reg.monitors - {a} && s'.peers == s.peers
  {}

  /** One client fewer is registered, and a monitor is told or not. */
  lemma LeaveShows(s: Core, s': Core, m: Id, x: Item, told: bool)
    requires Mirrored(s, m) && m in s.reg.monitors && m in s'.reg.monitors && m in s'.peers
    requires multiset(Items(s.reg.infos)) == multiset(Items(s'.reg.infos)) + multiset{x}
    requires forall y | y in multiset(Items(s.reg.infos)) && y.id == x.id :: y == x
    requires s'.peers[m] == if told then Write(s.peers[m], s.step, s.peers[m].net, MonitorRemove(x.id)) else s.peers[m]
    ensures Mirrored(s', m) <==> (s.peers[m].open ==> told)
  {
    var items, left := multiset(Items(s.reg.infos)), multiset(Items(s'.reg.infos));
    assert left == items - multiset{x};
    RemoveShows(s.peers[m], items, s.step, x);
    TwiceIsMore(left, x);
  }

  /** A client that leaves disappears from a monitor's view exactly if the message fits. */
  lemma EraseMirrors(s: Core, a: Id, now: int, m: Id)
    requires Mirrored(s, m) && IdsDistinct(s.reg)
    ensures Mirrored(DoErase(s, a, now), m)
            <==> (a in s.reg.infos && a !in s.reg.monitors && m in s.reg.monitors && IsOpen(s.peers, m) ==>
                    Fits(s, m, MonitorRemove(s.reg.infos[a].id)))
  {
    if a !in s.reg.monitors && a in s.reg.infos {
      EraseAnnounces(s, a, now);
      if m in s.reg.monitors {
        var x := ToItem(s.reg.infos[a]);
        ItemsDistinct(s.reg, a);
        ItemsWithout(s.reg.infos, a);
        LeaveShows(s, DoErase(s, a, now), m, x, Fits(s, m, MonitorRemove(x.id)));
      }
    } else {
      EraseMonitor(s, a, now);
    }
  }

  // ---- packets ----

  /** The list messages that a packet makes due to an open monitor fit; so does the answer
      to a client that joins, without which nobody is told. */
  predicate Told(s: Core, p: Packet, m: Id) {
    && (Joins(s, p) && m in s.reg.monitors && IsOpen(s.peers, m) ==>
          Fits(s, p.from, AuthResp(SUCCESS, FLORA_VERSION)) && Fits(s, m, MonitorAdd(NewItem(s, Content(p).req))))
    && (p.body.None? && p.from in s.reg.infos && p.from !in s.reg.monitors && m in s.reg.monitors && IsOpen(s.peers, m) ==>
          Fits(s, m, MonitorRemove(s.reg.infos[p.from].id)))
    && (Watches(s, p) && m == p.from && ListDue(s, m) ==>
          Items(s.reg.infos) == [] || Fits(s, m, MonitorAll(Items(s.reg.infos))))
  }

  lemma OtherMirrors(s: Core, p: Packet, now: int, m: Id)
    requires Mirrored(s, m) && p.body.Some? && !IsAuth(p)
    ensures Mirrored(Handle(s, p, now), m)
  {
    HandleStill(s, p, now, IsList());
    HandleReg(s, p, now);
    ItemsSame(s.reg.infos, RegAfter(s, p).infos);
    StillMirrors(s, Handle(s, p, now), m);
  }

  lemma AuthMirrors(s: Core, p: Packet, now: int, m: Id)
    requires Mirrored(s, m) && p.from in s.peers
    requires IsAuth(p) && p.from !in s.reg.infos && p.from !in s.reg.monitors && Unlisted(s.peers, p.from)
    ensures Mirrored(Handle(s, p, now), m) <==> Told(s, p, m)
  {
    var r := Content(p).req;
    AuthHandled(s, p, now);
    if AuthResult(s, r) != SUCCESS {
      RefusedMirrors(s, p.from, r, m);
    } else if IsMonitor(r.flags) {
      WatchMirrors(s, p.from, r, m);
    } else {
      JoinMirrors(s, p.from, r, m);
    }
  }

  lemma HandleMirrors(s: Core, p: Packet, now: int, m: Id)
    requires Mirrored(s, m) && IdsDistinct(s.reg) && p.from in s.peers
    requires IsAuth(p) ==> p.from !in s.reg.infos && p.from !in s.reg.monitors && Unlisted(s.peers, p.from)
    ensures Mirrored(Handle(s, p, now), m) <==> Told(s, p, m)
  {
    if IsAuth(p) {
      AuthMirrors(s, p, now, m);
    } else if p.body.None? {
      EraseMirrors(s, p.from, now, m);
    } else {
      OtherMirrors(s, p, now, m);
    }
  }

  // ---- runs ----

  predicate ToldStep(s: State, e: Event, m: Id) {
    e.Next? && s.batch != [] ==> Told(s.core, s.batch[0], m)
  }

  /** The sender of an auth was not registered and got no list message before. */
  ghost predicate FreshStep(s: State, e: Event) {
    e.Next? && s.batch != [] && IsAuth(s.batch[0]) ==>
      && s.batch[0].from !in s.core.reg.infos && s.batch[0].from !in s.core.reg.monitors
      && Unlisted(s.core.peers, s.batch[0].from)
  }

  lemma StepMirrors(s: State, e: Event, m: Id)
    requires Mirrored(s.core, m) && IdsDistinct(s.core.reg) && Conservation.Known(s) && FreshStep(s, e)
    ensures Mirrored(Step(s, e).core, m) <==> ToldStep(s, e, m)
  {
    match e
    case Next(now) => if s.batch != [] { HandleMirrors(s.core, s.batch[0], now, m); }
    case Tick(now) =>
      TimeOutStill(s.core.peers, s.core.calls, s.core.step, Overdue(s.core.calls, now), IsList());
      StillMirrors(s.core, Step(s, e).core, m);
    case _ => assert Step(s, e).core.reg == s.core.reg;
  }

  /** List messages go to monitors only. */
  lemma HandleUnlisted(s: Core, p: Packet, now: int, m: Id)
    requires Unlisted(s.peers, m) && m !in s.reg.monitors && !(Watches(s, p) && p.from == m)
    ensures Unlisted(Handle(s, p, now).peers, m)
  {
    if IsAuth(p) && p.from !in s.reg.monitors {
      AuthUnlisted(s, p.from, Content(p).req, m);
      AuthHandled(s, p, now);
    } else if p.body.None? {
      EraseUnlisted(s, p.from, now, m);
    } else {
      assert !IsAuth(p) || Handle(s, p, now).peers == Shut(s.peers, p.from);
      if !IsAuth(p) { HandleStill(s, p, now, IsList()); }
    }
  }

  lemma AuthUnlisted(s: Core, a: Id, r: Request, m: Id)
    requires r.Auth? && Unlisted(s.peers, m) && m !in s.reg.monitors
    requires !(AuthResult(s, r) == SUCCESS && IsMonitor(r.flags) && a == m)
    ensures Unlisted(HandleAuth(s, a, r).core.peers, m)
  {
    EnrollUnlisted(s, a, r, m);
    var s2 := SendTo(Enroll(s, a, r), a, AuthResp(AuthResult(s, r), FLORA_VERSION));
    if AuthResult(s, r) == SUCCESS { AnnounceUnlisted(s2, a, r.flags, m); }
    AuthForms(s, a, r);
  }

  /** How far an auth gets. */
  lemma AuthForms(s: Core, a: Id, r: Request)
    requires r.Auth?
    ensures var s1 := Enroll(s, a, r); var s2 := SendTo(s1, a, AuthResp(AuthResult(s, r), FLORA_VERSION));
            var s' := HandleAuth(s, a, r).core;
            s' == s1 || s' == s2 || (AuthResult(s, r) == SUCCESS && s' == Announce(s2, a, r.flags))
  {}

  lemma EnrollUnlisted(s: Core, a: Id, r: Request, m: Id)
    requires r.Auth? && m !in s.reg.monitors && !(AuthResult(s, r) == SUCCESS && IsMonitor(r.flags) && a == m)
    requires Unlisted(s.peers, m)
    ensures var s1 := Enroll(s, a, r);
            && m !in s1.reg.monitors && Unlisted(s1.peers, m)
            && Unlisted(SendTo(s1, a, AuthResp(AuthResult(s, r), FLORA_VERSION)).peers, m)
  {
    var s1 := Enroll(s, a, r);
    assert s1.peers.Keys == s.peers.Keys;
    if m in s.peers {
      EnrollPeers(s, a, r, m);
      WriteSelect(s1.peers[m], s.step, s1.peers[m].net, AuthResp(AuthResult(s, r), FLORA_VERSION), IsList());
    }
  }

  lemma AnnounceUnlisted(s: Core, a: Id, flags: uint32, m: Id)
    requires Unlisted(s.peers, m) && m !in s.reg.monitors && !(IsMonitor(flags) && a == m)
    ensures Unlisted(Announce(s, a, flags).peers, m)
  {}

  lemma EraseUnlisted(s: Core, a: Id, now: int, m: Id)
    requires Unlisted(s.peers, m) && m !in s.reg.monitors
    ensures Unlisted(DoErase(s, a, now).peers, m)
  {}

  lemma StepUnlisted(s: State, e: Event, m: Id)
    requires Unlisted(s.core.peers, m) && m !in s.core.reg.monitors && m !in NewMonitor(s, e)
    ensures Unlisted(Step(s, e).core.peers, m)
  {
    match e
    case Next(now) => if s.batch != [] { HandleUnlisted(s.core, s.batch[0], now, m); }
    case Tick(now) => TimeOutStill(s.core.peers, s.core.calls, s.core.step, Overdue(s.core.calls, now), IsList());
    case _ =>
  }

  /** A connection that never passed an auth as a monitor is never sent a list message. */
  lemma {:induction false} RunUnlisted(cfg: Config, es: seq<Event>, m: Id)
    requires m !in Monitors(cfg, es)
    ensures Unlisted(Run(Init(cfg), es).core.peers, m)
  {
    if es != [] {
      var n := |es| - 1;
      RunUnlisted(cfg, es[..n], m);
      MonitorsGated(cfg, es[..n]);
      StepUnlisted(Run(Init(cfg), es[..n]), es[n], m);
    }
  }

  lemma OnceIsFresh(cfg: Config, es: seq<Event>, e: Event)
    requires AuthFresh(cfg, es, e)
    ensures FreshStep(Run(Init(cfg), es), e)
  {
    var s := Run(Init(cfg), es);
    RunGated(cfg, es);
    MonitorsGated(cfg, es);
    if e.Next? && s.batch != [] && IsAuth(s.batch[0]) { RunUnlisted(cfg, es, s.batch[0].from); }
  }

  lemma RunStepMirrors(cfg: Config, es: seq<Event>, i: nat, m: Id)
    requires AuthOnce(cfg, es) && i < |es| && Mirrored(Run(Init(cfg), es[..i]).core, m)
    ensures Mirrored(Run(Init(cfg), es[..i + 1]).core, m) <==> ToldStep(Run(Init(cfg), es[..i]), es[i], m)
  {
    OnceIsFresh(cfg, es[..i], es[i]);
    RunIds(cfg, es[..i]);
    Conservation.RunBalance(cfg, es[..i]);
    StepMirrors(Run(Init(cfg), es[..i]), es[i], m);
    RunNext(Init(cfg), es, i);
  }

  lemma {:induction false} MirroredSoFar(cfg: Config, es: seq<Event>, m: Id, i: nat)
    requires AuthOnce(cfg, es) && i <= |es| && forall k | 0 <= k < i :: ToldStep(Run(Init(cfg), es[..k]), es[k], m)
    ensures Mirrored(Run(Init(cfg), es[..i]).core, m)
  {
    if i > 0 {
      MirroredSoFar(cfg, es, m, i - 1);
      RunStepMirrors(cfg, es, i - 1, m);
    }
  }

  /** In every run in which connections authenticate once: throughout the run a monitor
      shows the id, pid, name and flags of every registered client, once, and no more, as
      long as it is open, if and only if the messages that were due to it fit. */
  lemma RunMirrors(cfg: Config, es: seq<Event>, m: Id)
    requires AuthOnce(cfg, es)
    ensures (forall i | 0 <= i <= |es| :: Mirrored(Run(Init(cfg), es[..i]).core, m))
            <==> (forall i | 0 <= i < |es| :: ToldStep(Run(Init(cfg), es[..i]), es[i], m))
  {
    if forall i | 0 <= i <= |es| :: Mirrored(Run(Init(cfg), es[..i]).core, m) {
      forall i | 0 <= i < |es| ensures ToldStep(Run(Init(cfg), es[..i]), es[i], m) { RunStepMirrors(cfg, es, i, m); }
    }
    if forall i | 0 <= i < |es| :: ToldStep(Run(Init(cfg), es[..i]), es[i], m) {
      forall i | 0 <= i <= |es| ensures Mirrored(Run(Init(cfg), es[..i]).core, m) { MirroredSoFar(cfg, es, m, i); }
    }
  }
}
