/** The dispatcher of src/disp.cc, updating its tables in place. Each method is proved
    to compute the machine's function of the same name. */
module Dispatching {
  import opened Wire
  import opened Peers
  import opened Topics
  import opened Registry
  import opened Calls
  import opened Codec
  import R = Registry
  import Spec = Broker
  import Quiet
  import Deadlines
  import Conservation

  /** One more entry of a list that is being filtered. */
  lemma KeepNext(l: seq<Id>, k: nat, s: set<Id>)
    requires k < |l|
    ensures Keep(l[..k + 1], s) == Keep(l[..k], s) + if l[k] in s then [l[k]] else []
  {
    assert l[..k + 1] == l[..k] + [l[k]];
    KeepAppend(l[..k], [l[k]], s);
    assert Keep([l[k]], s) == if l[k] in s then [l[k]] else [];
  }

  lemma {:induction false} SlotIs(l: seq<PendingCall>, tp: int, i: nat)
    requires i <= |l| && (forall j | 0 <= j < i :: l[j].deadline < tp) && (i < |l| ==> tp <= l[i].deadline)
    ensures Slot(l, tp) == i
  {
    if i > 0 { SlotIs(l[1..], tp, i - 1); }
  }

  /** After the overdue front is cut off, the front is due first of all, and later. */
  lemma Earliest(l: seq<PendingCall>, now: int)
    requires Sorted(l)
    ensures var m := l[Overdue(l, now)..]; forall c | c in m :: now < m[0].deadline <= c.deadline
  {}

  /** Erasing the entry behind the part that was scanned. */
  lemma EraseFirst(done: seq<Id>, rest: seq<Id>)
    requires rest != []
    ensures var l := done + rest;
            l[|done|] == rest[0] && l[..|done|] + l[|done| + 1..] == done + rest[1..] && l == done + [rest[0]] + rest[1..]
  {}

  /** A list scanned with an iterator that erases what is not kept. */
  method Purge(adapters: seq<Id>, keep: set<Id>) returns (l: seq<Id>)
    ensures l == Keep(adapters, keep)
  {
    l := adapters;
    var i := 0;
    ghost var k := 0;
    while i < |l|
      invariant 0 <= k <= |adapters| && i == |Keep(adapters[..k], keep)|
      invariant l == Keep(adapters[..k], keep) + adapters[k..]
      decreases |l| - i
    {
      KeepNext(adapters, k, keep);
      EraseFirst(Keep(adapters[..k], keep), adapters[k..]);
      assert adapters[k..][1..] == adapters[k + 1..];
      if l[i] !in keep {
        l := l[..i] + l[i + 1..];
      } else {
        i := i + 1;
      }
      k := k + 1;
    }
    assert adapters[..k] == adapters;
  }

  /** The lists when those in todo have not been swept yet. */
  ghost function Swept(subs: map<string, seq<Id>>, todo: set<string>, live: set<Id>): map<string, seq<Id>> {
    map n | n in subs && (n in todo || Keep(subs[n], live) != []) :: if n in todo then subs[n] else Keep(subs[n], live)
  }

  lemma SweptNext(subs: map<string, seq<Id>>, todo: set<string>, live: set<Id>, n: string)
    requires n in todo && n in subs
    ensures var was, l := Swept(subs, todo, live), Keep(subs[n], live);
            Swept(subs, todo - {n}, live) == if l == [] then was - {n} else was[n := l]
  {}

  lemma SweptAll(subs: map<string, seq<Id>>, live: set<Id>)
    ensures Swept(subs, subs.Keys, live) == subs && Swept(subs, {}, live) == Sweep(subs, live)
  {}

  /** One serialized message, written to each adapter of a list. */
  ghost function WriteEach(ps: PeerMap, l: seq<Id>, net: bool, at: nat, f: Frame, fits: (Frame, bool) -> bool): PeerMap {
    map x | x in ps :: if x in l && fits(f, net) then Write(ps[x], at, net, f) else ps[x]
  }

  class Dispatcher {
    const cfg: Spec.Config
    var peers: PeerMap
    var subscriptions: map<string, seq<Id>>
    var persistMsgs: map<string, Caps>
    var namedAdapters: map<string, Id>
    var adapterInfos: map<Id, Info>
    var monitors: map<Id, Info>
    var idseq: nat
    var pendingCalls: seq<PendingCall>
    var reqseq: nat
    var handleCmdTp: int
    var clearSubPrio: nat
    var cmdPackets: seq<Spec.Packet>
    var pendingCmds: seq<Spec.Packet>
    var step: nat
    ghost var forwards: seq<Spec.Forward>

    ghost function St(): Spec.Core
      reads this
    {
      Spec.Core(cfg, peers, Topics(subscriptions, persistMsgs), Registry(namedAdapters, adapterInfos, monitors, idseq),
                pendingCalls, forwards, handleCmdTp, clearSubPrio, step)
    }

    ghost predicate Valid()
      reads this
    {
      reqseq == |forwards| && Tidy(subscriptions) && Deadlines.WellKept(pendingCalls, reqseq)
    }

    constructor (cfg: Spec.Config)
      ensures Valid() && GoneClosed(peers) && St() == Spec.Init(cfg).core && cmdPackets == [] && pendingCmds == []
    {
      this.cfg := cfg;
      peers, subscriptions, persistMsgs := map[], map[], map[];
      namedAdapters, adapterInfos, monitors, idseq := map[], map[], map[], 0;
      pendingCalls, reqseq, handleCmdTp, clearSubPrio, step := [], 0, 0, 0, 0;
      cmdPackets, pendingCmds := [], [];
      forwards := [];
    }

    // ---- adapters ----

    method WriteTo(a: Id, net: bool, f: Frame)
      modifies `peers
      ensures peers == if a in old(peers) then old(peers)[a := Write(old(peers)[a], step, net, f)] else old(peers)
    {
      if a in peers && peers[a].open {
        var p := peers[a];
        if p.room == 0 {
          peers := peers[a := p.(open := false)];
        } else {
          peers := peers[a := p.(room := p.room - 1, sent := p.sent + [Sent(step, net, f)])];
        }
      }
    }

    method SendTo(a: Id, f: Frame)
      modifies `peers
      ensures peers == Send(old(peers), a, step, f)
    {
      if a in peers { WriteTo(a, peers[a].net, f); }
    }

    method CloseAdapter(a: Id)
      modifies `peers
      ensures peers == Shut(old(peers), a)
    {
      if a in peers { peers := peers[a := peers[a].(open := false)]; }
    }

    predicate Fits(a: Id, f: Frame)
      reads this
    {
      a in peers && cfg.fits(f, peers[a].net)
    }

    /** Registry messages go to every monitor, each in its own byte order. */
    method ToMonitors(f: Frame)
      modifies `peers
      ensures peers == Broadcast(old(peers), monitors.Keys, step, f, cfg.fits)
    {
      var todo := monitors.Keys;
      while todo != {}
        invariant todo <= monitors.Keys && peers == Broadcast(old(peers), monitors.Keys - todo, step, f, cfg.fits)
      {
        var m :| m in todo;
        if Fits(m, f) { SendTo(m, f); }
        todo := todo - {m};
      }
      assert monitors.Keys - todo == monitors.Keys;
    }

    // ---- subscriptions and posts ----

    method HandleSubscribe(a: Id, name: string) returns (ok: bool)
      requires Valid()
      modifies `subscriptions, `peers
      ensures Valid() && Spec.Outcome(St(), ok) == Spec.HandleSubscribe(old(St()), a, name)
    {
      if name == "" { return false; }
      var adapters := if name in subscriptions then subscriptions[name] else [];
      var i := 0;
      while i < |adapters|
        invariant 0 <= i <= |adapters| && a !in adapters[..i]
      {
        if adapters[i] == a { return true; }
        i := i + 1;
      }
      AddTidy(Topics(subscriptions, persistMsgs), a, name);
      subscriptions := subscriptions[name := adapters + [a]];
      if name in persistMsgs {
        var f := PostResp(PERSIST, name, persistMsgs[name], 0, "");
        if Fits(a, f) { SendTo(a, f); }
      }
      return true;
    }

    method HandleUnsubscribe(a: Id, name: string) returns (ok: bool)
      requires Valid()
      modifies `subscriptions
      ensures Valid() && Spec.Outcome(St(), ok) == Spec.HandleUnsubscribe(old(St()), a, name)
    {
      if name == "" { return false; }
      PruneTidy(subscriptions, name, LiveSet(peers) - {a});
      if name in subscriptions {
        var l := Purge(subscriptions[name], LiveSet(peers) - {a});
        subscriptions := if l == [] then subscriptions - {name} else subscriptions[name := l];
      }
      return true;
    }

    /** The sweep over all lists. */
    method ClearSubGarbages()
      requires Valid()
      modifies `subscriptions
      ensures Valid() && subscriptions == Sweep(old(subscriptions), LiveSet(peers))
    {
      ghost var before := subscriptions;
      var live := LiveSet(peers);
      var todo := subscriptions.Keys;
      SweptAll(before, live);
      while todo != {}
        invariant todo <= before.Keys && subscriptions == Swept(before, todo, live)
      {
        var n :| n in todo;
        SweptNext(before, todo, live, n);
        var l := Purge(subscriptions[n], live);
        subscriptions := if l == [] then subscriptions - {n} else subscriptions[n := l];
        todo := todo - {n};
      }
      SweepTidy(before, live);
    }

    /** One serialized message to a group of distinct adapters. */
    method WriteAll(l: seq<Id>, net: bool, f: Frame)
      requires NoDup(l)
      modifies `peers
      ensures peers == WriteEach(old(peers), l, net, step, f, cfg.fits)
    {
      if !cfg.fits(f, net) { return; }
      var i := 0;
      while i < |l|
        invariant 0 <= i <= |l|
        invariant peers == WriteEach(old(peers), l[..i], net, step, f, cfg.fits)
      {
        assert l[i] !in l[..i];
        WriteTo(l[i], net, f);
        assert l[..i + 1] == l[..i] + [l[i]];
        i := i + 1;
      }
      assert l[..i] == l;
    }

    /** The open subscribers of one byte order. */
    ghost function Group(net: bool): set<Id>
      reads this
    {
      set x | x in LiveSet(peers) * OpenSet(peers) && peers[x].net == net
    }

    /** Splits the open subscribers by byte order while dropping the others. */
    method Partition(adapters: seq<Id>) returns (l: seq<Id>, host: seq<Id>, net: seq<Id>)
      ensures l == Keep(adapters, LiveSet(peers) * OpenSet(peers))
      ensures host == Keep(adapters, Group(false)) && net == Keep(adapters, Group(true))
    {
      var keep := LiveSet(peers) * OpenSet(peers);
      ghost var hosts, nets := Group(false), Group(true);
      l, host, net := adapters, [], [];
      var i := 0;
      ghost var k := 0;
      while i < |l|
        invariant 0 <= k <= |adapters| && i == |Keep(adapters[..k], keep)|
        invariant l == Keep(adapters[..k], keep) + adapters[k..]
        invariant host == Keep(adapters[..k], hosts) && net == Keep(adapters[..k], nets)
        decreases |l| - i
      {
        var x := l[i];
        assert x == adapters[k];
        KeepNext(adapters, k, keep);
        KeepNext(adapters, k, hosts);
        KeepNext(adapters, k, nets);
        assert adapters[k..] == [x] + adapters[k + 1..];
        k := k + 1;
        if x !in keep {
          assert x !in hosts && x !in nets;
          l := l[..i] + l[i + 1..];
          continue;
        }
        if peers[x].net {
          assert x in nets && x !in hosts;
          net := net + [x];
        } else {
          assert x in hosts && x !in nets;
          host := host + [x];
        }
        i := i + 1;
      }
      assert adapters[..k] == adapters;
    }

    /** Writing to the two groups in turn is one write to each open subscriber. */
    lemma GroupsAreAudience(l: seq<Id>, f: Frame, x: Id)
      requires x in peers && (peers[x].gone ==> !peers[x].open)
      ensures var h, n := Keep(l, Group(false)), Keep(l, Group(true));
              var p := if x in h && cfg.fits(f, false) then Write(peers[x], step, false, f) else peers[x];
              var q := if x in n && cfg.fits(f, true) then Write(p, step, true, f) else p;
              q == if x in l && cfg.fits(f, peers[x].net) then Write(peers[x], step, peers[x].net, f) else peers[x]
    {
      KeepIn(l, Group(false), x);
      KeepIn(l, Group(true), x);
    }

    lemma AudienceServed(t: Topics, name: string, f: Frame)
      requires GoneClosed(peers)
      ensures var l := Subscribers(t, name);
              var ps := WriteEach(peers, Keep(l, Group(false)), false, step, f, cfg.fits);
              WriteEach(ps, Keep(l, Group(true)), true, step, f, cfg.fits)
              == Broadcast(peers, Audience(t, name), step, f, cfg.fits)
    {
      forall x | x in peers { GroupsAreAudience(Subscribers(t, name), f, x); }
    }

    method PostMsg(a: Id, msgtype: uint32, name: string, args: Caps) returns (ok: bool)
      requires Valid() && GoneClosed(peers)
      modifies `subscriptions, `persistMsgs, `peers
      ensures Valid() && Spec.Outcome(St(), ok) == Spec.HandlePost(old(St()), a, msgtype, name, args)
    {
      if msgtype >= NUMBER_OF_MSGTYPE || name == "" { return false; }
      var f := PostResp(msgtype, name, args, TagOf(a), NameOf(Reg(), a));
      PruneTidy(subscriptions, name, LiveSet(peers) * OpenSet(peers));
      FanOut(name, f);
      if msgtype == PERSIST { persistMsgs := persistMsgs[name := args]; }
      return true;
    }

    method FanOut(name: string, f: Frame)
      requires Valid() && GoneClosed(peers)
      modifies `subscriptions, `peers
      ensures subscriptions == Prune(old(subscriptions), name, old(LiveSet(peers) * OpenSet(peers)))
      ensures peers == Broadcast(old(peers), Audience(Topics(old(subscriptions), persistMsgs), name), step, f, cfg.fits)
    {
      if name in subscriptions {
        ghost var adapters := subscriptions[name];
        var l, host, net := Partition(subscriptions[name]);
        KeepNoDup(adapters, Group(false));
        KeepNoDup(adapters, Group(true));
        AudienceServed(Topics(subscriptions, persistMsgs), name, f);
        WriteAll(host, false, f);
        WriteAll(net, true, f);
        subscriptions := if l == [] then subscriptions - {name} else subscriptions[name := l];
      }
    }

    function TagOf(a: Id): int
      reads this
    {
      if a in peers then peers[a].tag else 0
    }

    function Reg(): Registry
      reads this
    {
      Registry(namedAdapters, adapterInfos, monitors, idseq)
    }

    // ---- methods, calls and replies ----

    method HandleDeclare(a: Id, name: string) returns (ok: bool)
      requires Valid() && a in adapterInfos
      modifies `adapterInfos
      ensures Valid() && Spec.Outcome(St(), ok) == Spec.HandleDeclare(old(St()), a, name)
    {
      if name == "" { return false; }
      var info := adapterInfos[a];
      adapterInfos := adapterInfos[a := info.(methods := info.methods + {name})];
      return name !in info.methods;
    }

    method HandleRemove(a: Id, name: string) returns (ok: bool)
      requires Valid() && a in adapterInfos
      modifies `adapterInfos
      ensures Valid() && Spec.Outcome(St(), ok) == Spec.HandleRemove(old(St()), a, name)
    {
      if name == "" { return false; }
      var info := adapterInfos[a];
      adapterInfos := adapterInfos[a := info.(methods := info.methods - {name})];
      return true;
    }

    /** Insertion in front of the first call that is not due earlier. */
    method AddPendingCall(c: PendingCall)
      requires c.svrid >= 1 && Deadlines.WellKept(pendingCalls, c.svrid - 1)
      modifies `pendingCalls
      ensures pendingCalls == Insert(old(pendingCalls), c) && Deadlines.WellKept(pendingCalls, c.svrid)
    {
      Deadlines.InsertWellKept(pendingCalls, c.svrid - 1, c);
      var i := 0;
      while i < |pendingCalls|
        invariant 0 <= i <= |pendingCalls| && forall j | 0 <= j < i :: pendingCalls[j].deadline < c.deadline
      {
        if pendingCalls[i].deadline >= c.deadline { break; }
        i := i + 1;
      }
      SlotIs(pendingCalls, c.deadline, i);
      pendingCalls := pendingCalls[..i] + [c] + pendingCalls[i..];
    }

    method HandleCall(a: Id, r: Request, now: int) returns (ok: bool)
      requires Valid() && r.Call?
      modifies `pendingCalls, `reqseq, `forwards, `peers
      ensures Valid() && Spec.Outcome(St(), ok) == Spec.HandleCall(old(St()), a, r, now)
    {
      if r.target !in namedAdapters || !HasMethod(Reg(), namedAdapters[r.target], r.name) {
        var f := ReplyResp(r.cliid, ENEXISTS, None, 0);
        if !Fits(a, f) { return false; }
        SendTo(a, f);
        return true;
      }
      ok := ForwardCall(a, namedAdapters[r.target], r, now);
    }

    /** A new server id, a waiting call and a frame for the target. */
    method ForwardCall(a: Id, t: Id, r: Request, now: int) returns (ok: bool)
      requires Valid() && r.Call? && Spec.Callee(St(), r.target, r.name) == Some(t)
      modifies `pendingCalls, `reqseq, `forwards, `peers
      ensures Valid() && Spec.Outcome(St(), ok) == Spec.HandleCall(old(St()), a, r, now)
    {
      reqseq := reqseq + 1;
      forwards := forwards + [Spec.Forward(step, a, r.cliid, t)];
      AddPendingCall(PendingCall(reqseq, r.cliid, a, t, Spec.Deadline(now, r.timeout)));
      var f := CallResp(reqseq, r.name, r.args, TagOf(a), NameOf(Reg(), a));
      if !Fits(t, f) { return false; }
      SendTo(t, f);
      return true;
    }

    method FindPendingCall(svrid: int, target: Id) returns (i: nat)
      ensures i == Find(pendingCalls, svrid, target)
    {
      i := 0;
      while i < |pendingCalls|
        invariant 0 <= i <= |pendingCalls| && forall j | 0 <= j < i :: !Matches(pendingCalls[j], svrid, target)
      {
        if pendingCalls[i].svrid == svrid && pendingCalls[i].target == target { break; }
        i := i + 1;
      }
    }

    method HandleReply(a: Id, r: Request) returns (ok: bool)
      requires Valid() && r.Reply?
      modifies `pendingCalls, `peers
      ensures Valid() && Spec.Outcome(St(), ok) == Spec.HandleReply(old(St()), a, r)
    {
      var i := FindPendingCall(r.svrid, a);
      if i == |pendingCalls| { return true; }
      var c := pendingCalls[i];
      if !IsOpen(peers, c.sender) { return true; }
      var f := ReplyResp(c.cliid, SUCCESS, Some(Response(r.code, r.values, NameOf(Reg(), a))), TagOf(a));
      if !Fits(c.sender, f) { return false; }
      SendTo(c.sender, f);
      Deadlines.RemoveWellKept(pendingCalls, reqseq, i);
      pendingCalls := pendingCalls[..i] + pendingCalls[i + 1..];
      return true;
    }

    method DiscardPendingCalls(now: int)
      requires Valid() && GoneClosed(peers)
      modifies `pendingCalls, `peers
      ensures Valid() && GoneClosed(peers) && St() == Spec.Discard(old(St()), now)
    {
      Conservation.TimeOutKeys(peers, pendingCalls, step, Overdue(pendingCalls, now));
      Deadlines.CutWellKept(pendingCalls, reqseq, Overdue(pendingCalls, now));
      PopOverdue(now);
    }

    /** Pops the overdue front of the list, answering each call with a timeout. */
    method PopOverdue(now: int)
      modifies `pendingCalls, `peers
      ensures var n := Overdue(old(pendingCalls), now);
              pendingCalls == old(pendingCalls)[n..] && peers == Spec.TimeOut(old(peers), old(pendingCalls), step, n)
    {
      ghost var l, n := pendingCalls, 0;
      while pendingCalls != []
        invariant 0 <= n <= |l| && pendingCalls == l[n..] && forall j | 0 <= j < n :: l[j].deadline <= now
        invariant peers == Spec.TimeOut(old(peers), l, step, n)
        decreases |pendingCalls|
      {
        var c := pendingCalls[0];
        if now < c.deadline { break; }
        SendTo(c.sender, ReplyResp(c.cliid, ETIMEOUT, None, 0));
        pendingCalls := pendingCalls[1..];
        n := n + 1;
      }
      assert n == Overdue(l, now);
    }

    // ---- registration ----

    method AddAdapter(a: Id, name: string, flags: uint32, pid: int) returns (ok: bool)
      modifies `namedAdapters, `adapterInfos, `idseq
      ensures ok == !NameTaken(old(Reg()), name)
      ensures Reg() == if ok then R.AddAdapter(old(Reg()), a, name, flags, pid) else old(Reg())
    {
      if name != "" {
        if name in namedAdapters { return false; }
        namedAdapters := namedAdapters[name := a];
      }
      idseq := idseq + 1;
      if a !in adapterInfos { adapterInfos := adapterInfos[a := Info(idseq, pid, name, {}, flags)]; }
      return true;
    }

    method AddMonitor(a: Id, name: string, flags: uint32)
      modifies `monitors, `idseq
      ensures Reg() == R.AddMonitor(old(Reg()), a, name, flags)
    {
      idseq := idseq + 1;
      if a !in monitors { monitors := monitors[a := Info(idseq, 0, name, {}, flags)]; }
    }

    /** Checks an auth request and registers its sender. */
    method Enroll(a: Id, r: Request) returns (result: int)
      requires r.Auth?
      modifies `peers, `namedAdapters, `adapterInfos, `monitors, `idseq
      ensures result == Spec.AuthResult(old(St()), r) && St() == Spec.Enroll(old(St()), a, r)
    {
      if r.version < 3 { return EAUTH; }
      if a in peers && peers[a].tag == 0 { peers := peers[a := peers[a].(tag := r.pid % TWO32)]; }
      if IsMonitor(r.flags) {
        if !cfg.monitorMode { return EAUTH; }
        AddMonitor(a, r.extra, r.flags);
        return SUCCESS;
      }
      var added := AddAdapter(a, r.extra, r.flags, r.pid);
      return if added then SUCCESS else EDUPID;
    }

    method HandleAuth(a: Id, r: Request) returns (ok: bool)
      requires Valid() && r.Auth?
      modifies `peers, `namedAdapters, `adapterInfos, `monitors, `idseq
      ensures Valid() && Spec.Outcome(St(), ok) == Spec.HandleAuth(old(St()), a, r)
    {
      var result := Enroll(a, r);
      var f := AuthResp(result, FLORA_VERSION);
      if !Fits(a, f) { return false; }
      SendTo(a, f);
      if result != SUCCESS { return false; }
      if IsMonitor(r.flags) {
        var all := MonitorAll(Items(adapterInfos));
        if Fits(a, all) { SendTo(a, all); }
      } else if Lookup(Reg(), a).Some? {
        ToMonitors(MonitorAdd(ToItem(Lookup(Reg(), a).value)));
      }
      return true;
    }

    method CheckSubscriptions(now: int)
      requires Valid()
      modifies `subscriptions, `clearSubPrio, `handleCmdTp
      ensures Valid() && St() == Spec.CheckSubscriptions(old(St()), now)
    {
      if now - handleCmdTp >= Spec.SWEEP_AFTER {
        ClearSubGarbages();
        clearSubPrio, handleCmdTp := 0, now;
        return;
      }
      clearSubPrio := clearSubPrio + 1;
      if clearSubPrio >= Spec.SWEEP_COUNT {
        ClearSubGarbages();
        clearSubPrio, handleCmdTp := 0, now;
      }
    }

    method DoErase(a: Id, now: int)
      requires Valid()
      modifies `peers, `namedAdapters, `adapterInfos, `monitors, `subscriptions, `clearSubPrio, `handleCmdTp
      ensures Valid() && St() == Spec.DoErase(old(St()), a, now)
    {
      var info := Lookup(Reg(), a);
      if info.None? { return; }
      if info.value.name != "" { namedAdapters := namedAdapters - {info.value.name}; }
      if a in monitors {
        monitors := monitors - {a};
      } else {
        ToMonitors(MonitorRemove(info.value.id));
        adapterInfos := adapterInfos - {a};
      }
      CheckSubscriptions(now);
    }

    // ---- packets ----

    method HandleRequest(a: Id, r: Request, now: int) returns (ok: bool)
      requires Valid() && GoneClosed(peers)
      modifies `peers, `subscriptions, `persistMsgs, `namedAdapters, `adapterInfos, `monitors, `idseq
      modifies `pendingCalls, `reqseq, `forwards
      ensures Valid() && Spec.Outcome(St(), ok) == Spec.HandleRequest(old(St()), a, r, now)
    {
      if r.Auth? { ok := HandleAuth(a, r); return; }
      if a !in adapterInfos { return false; }
      match r
      case Subscribe(name) => ok := HandleSubscribe(a, name);
      case Unsubscribe(name) => ok := HandleUnsubscribe(a, name);
      case Post(msgtype, name, args) => ok := PostMsg(a, msgtype, name, args);
      case Reply(_, _, _) => ok := HandleReply(a, r);
      case DeclareMethod(name) => ok := HandleDeclare(a, name);
      case RemoveMethod(name) => ok := HandleRemove(a, name);
      case Call(_, _, _, _, _) => ok := HandleCall(a, r, now);
      case Ping =>
        ok := Fits(a, Pong);
        if ok { SendTo(a, Pong); }
    }

    method HandleCmd(p: Spec.Packet, now: int)
      requires Valid() && GoneClosed(peers)
      modifies `peers, `subscriptions, `persistMsgs, `namedAdapters, `adapterInfos, `monitors, `idseq
      modifies `pendingCalls, `reqseq, `forwards, `handleCmdTp, `clearSubPrio, `step
      ensures Valid() && GoneClosed(peers) && St() == Spec.Handle(old(St()), p, now)
    {
      Quiet.HandleStill(St(), p, now, (f: Frame) => false);
      if p.body.None? {
        DoErase(p.from, now);
      } else if p.from in monitors {
        CloseAdapter(p.from);
      } else {
        HandleContent(p.from, ParseRequest(p.body.value), now);
      }
      step := step + 1;
    }

    method HandleContent(a: Id, content: Parsed, now: int)
      requires Valid() && GoneClosed(peers)
      modifies `peers, `subscriptions, `persistMsgs, `namedAdapters, `adapterInfos, `monitors, `idseq
      modifies `pendingCalls, `reqseq, `forwards, `handleCmdTp
      ensures Valid()
      ensures !content.Good? ==>
                St() == old(St()).(peers := Shut(old(peers), a), lastCmd := if content.NoCommand? then old(handleCmdTp) else now)
      ensures content.Good? ==>
                var o := Spec.HandleRequest(old(St()), a, content.req, now);
                St() == o.core.(peers := Spec.Settle(o, a), lastCmd := now)
    {
      match content
      case NoCommand => CloseAdapter(a);
      case BadFields(_) =>
        CloseAdapter(a);
        handleCmdTp := now;
      case Good(r) =>
        var ok := HandleRequest(a, r, now);
        if !ok { CloseAdapter(a); }
        handleCmdTp := now;
    }

    // ---- the queue ----

    /** A frame from the poll; None is one that does not parse as Caps. */
    method Put(caps: Option<Cells>, sender: Id) returns (ok: bool)
      modifies `cmdPackets
      ensures ok == caps.Some?
      ensures cmdPackets == old(cmdPackets) + if ok then [Spec.Packet(sender, caps)] else []
    {
      if caps.None? { return false; }
      cmdPackets := cmdPackets + [Spec.Packet(sender, caps)];
      return true;
    }

    method EraseAdapter(a: Id)
      modifies `cmdPackets
      ensures cmdPackets == old(cmdPackets) + if Lookup(Reg(), a).None? then [] else [Spec.Packet(a, None)]
    {
      if Lookup(Reg(), a).None? { return; }
      cmdPackets := cmdPackets + [Spec.Packet(a, None)];
    }

    /** The locked part of the loop: take the queue, or, if there is nothing to take,
        time calls out and say until when to sleep. */
    method TakeBatch(now: int) returns (wake: Option<int>)
      requires Valid() && GoneClosed(peers) && pendingCmds == []
      modifies `cmdPackets, `pendingCmds, `pendingCalls, `peers
      ensures Valid() && GoneClosed(peers) && pendingCmds == old(cmdPackets) && cmdPackets == []
      ensures St() == if old(cmdPackets) == [] then Spec.Discard(old(St()), now) else old(St())
      ensures old(cmdPackets) == [] ==>
                (wake.None? <==> pendingCalls == []) && (forall c | c in pendingCalls :: now < wake.value <= c.deadline)
      ensures wake.Some? ==> exists c :: c in pendingCalls && c.deadline == wake.value
    {
      pendingCmds, cmdPackets := cmdPackets, [];
      wake := None;
      if pendingCmds == [] {
        Earliest(pendingCalls, now);
        DiscardPendingCalls(now);
        if pendingCalls != [] { wake := Some(pendingCalls[0].deadline); }
      }
    }

    /** The unlocked part: one packet of the batch after the other. Every packet is
        handled with its own clock reading. */
    method HandleBatch(clock: nat -> int)
      requires Valid() && GoneClosed(peers)
      modifies `peers, `subscriptions, `persistMsgs, `namedAdapters, `adapterInfos, `monitors, `idseq
      modifies `pendingCalls, `reqseq, `forwards, `handleCmdTp, `clearSubPrio, `step, `pendingCmds
      ensures Valid() && GoneClosed(peers) && pendingCmds == []
      ensures St() == HandleAll(old(St()), old(pendingCmds), clock)
    {
      var all := pendingCmds;
      var i := 0;
      while i < |all|
        invariant 0 <= i <= |all| && Valid() && GoneClosed(peers)
        invariant St() == HandleAll(old(St()), all[..i], clock)
      {
        HandleAllMore(old(St()), all, i, clock);
        HandleCmd(all[i], clock(i));
        i := i + 1;
      }
      assert all[..i] == all;
      pendingCmds := [];
    }

    /** One turn of the dispatcher's loop, on a machine m in the same state: it is a tick
        and then one packet after the other until the batch is through. */
    method Turn(now: int, clock: nat -> int, ghost m: Spec.State) returns (wake: Option<int>)
      requires Valid() && GoneClosed(peers) && pendingCmds == []
      requires m.core == St() && m.queue == cmdPackets && m.batch == []
      modifies this
      ensures Valid() && GoneClosed(peers) && pendingCmds == [] && cmdPackets == []
      ensures var m' := Spec.Run(m, TurnEvents(|m.queue|, now, clock));
              m'.core == St() && m'.queue == [] && m'.batch == [] && m'.handled == m.handled + m.queue
    {
      TurnIsRun(m, now, clock);
      wake := TakeBatch(now);
      HandleBatch(clock);
    }
  }

  ghost function TurnEvents(n: nat, now: int, clock: nat -> int): seq<Spec.Event> {
    [Spec.Tick(now)] + seq(n, i requires i >= 0 => Spec.Next(clock(i)))
  }

  lemma TurnIsRun(m: Spec.State, now: int, clock: nat -> int)
    requires m.batch == []
    ensures var m' := Spec.Run(m, TurnEvents(|m.queue|, now, clock));
            && m'.core == (if m.queue == [] then Spec.Discard(m.core, now) else HandleAll(m.core, m.queue, clock))
            && m'.queue == [] && m'.batch == [] && m'.handled == m.handled + m.queue
  {
    var es := TurnEvents(|m.queue|, now, clock);
    BatchIsRun(m, now, clock, |m.queue|);
    assert es[..1 + |m.queue|] == es && m.queue[..|m.queue|] == m.queue;
  }

  lemma {:induction false} BatchIsRun(m: Spec.State, now: int, clock: nat -> int, k: nat)
    requires m.batch == [] && k <= |m.queue|
    ensures var m' := Spec.Run(m, TurnEvents(|m.queue|, now, clock)[..1 + k]);
            && m'.core == (if m.queue == [] then Spec.Discard(m.core, now) else HandleAll(m.core, m.queue[..k], clock))
            && m'.queue == [] && m'.batch == m.queue[k..] && m'.handled == m.handled + m.queue[..k]
  {
    var es := TurnEvents(|m.queue|, now, clock);
    if k == 0 {
      Spec.RunNext(m, es, 0);
    } else {
      BatchIsRun(m, now, clock, k - 1);
      Spec.RunNext(m, es, k);
      HandleAllMore(m.core, m.queue, k - 1, clock);
      NextOfBatch(Spec.Run(m, es[..k]), m.queue, k - 1, m.handled, clock(k - 1));
    }
  }

  lemma NextOfBatch(s: Spec.State, all: seq<Spec.Packet>, k: nat, before: seq<Spec.Packet>, now: int)
    requires k < |all| && s.batch == all[k..] && s.handled == before + all[..k]
    ensures var s' := Spec.Step(s, Spec.Next(now));
            && s'.core == Spec.Handle(s.core, all[k], now) && s'.queue == s.queue
            && s'.batch == all[k + 1..] && s'.handled == before + all[..k + 1]
  {
    assert all[..k + 1] == all[..k] + [all[k]];
  }

  /** A batch, packet by packet. */
  ghost function HandleAll(s: Spec.Core, ps: seq<Spec.Packet>, clock: nat -> int): Spec.Core {
    if ps == [] then s else Spec.Handle(HandleAll(s, ps[..|ps| - 1], clock), ps[|ps| - 1], clock(|ps| - 1))
  }

  lemma HandleAllMore(s: Spec.Core, ps: seq<Spec.Packet>, i: nat, clock: nat -> int)
    requires i < |ps|
    ensures HandleAll(s, ps[..i + 1], clock) == Spec.Handle(HandleAll(s, ps[..i], clock), ps[i], clock(i))
  {
    assert ps[..i + 1][..i] == ps[..i];
  }
}
