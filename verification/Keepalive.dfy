/** The keepalive list of src/beep-sock-poll.h: connections in the order of their last
    activity, so that the silent ones are at the front. */
module Keepalive {
  import opened Wire

  datatype Active = Active(adapter: Id, tp: int)

  /** Position of an adapter in the list, or the length of the list. */
  function Find(l: seq<Active>, a: Id): (i: nat)
    ensures i <= |l|
    ensures i < |l| ==> l[i].adapter == a
    ensures forall j | 0 <= j < i :: l[j].adapter != a
  {
    if l == [] || l[0].adapter == a then 0 else 1 + Find(l[1..], a)
  }

  function Remove(l: seq<Active>, a: Id): seq<Active> {
    var i := Find(l, a);
    if i == |l| then l else l[..i] + l[i + 1..]
  }

  /** A successful read makes its adapter the most recent one, if it is listed. */
  function Touch(l: seq<Active>, a: Id, now: int): seq<Active> {
    if Find(l, a) == |l| then l else Remove(l, a) + [Active(a, now)]
  }

  /** How many entries at the front are not after a point in time. */
  function Expired(l: seq<Active>, tp: int): (n: nat)
    ensures n <= |l|
    ensures forall i | 0 <= i < n :: l[i].tp <= tp
    ensures n < |l| ==> tp < l[n].tp
  {
    if l == [] || tp < l[0].tp then 0 else 1 + Expired(l[1..], tp)
  }

  function Names(l: seq<Active>): set<Id> { set i | 0 <= i < |l| :: l[i].adapter }

  class BeepSocketPoll {
    var adapters: set<Id>
    var active: seq<Active>
    const beepTimeout: nat

    constructor (timeout: nat)
      ensures adapters == {} && active == [] && beepTimeout == timeout
    {
      adapters, active, beepTimeout := {}, [], timeout;
    }

    method DoAccept(a: Id, now: int)
      modifies this
      ensures adapters == old(adapters) + {a} && active == old(active) + [Active(a, now)]
    {
      adapters := adapters + {a};
      active := active + [Active(a, now)];
    }

    /** Bookkeeping after the frames of a connection were read; a connection that
        failed is dropped by the poll. */
    method DoRead(a: Id, ok: bool, now: int)
      modifies this
      ensures active == if ok then Touch(old(active), a, now) else Remove(old(active), a)
      ensures adapters == if ok then old(adapters) else old(adapters) - {a}
    {
      var i := 0;
      while i < |active|
        invariant 0 <= i <= |active| && forall j | 0 <= j < i :: active[j].adapter != a
      {
        if active[i].adapter == a { break; }
        i := i + 1;
      }
      assert i == Find(active, a);
      if i != |active| {
        if ok {
          active := active[..i] + active[i + 1..] + [Active(a, now)];
        } else {
          active := active[..i] + active[i + 1..];
        }
      }
      if !ok { adapters := adapters - {a}; }
    }

    /** Shuts down and forgets the front of the list while it is overdue. */
    method ShutdownTimeoutAdapter(now: int) returns (shut: seq<Id>)
      modifies `active
      ensures var n := Expired(old(active), now - beepTimeout);
              active == old(active)[n..] && |shut| == n && forall i | 0 <= i < n :: shut[i] == old(active)[i].adapter
    {
      var limit := now - beepTimeout;
      shut := [];
      ghost var l := active;
      while active != []
        invariant |shut| <= |l| && active == l[|shut|..]
        invariant forall i | 0 <= i < |shut| :: l[i].tp <= limit && shut[i] == l[i].adapter
        decreases |active|
      {
        if limit < active[0].tp { break; }
        shut := shut + [active[0].adapter];
        active := active[1..];
      }
      assert |shut| == Expired(l, limit);
    }
  }

  // ---- runs ----

  /** seen holds the time of each connection's accept or last successful read; shut
      are the connections that were shut down. */
  datatype Poll = Poll(adapters: set<Id>, active: seq<Active>, clock: int, seen: map<Id, int>, shut: set<Id>)

  datatype Event = Accept(a: Id, now: int) | Read(a: Id, ok: bool, now: int) | Pass(now: int)

  function Step(p: Poll, timeout: nat, e: Event): Poll {
    if e.now < p.clock then p else // the clock is steady
    match e
    case Accept(a, now) =>
      if a in p.seen then p
      else Poll(p.adapters + {a}, p.active + [Active(a, now)], now, p.seen[a := now], p.shut)
    case Read(a, ok, now) =>
      if a !in p.adapters then p
      else if ok then p.(active := Touch(p.active, a, now), clock := now, seen := p.seen[a := now])
      else p.(adapters := p.adapters - {a}, active := Remove(p.active, a), clock := now)
    case Pass(now) =>
      var n := Expired(p.active, now - timeout);
      p.(active := p.active[n..], clock := now, shut := p.shut + Names(p.active[..n]))
  }

  function Run(timeout: nat, es: seq<Event>): Poll {
    if es == [] then Poll({}, [], 0, map[], {}) else Step(Run(timeout, es[..|es| - 1]), timeout, es[|es| - 1])
  }

  /** Sorted by last activity, without duplicates, each entry with its true time. */
  ghost predicate Listed(l: seq<Active>, clock: int, seen: map<Id, int>) {
    && (forall i, j | 0 <= i < j < |l| :: l[i].tp <= l[j].tp && l[i].adapter != l[j].adapter)
    && (forall i | 0 <= i < |l| :: l[i].adapter in seen && seen[l[i].adapter] == l[i].tp <= clock)
  }

  /** ... and just the connections of the poll that were not shut down. */
  ghost predicate Kept(p: Poll) {
    && Listed(p.active, p.clock, p.seen)
    && Names(p.active) == p.adapters - p.shut
    && p.adapters <= p.seen.Keys && p.shut <= p.seen.Keys
  }

  lemma RemoveNames(l: seq<Active>, a: Id)
    requires forall i, j | 0 <= i < j < |l| :: l[i].adapter != l[j].adapter
    ensures Names(Remove(l, a)) == Names(l) - {a}
  {
    var i := Find(l, a);
    if i < |l| {
      var r := Remove(l, a);
      forall x | x in Names(l) - {a} ensures x in Names(r) {
        var j :| 0 <= j < |l| && l[j].adapter == x;
        assert r[if j < i then j else j - 1].adapter == x;
      }
    }
  }

  lemma AppendNames(l: seq<Active>, x: Active)
    ensures Names(l + [x]) == Names(l) + {x.adapter}
  {
    var r := l + [x];
    forall y | y in Names(l) ensures y in Names(r) {
      var j :| 0 <= j < |l| && l[j].adapter == y;
      assert r[j].adapter == y;
    }
    assert r[|l|].adapter == x.adapter;
  }

  lemma CutNames(l: seq<Active>, n: nat)
    requires n <= |l| && forall i, j | 0 <= i < j < |l| :: l[i].adapter != l[j].adapter
    ensures Names(l[n..]) == Names(l) - Names(l[..n])
  {}

  lemma RemoveListed(l: seq<Active>, clock: int, seen: map<Id, int>, a: Id)
    requires Listed(l, clock, seen)
    ensures Listed(Remove(l, a), clock, seen) && forall j | 0 <= j < |Remove(l, a)| :: Remove(l, a)[j].adapter != a
  {
    var i, m := Find(l, a), Remove(l, a);
    if i < |l| {
      assert |m| == |l| - 1 && forall j | 0 <= j < |m| :: m[j] == l[if j < i then j else j + 1];
    }
  }

  lemma AppendListed(l: seq<Active>, clock: int, seen: map<Id, int>, a: Id, now: int)
    requires Listed(l, clock, seen) && clock <= now && forall j | 0 <= j < |l| :: l[j].adapter != a
    ensures Listed(l + [Active(a, now)], now, seen[a := now])
  {}

  lemma TouchListed(l: seq<Active>, clock: int, seen: map<Id, int>, a: Id, now: int)
    requires Listed(l, clock, seen) && clock <= now
    ensures Listed(Touch(l, a, now), now, seen[a := now])
  {
    RemoveListed(l, clock, seen, a);
    AppendListed(Remove(l, a), clock, seen, a, now);
  }

  lemma TouchKept(p: Poll, a: Id, now: int)
    requires Kept(p) && a in p.adapters && p.clock <= now
    ensures Kept(p.(active := Touch(p.active, a, now), clock := now, seen := p.seen[a := now]))
  {
    TouchListed(p.active, p.clock, p.seen, a, now);
    if Find(p.active, a) < |p.active| {
      RemoveNames(p.active, a);
      AppendNames(Remove(p.active, a), Active(a, now));
      assert p.active[Find(p.active, a)].adapter in Names(p.active);
    }
  }

  lemma AcceptKept(p: Poll, a: Id, now: int)
    requires Kept(p) && a !in p.seen && p.clock <= now
    ensures Kept(Poll(p.adapters + {a}, p.active + [Active(a, now)], now, p.seen[a := now], p.shut))
  {
    AppendNames(p.active, Active(a, now));
  }

  lemma DropKept(p: Poll, a: Id, now: int)
    requires Kept(p) && p.clock <= now
    ensures Kept(p.(adapters := p.adapters - {a}, active := Remove(p.active, a), clock := now))
  {
    RemoveNames(p.active, a);
  }

  lemma PassKept(p: Poll, n: nat, now: int)
    requires Kept(p) && n <= |p.active| && p.clock <= now
    ensures Kept(p.(active := p.active[n..], clock := now, shut := p.shut + Names(p.active[..n])))
  {
    CutNames(p.active, n);
    forall x | x in Names(p.active[..n]) ensures x in p.seen {
      var j :| 0 <= j < n && p.active[..n][j].adapter == x;
      assert p.active[j].adapter == x;
    }
  }

  lemma StepKept(p: Poll, timeout: nat, e: Event)
    requires Kept(p)
    ensures Kept(Step(p, timeout, e))
  {
    if e.now < p.clock { return; }
    match e
    case Accept(a, now) => if a !in p.seen { AcceptKept(p, a, now); }
    case Read(a, ok, now) =>
      if a in p.adapters {
        if ok { TouchKept(p, a, now); } else { DropKept(p, a, now); }
      }
    case Pass(now) => PassKept(p, Expired(p.active, now - timeout), now);
  }

  lemma {:induction false} RunKept(timeout: nat, es: seq<Event>)
    ensures Kept(Run(timeout, es))
  {
    if es != [] {
      RunKept(timeout, es[..|es| - 1]);
      StepKept(Run(timeout, es[..|es| - 1]), timeout, es[|es| - 1]);
    }
  }

  lemma ShutExactly(p: Poll, tp: int, a: Id)
    requires Kept(p)
    ensures a in Names(p.active[..Expired(p.active, tp)]) <==> a in p.adapters && a !in p.shut && p.seen[a] <= tp
  {
    var n := Expired(p.active, tp);
    var front := p.active[..n];
    if a in Names(front) {
      var j :| 0 <= j < |front| && front[j].adapter == a;
      assert p.active[j].adapter == a && a in Names(p.active);
    }
    if a in p.adapters && a !in p.shut && p.seen[a] <= tp {
      assert a in Names(p.active);
      var i :| 0 <= i < |p.active| && p.active[i].adapter == a;
      assert front[i].adapter == a;
    }
  }

  lemma PassFilters(p: Poll, timeout: nat, now: int, a: Id)
    requires Kept(p) && p.clock <= now
    ensures var q := Step(p, timeout, Pass(now));
            && (a in q.shut && a !in p.shut <==>
                  a in p.adapters && a !in p.shut && a in p.seen && p.seen[a] + timeout <= now)
            && q.active == SelectAfter(p.active, now - timeout)
  {
    ShutExactly(p, now - timeout, a);
    CutIsSelect(p.active, now - timeout);
    PassCuts(p, timeout, now);
  }

  lemma PassCuts(p: Poll, timeout: nat, now: int)
    requires p.clock <= now
    ensures var n := Expired(p.active, now - timeout);
            Step(p, timeout, Pass(now)) == p.(active := p.active[n..], clock := now, shut := p.shut + Names(p.active[..n]))
  {}

  /** A pass shuts down exactly the connections of the poll, not shut down before, whose
      last activity is at least the timeout ago: cutting the front is filtering all. */
  lemma PassIsFilter(timeout: nat, es: seq<Event>, now: int, a: Id)
    requires Run(timeout, es).clock <= now
    ensures var p := Run(timeout, es); var q := Step(p, timeout, Pass(now));
            && (a in q.shut && a !in p.shut <==>
                  a in p.adapters && a !in p.shut && a in p.seen && p.seen[a] + timeout <= now)
            && q.active == SelectAfter(p.active, now - timeout)
  {
    RunKept(timeout, es);
    PassFilters(Run(timeout, es), timeout, now, a);
  }

  /** All entries after a point in time, whatever their position. */
  function SelectAfter(l: seq<Active>, tp: int): seq<Active> {
    if l == [] then [] else if tp < l[0].tp then [l[0]] + SelectAfter(l[1..], tp) else SelectAfter(l[1..], tp)
  }

  lemma {:induction false} CutIsSelect(l: seq<Active>, tp: int)
    requires forall i, j | 0 <= i < j < |l| :: l[i].tp <= l[j].tp
    ensures l[Expired(l, tp)..] == SelectAfter(l, tp)
  {
    if l != [] {
      CutIsSelect(l[1..], tp);
      if tp < l[0].tp {
        assert Expired(l[1..], tp) == 0;
        assert l == [l[0]] + l[1..];
      } else {
        assert l[1 + Expired(l[1..], tp)..] == l[1..][Expired(l[1..], tp)..];
      }
    }
  }
}
