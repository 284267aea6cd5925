/** The waiting list over whole runs: sorted, free of duplicates, and left by a call
    only through its own target's reply or its own deadline, for good. */
module Deadlines {
  import opened Wire
  import opened Peers
  import opened Calls
  import opened Broker
  import opened Quiet

  ghost predicate WellKept(l: seq<PendingCall>, n: nat) {
    && Sorted(l) && Distinct(l)
    && (forall i | 0 <= i < |l| :: 1 <= l[i].svrid <= n)
  }

  predicate Pending(l: seq<PendingCall>, svrid: int) {
    exists i :: 0 <= i < |l| && l[i].svrid == svrid
  }

  lemma InsertWellKept(l: seq<PendingCall>, n: nat, c: PendingCall)
    requires WellKept(l, n) && c.svrid == n + 1
    ensures WellKept(Insert(l, c), n + 1)
  {
    InsertSorted(l, c);
  }

  lemma RemoveWellKept(l: seq<PendingCall>, n: nat, i: nat)
    requires WellKept(l, n) && i < |l|
    ensures WellKept(RemoveAt(l, i), n)
  {}

  lemma CutWellKept(l: seq<PendingCall>, n: nat, k: nat)
    requires WellKept(l, n) && k <= |l|
    ensures WellKept(l[k..], n)
  {}

  lemma CallWellKept(s: Core, a: Id, r: Request, now: int)
    requires WellKept(s.calls, |s.forwards|) && r.Call?
    ensures var s' := HandleCall(s, a, r, now).core; WellKept(s'.calls, |s'.forwards|)
  {
    match Callee(s, r.target, r.name)
    case None =>
    case Some(t) =>
      InsertWellKept(s.calls, |s.forwards|, PendingCall(|s.forwards| + 1, r.cliid, a, t, Deadline(now, r.timeout)));
  }

  lemma ReplyWellKept(s: Core, a: Id, r: Request)
    requires WellKept(s.calls, |s.forwards|) && r.Reply?
    ensures var s' := HandleReply(s, a, r).core; WellKept(s'.calls, |s'.forwards|)
  {
    var i := Find(s.calls, r.svrid, a);
    if i < |s.calls| { RemoveWellKept(s.calls, |s.forwards|, i); }
  }

  lemma HandleWellKept(s: Core, p: Packet, now: int)
    requires WellKept(s.calls, |s.forwards|)
    ensures WellKept(Handle(s, p, now).calls, |Handle(s, p, now).forwards|)
  {
    if !CallOrReply(p) {
      OtherPackets(s, p, now);
    } else {
      var r := Content(p).req;
      if r.Call? { CallWellKept(s, p.from, r, now); } else { ReplyWellKept(s, p.from, r); }
    }
  }

  lemma StepWellKept(s: State, e: Event)
    requires WellKept(s.core.calls, |s.core.forwards|)
    ensures WellKept(Step(s, e).core.calls, |Step(s, e).core.forwards|)
  {
    match e
    case Next(now) => if s.batch != [] { HandleWellKept(s.core, s.batch[0], now); }
    case Tick(now) => CutWellKept(s.core.calls, |s.core.forwards|, Overdue(s.core.calls, now));
    case _ =>
  }

  lemma {:induction false} RunWellKept(cfg: Config, es: seq<Event>)
    ensures var s := Run(Init(cfg), es); WellKept(s.core.calls, |s.core.forwards|)
  {
    if es != [] {
      RunWellKept(cfg, es[..|es| - 1]);
      StepWellKept(Run(Init(cfg), es[..|es| - 1]), es[|es| - 1]);
    }
  }

  /** An idle tick drops exactly the calls that are due, at whatever position, and
      then the earliest deadline of all, still ahead, is the one at the front. */
  lemma IdleTick(cfg: Config, es: seq<Event>, now: int)
    requires var s := Run(Init(cfg), es); s.batch == [] && s.queue == []
    ensures var s := Run(Init(cfg), es);
            var l := Step(s, Tick(now)).core.calls;
            && l == NotDue(s.core.calls, now)
            && (forall i | 0 <= i < |l| :: now < l[i].deadline && l[0].deadline <= l[i].deadline)
  {
    RunWellKept(cfg, es);
    var s := Run(Init(cfg), es);
    CutIsFilter(s.core.calls, now);
  }

  /** The two ways out of the waiting list. */
  predicate WayOut(s: State, e: Event, c: PendingCall) {
    || (e.Tick? && c.deadline <= e.now)
    || (e.Next? && s.batch != [] && s.batch[0].from == c.target && IsOpen(s.core.peers, c.sender)
        && Content(s.batch[0]).Good? && Content(s.batch[0]).req.Reply? && Content(s.batch[0]).req.svrid == c.svrid)
  }

  /** A waiting call waits on, unless the event is its own way out. */
  lemma OnlyWaysOut(s: State, e: Event, c: PendingCall)
    requires c in s.core.calls
    ensures c in Step(s, e).core.calls || WayOut(s, e, c)
  {
    if e.Next? && s.batch != [] {
      StaysListed(s.core, s.batch[0], e.now, c);
    }
  }

  lemma StaysListed(s: Core, p: Packet, now: int, c: PendingCall)
    requires c in s.calls
    ensures c in Handle(s, p, now).calls
            || (p.from == c.target && IsOpen(s.peers, c.sender) && Content(p).Good? && Content(p).req.Reply?
                && Content(p).req.svrid == c.svrid)
  {
    if !CallOrReply(p) { OtherPackets(s, p, now); }
  }

  lemma ListedBefore(s: Core, p: Packet, now: int, c: PendingCall)
    requires c in Handle(s, p, now).calls
    ensures c in s.calls || c.svrid == |s.forwards| + 1
  {}

  /** Once a forwarded call has left the list it is finished: no later event brings
      it back. */
  lemma StaysFinished(s: State, e: Event, svrid: int)
    requires svrid <= |s.core.forwards| && !Pending(s.core.calls, svrid)
    ensures !Pending(Step(s, e).core.calls, svrid) && |s.core.forwards| <= |Step(s, e).core.forwards|
  {
    StepGrows(s, e);
    if e.Next? && s.batch != [] {
      forall c | c in Handle(s.core, s.batch[0], e.now).calls ensures c.svrid != svrid {
        ListedBefore(s.core, s.batch[0], e.now, c);
      }
    }
  }

  lemma {:induction false} FinishedForGood(s: State, es: seq<Event>, svrid: int)
    requires svrid <= |s.core.forwards| && !Pending(s.core.calls, svrid)
    ensures !Pending(Run(s, es).core.calls, svrid) && |s.core.forwards| <= |Run(s, es).core.forwards|
  {
    if es != [] {
      FinishedForGood(s, es[..|es| - 1], svrid);
      StaysFinished(Run(s, es[..|es| - 1]), es[|es| - 1], svrid);
    }
  }
}
