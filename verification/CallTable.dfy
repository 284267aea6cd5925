/** The client's table of outstanding calls (src/cli.cc). Caller threads, the receiving
    thread and any number of closing threads race over it; each section under a mutex
    is one step. */
module CallTable {
  import opened Wire

  datatype Kind = Blocking | Callback

  /** What the application asked for. */
  datatype Ask = Ask(name: string, target: string, timeout: uint32, args: Caps)

  /** One entry of pending_requests. req is the identity of the list node; id becomes 0
      when a blocking call has its answer. */
  datatype Entry = Entry(req: nat, id: int, kind: Kind, rcode: int, result: Option<Response>)

  /** The caller that holds the send mutex: between numbering its request and sending. */
  datatype Phase = Idle | Numbered(req: nat, kind: Kind) | Pushed(req: nat, kind: Kind)

  /** A closing thread: it saw the connection open, or has closed it but not swept. */
  datatype Closer = Checked(err: int) | Shut(err: int)

  /** A request that is over: a callback taken from the table or a blocking call that
      returned. */
  datatype Done = Done(req: nat, code: int, resp: Option<Response>)

  datatype Client = Client(
    reqseq: nat,
    table: seq<Entry>,
    ready: bool,
    closeReason: int,
    phase: Phase,
    closers: map<nat, Closer>,
    // histories
    asked: map<nat, Ask>,
    sent: map<nat, Kind>,
    taken: seq<Done>,
    returned: seq<Done>)

  datatype Event =
    | Begin(kind: Kind, ask: Ask, fits: bool)   // ++reqseq and serialize
    | Push                                      // emplace into pending_requests
    | Send(ok: bool)                            // connection->send, under its own mutex
    | Reply(id: int, code: int, resp: Option<Response>)
    | Wake(req: nat, timedOut: bool)            // a blocking caller looks at its entry
    | CloseCheck(thread: nat, err: int)
    | CloseConn(thread: nat)
    | Sweep(thread: nat)

  function Start(): Client { Client(0, [], true, SUCCESS, Idle, map[], map[], map[], [], []) }

  /** Position of the entry with an id, or the length of the table. */
  function Find(l: seq<Entry>, id: int): (i: nat)
    ensures i <= |l|
    ensures i < |l| ==> l[i].id == id
    ensures forall j | 0 <= j < i :: l[j].id != id
  {
    if l == [] || l[0].id == id then 0 else 1 + Find(l[1..], id)
  }

  function FindReq(l: seq<Entry>, req: nat): (i: nat)
    ensures i <= |l|
    ensures i < |l| ==> l[i].req == req
    ensures forall j | 0 <= j < i :: l[j].req != req
  {
    if l == [] || l[0].req == req then 0 else 1 + FindReq(l[1..], req)
  }

  function RemoveAt(l: seq<Entry>, i: nat): seq<Entry>
    requires i < |l|
  {
    l[..i] + l[i + 1..]
  }

  /** A reply fills in a blocking entry or takes a callback out of the table. */
  function Answered(l: seq<Entry>, id: int, code: int, resp: Option<Response>): seq<Entry> {
    var i := Find(l, id);
    if i == |l| then l
    else if l[i].kind == Blocking then
      l[i := l[i].(id := 0, rcode := code, result := if code == SUCCESS then resp else l[i].result)]
    else RemoveAt(l, i)
  }

  /** The callback that a reply takes, if any, with its arguments. */
  function Called(l: seq<Entry>, id: int, code: int, resp: Option<Response>): seq<Done> {
    var i := Find(l, id);
    if i < |l| && l[i].kind == Callback then [Done(l[i].req, code, if code == SUCCESS then resp else None)] else []
  }

  function OnReply(c: Client, id: int, code: int, resp: Option<Response>): Client {
    c.(table := Answered(c.table, id, code, resp), taken := c.taken + Called(c.table, id, code, resp))
  }

  function BlockingOnly(l: seq<Entry>): seq<Entry> {
    if l == [] then [] else if l[0].kind == Callback then BlockingOnly(l[1..]) else [l[0]] + BlockingOnly(l[1..])
  }

  function CallbacksOf(l: seq<Entry>, err: int): seq<Done> {
    if l == [] then [] else
    if l[0].kind == Callback then [Done(l[0].req, err, None)] + CallbacksOf(l[1..], err) else CallbacksOf(l[1..], err)
  }

  function OnSweep(c: Client, err: int): Client {
    c.(closeReason := err, table := BlockingOnly(c.table), taken := c.taken + CallbacksOf(c.table, err))
  }

  /** The result a blocking caller would return now; None means that it goes on waiting. */
  function Outcome(c: Client, e: Entry, timedOut: bool): Option<Done> {
    if timedOut then Some(Done(e.req, ETIMEOUT, None))
    else if e.id == 0 then Some(Done(e.req, e.rcode, if e.rcode == SUCCESS then e.result else None))
    else if !c.ready then Some(Done(e.req, c.closeReason, None))
    else None
  }

  function OnWake(c: Client, req: nat, timedOut: bool): Client {
    var i := FindReq(c.table, req);
    if i == |c.table| || c.table[i].kind != Blocking || req !in c.sent then c else
    match Outcome(c, c.table[i], timedOut)
    case None => c
    case Some(d) => c.(table := RemoveAt(c.table, i), returned := c.returned + [d])
  }

  function Step(c: Client, e: Event): Client {
    match e
    case Begin(kind, ask, fits) =>
      if c.phase != Idle then c
      else if !fits then c.(reqseq := c.reqseq + 1)
      else c.(reqseq := c.reqseq + 1, asked := c.asked[c.reqseq + 1 := ask], phase := Numbered(c.reqseq + 1, kind))
    case Push =>
      if !c.phase.Numbered? then c
      else c.(table := c.table + [Entry(c.phase.req, c.phase.req, c.phase.kind, SUCCESS, None)],
              phase := Pushed(c.phase.req, c.phase.kind))
    case Send(ok) =>
      if !c.phase.Pushed? then c
      else if c.ready && ok then c.(sent := c.sent[c.phase.req := c.phase.kind], phase := Idle)
      else c.(phase := Idle)
    case Reply(id, code, resp) => // a parsed reply has a response just when it succeeded
      if code == SUCCESS <==> resp.Some? then OnReply(c, id, code, resp) else c
    case Wake(req, timedOut) => OnWake(c, req, timedOut)
    case CloseCheck(t, err) =>
      if c.ready && t !in c.closers && err != SUCCESS then c.(closers := c.closers[t := Checked(err)]) else c
    case CloseConn(t) =>
      if t in c.closers && c.closers[t].Checked?
      then c.(ready := false, closers := c.closers[t := Shut(c.closers[t].err)]) else c
    case Sweep(t) =>
      if t in c.closers && c.closers[t].Shut?
      then OnSweep(c, c.closers[t].err).(closers := c.closers - {t}) else c
  }

  function Run(es: seq<Event>): Client {
    if es == [] then Start() else Step(Run(es[..|es| - 1]), es[|es| - 1])
  }

  // ---- the loops over the list ----

  lemma SweepNext(l: seq<Entry>, k: nat, err: int)
    requires k < |l|
    ensures BlockingOnly(l[..k + 1]) == BlockingOnly(l[..k]) + if l[k].kind == Callback then [] else [l[k]]
    ensures CallbacksOf(l[..k + 1], err) == CallbacksOf(l[..k], err) + if l[k].kind == Callback then [Done(l[k].req, err, None)] else []
  {
    SweepAppend(l[..k], l[k], err);
    assert l[..k + 1] == l[..k] + [l[k]];
  }

  lemma {:induction false} SweepAppend(l: seq<Entry>, e: Entry, err: int)
    ensures BlockingOnly(l + [e]) == BlockingOnly(l) + if e.kind == Callback then [] else [e]
    ensures CallbacksOf(l + [e], err) == CallbacksOf(l, err) + if e.kind == Callback then [Done(e.req, err, None)] else []
  {
    if l != [] {
      SweepAppend(l[1..], e, err);
      assert (l + [e])[1..] == l[1..] + [e];
    }
  }

  class RequestTable {
    var pendingRequests: seq<Entry>
    var closeReason: int
    var callbacks: seq<Done> // callbacks that were called, with their arguments

    /** The branch for a reply: the first entry with the id is used up. */
    method HandleReply(id: int, code: int, resp: Option<Response>)
      modifies this
      ensures closeReason == old(closeReason)
      ensures pendingRequests == Answered(old(pendingRequests), id, code, resp)
      ensures callbacks == old(callbacks) + Called(old(pendingRequests), id, code, resp)
    {
      var i := 0;
      while i < |pendingRequests|
        modifies {}
        invariant 0 <= i <= |pendingRequests|
        invariant forall j | 0 <= j < i :: pendingRequests[j].id != id
      {
        if pendingRequests[i].id == id { break; }
        i := i + 1;
      }
      assert i == Find(pendingRequests, id);
      if i < |pendingRequests| {
        var e := pendingRequests[i];
        if e.kind == Blocking {
          var result := if code == SUCCESS then resp else e.result;
          pendingRequests := pendingRequests[i := Entry(e.req, 0, e.kind, code, result)];
        } else {
          pendingRequests := pendingRequests[..i] + pendingRequests[i + 1..];
          callbacks := callbacks + [Done(e.req, code, if code == SUCCESS then resp else None)];
        }
      }
    }

    /** The locked part of iclose: blocking entries stay for their callers, callbacks
        are collected and erased. */
    method CloseSweep(err: int)
      modifies this
      ensures closeReason == err && pendingRequests == BlockingOnly(old(pendingRequests))
      ensures callbacks == old(callbacks) + CallbacksOf(old(pendingRequests), err)
    {
      closeReason := err;
      var rest, cbs := EraseCallbacks(pendingRequests, err);
      pendingRequests := rest;
      callbacks := callbacks + cbs;
    }
  }

  method EraseCallbacks(all: seq<Entry>, err: int) returns (l: seq<Entry>, cbs: seq<Done>)
    ensures l == BlockingOnly(all) && cbs == CallbacksOf(all, err)
  {
    l, cbs := all, [];
    var i := 0;
    ghost var k := 0;
    while i < |l|
      invariant 0 <= k <= |all| && i == |BlockingOnly(all[..k])|
      invariant l == BlockingOnly(all[..k]) + all[k..] && cbs == CallbacksOf(all[..k], err)
      decreases |l| - i
    {
      var e := l[i];
      assert e == all[k];
      SweepNext(all, k, err);
      assert all[k..] == [e] + all[k + 1..];
      k := k + 1;
      if e.kind == Callback {
        cbs := cbs + [Done(e.req, err, None)];
        l := l[..i] + l[i + 1..];
        continue;
      }
      i := i + 1;
    }
    assert all[..k] == all;
  }

  // ---- invariants ----

  predicate Distinct(l: seq<Entry>) { forall i, j | 0 <= i < j < |l| :: l[i].req != l[j].req }
  predicate DistinctDone(l: seq<Done>) { forall i, j | 0 <= i < j < |l| :: l[i].req != l[j].req }

  /** Entries are distinct requests, numbered so far; an entry's id is its request
      number until a blocking call has its answer. */
  ghost predicate Numbering(c: Client) {
    && Distinct(c.table)
    && (forall e | e in c.table :: 1 <= e.req <= c.reqseq && (e.id == e.req || (e.id == 0 && e.kind == Blocking)))
    && (!c.phase.Idle? ==> c.phase.req == c.reqseq >= 1 && c.phase.req !in c.sent)
    && (c.phase.Numbered? ==> forall e | e in c.table :: e.req != c.phase.req)
    && (forall r | r in c.sent :: 1 <= r <= c.reqseq)
  }

  predicate InTable(c: Client, r: nat, kind: Kind) { exists e :: e in c.table && e.req == r && e.kind == kind }
  predicate InTaken(c: Client, r: nat) { exists d :: d in c.taken && d.req == r }

  /** No callback is taken twice, and none that was taken is still in the table. */
  ghost predicate TakenOnce(c: Client) {
    && DistinctDone(c.taken)
    && (forall d, e | d in c.taken && e in c.table :: d.req != e.req)
    && (forall d | d in c.taken :: 1 <= d.req <= c.reqseq && !(c.phase.Numbered? && d.req == c.phase.req))
  }

  /** A callback whose request went out waits in the table or was taken. */
  ghost predicate SentTracked(c: Client) {
    && (c.phase.Pushed? && c.phase.kind == Callback ==> InTable(c, c.phase.req, Callback) || InTaken(c, c.phase.req))
    && (forall r | r in c.sent && c.sent[r] == Callback :: InTable(c, r, Callback) || InTaken(c, r))
    && (forall e | e in c.table && e.req in c.sent :: e.kind == c.sent[e.req])
    && (forall e | e in c.table && c.phase.Pushed? && e.req == c.phase.req :: e.kind == c.phase.kind)
  }

  predicate Sweeping(c: Client) { exists t :: t in c.closers && c.closers[t].Shut? }

  /** Closing comes before sweeping: as long as a sent callback waits on a closed
      connection, some closer is still to sweep. */
  ghost predicate SweepComes(c: Client) {
    !c.ready && !Sweeping(c) ==> forall e | e in c.table && e.req in c.sent :: e.kind == Blocking
  }

  /** Until the first sweep has recorded a reason there is none. */
  ghost predicate ReasonComes(c: Client) {
    && (forall t | t in c.closers :: c.closers[t].err != SUCCESS)
    && (!c.ready && c.closeReason == SUCCESS ==> Sweeping(c))
  }

  ghost predicate Sound(c: Client) {
    Numbering(c) && TakenOnce(c) && SentTracked(c) && SweepComes(c) && ReasonComes(c)
  }

  // ---- each step keeps them ----

  lemma BeginSound(c: Client, kind: Kind, ask: Ask, fits: bool)
    requires Sound(c)
    ensures Sound(Step(c, Begin(kind, ask, fits)))
  {}

  lemma PushSound(c: Client)
    requires Sound(c)
    ensures Sound(Step(c, Push))
  {}

  lemma SendSound(c: Client, ok: bool)
    requires Sound(c)
    ensures Sound(Step(c, Send(ok)))
  {}

  lemma {:induction false} BlockingFacts(l: seq<Entry>)
    requires Distinct(l)
    ensures forall e :: e in BlockingOnly(l) <==> e in l && e.kind == Blocking
    ensures Distinct(BlockingOnly(l))
  {
    if l != [] {
      BlockingFacts(l[1..]);
      assert l == [l[0]] + l[1..];
    }
  }

  lemma {:induction false} CallbackFacts(l: seq<Entry>, err: int)
    ensures forall d | d in CallbacksOf(l, err) :: exists e :: e in l && e.kind == Callback && e.req == d.req
    ensures forall e | e in l && e.kind == Callback :: Done(e.req, err, None) in CallbacksOf(l, err)
  {
    if l != [] {
      CallbackFacts(l[1..], err);
      assert l == [l[0]] + l[1..];
    }
  }

  lemma {:induction false} CallbacksDistinct(l: seq<Entry>, err: int)
    requires Distinct(l)
    ensures DistinctDone(CallbacksOf(l, err))
  {
    if l != [] {
      CallbacksDistinct(l[1..], err);
      CallbackFacts(l[1..], err);
      assert forall e | e in l[1..] :: e.req != l[0].req;
    }
  }

  lemma SweepFacts(l: seq<Entry>, err: int)
    requires Distinct(l)
    ensures forall e :: e in BlockingOnly(l) <==> e in l && e.kind == Blocking
    ensures Distinct(BlockingOnly(l)) && DistinctDone(CallbacksOf(l, err))
    ensures forall d | d in CallbacksOf(l, err) :: exists e :: e in l && e.kind == Callback && e.req == d.req
    ensures forall e | e in l && e.kind == Callback :: Done(e.req, err, None) in CallbacksOf(l, err)
  {
    BlockingFacts(l);
    CallbackFacts(l, err);
    CallbacksDistinct(l, err);
  }

  lemma SweepSound(c: Client, t: nat)
    requires Sound(c)
    ensures Sound(Step(c, Sweep(t)))
  {
    if t in c.closers && c.closers[t].Shut? {
      var c', err := Step(c, Sweep(t)), c.closers[t].err;
      SweepFacts(c.table, err);
      forall r | InTable(c, r, Callback) ensures InTaken(c', r) {
        var e :| e in c.table && e.req == r && e.kind == Callback;
        assert Done(r, err, None) in c'.taken;
      }
      forall r | InTaken(c, r) ensures InTaken(c', r) {
        var d :| d in c.taken && d.req == r;
        assert d in c'.taken;
      }
    }
  }

  lemma RemoveFacts(l: seq<Entry>, i: nat)
    requires Distinct(l) && i < |l|
    ensures Distinct(RemoveAt(l, i)) && forall e :: e in RemoveAt(l, i) <==> e in l && e != l[i]
  {}

  lemma UpdateFacts(l: seq<Entry>, i: nat, x: Entry)
    requires Distinct(l) && i < |l| && x.req == l[i].req
    ensures var m := l[i := x]; Distinct(m) && forall e :: e in m <==> e == x || (e in l && e != l[i])
  {
    var m := l[i := x];
    forall e | e in l && e != l[i] ensures e in m {
      var j :| 0 <= j < |l| && l[j] == e;
      assert m[j] == e;
    }
    assert m[i] == x;
  }

  /** A blocking entry that gets its answer changes nothing for callbacks. */
  lemma FillSound(c: Client, i: nat, x: Entry)
    requires Sound(c) && i < |c.table| && c.table[i].kind == Blocking
    requires x.req == c.table[i].req && x.kind == Blocking && x.id == 0
    ensures Sound(c.(table := c.table[i := x]))
  {
    var c' := c.(table := c.table[i := x]);
    UpdateFacts(c.table, i, x);
    forall r | InTable(c, r, Callback) ensures InTable(c', r, Callback) {
      var e :| e in c.table && e.req == r && e.kind == Callback;
      assert e in c'.table;
    }
    assert forall r | InTaken(c, r) :: InTaken(c', r);
  }

  /** Taking a callback moves it from the table to the taken ones. */
  lemma TakeSound(c: Client, i: nat, d: Done)
    requires Sound(c) && i < |c.table| && c.table[i].kind == Callback && d.req == c.table[i].req
    ensures Sound(c.(table := RemoveAt(c.table, i), taken := c.taken + [d]))
  {}

  lemma ReplySound(c: Client, id: int, code: int, resp: Option<Response>)
    requires Sound(c)
    ensures Sound(OnReply(c, id, code, resp))
  {
    var i := Find(c.table, id);
    if i < |c.table| {
      if c.table[i].kind == Blocking {
        FillSound(c, i, c.table[i].(id := 0, rcode := code, result := if code == SUCCESS then resp else c.table[i].result));
        assert c.taken + [] == c.taken;
      } else {
        TakeSound(c, i, Done(c.table[i].req, code, if code == SUCCESS then resp else None));
      }
    } else {
      assert c.taken + [] == c.taken;
    }
  }

  lemma WakeSound(c: Client, req: nat, timedOut: bool)
    requires Sound(c)
    ensures Sound(OnWake(c, req, timedOut))
  {}

  lemma CloseSound(c: Client, e: Event)
    requires Sound(c) && (e.CloseCheck? || e.CloseConn?)
    ensures Sound(Step(c, e))
  {
    var c' := Step(c, e);
    forall r, kind ensures InTable(c', r, kind) == InTable(c, r, kind) && InTaken(c', r) == InTaken(c, r) {}
    if e.CloseConn? && e.thread in c.closers && c.closers[e.thread].Checked? {
      assert c'.closers[e.thread].Shut?;
    } else if Sweeping(c) {
      var t :| t in c.closers && c.closers[t].Shut?;
      assert c'.closers[t].Shut?;
    }
  }

  lemma StepSound(c: Client, e: Event)
    requires Sound(c)
    ensures Sound(Step(c, e))
  {
    match e
    case Begin(kind, ask, fits) => BeginSound(c, kind, ask, fits);
    case Push => PushSound(c);
    case Send(ok) => SendSound(c, ok);
    case Reply(id, code, resp) => ReplySound(c, id, code, resp);
    case Wake(req, timedOut) => WakeSound(c, req, timedOut);
    case Sweep(t) => SweepSound(c, t);
    case _ => CloseSound(c, e);
  }

  lemma {:induction false} RunSound(es: seq<Event>)
    ensures Sound(Run(es))
  {
    if es != [] {
      RunSound(es[..|es| - 1]);
      StepSound(Run(es[..|es| - 1]), es[|es| - 1]);
    }
  }

  // ---- the theorems ----

  function Times(l: seq<Done>, r: nat): nat {
    if l == [] then 0 else (if l[0].req == r then 1 else 0) + Times(l[1..], r)
  }

  lemma {:induction false} TimesDistinct(l: seq<Done>, r: nat)
    requires DistinctDone(l)
    ensures Times(l, r) == if exists d :: d in l && d.req == r then 1 else 0
  {
    if l != [] {
      TimesDistinct(l[1..], r);
      assert l == [l[0]] + l[1..];
      if l[0].req == r { assert forall d | d in l[1..] :: d.req != r; }
    }
  }

  /** Under every interleaving of callers, receiver and closers: no callback is ever
      taken twice; one whose request was sent is either waiting or was taken exactly
      once; and when the connection is closed and the closers are through, it was
      taken exactly once. */
  lemma ExactlyOnce(es: seq<Event>, r: nat)
    ensures var c := Run(es);
            && Times(c.taken, r) <= 1
            && (r in c.sent && c.sent[r] == Callback ==>
                  (InTable(c, r, Callback) <==> Times(c.taken, r) == 0)
                  && (!c.ready && !Sweeping(c) ==> Times(c.taken, r) == 1))
  {
    RunSound(es);
    var c := Run(es);
    TimesDistinct(c.taken, r);
  }

  /** A blocking entry that was answered with SUCCESS has its response. */
  ghost predicate Filled(c: Client) {
    forall e | e in c.table && e.id == 0 && e.rcode == SUCCESS :: e.result.Some?
  }

  lemma StepFilled(c: Client, e: Event)
    requires Sound(c) && Filled(c)
    ensures Filled(Step(c, e))
  {
    match e
    case Reply(id, code, resp) =>
      var i := Find(c.table, id);
      if i < |c.table| {
        RemoveFacts(c.table, i);
        UpdateFacts(c.table, i, c.table[i].(id := 0, rcode := code, result := if code == SUCCESS then resp else c.table[i].result));
      }
    case Wake(req, timedOut) =>
      var i := FindReq(c.table, req);
      if i < |c.table| { RemoveFacts(c.table, i); }
    case Sweep(t) => if t in c.closers { SweepFacts(c.table, c.closers[t].err); }
    case _ =>
  }

  lemma {:induction false} RunFilled(es: seq<Event>)
    ensures Filled(Run(es))
  {
    if es != [] {
      RunFilled(es[..|es| - 1]);
      RunSound(es[..|es| - 1]);
      StepFilled(Run(es[..|es| - 1]), es[|es| - 1]);
    }
  }

  /** In every reachable state a blocking call would report SUCCESS without a response
      exactly when it has no answer yet and finds the connection closed while no closer
      has recorded a reason; and then some closer is between its close and its sweep. */
  lemma EmptySuccess(es: seq<Event>, e: Entry, timedOut: bool)
    requires e in Run(es).table
    ensures var c := Run(es); var o := Outcome(c, e, timedOut);
            && (o.Some? && o.value.code == SUCCESS && o.value.resp.None?
                <==> !timedOut && e.id != 0 && !c.ready && c.closeReason == SUCCESS)
            && (!c.ready && c.closeReason == SUCCESS ==> Sweeping(c))
  {
    RunSound(es);
    RunFilled(es);
  }

  lemma RunMore(es: seq<Event>, e: Event)
    ensures Run(es + [e]) == Step(Run(es), e)
  {}

  // ---- what a call gets ----

  /** The table without one entry. */
  ghost predicate Dropped(l: seq<Entry>, l': seq<Entry>, e: Entry) {
    exists i :: 0 <= i < |l| && l[i] == e && l' == l[..i] + l[i + 1..]
  }

  /** The table with one entry answered. */
  ghost predicate Answers(l: seq<Entry>, l': seq<Entry>, e: Entry, e': Entry) {
    exists i :: 0 <= i < |l| && l[i] == e && l' == l[i := e']
  }

  lemma WhereIs(c: Client, e: Entry)
    requires Numbering(c) && e in c.table
    ensures FindReq(c.table, e.req) < |c.table| && c.table[FindReq(c.table, e.req)] == e
    ensures e.id == e.req ==> Find(c.table, e.req) == FindReq(c.table, e.req)
  {
    var k :| 0 <= k < |c.table| && c.table[k] == e;
    var i := FindReq(c.table, e.req);
    assert i <= k && c.table[i].req == e.req;
    if e.id == e.req {
      var j := Find(c.table, e.req);
      assert j <= k;
    }
  }

  /** A numbered, listed and sent call: its entry is the last of the table, under a number
      that was not used before. */
  lemma CallListed(c: Client, kind: Kind, ask: Ask)
    requires Sound(c) && c.phase == Idle && c.ready
    ensures var n := c.reqseq + 1; var c' := Step(Step(Step(c, Begin(kind, ask, true)), Push), Send(true));
            && c'.table == c.table + [Entry(n, n, kind, SUCCESS, None)] && c'.reqseq == n && c'.phase == Idle
            && c'.asked == c.asked[n := ask] && c'.sent == c.sent[n := kind]
            && n !in c.sent && forall e | e in c.table :: e.req != n
  {}

  /** A reply to a waiting callback takes it, with the code and the response of the reply. */
  lemma ReplyTakes(c: Client, e: Entry, code: int, resp: Option<Response>)
    requires Sound(c) && e in c.table && e.kind == Callback && (code == SUCCESS <==> resp.Some?)
    ensures var c' := Step(c, Event.Reply(e.req, code, resp));
            c'.taken == c.taken + [Done(e.req, code, resp)] && Dropped(c.table, c'.table, e) && c'.returned == c.returned
  {
    WhereIs(c, e);
  }

  /** The entry of a blocking call that has its answer. */
  function WithAnswer(e: Entry, code: int, resp: Option<Response>): Entry {
    Entry(e.req, 0, e.kind, code, if code == SUCCESS then resp else e.result)
  }

  /** A reply to a waiting blocking call is kept in its entry. */
  lemma ReplyFills(c: Client, e: Entry, code: int, resp: Option<Response>)
    requires Sound(c) && e in c.table && e.kind == Blocking && e.id == e.req && (code == SUCCESS <==> resp.Some?)
    ensures var c' := Step(c, Event.Reply(e.req, code, resp));
            && Answers(c.table, c'.table, e, WithAnswer(e, code, resp))
            && c'.taken == c.taken && c'.returned == c.returned && c'.sent == c.sent
  {
    WhereIs(c, e);
    assert c.taken + [] == c.taken;
  }

  /** A reply to a number that does not wait changes nothing. */
  lemma ReplyUnknown(c: Client, id: int, code: int, resp: Option<Response>)
    requires forall i | 0 <= i < |c.table| :: c.table[i].id != id
    ensures Step(c, Event.Reply(id, code, resp)) == c
  {
    assert Find(c.table, id) == |c.table|;
    assert c.taken + [] == c.taken;
  }

  /** What a blocking caller returns when it wakes: ETIMEOUT if its time is over, else its
      answer if it has one, else the reason of the close if there was one. */
  lemma WakeReturns(c: Client, e: Entry, timedOut: bool)
    requires Sound(c) && e in c.table && e.kind == Blocking && e.req in c.sent
    ensures var c' := Step(c, Wake(e.req, timedOut));
            if timedOut then c'.returned == c.returned + [Done(e.req, ETIMEOUT, None)] && Dropped(c.table, c'.table, e)
            else if e.id == 0 then
              && c'.returned == c.returned + [Done(e.req, e.rcode, if e.rcode == SUCCESS then e.result else None)]
              && Dropped(c.table, c'.table, e)
            else if !c.ready then c'.returned == c.returned + [Done(e.req, c.closeReason, None)] && Dropped(c.table, c'.table, e)
            else c' == c
  {
    WhereIs(c, e);
  }

  /** A closer's sweep takes every waiting callback with the reason of the close, and no
      blocking call. */
  lemma SweepTakes(c: Client, t: nat, e: Entry)
    requires Sound(c) && t in c.closers && c.closers[t].Shut? && e in c.table
    ensures var c' := Step(c, Sweep(t));
            && c'.closeReason == c.closers[t].err && c.taken <= c'.taken
            && (e.kind == Callback ==> Done(e.req, c.closers[t].err, None) in c'.taken[|c.taken|..] && e !in c'.table)
            && (e.kind == Blocking ==> e in c'.table)
  {
    BlockingFacts(c.table);
    CallbackFacts(c.table, c.closers[t].err);
  }

  /** The event is no wake of the caller of a request, and no reply to number 0, which would
      find an entry that has its answer. */
  predicate Elsewhere(e: Event, req: nat) { !(e.Wake? && e.req == req) && !(e.Reply? && e.id == 0) }

  /** An answered entry stays as it is until its caller wakes. */
  lemma AnswerStays(c: Client, e: Event, x: Entry)
    requires Sound(c) && x in c.table && x.kind == Blocking && x.id == 0 && Elsewhere(e, x.req)
    ensures x in Step(c, e).table && (x.req in c.sent ==> x.req in Step(c, e).sent)
  {
    match e
    case Reply(id, code, resp) => ReplyLeaves(c, id, code, resp, x);
    case Wake(req, timedOut) => WakeLeaves(c, req, timedOut, x);
    case Sweep(t) => BlockingFacts(c.table);
    case _ =>
  }

  lemma ReplyLeaves(c: Client, id: int, code: int, resp: Option<Response>, x: Entry)
    requires x in c.table && x.id != id
    ensures x in OnReply(c, id, code, resp).table
  {
    var i := Find(c.table, id);
    if i < |c.table| {
      var k :| 0 <= k < |c.table| && c.table[k] == x;
      var l := Answered(c.table, id, code, resp);
      assert c.table[i].kind == Blocking ==> l[k] == x;
      assert c.table[i].kind != Blocking ==> l[if k < i then k else k - 1] == x;
    }
  }

  /** A reply to number 0 overwrites the first answer that waits. No broker sends one. */
  lemma ZeroOverwrites(c: Client, x: Entry, code: int, resp: Option<Response>)
    requires c.table != [] && c.table[0] == x && x.kind == Blocking && x.id == 0 && (code == SUCCESS <==> resp.Some?)
    ensures Step(c, Event.Reply(0, code, resp)).table[0] == WithAnswer(x, code, resp)
  {}

  lemma WakeLeaves(c: Client, req: nat, timedOut: bool, x: Entry)
    requires x in c.table && x.req != req
    ensures x in OnWake(c, req, timedOut).table
  {
    var i := FindReq(c.table, req);
    if i < |c.table| {
      var k :| 0 <= k < |c.table| && c.table[k] == x;
      assert RemoveAt(c.table, i)[if k < i then k else k - 1] == x;
    }
  }

  lemma {:induction false} AnswerWaits(es: seq<Event>, more: seq<Event>, x: Entry)
    requires x in Run(es).table && x.kind == Blocking && x.id == 0
    requires forall i | 0 <= i < |more| :: Elsewhere(more[i], x.req)
    ensures x in Run(es + more).table && (x.req in Run(es).sent ==> x.req in Run(es + more).sent)
    decreases |more|
  {
    if more == [] {
      assert es + more == es;
    } else {
      var n := |more| - 1;
      AnswerWaits(es, more[..n], x);
      assert es + more == es + more[..n] + [more[n]];
      RunMore(es + more[..n], more[n]);
      RunSound(es + more[..n]);
      AnswerStays(Run(es + more[..n]), more[n], x);
    }
  }

  /** Under every interleaving: a blocking call that was sent and waits, and whose reply
      came, returns the code and the response of that reply when it next wakes in time,
      whatever happened in between. */
  lemma BlockingReturns(es: seq<Event>, e: Entry, code: int, resp: Option<Response>, more: seq<Event>)
    requires e in Run(es).table && e.kind == Blocking && e.id == e.req && e.req in Run(es).sent && (code == SUCCESS <==> resp.Some?)
    requires forall i | 0 <= i < |more| :: Elsewhere(more[i], e.req)
    ensures var c := Run(es + [Event.Reply(e.req, code, resp)] + more);
            Step(c, Wake(e.req, false)).returned == c.returned + [Done(e.req, code, resp)]
  {
    var es' := es + [Event.Reply(e.req, code, resp)];
    RunSound(es);
    RunMore(es, Event.Reply(e.req, code, resp));
    AnswerKept(Run(es), e, code, resp);
    AnswerWaits(es', more, WithAnswer(e, code, resp));
    RunSound(es' + more);
    WakeReturns(Run(es' + more), WithAnswer(e, code, resp), false);
  }

  lemma AnswerKept(c: Client, e: Entry, code: int, resp: Option<Response>)
    requires Sound(c) && e in c.table && e.kind == Blocking && e.id == e.req && (code == SUCCESS <==> resp.Some?)
    ensures var c' := Step(c, Event.Reply(e.req, code, resp)); WithAnswer(e, code, resp) in c'.table && c'.sent == c.sent
  {
    ReplyFills(c, e, code, resp);
    var c', x := Step(c, Event.Reply(e.req, code, resp)), WithAnswer(e, code, resp);
    var i :| 0 <= i < |c.table| && c.table[i] == e && c'.table == c.table[i := x];
    assert c'.table[i] == x;
  }

  /** Under every interleaving: the reply to a waiting callback calls it with its code and
      response. */
  lemma CallbackCalled(es: seq<Event>, e: Entry, code: int, resp: Option<Response>)
    requires e in Run(es).table && e.kind == Callback && (code == SUCCESS <==> resp.Some?)
    ensures Step(Run(es), Event.Reply(e.req, code, resp)).taken == Run(es).taken + [Done(e.req, code, resp)]
  {
    RunSound(es);
    ReplyTakes(Run(es), e, code, resp);
  }

  /** The failure is real: a call that was sent returns SUCCESS, empty, between a
      closer's close and its sweep. */
  lemma EmptySuccessHappens(ask: Ask)
    ensures Run([Begin(Blocking, ask, true), Push, Send(true), CloseCheck(7, ECLOSED), CloseConn(7), Wake(1, false)]).returned
            == [Done(1, SUCCESS, None)]
  {
    var begin := Begin(Blocking, ask, true);
    var e1: seq<Event> := [] + [begin];
    RunMore([], begin);
    RunMore(e1, Push);
    var e2 := e1 + [Push];
    RunMore(e2, Send(true));
    var e3 := e2 + [Send(true)];
    assert Run(e3).table == [Entry(1, 1, Blocking, SUCCESS, None)] && 1 in Run(e3).sent && Run(e3).ready;
    RunMore(e3, CloseCheck(7, ECLOSED));
    var e4 := e3 + [CloseCheck(7, ECLOSED)];
    RunMore(e4, CloseConn(7));
    var e5 := e4 + [CloseConn(7)];
    RunMore(e5, Wake(1, false));
    assert e5 + [Wake(1, false)] == [begin, Push, Send(true), CloseCheck(7, ECLOSED), CloseConn(7), Wake(1, false)];
  }
}
