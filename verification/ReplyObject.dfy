/** The object through which a called client answers (ReplyImpl in src/cli.cc). */
module ReplyObject {
  import opened Wire

  /** live: the object still holds its client. */
  datatype ReplyState = ReplyState(live: bool, callid: int, retCode: int, data: Caps)

  datatype Op = WriteCode(code: int) | WriteData(data: Caps) | End | EndCode(code: int) | EndData(code: int, data: Caps) | Destroy

  datatype Answer = Answer(callid: int, code: int, data: Caps)

  function Start(callid: int): ReplyState { ReplyState(true, callid, NORESP, Null) }

  function Written(o: ReplyState, op: Op): ReplyState {
    match op
    case WriteCode(c) => o.(retCode := c)
    case WriteData(d) => o.(data := d)
    case End => o.(retCode := 0)
    case EndCode(c) => o.(retCode := c)
    case EndData(c, d) => o.(retCode := c, data := d)
    case Destroy => o
  }

  predicate Ends(op: Op) { op.End? || op.EndCode? || op.EndData? || op.Destroy? }

  /** What an operation makes the client send, if anything. */
  function Sends(o: ReplyState, op: Op): Option<Answer> {
    var w := Written(o, op);
    if Ends(op) && o.live then Some(Answer(w.callid, w.retCode, w.data)) else None
  }

  function Apply(o: ReplyState, op: Op): ReplyState {
    Written(o, op).(live := o.live && !Ends(op))
  }

  class ReplyImpl {
    var live: bool
    const callid: int
    var retCode: int
    var data: Caps
    var outbox: seq<Answer> // replies handed to the client for sending

    ghost function St(): ReplyState
      reads this
    {
      ReplyState(live, callid, retCode, data)
    }

    constructor (id: int)
      ensures St() == Start(id) && outbox == []
    {
      live, callid, retCode, data, outbox := true, id, NORESP, Null, [];
    }

    method Send()
      modifies this
      ensures St() == old(St()).(live := false)
      ensures outbox == if old(live) then old(outbox) + [Answer(callid, retCode, data)] else old(outbox)
    {
      if live {
        outbox := outbox + [Answer(callid, retCode, data)];
        live := false;
      }
    }

    method Do(op: Op)
      modifies this
      ensures St() == Apply(old(St()), op)
      ensures outbox == old(outbox) + match Sends(old(St()), op) case Some(a) => [a] case None => []
    {
      match op
      case WriteCode(c) => retCode := c;
      case WriteData(d) => data := d;
      case End => retCode := 0; Send();
      case EndCode(c) => retCode := c; Send();
      case EndData(c, d) => retCode, data := c, d; Send();
      case Destroy => Send();
    }
  }

  // ---- any sequence of operations ----

  function After(o: ReplyState, ops: seq<Op>): ReplyState {
    if ops == [] then o else Apply(After(o, ops[..|ops| - 1]), ops[|ops| - 1])
  }

  function Sent(o: ReplyState, ops: seq<Op>): seq<Answer> {
    if ops == [] then [] else
    Sent(o, ops[..|ops| - 1]) +
    match Sends(After(o, ops[..|ops| - 1]), ops[|ops| - 1]) case Some(a) => [a] case None => []
  }

  /** The last code and data written by operations that do not end the reply. */
  function LastCode(ops: seq<Op>): int {
    if ops == [] then NORESP
    else if ops[|ops| - 1].WriteCode? then ops[|ops| - 1].code else LastCode(ops[..|ops| - 1])
  }

  function LastData(ops: seq<Op>): Caps {
    if ops == [] then Null
    else if ops[|ops| - 1].WriteData? then ops[|ops| - 1].data else LastData(ops[..|ops| - 1])
  }

  /** The answer that an ending operation gives after others that did not end it:
      plain end means code 0, destruction the last code written or NORESP. */
  function Verdict(callid: int, before: seq<Op>, op: Op): Answer
    requires Ends(op)
  {
    Answer(callid,
           match op case End => 0 case EndCode(c) => c case EndData(c, _) => c case Destroy => LastCode(before),
           if op.EndData? then op.data else LastData(before))
  }

  lemma {:induction false} Writing(callid: int, ops: seq<Op>)
    requires forall i | 0 <= i < |ops| :: !Ends(ops[i])
    ensures After(Start(callid), ops) == ReplyState(true, callid, LastCode(ops), LastData(ops))
    ensures Sent(Start(callid), ops) == []
  {
    if ops != [] { Writing(callid, ops[..|ops| - 1]); }
  }

  /** Whatever is done to a reply object, in any order and any number of times, it
      sends nothing before the first ending operation, its verdict at that operation,
      and nothing after. */
  lemma {:induction false} SendsOnce(callid: int, before: seq<Op>, op: Op, after: seq<Op>)
    requires (forall i | 0 <= i < |before| :: !Ends(before[i])) && Ends(op)
    ensures Sent(Start(callid), before + [op] + after) == [Verdict(callid, before, op)]
    ensures !After(Start(callid), before + [op] + after).live
    decreases |after|
  {
    var all := before + [op] + after;
    if after == [] {
      assert all[..|all| - 1] == before && all[|all| - 1] == op;
      Writing(callid, before);
    } else {
      var n := |after| - 1;
      assert all[..|all| - 1] == before + [op] + after[..n] && all[|all| - 1] == after[n];
      SendsOnce(callid, before, op, after[..n]);
    }
  }
}
