/** The list of forwarded calls waiting for their reply (src/disp.cc:136-156, 459-479). */
module Calls {
  import opened Wire

  datatype PendingCall = PendingCall(svrid: nat, cliid: int, sender: Id, target: Id, deadline: int)

  /** Position before the first call that is not due earlier than tp. */
  function Slot(l: seq<PendingCall>, tp: int): (i: nat)
    ensures i <= |l|
  {
    if l == [] || l[0].deadline >= tp then 0 else 1 + Slot(l[1..], tp)
  }

  function Insert(l: seq<PendingCall>, c: PendingCall): seq<PendingCall> {
    var i := Slot(l, c.deadline);
    l[..i] + [c] + l[i..]
  }

  predicate Matches(c: PendingCall, svrid: int, target: Id) { c.svrid == svrid && c.target == target }

  /** Position of the call a reply answers; the length of the list if there is none. */
  function Find(l: seq<PendingCall>, svrid: int, target: Id): (i: nat)
    ensures i <= |l|
    ensures i < |l| ==> Matches(l[i], svrid, target)
    ensures forall j | 0 <= j < i :: !Matches(l[j], svrid, target)
  {
    if l == [] || Matches(l[0], svrid, target) then 0 else 1 + Find(l[1..], svrid, target)
  }

  function RemoveAt(l: seq<PendingCall>, i: nat): seq<PendingCall>
    requires i < |l|
  {
    l[..i] + l[i + 1..]
  }

  /** How many calls at the front are due. */
  function Overdue(l: seq<PendingCall>, now: int): (n: nat)
    ensures n <= |l|
    ensures forall i | 0 <= i < n :: l[i].deadline <= now
    ensures n < |l| ==> now < l[n].deadline
  {
    if l == [] || now < l[0].deadline then 0 else 1 + Overdue(l[1..], now)
  }

  predicate Sorted(l: seq<PendingCall>) {
    forall i, j | 0 <= i < j < |l| :: l[i].deadline <= l[j].deadline
  }

  predicate Distinct(l: seq<PendingCall>) {
    forall i, j | 0 <= i < j < |l| :: l[i].svrid != l[j].svrid
  }

  /** Every waiting call that is not due, whatever its position. */
  function NotDue(l: seq<PendingCall>, now: int): seq<PendingCall> {
    if l == [] then []
    else if now < l[0].deadline then [l[0]] + NotDue(l[1..], now)
    else NotDue(l[1..], now)
  }

  lemma {:induction false} SlotSplits(l: seq<PendingCall>, tp: int)
    ensures forall i | 0 <= i < Slot(l, tp) :: l[i].deadline < tp
    ensures Slot(l, tp) < |l| ==> tp <= l[Slot(l, tp)].deadline
  {
    if l != [] && l[0].deadline < tp {
      SlotSplits(l[1..], tp);
    }
  }

  lemma InsertAdds(l: seq<PendingCall>, c: PendingCall)
    ensures multiset(Insert(l, c)) == multiset(l) + multiset{c}
  {
    var i := Slot(l, c.deadline);
    assert l == l[..i] + l[i..];
  }

  lemma InsertSorted(l: seq<PendingCall>, c: PendingCall)
    requires Sorted(l)
    ensures Sorted(Insert(l, c))
    ensures multiset(Insert(l, c)) == multiset(l) + multiset{c}
  {
    SlotSplits(l, c.deadline);
    InsertAdds(l, c);
  }

  /** On a sorted list, cutting the overdue front is the same as dropping every
      overdue call and only those. */
  lemma {:induction false} CutIsFilter(l: seq<PendingCall>, now: int)
    requires Sorted(l)
    ensures l[Overdue(l, now)..] == NotDue(l, now)
  {
    if l != [] {
      CutIsFilter(l[1..], now);
      if now < l[0].deadline {
        AllKept(l[1..], now);
        assert l == [l[0]] + l[1..];
      } else {
        assert l[1 + Overdue(l[1..], now)..] == l[1..][Overdue(l[1..], now)..];
      }
    }
  }

  lemma {:induction false} AllKept(l: seq<PendingCall>, now: int)
    requires forall i | 0 <= i < |l| :: now < l[i].deadline
    ensures NotDue(l, now) == l
  {
    if l != [] {
      AllKept(l[1..], now);
      assert l == [l[0]] + l[1..];
    }
  }
}
