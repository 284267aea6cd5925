/** The broker's end of each connection (src/adap.h, src/sock-adap.cc). An adapter
    closes once and stays closed; every frame that a write put on its socket is kept
    in its log, stamped with the number of packets handled before the write and with
    the byte order it was serialized in. */
module Peers {
  import opened Wire

  datatype Sent = Sent(at: nat, net: bool, frame: Frame)

  /** room is how many more writes the socket takes before one fails: a failed write
      closes the adapter, so one number settles the fate of all later writes.
      gone means that no owning pointer is left, so weak pointers have expired. */
  datatype Peer = Peer(open: bool, gone: bool, net: bool, tag: int, room: nat, sent: seq<Sent>)

  type PeerMap = map<Id, Peer>

  predicate IsOpen(ps: PeerMap, a: Id) { a in ps && ps[a].open }

  /** A weak pointer expires only after its adapter was closed: the poll owns an adapter
      until it has closed it. */
  ghost predicate GoneClosed(ps: PeerMap) { forall a | a in ps && ps[a].gone :: !ps[a].open }

  function OpenSet(ps: PeerMap): set<Id> { set a | a in ps && ps[a].open }

  function LiveSet(ps: PeerMap): set<Id> { set a | a in ps && !ps[a].gone }

  function Write(p: Peer, at: nat, net: bool, f: Frame): Peer {
    if !p.open then p
    else if p.room == 0 then p.(open := false)
    else p.(room := p.room - 1, sent := p.sent + [Sent(at, net, f)])
  }

  /** Write one frame to one adapter, in its own byte order. */
  function Send(ps: PeerMap, a: Id, at: nat, f: Frame): PeerMap {
    if a in ps then ps[a := Write(ps[a], at, ps[a].net, f)] else ps
  }

  /** Write one frame to every adapter of a set, each in its own byte order, where
      the encoding fits the buffer. */
  function Broadcast(ps: PeerMap, to: set<Id>, at: nat, f: Frame, fits: (Frame, bool) -> bool): PeerMap {
    map a | a in ps :: if a in to && fits(f, ps[a].net) then Write(ps[a], at, ps[a].net, f) else ps[a]
  }

  function Shut(ps: PeerMap, a: Id): PeerMap {
    if a in ps then ps[a := ps[a].(open := false)] else ps
  }
}
