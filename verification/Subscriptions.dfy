/** Subscription lists over whole runs, and who gets a post. */
module Subscriptions {
  import opened Wire
  import opened Peers
  import opened Topics
  import opened Registry
  import opened Codec
  import opened Broker

  /** The topics after a client's request. */
  function TopicsOf(s: Core, a: Id, r: Request): Topics {
    match r
    case Subscribe(name) => if name == "" then s.topics else Add(s.topics, a, name)
    case Unsubscribe(name) =>
      if name == "" then s.topics else s.topics.(subs := Prune(s.topics.subs, name, LiveSet(s.peers) - {a}))
    case Post(t, name, args) =>
      if t >= NUMBER_OF_MSGTYPE || name == "" then s.topics
      else Topics(Prune(s.topics.subs, name, LiveSet(s.peers) * OpenSet(s.peers)),
                  if t == PERSIST then s.topics.persist[name := args] else s.topics.persist)
    case _ => s.topics
  }

  /** The topics after a packet. */
  function TopicsAfter(s: Core, p: Packet, now: int): Topics {
    if p.body.None? then
      if Lookup(s.reg, p.from).Some? && (now - s.lastCmd >= SWEEP_AFTER || s.prio + 1 >= SWEEP_COUNT)
      then s.topics.(subs := Sweep(s.topics.subs, LiveSet(s.peers))) else s.topics
    else if p.from in s.reg.monitors || p.from !in s.reg.infos || !Content(p).Good? then s.topics
    else TopicsOf(s, p.from, Content(p).req)
  }

  lemma RequestTopics(s: Core, a: Id, r: Request, now: int)
    ensures HandleRequest(s, a, r, now).core.topics == if a in s.reg.infos then TopicsOf(s, a, r) else s.topics
  {}

  lemma HandleTopics(s: Core, p: Packet, now: int)
    ensures Handle(s, p, now).topics == TopicsAfter(s, p, now)
  {
    if p.body.None? {
      EraseTopics(s, p.from, now);
    } else if Content(p).Good? {
      RequestTopics(s, p.from, Content(p).req, now);
    }
  }

  lemma EraseTopics(s: Core, a: Id, now: int)
    ensures DoErase(s, a, now).topics == TopicsAfter(s, Packet(a, None), now)
  {
    if Lookup(s.reg, a).Some? && a !in s.reg.monitors {
      var s1 := ToMonitors(s, MonitorRemove(Lookup(s.reg, a).value.id));
      assert LiveSet(s1.peers) == LiveSet(s.peers);
    }
  }

  /** A packet adds at most its sender to a list. */
  lemma Members(s: Core, p: Packet, now: int, name: string, x: Id)
    requires x in Subscribers(TopicsAfter(s, p, now), name)
    ensures x in Subscribers(s.topics, name) || (x == p.from && Content(p) == Good(Subscribe(name)))
  {
    if name in s.topics.subs {
      KeepIn(s.topics.subs[name], LiveSet(s.peers), x);
      KeepIn(s.topics.subs[name], LiveSet(s.peers) - {p.from}, x);
      KeepIn(s.topics.subs[name], LiveSet(s.peers) * OpenSet(s.peers), x);
    }
  }

  lemma TidyAfter(s: Core, p: Packet, now: int)
    requires Tidy(s.topics.subs)
    ensures Tidy(TopicsAfter(s, p, now).subs)
  {
    if p.body.None? {
      SweepTidy(s.topics.subs, LiveSet(s.peers));
    } else if Content(p).Good? {
      match Content(p).req
      case Subscribe(name) => if name != "" { AddTidy(s.topics, p.from, name); }
      case Unsubscribe(name) => PruneTidy(s.topics.subs, name, LiveSet(s.peers) - {p.from});
      case Post(t, name, args) => PruneTidy(s.topics.subs, name, LiveSet(s.peers) * OpenSet(s.peers));
      case _ =>
    }
  }

  lemma StepTidy(s: State, e: Event)
    requires Tidy(s.core.topics.subs)
    ensures Tidy(Step(s, e).core.topics.subs)
  {
    if e.Next? && s.batch != [] {
      HandleTopics(s.core, s.batch[0], e.now);
      TidyAfter(s.core, s.batch[0], e.now);
    } else {
      assert Step(s, e).core.topics == s.core.topics;
    }
  }

  /** No list ever has duplicates or is stored empty. */
  lemma {:induction false} RunTidy(cfg: Config, es: seq<Event>)
    ensures Tidy(Run(Init(cfg), es).core.topics.subs)
  {
    if es != [] {
      RunTidy(cfg, es[..|es| - 1]);
      StepTidy(Run(Init(cfg), es[..|es| - 1]), es[|es| - 1]);
    }
  }

  /** A valid post that fits writes one frame, in its own byte order, to each open
      subscriber whose socket takes it, nothing to anyone else, and closes nobody but
      subscribers whose write fails; the list keeps just the open subscribers. */
  lemma FanOut(s: Core, a: Id, t: uint32, name: string, args: Caps, x: Id)
    requires t < NUMBER_OF_MSGTYPE && name != "" && x in s.peers
    requires forall net :: s.cfg.fits(PostResp(t, name, args, TagOf(s, a), NameOf(s.reg, a)), net)
    ensures var s' := HandlePost(s, a, t, name, args).core;
            var f := PostResp(t, name, args, TagOf(s, a), NameOf(s.reg, a));
            var gets := x in Subscribers(s.topics, name) && s.peers[x].open;
            && s'.peers.Keys == s.peers.Keys
            && s'.peers[x].sent == s.peers[x].sent + (if gets && s.peers[x].room > 0 then [Sent(s.step, s.peers[x].net, f)] else [])
            && (s'.peers[x].open <==> s.peers[x].open && (gets ==> s.peers[x].room > 0))
            && (!s.peers[x].gone ==> (x in Subscribers(s'.topics, name) <==> gets))
  {
    var keep := LiveSet(s.peers) * OpenSet(s.peers);
    KeepIn(Subscribers(s.topics, name), keep, x);
  }
}
