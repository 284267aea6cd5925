/** Serializers and parsers of src/ser-helper.cc over Caps cells. A parser works on
    the cells its cursor has not passed yet and hands on the rest; a failed read
    leaves the cursor where it is. */
module Codec {
  import opened Wire

  type Cells = seq<Value>

  function ReadI32(c: Cells): Option<(int, Cells)> {
    if c != [] && c[0].I32? then Some((c[0].n, c[1..])) else None
  }

  /** Reading an unsigned field reinterprets the 32 bits of the cell. */
  function ReadU32(c: Cells): Option<(uint32, Cells)> {
    if c != [] && c[0].I32? then Some((c[0].n % TWO32, c[1..])) else None
  }

  function ReadI64(c: Cells): Option<(int, Cells)> {
    if c != [] && c[0].I64? then Some((c[0].n, c[1..])) else None
  }

  function ReadStr(c: Cells): Option<(string, Cells)> {
    if c != [] && c[0].Str? then Some((c[0].s, c[1..])) else None
  }

  function ReadObj(c: Cells): Option<(Caps, Cells)> {
    if c != [] && c[0].Obj? then Some((c[0].o, c[1..])) else None
  }

  // ---- requests: client to broker ----

  function EncodeRequest(r: Request): Cells {
    match r
    case Auth(version, extra, pid, flags) => [I32(0), I32(version), Str(extra), I32(pid), I32(flags)]
    case Subscribe(name) => [I32(1), Str(name)]
    case Unsubscribe(name) => [I32(2), Str(name)]
    case Post(msgtype, name, args) => [I32(3), I32(msgtype), Str(name), Obj(args)]
    case Reply(id, code, values) => [I32(4), I32(id), I32(code), Obj(values)]
    case DeclareMethod(name) => [I32(5), Str(name)]
    case RemoveMethod(name) => [I32(6), Str(name)]
    case Call(name, target, id, timeout, args) =>
      [I32(7), Str(name), Str(target), I32(id), I32(timeout), Obj(args)]
    case Ping => [I32(8)]
  }

  /** What the dispatcher makes of a packet: no usable command number, a command
      whose fields do not parse, or a request. */
  datatype Parsed = NoCommand | BadFields(cmd: int) | Good(req: Request)

  function ParseAuth(c: Cells): Option<Request> {
    var (version, c) :- ReadU32(c);
    var (extra, c) :- ReadStr(c);
    var (pid, c) := match ReadI32(c) case Some(x) => x case None => (0, c);
    var (flags, c) := match ReadU32(c) case Some(x) => x case None => (0, c);
    Some(Auth(version, extra, pid, flags))
  }

  function ParsePost(c: Cells): Option<Request> {
    var (msgtype, c) :- ReadU32(c);
    var (name, c) :- ReadStr(c);
    var (args, c) :- ReadObj(c);
    Some(Post(msgtype, name, args))
  }

  function ParseReply(c: Cells): Option<Request> {
    var (id, c) :- ReadI32(c);
    var (code, c) :- ReadI32(c);
    var (values, c) :- ReadObj(c);
    Some(Reply(id, code, values))
  }

  function ParseCall(c: Cells): Option<Request> {
    var (name, c) :- ReadStr(c);
    var (target, c) :- ReadStr(c);
    var (id, c) :- ReadI32(c);
    var (timeout, c) :- ReadU32(c);
    var (args, c) :- ReadObj(c);
    Some(Call(name, target, id, timeout, args))
  }

  function ParseName(cmd: int, c: Cells): Option<Request>
    requires cmd in {1, 2, 5, 6}
  {
    var (name, c) :- ReadStr(c);
    Some(if cmd == 1 then Subscribe(name) else if cmd == 2 then Unsubscribe(name)
         else if cmd == 5 then DeclareMethod(name) else RemoveMethod(name))
  }

  function ParseFields(cmd: int, c: Cells): Option<Request>
    requires 0 <= cmd < 9
  {
    match cmd
    case 0 => ParseAuth(c)
    case 3 => ParsePost(c)
    case 4 => ParseReply(c)
    case 7 => ParseCall(c)
    case 8 => Some(Ping)
    case _ => ParseName(cmd, c)
  }

  function ParseRequest(c: Cells): Parsed {
    match ReadI32(c)
    case None => NoCommand
    case Some((cmd, rest)) =>
      if !(0 <= cmd < 9) then NoCommand else
      match ParseFields(cmd, rest)
      case None => BadFields(cmd)
      case Some(r) => Good(r)
  }

  /** Cells after the first, seen from the cursor behind it. */
  lemma Tail(v: Value, rest: Cells, extra: Cells)
    ensures ([v] + rest + extra)[0] == v && ([v] + rest + extra)[1..] == rest + extra
  {}

  lemma CallRoundTrip(name: string, target: string, id: int, timeout: uint32, args: Caps, extra: Cells)
    ensures ParseCall([Str(name), Str(target), I32(id), I32(timeout), Obj(args)] + extra)
            == Some(Call(name, target, id, timeout, args))
  {
    Tail(Str(name), [Str(target), I32(id), I32(timeout), Obj(args)], extra);
    Tail(Str(target), [I32(id), I32(timeout), Obj(args)], extra);
    Tail(I32(id), [I32(timeout), Obj(args)], extra);
    Tail(I32(timeout), [Obj(args)], extra);
    assert [Str(name), Str(target), I32(id), I32(timeout), Obj(args)]
        == [Str(name)] + [Str(target), I32(id), I32(timeout), Obj(args)];
    assert [Str(target), I32(id), I32(timeout), Obj(args)] == [Str(target)] + [I32(id), I32(timeout), Obj(args)];
    assert [I32(id), I32(timeout), Obj(args)] == [I32(id)] + [I32(timeout), Obj(args)];
    assert [I32(timeout), Obj(args)] == [I32(timeout)] + [Obj(args)];
  }

  /** Every request survives the trip, and cells after its last field are ignored. */
  lemma RequestRoundTrip(r: Request, extra: Cells)
    ensures ParseRequest(EncodeRequest(r) + extra) == Good(r)
  {
    var c := EncodeRequest(r) + extra;
    assert c[1..] == EncodeRequest(r)[1..] + extra;
    match r
    case Call(name, target, id, timeout, args) =>
      CallRoundTrip(name, target, id, timeout, args, extra);
      assert EncodeRequest(r)[1..] == [Str(name), Str(target), I32(id), I32(timeout), Obj(args)];
    case _ =>
  }

  /** An auth message of an older client that stops after the name, or after the
      pid, is read with the missing fields zero. */
  lemma OldAuth(version: uint32, extra: string, pid: int)
    ensures ParseRequest([I32(0), I32(version), Str(extra)]) == Good(Auth(version, extra, 0, 0))
    ensures ParseRequest([I32(0), I32(version), Str(extra), I32(pid)]) == Good(Auth(version, extra, pid, 0))
  {}

  /** The wire format of requests: command numbers and the order of the fields, for the
      serializers. */
  lemma RequestFormat(n: string, m: string, i: int, j: int, u: uint32, v: uint32, o: Caps)
    ensures EncodeRequest(Auth(u, n, i, v)) == [I32(0), I32(u), Str(n), I32(i), I32(v)]
    ensures EncodeRequest(Subscribe(n)) == [I32(1), Str(n)]
    ensures EncodeRequest(Unsubscribe(n)) == [I32(2), Str(n)]
    ensures EncodeRequest(Post(u, n, o)) == [I32(3), I32(u), Str(n), Obj(o)]
    ensures EncodeRequest(Reply(i, j, o)) == [I32(4), I32(i), I32(j), Obj(o)]
    ensures EncodeRequest(DeclareMethod(n)) == [I32(5), Str(n)]
    ensures EncodeRequest(RemoveMethod(n)) == [I32(6), Str(n)]
    ensures EncodeRequest(Call(n, m, i, u, o)) == [I32(7), Str(n), Str(m), I32(i), I32(u), Obj(o)]
    ensures EncodeRequest(Ping) == [I32(8)]
  {}

  /** The same for the parsers, with anything behind the fields. */
  lemma RequestParsed(n: string, m: string, i: int, j: int, u: uint32, v: uint32, o: Caps, x: Cells)
    ensures ParseRequest([I32(0), I32(u), Str(n), I32(i), I32(v)] + x) == Good(Auth(u, n, i, v))
    ensures ParseRequest([I32(1), Str(n)] + x) == Good(Subscribe(n))
    ensures ParseRequest([I32(2), Str(n)] + x) == Good(Unsubscribe(n))
    ensures ParseRequest([I32(3), I32(u), Str(n), Obj(o)] + x) == Good(Post(u, n, o))
    ensures ParseRequest([I32(4), I32(i), I32(j), Obj(o)] + x) == Good(Reply(i, j, o))
    ensures ParseRequest([I32(5), Str(n)] + x) == Good(DeclareMethod(n))
    ensures ParseRequest([I32(6), Str(n)] + x) == Good(RemoveMethod(n))
    ensures ParseRequest([I32(7), Str(n), Str(m), I32(i), I32(u), Obj(o)] + x) == Good(Call(n, m, i, u, o))
    ensures ParseRequest([I32(8)] + x) == Good(Ping)
  {
    RequestFormat(n, m, i, j, u, v, o);
    RequestRoundTrip(Auth(u, n, i, v), x);
    RequestRoundTrip(Subscribe(n), x);
    RequestRoundTrip(Unsubscribe(n), x);
    RequestRoundTrip(Post(u, n, o), x);
    RequestRoundTrip(Reply(i, j, o), x);
    RequestRoundTrip(DeclareMethod(n), x);
    RequestRoundTrip(RemoveMethod(n), x);
    RequestRoundTrip(Call(n, m, i, u, o), x);
    RequestRoundTrip(Ping, x);
  }

  /** What is not such a message: no command, a command out of range, a name or an object
      that is not there. */
  lemma RequestRejected(cmd: int, x: Cells)
    ensures ParseRequest([]) == NoCommand
    ensures x != [] && !x[0].I32? ==> ParseRequest(x) == NoCommand
    ensures cmd < 0 || cmd >= 9 ==> ParseRequest([I32(cmd)] + x) == NoCommand
    ensures cmd in {1, 2, 5, 6} && (x == [] || !x[0].Str?) ==> ParseRequest([I32(cmd)] + x) == BadFields(cmd)
    ensures 0 <= cmd < 8 ==> ParseRequest([I32(cmd)]) == BadFields(cmd)
  {
    assert ([I32(cmd)] + x)[1..] == x;
  }

  // ---- frames: broker to client ----

  function EncodeItem(i: Item): Cells { [I32(i.id), I32(i.pid), Str(i.name), I32(i.flags)] }

  function EncodeItems(items: seq<Item>): Cells {
    if items == [] then [] else [Obj(Caps(EncodeItem(items[0])))] + EncodeItems(items[1..])
  }

  function EncodeFrame(f: Frame): Cells
    requires WellFormed(f)
  {
    match f
    case AuthResp(result, version) => [I32(101), I32(result), I32(version)]
    case PostResp(msgtype, name, args, tag, cliname) =>
      [I32(102), I32(msgtype), Str(name), Obj(args), I64(tag), Str(cliname)]
    case ReplyResp(id, rescode, resp, tag) =>
      [I32(103), I32(id), I32(rescode)]
      + (if rescode == SUCCESS then [I32(resp.value.retCode), Obj(resp.value.data), Str(resp.value.extra)] else [])
      + [I64(tag)]
    case CallResp(id, name, args, tag, cliname) =>
      [I32(104), I32(id), Str(name), Obj(args), I64(tag), Str(cliname)]
    case MonitorAll(items) => [I32(105), I32(0), I32(|items|)] + EncodeItems(items)
    case MonitorAdd(item) => [I32(105), I32(1), Obj(Caps(EncodeItem(item)))]
    case MonitorRemove(id) => [I32(105), I32(2), I32(id)]
    case Pong => [I32(106)]
  }

  function ParseItem(c: Cells): Option<Item> {
    var (id, c) :- ReadU32(c);
    var (pid, c) :- ReadI32(c);
    var (name, c) :- ReadStr(c);
    var (flags, c) :- ReadU32(c);
    Some(Item(id, pid, name, flags))
  }

  /** The entries of a list_all message, up to the first cell that is not an object;
      None when some entry is malformed. */
  function ParseItems(c: Cells): Option<seq<Item>> {
    match ReadObj(c)
    case None => Some([])
    case Some((sub, rest)) =>
      if sub.Null? then None else
      var item :- ParseItem(sub.items);
      var more :- ParseItems(rest);
      Some([item] + more)
  }

  function ParseMonitorAll(c: Cells): Option<Frame> {
    var (size, c) :- ReadU32(c);
    if size == 0 then Some(MonitorAll([])) else
    var items :- ParseItems(c);
    if |items| == size then Some(MonitorAll(items)) else None
  }

  function ParseReplyResp(c: Cells): Option<Frame> {
    var (id, c) :- ReadI32(c);
    var (rescode, c) :- ReadI32(c);
    if rescode == SUCCESS then
      var (retCode, c) :- ReadI32(c);
      var (data, c) :- ReadObj(c);
      var (extra, c) :- ReadStr(c);
      var (tag, c) :- ReadI64(c);
      Some(ReplyResp(id, rescode, Some(Response(retCode, data, extra)), tag))
    else
      var (tag, c) :- ReadI64(c);
      Some(ReplyResp(id, rescode, None, tag))
  }

  function ParsePostResp(c: Cells): Option<Frame> {
    var (msgtype, c) :- ReadU32(c);
    var (name, c) :- ReadStr(c);
    var (args, c) :- ReadObj(c);
    var (tag, c) :- ReadI64(c);
    var (cliname, c) :- ReadStr(c);
    Some(PostResp(msgtype, name, args, tag, cliname))
  }

  function ParseCallResp(c: Cells): Option<Frame> {
    var (id, c) :- ReadI32(c);
    var (name, c) :- ReadStr(c);
    var (args, c) :- ReadObj(c);
    var (tag, c) :- ReadI64(c);
    var (cliname, c) :- ReadStr(c);
    Some(CallResp(id, name, args, tag, cliname))
  }

  function ParseMonitor(c: Cells): Option<Frame> {
    var (subtype, c) :- ReadU32(c);
    match subtype
    case 0 => ParseMonitorAll(c)
    case 1 =>
      var (sub, c) :- ReadObj(c);
      if sub.Null? then None else
      var item :- ParseItem(sub.items);
      Some(MonitorAdd(item))
    case 2 => var (id, c) :- ReadU32(c); Some(MonitorRemove(id))
    case _ => None
  }

  function ParseFrame(c: Cells): Option<Frame> {
    var (cmd, c) :- ReadI32(c);
    match cmd
    case 101 =>
      var (result, c) :- ReadI32(c);
      var (version, c) :- ReadU32(c);
      Some(AuthResp(result, version))
    case 102 => ParsePostResp(c)
    case 103 => ParseReplyResp(c)
    case 104 => ParseCallResp(c)
    case 105 => ParseMonitor(c)
    case 106 => Some(Pong)
    case _ => None
  }

  /** Registry ids and the entry count travel as unsigned 32-bit numbers. */
  predicate InRange(f: Frame) {
    && (f.MonitorAll? ==> |f.items| < TWO32 && forall i | 0 <= i < |f.items| :: 0 <= f.items[i].id < TWO32)
    && (f.MonitorAdd? ==> 0 <= f.item.id < TWO32)
    && (f.MonitorRemove? ==> 0 <= f.id < TWO32)
  }

  lemma ItemRoundTrip(i: Item)
    requires 0 <= i.id < TWO32
    ensures ParseItem(EncodeItem(i)) == Some(i)
  {}

  lemma {:induction false} ItemsRoundTrip(items: seq<Item>)
    requires forall i | 0 <= i < |items| :: 0 <= items[i].id < TWO32
    ensures ParseItems(EncodeItems(items)) == Some(items)
  {
    if items != [] {
      ItemsRoundTrip(items[1..]);
      var c := EncodeItems(items);
      var first := Caps(EncodeItem(items[0]));
      assert c == [Obj(first)] + EncodeItems(items[1..]);
      assert ReadObj(c) == Some((first, EncodeItems(items[1..]))) by { assert c[1..] == EncodeItems(items[1..]); }
      ItemRoundTrip(items[0]);
      assert items == [items[0]] + items[1..];
    }
  }

  lemma ReplyRespRoundTrip(f: Frame)
    requires f.ReplyResp? && WellFormed(f)
    ensures ParseReplyResp(EncodeFrame(f)[1..]) == Some(f)
  {
    var ReplyResp(id, rescode, resp, tag) := f;
    if rescode == SUCCESS {
      var r := resp.value;
      assert EncodeFrame(f)[1..] == [I32(id), I32(rescode), I32(r.retCode), Obj(r.data), Str(r.extra), I64(tag)];
    } else {
      assert EncodeFrame(f)[1..] == [I32(id), I32(rescode), I64(tag)];
    }
  }

  lemma {:induction false} MonitorAllRoundTrip(items: seq<Item>)
    requires InRange(MonitorAll(items))
    ensures ParseMonitorAll([I32(|items|)] + EncodeItems(items)) == Some(MonitorAll(items))
  {
    ItemsRoundTrip(items);
    var c := [I32(|items|)] + EncodeItems(items);
    assert c[1..] == EncodeItems(items);
    assert ReadU32(c) == Some((|items|, c[1..]));
  }

  lemma {:induction false} MonitorRoundTrip(f: Frame)
    requires f.MonitorAll? || f.MonitorAdd? || f.MonitorRemove?
    requires InRange(f)
    ensures ParseMonitor(EncodeFrame(f)[1..]) == Some(f)
  {
    var c := EncodeFrame(f)[1..];
    match f
    case MonitorAll(items) =>
      MonitorAllRoundTrip(items);
      assert c[1..] == [I32(|items|)] + EncodeItems(items);
    case MonitorAdd(item) => ItemRoundTrip(item);
    case MonitorRemove(id) =>
  }

  /** Every frame the broker writes is read back as itself: the conditional reply
      fields and any number of registry entries included. */
  lemma FrameRoundTrip(f: Frame)
    requires WellFormed(f) && InRange(f)
    ensures ParseFrame(EncodeFrame(f)) == Some(f)
  {
    if f.ReplyResp? {
      ReplyRespRoundTrip(f);
    } else if f.MonitorAll? || f.MonitorAdd? || f.MonitorRemove? {
      MonitorRoundTrip(f);
    }
  }

  function ItemCell(i: Item): Value { Obj(Caps([I32(i.id), I32(i.pid), Str(i.name), I32(i.flags)])) }

  lemma {:induction false} ItemsFormat(items: seq<Item>)
    ensures EncodeItems(items) == seq(|items|, i requires 0 <= i < |items| => ItemCell(items[i]))
  {
    if items != [] { ItemsFormat(items[1..]); }
  }

  /** The wire format of responses, for the serializers. */
  lemma FrameFormat(n: string, m: string, i: int, j: int, k: int, tag: int, u: uint32, o: Caps, item: Item, items: seq<Item>)
    requires i != SUCCESS
    ensures EncodeFrame(AuthResp(j, u)) == [I32(101), I32(j), I32(u)]
    ensures EncodeFrame(PostResp(u, n, o, tag, m)) == [I32(102), I32(u), Str(n), Obj(o), I64(tag), Str(m)]
    ensures EncodeFrame(ReplyResp(k, SUCCESS, Some(Response(j, o, m)), tag))
            == [I32(103), I32(k), I32(0), I32(j), Obj(o), Str(m), I64(tag)]
    ensures EncodeFrame(ReplyResp(k, i, None, tag)) == [I32(103), I32(k), I32(i), I64(tag)]
    ensures EncodeFrame(CallResp(k, n, o, tag, m)) == [I32(104), I32(k), Str(n), Obj(o), I64(tag), Str(m)]
    ensures EncodeFrame(MonitorAll(items))
            == [I32(105), I32(0), I32(|items|)] + seq(|items|, i requires 0 <= i < |items| => ItemCell(items[i]))
    ensures EncodeFrame(MonitorAdd(item)) == [I32(105), I32(1), ItemCell(item)]
    ensures EncodeFrame(MonitorRemove(k)) == [I32(105), I32(2), I32(k)]
    ensures EncodeFrame(Pong) == [I32(106)]
  {
    ItemsFormat(items);
  }

  /** The same for the parsers. */
  lemma FrameParsed(n: string, m: string, i: int, j: int, k: int, tag: int, u: uint32, o: Caps, item: Item, items: seq<Item>)
    requires i != SUCCESS && InRange(MonitorAll(items)) && InRange(MonitorAdd(item))
    ensures ParseFrame([I32(101), I32(j), I32(u)]) == Some(AuthResp(j, u))
    ensures ParseFrame([I32(102), I32(u), Str(n), Obj(o), I64(tag), Str(m)]) == Some(PostResp(u, n, o, tag, m))
    ensures ParseFrame([I32(103), I32(k), I32(0), I32(j), Obj(o), Str(m), I64(tag)])
            == Some(ReplyResp(k, 0, Some(Response(j, o, m)), tag))
    ensures ParseFrame([I32(103), I32(k), I32(i), I64(tag)]) == Some(ReplyResp(k, i, None, tag))
    ensures ParseFrame([I32(104), I32(k), Str(n), Obj(o), I64(tag), Str(m)]) == Some(CallResp(k, n, o, tag, m))
    ensures ParseFrame([I32(105), I32(0), I32(|items|)] + seq(|items|, i requires 0 <= i < |items| => ItemCell(items[i])))
            == Some(MonitorAll(items))
    ensures ParseFrame([I32(105), I32(1), ItemCell(item)]) == Some(MonitorAdd(item))
    ensures ParseFrame([I32(105), I32(2), I32(u)]) == Some(MonitorRemove(u))
    ensures ParseFrame([I32(106)]) == Some(Pong)
  {
    FrameFormat(n, m, i, j, k, tag, u, o, item, items);
    FrameFormat(n, m, i, j, u, tag, u, o, item, items);
    FrameRoundTrip(AuthResp(j, u));
    FrameRoundTrip(PostResp(u, n, o, tag, m));
    FrameRoundTrip(ReplyResp(k, SUCCESS, Some(Response(j, o, m)), tag));
    FrameRoundTrip(ReplyResp(k, i, None, tag));
    FrameRoundTrip(CallResp(k, n, o, tag, m));
    FrameRoundTrip(MonitorAll(items));
    FrameRoundTrip(MonitorAdd(item));
    FrameRoundTrip(MonitorRemove(u));
    FrameRoundTrip(Pong);
  }

  /** The numbers behind the names. */
  lemma Numbers()
    ensures FLORA_VERSION == 4 && SUCCESS == 0 && EAUTH == -1 && ETIMEOUT == -4 && ENEXISTS == -5 && EDUPID == -6 && ECLOSED == -8
    ensures PERSIST == 1 && NUMBER_OF_MSGTYPE == 2 && DEFAULT_CALL_TIMEOUT == 200 && NORESP == -2000000000
    ensures forall flags: uint32 :: IsMonitor(flags) <==> flags % 2 == 1
  {}

  // ---- the loops of the monitor list ----

  lemma {:induction false} EncodeItemsAppend(items: seq<Item>, last: Item)
    ensures EncodeItems(items + [last]) == EncodeItems(items) + [Obj(Caps(EncodeItem(last)))]
  {
    if items != [] {
      EncodeItemsAppend(items[1..], last);
      assert (items + [last])[1..] == items[1..] + [last];
    }
  }

  method SerializeMonitorAll(infos: seq<Item>) returns (p: Cells)
    ensures p == EncodeFrame(MonitorAll(infos))
  {
    p := [I32(105), I32(0), I32(|infos|)];
    ghost var head := p;
    var i := 0;
    while i < |infos|
      invariant 0 <= i <= |infos|
      invariant p == head + EncodeItems(infos[..i])
    {
      EncodeItemsAppend(infos[..i], infos[i]);
      assert infos[..i + 1] == infos[..i] + [infos[i]];
      p := p + [Obj(Caps(EncodeItem(infos[i])))];
      i := i + 1;
    }
    assert infos[..i] == infos;
  }

  /** The cursor loop of parse_monitor_list_all: it stops at the first cell that is
      not an object and only then compares the count. */
  method ParseMonitorAllLoop(caps: Cells) returns (infos: Option<seq<Item>>)
    ensures infos == match ParseMonitorAll(caps) case Some(f) => Some(f.items) case None => None
  {
    var header := ReadU32(caps);
    if header.None? { return None; }
    var (size, c) := header.value;
    if size == 0 { return Some([]); }
    var got: seq<Item> := [];
    ghost var all := ParseItems(c);
    assert all.Some? ==> got + all.value == all.value;
    while true
      invariant match ParseItems(c) case Some(more) => all == Some(got + more) case None => all == None
      decreases |c|
    {
      var sub := ReadObj(c);
      if sub.None? { break; }
      if sub.value.0.Null? { return None; }
      var item := ParseItem(sub.value.0.items);
      if item.None? { return None; }
      ghost var rest := ParseItems(sub.value.1);
      assert rest.Some? ==> got + ([item.value] + rest.value) == (got + [item.value]) + rest.value;
      got, c := got + [item.value], sub.value.1;
    }
    assert got + [] == got;
    infos := if |got| == size then Some(got) else None;
  }
}
