/** What travels between a flora client and the broker: typed Caps values, the
    requests a client sends and the frames the broker writes back. */
module Wire {
  const FLORA_VERSION := 4
  const SUCCESS := 0
  const EAUTH := -1
  const ETIMEOUT := -4
  const ENEXISTS := -5
  const EDUPID := -6
  const ECLOSED := -8
  const NORESP := -2000000000
  const PERSIST := 1
  const NUMBER_OF_MSGTYPE := 2
  const DEFAULT_CALL_TIMEOUT := 200
  const TWO32 := 0x1_0000_0000

  type uint32 = x: int | 0 <= x < TWO32

  /** An adapter: the address of a connection object in the broker. */
  type Id = nat

  datatype Option<+T> = None | Some(value: T) {
    predicate IsFailure() { None? }
    function PropagateFailure<U>(): Option<U> requires None? { None }
    function Extract(): T requires Some? { value }
  }

  /** A Caps object is a sequence of typed cells; a nested object may be null. */
  datatype Caps = Null | Caps(items: seq<Value>)
  datatype Value = I32(n: int) | I64(n: int) | Str(s: string) | Obj(o: Caps)

  datatype Request =
    | Auth(version: uint32, extra: string, pid: int, flags: uint32)
    | Subscribe(name: string)
    | Unsubscribe(name: string)
    | Post(msgtype: uint32, name: string, args: Caps)
    | Reply(svrid: int, code: int, values: Caps)
    | DeclareMethod(name: string)
    | RemoveMethod(name: string)
    | Call(name: string, target: string, cliid: int, timeout: uint32, args: Caps)
    | Ping

  datatype Response = Response(retCode: int, data: Caps, extra: string)

  /** One line of the client registry, as monitors see it. */
  datatype Item = Item(id: int, pid: int, name: string, flags: uint32)

  datatype Frame =
    | AuthResp(result: int, version: uint32)
    | PostResp(msgtype: uint32, name: string, args: Caps, tag: int, cliname: string)
    | CallResp(svrid: int, name: string, args: Caps, tag: int, cliname: string)
    | ReplyResp(cliid: int, rescode: int, resp: Option<Response>, tag: int)
    | MonitorAll(items: seq<Item>)
    | MonitorAdd(item: Item)
    | MonitorRemove(id: int)
    | Pong

  /** A message carries a response exactly when its code is SUCCESS. */
  predicate WellFormed(f: Frame) {
    f.ReplyResp? ==> (f.rescode == SUCCESS <==> f.resp.Some?)
  }

  predicate IsMonitor(flags: uint32) { flags % 2 == 1 }
}
