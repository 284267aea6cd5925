# flora: a verified model of the broker and its clients

flora is a publish/subscribe and RPC broker. Clients connect over stream sockets; a
poll cuts what it reads into frames and queues them; one dispatcher thread handles the
packets and writes frames back; clients keep tables of outstanding calls. This project
models that system in Dafny and proves what holds in every run of it.

`dafny verify dfyconfig.toml` checks everything.

## How it is built

| file | what it holds |
|---|---|
| `Wire.dfy`, `Codec.dfy` | messages, Caps cells, serializers and parsers |
| `Peers.dfy`, `Topics.dfy`, `Registry.dfy`, `Calls.dfy` | the dispatcher's tables as values |
| `Broker.dfy` | the broker as a state machine: connections, queue, handlers, timer |
| `Dispatcher.dfy` | the dispatcher as a class that updates its tables in place, proved to compute the machine |
| `Causality.dfy`, `Order.dfy` | arrival order, and the cause of every written frame |
| `Links.dfy` | every frame written in a run is read back as itself |
| `Quiet.dfy` | which packets can write which frames |
| `Conservation.dfy`, `Deadlines.dfy` | the life of a call in the broker |
| `Agreement.dfy`, `Gate.dfy`, `Replica.dfy` | registry, authentication, monitors |
| `Subscriptions.dfy`, `Persistence.dfy`, `LazyPurge.dfy` | subscriptions, stored values, purging |
| `Framing.dfy`, `Keepalive.dfy` | the two framers, the keepalive list |
| `CallTable.dfy`, `ReplyObject.dfy` | the client's call table under concurrency, reply objects |
| `EndToEnd.dfy` | clients, links and broker together |
| `Effects.dfy` | what each packet does, from the fields of the request |
| `Standing.dfy` | subscriptions, methods and forwarded calls over runs, from the handled packets |
| `Completion.dfy` | a call from its caller to the callee and back |

A run is a sequence of events; an event that is not possible in a state does nothing, so
the theorems need no well-formedness of runs. Connections are identified by numbers that
are never reused. Every adapter has a log of the frames its socket took, each stamped
with the number of packets handled before it. A failed write closes the adapter for
good, so one number per adapter (`room`, how many more writes its socket takes) decides
the fate of all its writes, and "still open" implies that every write so far got
through. Everything below is proved for all values of those numbers.

## Premises

- Whether a frame fits the buffer is an arbitrary function of frame and byte order
  (`Config.fits`). Where fitting matters, the theorem names the frames of the run that
  must fit, and shows that it fails exactly when one of them does not.
- Timeout replies are written without a length check, as in the source
  (src/disp.cc:137-140); they are far below the smallest buffer.
- No reply to number 0 reaches a client, where `CallTable.BlockingReturns` says so; `EndToEnd.ReplyNumbers` shows that the broker sends none.
- Counters do not wrap: request numbers, server ids and registry ids are unbounded.
- One clock reading per handled packet, in milliseconds.
- A 32-bit Caps cell may be written signed and read unsigned: the monitor messages are
  written with signed literals and read as unsigned (src/ser-helper.cc:237-238,
  src/cli.cc:313-314).
- `Caps::binary_info` announces lengths of at least eight bytes (`Framing.Sane`).
- A connection that was registered does not authenticate again (`Gate.AuthOnce`), where a
  theorem says so. `Replica.SecondAuthDoubles` shows what happens otherwise.

## Properties that the code does not have

- **A blocking call can return SUCCESS without a response.** `iclose` clears the ready
  flag before it stores the reason (src/cli.cc:361-365). A blocking caller that looks in
  between returns `close_reason`, which is still 0, that is SUCCESS (src/cli.cc:570-573).
  `CallTable.EmptySuccessHappens` gives the run; `CallTable.EmptySuccess` shows that this
  is the only way.
- **The name index can lose a client.** Erasing a monitor also erases its name from the
  index (src/disp.cc:231-235), whoever holds it there; and a second auth under another
  free name adds that name without changing the registered one (src/disp.cc:596-611).
  `Agreement.MonitorTakesNameAway` and `Agreement.SecondNameIsBound` give the runs;
  `Agreement.RunAgrees` shows that index and registry agree throughout a run if and only
  if it contains neither.
- **A frame that does not fit is dropped silently.** A subscriber then keeps an old
  persistent value (src/disp.cc:438-441) and a monitor an old list, also when the frame
  that does not fit is the answer to somebody else's auth (src/disp.cc:210-213).
  `Persistence.RunConverges` and `Replica.RunMirrors` are equivalences for this reason.

## Model

| member | source | states |
|---|---|---|
| `Codec.RequestRoundTrip` | src/ser-helper.cc:9-142 | every request, serialized and followed by any further cells, is parsed back as itself |
| `Codec.CallRoundTrip` | src/ser-helper.cc:98-116 | the same for the fields of a call request, with anything behind them |
| `Codec.OldAuth` | src/ser-helper.cc:355-367 | an auth message without flags, or without pid and flags, is read with those fields 0 |
| `Codec.RequestFormat` | src/ser-helper.cc:9-142 | the wire format of all nine requests: the literal cells that each serializer produces |
| `Codec.RequestParsed` | src/ser-helper.cc:355-431 | those literal cells, with anything behind them, are parsed as that request |
| `Codec.RequestRejected` | src/disp.cc:120-132 | no command, a command out of range and missing fields are told apart |
| `Codec.ItemsRoundTrip` | src/ser-helper.cc:504-519 | any number of registry entries is read back as the same list |
| `Codec.ReplyRespRoundTrip` | src/ser-helper.cc:474-492 | reply messages with and without the conditional response fields are read back as themselves |
| `Codec.MonitorAllRoundTrip` | src/ser-helper.cc:494-520 | a list_all message with its count is read back as the same entries |
| `Codec.MonitorRoundTrip` | src/ser-helper.cc:229-286 | the three monitor list messages are read back as themselves |
| `Codec.FrameRoundTrip` | src/ser-helper.cc:144-286 | every well-formed frame, list messages with 32-bit ids and counts, is read back as itself by the client's parsers |
| `Codec.FrameFormat` | src/ser-helper.cc:144-286 | the wire format of all six responses and the three list messages: the literal cells that each serializer produces |
| `Codec.FrameParsed` | src/ser-helper.cc:433-544 | those literal cells are parsed as that response |
| `Codec.Numbers` | include/flora-cli.h:5-40 | result codes, message types, version, default timeout and the monitor flag have the values of the headers |
| `Links.WrittenIsRead` | src/ser-helper.cc:144-286 | in every run every frame in every log is well-formed and read back as itself; list messages as long as the registry's counter is below 2^32 |
| `Codec.SerializeMonitorAll` | src/ser-helper.cc:229-244 | the serializing loop produces the encoding that the round trip is about |
| `Codec.ParseMonitorAllLoop` | src/ser-helper.cc:494-520 | the cursor loop accepts exactly when all entries parse and their number is the announced one, and then returns them in order |
| `Topics.AddTidy` | src/disp.cc:292-299 | subscribing keeps lists free of duplicates and never stored empty |
| `Topics.PruneTidy` | src/disp.cc:330-342 | dropping entries of one list keeps lists free of duplicates and never stored empty |
| `Topics.SweepTidy` | src/disp.cc:264-280 | so does the sweep over all lists |
| `Topics.AddExact` | src/disp.cc:292-299 | a subscription adds the subscriber to its list and nobody to any other |
| `Topics.PruneExact` | src/disp.cc:330-342 | pruning one list drops exactly those not to be kept, from that list |
| `Topics.SweepExact` | src/disp.cc:264-280 | a sweep leaves of every list what is live, in order |
| `Calls.InsertSorted` | src/disp.cc:466-478 | inserting a call keeps the list sorted by deadline and adds just that call |
| `Calls.CutIsFilter` | src/disp.cc:147-156 | on a sorted list, popping the overdue front is dropping every overdue call and no other |
| `Dispatching.Purge` | src/disp.cc:332-339 | the erasing iterator loop yields the kept entries in order |
| `Dispatching.Dispatcher.WriteTo` | src/sock-adap.cc:107-120 | a closed adapter takes nothing; a failed write closes it for good; otherwise the frame is the last in its log |
| `Dispatching.Dispatcher.CloseAdapter` | src/sock-adap.cc:84-100 | closing is final and affects one adapter |
| `Dispatching.Dispatcher.ToMonitors` | src/disp.cc:664-678 | every monitor, and nobody else, is written the message in its own byte order if it fits |
| `Dispatching.Dispatcher.HandleSubscribe` | src/disp.cc:282-317 | the loop and the first delivery of a stored value compute the machine's subscribe |
| `Dispatching.Dispatcher.HandleUnsubscribe` | src/disp.cc:319-344 | computes the machine's unsubscribe: the sender and expired entries go, an empty list goes too |
| `Dispatching.Dispatcher.ClearSubGarbages` | src/disp.cc:264-280 | the nested loops leave exactly the entries that have not expired |
| `Dispatching.Dispatcher.CheckSubscriptions` | src/disp.cc:247-262 | sweeps after ten quiet seconds or at the fiftieth departure, counts otherwise |
| `Dispatching.Dispatcher.Partition` | src/disp.cc:400-416 | one pass drops closed and expired subscribers and splits the others by byte order, keeping their order |
| `Dispatching.Dispatcher.WriteAll` | src/disp.cc:435-457 | a group gets one write each if the message fits, nobody else any |
| `Dispatching.Dispatcher.GroupsAreAudience` | src/disp.cc:410-423 | writing to the two groups in turn amounts to one write to each open subscriber in its own byte order |
| `Dispatching.Dispatcher.AudienceServed` | src/disp.cc:417-425 | the same for all adapters at once: the two groups in turn are one broadcast to the open subscribers |
| `Dispatching.Dispatcher.FanOut` | src/disp.cc:397-426 | the partition and the two write loops compute the pointwise broadcast |
| `Dispatching.Dispatcher.PostMsg` | src/disp.cc:388-433 | computes the machine's post, including the stored value |
| `Dispatching.Dispatcher.HandleDeclare` | src/disp.cc:346-358 | adds the method and fails if it was there |
| `Dispatching.Dispatcher.HandleRemove` | src/disp.cc:360-373 | removes the method |
| `Dispatching.Dispatcher.AddPendingCall` | src/disp.cc:459-479 | the scan inserts before the first call that is not due earlier, and keeps the list sorted with distinct ids |
| `Dispatching.Dispatcher.HandleCall` | src/disp.cc:481-527 | computes the machine's call: ENEXISTS at once, or a new server id, a waiting call and a forwarded frame |
| `Dispatching.Dispatcher.ForwardCall` | src/disp.cc:512-526 | the part of it that forwards: new server id, waiting call, frame for the target |
| `Dispatching.Dispatcher.FindPendingCall` | src/disp.cc:541-546 | finds the first call with the id and target |
| `Dispatching.Dispatcher.HandleReply` | src/disp.cc:529-575 | computes the machine's reply: only the target's own reply, only to an open caller, frees the call |
| `Dispatching.Dispatcher.DiscardPendingCalls` | src/disp.cc:136-156 | computes the machine's discard and keeps the list in order |
| `Dispatching.Dispatcher.PopOverdue` | src/disp.cc:147-156 | the loop answers and removes exactly the overdue front of the list |
| `Dispatching.Dispatcher.AddAdapter` | src/disp.cc:594-612 | refuses a bound name without any change; else binds it, takes an id and keeps an existing entry |
| `Dispatching.Dispatcher.AddMonitor` | src/disp.cc:614-624 | takes an id and stores the monitor |
| `Dispatching.Dispatcher.Enroll` | src/disp.cc:189-209 | the result code and the registration of an auth request |
| `Dispatching.Dispatcher.HandleAuth` | src/disp.cc:179-226 | computes the machine's auth: answer first, then the list to a new monitor or the new client to all monitors |
| `Dispatching.Dispatcher.DoErase` | src/disp.cc:228-245 | computes the machine's departure |
| `Dispatching.Dispatcher.HandleRequest` | src/disp.cc:21-28 | dispatches each request kind to its handler behind the registration test |
| `Dispatching.Dispatcher.HandleContent` | src/disp.cc:120-133 | a packet without a usable command or with bad fields, or a failing handler, closes the sender |
| `Dispatching.Dispatcher.HandleCmd` | src/disp.cc:107-134 | one packet has exactly the machine's effect on the whole state |
| `Dispatching.Dispatcher.Put` | src/disp.cc:42-56 | a packet that parses joins the end of the queue, one that does not is refused |
| `Dispatching.Dispatcher.EraseAdapter` | src/disp.cc:169-177 | a departure joins the end of the queue if the adapter is registered |
| `Dispatching.Dispatcher.TakeBatch` | src/disp.cc:79-96 | takes the whole queue in order; if there is none, times calls out and sleeps until the earliest of all deadlines, which is still ahead |
| `Dispatching.Dispatcher.HandleBatch` | src/disp.cc:98-103 | a batch is handled packet by packet, in order |
| `Dispatching.Dispatcher.Turn` | src/disp.cc:78-104 | one turn of the loop, from the class's own invariant, is exactly a tick of the machine followed by one step for each packet of the batch |
| `Causality.SendExplained` | src/sock-adap.cc:107-120 | writing a justified frame keeps every log justified |
| `Causality.HandleExplained` | src/disp.cc:107-134 | every frame a packet writes is justified by that packet |
| `Causality.TimeOutExplained` | src/disp.cc:136-145 | every timeout reply goes to the caller of a call that was forwarded |
| `Causality.StepFifo` | src/disp.cc:78-104 | each event keeps handled packets, rest of batch and queue, in this order, equal to all packets that arrived |
| `Causality.RunExplained` | src/disp.cc:51-54 | in every run packets are handled in arrival order without loss or repetition; every post, call, reply, auth and pong frame ever written has its cause in a handled packet, and a value delivered at a subscription, or stored, stems from a persistent post handled before |
| `Order.RunOrdered` | src/disp.cc:397-425 | in every log stamps never decrease and no two posts or calls share one |
| `Order.ArrivalOrder` | src/disp.cc:388-433 | of two post frames in one log the packet behind the earlier one arrived earlier; it is the post with those contents, or the receiver's own subscription answered with the contents of a persistent post before it |
| `Order.TotalOrder` | src/disp.cc:397-425 | two subscribers that received the same two posts received them in the same order |
| `Order.StepForwards` | src/disp.cc:512-513 | every event keeps the forwarded calls in packet order, at most one for each packet |
| `Effects.CallReaches` | src/disp.cc:481-527 | a call by name to a connection that has the method writes to its log exactly the call with the next server id and the caller's tag and name, changes no other log, and lets a call wait that is due after the timeout or 200 ms; if the frame does not fit the caller is closed |
| `Effects.CallRefused` | src/disp.cc:494-510 | any other call writes ENEXISTS to the caller and changes nothing else |
| `Effects.ReplyReaches` | src/disp.cc:541-574 | the target's reply writes code, data and the target's name and tag to the open caller, under the caller's number, and ends the call |
| `Effects.ReplyIgnored` | src/disp.cc:547-551 | a reply to no waiting call of the sender has no effect |
| `Effects.PingAnswered` | src/disp.cc:577-592 | a ping writes a pong to its sender and changes nothing else |
| `Effects.DeclareAdds` | src/disp.cc:346-358 | a declaration adds the method to its sender and nobody else; one that the sender has already, or without a name, closes the sender and changes no table |
| `Effects.RemoveTakes` | src/disp.cc:360-373 | a removal takes the method from its sender and nobody else |
| `Effects.AuthAnswered` | src/disp.cc:188-216 | the answer in the log of the sender is EAUTH iff the version is below 3 or it asks to monitor a broker that does not allow it, EDUPID iff a client brings a bound name, else SUCCESS |
| `Effects.AuthCloses` | src/disp.cc:210-225 | an auth that fails, or whose answer does not fit, closes its sender and touches no other connection; one that fails leaves the registry alone |
| `Effects.AuthRegisters` | src/disp.cc:594-624 | an auth that succeeds registers its sender: as a client with a fresh id, its own data and no methods, its name bound; or as a monitor |
| `Effects.AuthTags` | src/disp.cc:195-196 | a sender without a tag gets its pid as an unsigned number; any other tag stays |
| `Effects.StrangerClosed` | src/disp.cc:114-132 | what a monitor sends, what an unregistered connection sends other than an auth, and what is no request closes the sender and does nothing else |
| `Effects.PostReaches` | src/disp.cc:388-457 | a valid post writes the message with the sender's tag and name to every open subscriber whose byte order it fits, touches nobody else, and is stored if persistent |
| `Effects.PostRefused` | src/disp.cc:388-396 | a post of another type or without a name closes its sender and does nothing else |
| `Effects.DepartureSweeps` | src/disp.cc:247-280 | the fiftieth departure, or one after ten quiet seconds, leaves of every list exactly the unexpired entries, in order; any other only counts |
| `Standing.RunListed` | src/disp.cc:282-344 | in every run an open connection is on the list of a topic iff its last handled word on it, as a registered client, was a subscription, whatever purges there were |
| `Standing.PostReachesWanting` | src/disp.cc:397-457 | so in every run a valid post that fits reaches exactly the open connections that want its topic |
| `Standing.RunMethods` | src/adap.h:24-34 | in every run a registered client has a method iff its last handled word on it since its registration was a declaration |
| `Standing.RunReached` | src/disp.cc:512-526 | in every run every forwarded call is in the log of its target, unless the target is closed, or the frame did not fit and the caller was closed for it |
| `Standing.NoMonitors` | src/disp.cc:197-204 | a broker that does not allow monitors has none in any run |
| `Standing.NoLists` | src/disp.cc:626-678 | and writes no list message to anybody |
| `Standing.RunSwept` | src/disp.cc:247-262 | in every run fewer than fifty departures have passed since the last sweep |
| `Quiet.HandleStill` | src/disp.cc:107-134 | a packet leaves all logs alone for every kind of frame it cannot cause, never reopens an adapter, and logs only grow |
| `Quiet.StepGrows` | src/sock-adap.cc:107-120 | logs and histories only grow |
| `Conservation.CallBalance` | src/disp.cc:481-527 | a handled call is answered, or waits, or its sender is closed |
| `Conservation.ReplyBalance` | src/disp.cc:541-574 | a reply that counts turns one waiting call into one written reply |
| `Conservation.TimeOutBalance` | src/disp.cc:136-156 | timing out calls turns each into one written reply |
| `Conservation.RunBalance` | src/disp.cc:481-574 | in every run, for every connection and client id: replies written plus calls waiting equal calls asked while the connection is open, and never exceed them after |
| `Conservation.AtMostOneReply` | src/disp.cc:481-574 | an id used once is answered at most once, counting ENEXISTS, SUCCESS and timeout |
| `Deadlines.RunWellKept` | src/disp.cc:459-479 | in every run the waiting list is sorted by deadline with distinct server ids that were handed out |
| `Deadlines.IdleTick` | src/disp.cc:87-94 | in every reachable state an idle tick drops exactly the due calls; what stays is due later, the front first |
| `Deadlines.OnlyWaysOut` | src/disp.cc:541-573 | a waiting call stays unless its deadline passed or its own target replied while the caller was open |
| `Deadlines.FinishedForGood` | src/disp.cc:512-516 | a forwarded call that left the list never waits again |
| `Agreement.HandleReg` | src/disp.cc:179-245 | only departures, registrations and method declarations touch the registry, and how |
| `Agreement.JoinAgrees` | src/disp.cc:594-612 | registering keeps index and registry in agreement iff the sender was not registered or brings no name |
| `Agreement.EraseAgrees` | src/disp.cc:228-243 | a departure keeps the agreement iff it is not that of a monitor whose name a client holds |
| `Agreement.HandleAgrees` | src/disp.cc:107-245 | a packet keeps the agreement if and only if it is polite |
| `Agreement.MonitorTakesNameAway` | src/disp.cc:231-235 | a run from the initial state: a client and a monitor of the same name join, the monitor leaves, and the client's name is gone from the index |
| `Agreement.SecondNameIsBound` | src/disp.cc:596-611 | a run from the initial state: a client passes a second auth under another name, which is bound to it while it stays registered under the first |
| `Agreement.RunAgrees` | src/disp.cc:594-612 | registry ids are always distinct, and the name index is the inverse of the non-empty names throughout a run if and only if the run is polite |
| `Agreement.HolderKeepsName` | src/disp.cc:596-600 | a bound name stays with its holder until the holder's departure |
| `Agreement.Rebinding` | src/disp.cc:596-600 | through any polite run a name changes hands only after its holder's departure was handled |
| `Subscriptions.HandleTopics` | src/disp.cc:247-344 | what each packet does to lists and stored values |
| `Subscriptions.Members` | src/disp.cc:292-299 | a packet adds nobody to a list but its own sender, by subscribing |
| `Subscriptions.RunTidy` | src/disp.cc:264-344 | in every run no list has duplicates or is stored empty |
| `Subscriptions.FanOut` | src/disp.cc:397-457 | a valid fitting post adds one frame, in the own byte order, to the log of each open subscriber whose socket takes it and to no other; the list keeps just the open ones |
| `Gate.RunGated` | src/disp.cc:285-536 | in every run a connection none of whose auth requests was handled with SUCCESS as a client is in no list, call, index or registry, and no stored value is its own |
| `Gate.MonitorsGated` | src/disp.cc:614-624 | in every run only connections that passed an auth as monitor are listed as monitors |
| `Gate.Apart` | src/disp.cc:179-226 | if connections authenticate once, none is ever both client and monitor |
| `Gate.MonitorsAside` | src/disp.cc:114-118 | then no monitor ever subscribes, calls, is called, holds a name or is listed |
| `Persistence.SubscribeConverges` | src/disp.cc:299-315 | after a subscription a connection is up to date if and only if the stored value due to it, if any, fit or was the last it had been sent |
| `Persistence.PostConverges` | src/disp.cc:397-431 | after a persistent post every subscriber is up to date if and only if the frame fit in its byte order or carried what it had been sent last |
| `Persistence.FitIsNeeded` | src/disp.cc:438-441 | a served subscriber is up to date after a persistent post iff the frame fit, or it had the value before |
| `Persistence.RunConverges` | src/disp.cc:292-431 | for every run, connection and topic: the last persistent frame in the log of the open subscriber carries the stored value throughout the run if and only if each frame due to it in this run fit, or carried what it had been sent last |
| `Persistence.FittingRunConverges` | src/disp.cc:292-431 | so in every run in which the frames due to a connection fit, it has the stored value of each topic it subscribes to |
| `Replica.MonitorView.constructor` | monitor/main.cc:120 | a view starts empty |
| `Replica.MonitorView.ListAll` | monitor/main.cc:43-54 | the loop appends all entries in order |
| `Replica.MonitorView.ListAdd` | monitor/main.cc:56-63 | appends one entry |
| `Replica.MonitorView.ListRemove` | monitor/main.cc:65-75 | the loop removes the first entry with the id, if any |
| `Replica.ItemsWithout` | src/ser-helper.cc:239-244 | the list in address order has each client's entry once more than the list without that client |
| `Replica.JoinMirrors` | src/disp.cc:205-223 | a client that joins appears in an open monitor's view if and only if the answer to the client and the message to the monitor fit |
| `Replica.WatchMirrors` | src/disp.cc:634-642 | a new monitor's view is the whole registry if and only if the list fits or is empty, unless its connection fails before |
| `Replica.EraseMirrors` | src/disp.cc:234-243 | a client that leaves disappears from an open monitor's view if and only if the message fits |
| `Replica.SecondAuthDoubles` | src/disp.cc:602-611 | a repeated auth makes a monitor that is told list the client twice |
| `Replica.RunUnlisted` | src/disp.cc:626-678 | in every run a connection that never passed an auth as monitor is sent no list message |
| `Replica.RunMirrors` | src/disp.cc:626-678 | for every run with single auths and every monitor: replaying its messages gives exactly id, pid, name and flags of every registered client, once, throughout the run while it is open, if and only if the messages due to it in this run fit |
| `LazyPurge.PurgingIsInvisible` | src/disp.cc:247-280 | in every run all logs, and everything but lists and sweep counters, equal those of a broker with plain lists that never drops anyone |
| `LazyPurge.HandleAlike` | src/disp.cc:397-426 | one packet keeps the two brokers alike: the same open subscribers in the same order |
| `Framing.SplitWhole` | src/sock-adap.cc:52-82 | frames and rest of a split make up the stream |
| `Framing.SplitResumes` | src/sock-adap.cc:33-82 | splitting what was left together with later bytes gives what splitting all at once gives |
| `Framing.SplitConcat` | src/sock-poll.cc:293-307 | the stream of any sequence of frames is cut into those frames |
| `Framing.PrefixFrames` | src/sock-adap.cc:60-66 | any part of such a stream gives the frames it completes, and no frame that fits is taken for too long |
| `Framing.CopyInto` | src/sock-adap.cc:36 | bytes read appear behind those in the buffer |
| `Framing.MoveToFront` | src/sock-adap.cc:76-78 | the overlapping move keeps the moved bytes |
| `Framing.SocketAdapter.Read` | src/sock-adap.cc:33-50 | appends what was read; a closed adapter or an empty read fails |
| `Framing.SocketAdapter.Compact` | src/sock-adap.cc:75-81 | unread bytes move to the front unchanged |
| `Framing.SocketAdapter.NextFrame` | src/sock-adap.cc:52-82 | hands out the next complete frame, or says why not; when there is no more there is room to read |
| `Framing.SocketAdapter.DoRead` | src/sock-poll.cc:288-309 | after any read the frames delivered are those of the whole stream so far, or a first part of them if the adapter was closed meanwhile; it fails iff the adapter is closed, nothing came, a frame is bad or longer than the buffer |
| `Framing.SocketAdapter.PutFrames` | src/sock-poll.cc:293-308 | the loop, with a close by the dispatcher's thread at any turn |
| `Framing.ReadStream` | src/sock-poll.cc:288-309 | for any sequence of frames that fit the buffer and reads of any sizes, every read succeeds and exactly those frames are delivered, in order |
| `Framing.ReceiveBuffer.DeliverFrames` | src/cli.cc:201-217 | delivers the complete frames in the buffer and stops at the first that is not |
| `Framing.ReceiveBuffer.HandleReceived` | src/cli.cc:194-223 | delivers what is complete, keeps the rest at the front, and fails only on a bad frame |
| `Framing.ReceiveBuffer.RecvTurn` | src/cli.cc:156-190 | for any chunking the client has delivered exactly the frames of the stream so far; EINSUFF_BUF is reported iff the buffer is full, and then the next frame is longer than the buffer |
| `Framing.ReceiveStream` | src/cli.cc:152-223 | the same for the client: any sequence of frames that fit, in reads of any sizes, is delivered exactly |
| `Framing.FullIsOversize` | src/cli.cc:157-161 | a full buffer without a complete frame starts a frame longer than itself |
| `Keepalive.BeepSocketPoll.DoAccept` | src/beep-sock-poll.h:76-85 | a new connection is the most recent |
| `Keepalive.BeepSocketPoll.DoRead` | src/beep-sock-poll.h:87-107 | a successful read moves its connection to the back with the new time, a failed one removes it |
| `Keepalive.BeepSocketPoll.ShutdownTimeoutAdapter` | src/beep-sock-poll.h:118-136 | the loop shuts down and removes the front entries that are due |
| `Keepalive.RunKept` | src/beep-sock-poll.h:76-107 | in every run the list is sorted by last activity, free of duplicates, and consists of the poll's connections that were not shut down |
| `Keepalive.PassIsFilter` | src/beep-sock-poll.h:125-136 | a pass shuts down exactly the connections silent for at least the timeout, wherever they stand |
| `ReplyObject.ReplyImpl.constructor` | src/cli.cc:746-747 | a new object is live with code NORESP |
| `ReplyObject.ReplyImpl.Send` | src/cli.cc:771-776 | sends if it still holds its client, which it then lets go |
| `ReplyObject.ReplyImpl.Do` | src/cli.cc:749-769 | each operation writes its fields and sends if it ends the reply |
| `ReplyObject.SendsOnce` | src/cli.cc:749-776 | any sequence of operations sends exactly one reply, at the first end or at destruction, with code 0 for a plain end, and the last written code or NORESP on destruction |
| `CallTable.RequestTable.HandleReply` | src/cli.cc:283-307 | the first entry with the id is filled in or its callback taken, nothing else changes |
| `CallTable.RequestTable.CloseSweep` | src/cli.cc:363-384 | records the reason, takes all callbacks in order and leaves blocking entries |
| `CallTable.EraseCallbacks` | src/cli.cc:367-379 | the erasing loop separates callbacks from blocking entries, keeping order |
| `CallTable.StepSound` | src/cli.cc:525-620 | every step of callers, receiver and closers keeps the table sound |
| `CallTable.CallListed` | src/cli.cc:534-555 | a call that is numbered, listed and sent is the last entry, under a number not used before |
| `CallTable.ReplyFills` | src/cli.cc:284-295 | a reply to a waiting blocking call puts code and response into its entry and changes no other |
| `CallTable.ReplyTakes` | src/cli.cc:296-307 | a reply to a waiting callback takes it, with the code and response of the reply |
| `CallTable.ReplyUnknown` | src/cli.cc:284-304 | a reply to a number that does not wait changes nothing |
| `CallTable.WakeReturns` | src/cli.cc:562-584 | a blocking caller returns ETIMEOUT if its time is over, else its answer, else the reason of the close, else waits on |
| `CallTable.SweepTakes` | src/cli.cc:363-384 | a sweep takes every waiting callback with the reason of the close, and no blocking call |
| `CallTable.BlockingReturns` | src/cli.cc:556-584 | under every interleaving a blocking call whose reply came returns that reply's code and response when it next wakes in time, whatever happened in between; a reply to number 0 apart |
| `CallTable.CallbackCalled` | src/cli.cc:296-307 | under every interleaving the reply to a waiting callback calls it with its code and response |
| `CallTable.ZeroOverwrites` | src/cli.cc:284-292 | a reply to number 0 would overwrite an answer that waits |
| `CallTable.ExactlyOnce` | src/cli.cc:587-620 | under every interleaving no callback is taken twice; one whose request was sent waits or was taken once, and was taken once when the connection is closed and the closers are through |
| `CallTable.EmptySuccess` | src/cli.cc:562-584 | a blocking call reports SUCCESS without a response iff it has no answer and finds the connection closed with no reason recorded, which only happens while a closer has yet to sweep |
| `CallTable.EmptySuccessHappens` | src/cli.cc:358-365 | a run in which a sent call returns SUCCESS without a response |
| `EndToEnd.ReplyNumbers` | src/disp.cc:561-563 | a reply frame carries the number of a request its receiver made |
| `EndToEnd.OneObject` | src/cli.cc:255-268 | no two reply objects of a client stand for the same call |
| `EndToEnd.ReadsBack` | src/cli.cc:239-310 | what a client makes of the encoding of a frame is what it makes of the frame |
| `EndToEnd.HandledOnce` | src/cli.cc:525-620 | in every run each request number of each client is handled by the broker at most once |
| `EndToEnd.OneForward` | src/disp.cc:512-513 | so a request is forwarded at most once |
| `EndToEnd.AnsweredOnce` | src/disp.cc:481-574 | in every run every request of every client is answered at most once, counting ENEXISTS, SUCCESS and timeout |
| `EndToEnd.AdvanceGood` | src/cli.cc:283-307 | every move of clients, links and broker keeps calls, replies and results genuine |
| `EndToEnd.NoCrossTalk` | src/disp.cc:541-573 | in every run, through reconnects, timeouts and late replies, a callback called with SUCCESS and a blocking call that returns a response got exactly what one reply object gave, which showed that request's method and arguments and is the only one any client ever had for that request |
| `Completion.ReplyIsReturned` | src/cli.cc:283-295 | in every run a client that has read the reply to a waiting blocking request returns that frame's code and response at the request's next wake in time, through any other moves |
| `Completion.CallbackIsCalled` | src/cli.cc:296-307 | in every run reading the reply to a waiting callback calls it with that frame's code and response |
| `Completion.CallIsSent` | src/cli.cc:534-553 | a client that calls puts the literal cells of the request on its uplink, under its next number |
| `Completion.CallIsRead` | src/cli.cc:255-268 | a client makes a reply object of every call frame it reads |
| `Completion.AnswerIsSent` | src/cli.cc:749-776 | ending a fresh reply object puts the literal cells of its answer on the uplink |
| `Completion.CallAndReply` | src/disp.cc:481-574 | a call and the callee's reply, handled one after the other, write exactly the two frames |
| `Completion.CallSucceeds` | src/cli.cc:525-584 | in every reachable state in which two linked clients are at rest and the two frames fit, the moves of a call, from numbering to wake, give the caller exactly the code, data and name of the callee |

## Left out

- Caps byte encoding, `Uri` parsing and logging: external library; a Caps object is a sequence of typed cells, and the read cursor is the sequence of cells not yet read.
- A null object among the entries of a list_all or list_add message: the source dereferences it; the model rejects the message.
- Negative command numbers: the check at src/disp.cc:126 covers only the upper end; the model treats them like numbers above it.
- Packets of an adapter whose departure was handled: its info pointer dangles in the source, and the poll never queues such packets; the model treats the sender as not registered.
- `Framing.SocketAdapter.PutFrames`: a close takes effect at the next look for a frame; the buffer being unmapped while a frame in it is still parsed is not modelled.
- Adapter objects: entries of a map with an open flag instead of heap objects; aliasing between adapters is not modelled.
- Socket setup, `select`, `mmap`, signals and DNS: plumbing.
- `Agent` reconnection (src/flora-agent.cc): its connect, initialisation and pointer swap are not atomic, so no statement about its subscriptions holds throughout.
- C wrappers, JNI and Java code: forwarding.
- Monitor sub, decl, post and call messages: stubs that return -1.
- Argument checks of the client calls (null names, monitor mode, callback thread): one test each, before the modelled part.
- Removal of a blocking entry after a failed send: the source keeps the entry (src/cli.cc:551-553), and so does the model.
- The keepalive select timeout (src/beep-sock-poll.h:109-116): it may be negative, depending on how long handling took.
- `TagHelper` packing of socket addresses: easy; the tag of such a connection is a number given at its accept. The tag of a local connection is its pid as an unsigned number, as in the source (src/ser-helper.h:199).
- `Keepalive.BeepSocketPoll.DoRead`: the poll's removal of the connection after a failed read (src/sock-poll.cc:167-171) is part of the same step.
