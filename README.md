# async_nats.cpp — a verified model of the handle layer and its queues

async_nats.cpp is a C++ client for the NATS messaging system. It has three layers:

- C++ handle classes in `include/async_nats/` call a C ABI.
- That C ABI is implemented in Rust in `rust/src/`.
- The Rust code drives the `async_nats` and `tokio` crates.

This project models the part of that stack that has logic of its own, with every thread
taken as a sequence of atomic steps:

- **The backpressure send queue** behind `nonblocking::Sender` (`named_sender.rs`): a
  semaphore of `capacity` permits beside an unbounded FIFO. `try_send` refuses when no permit
  is free. `send` always queues. A forwarding task publishes each entry on its own topic or on
  the sender's topic, and only then gives its permit back. Invariant: free permits plus the
  permits held by queued or in-flight entries equal the capacity.
- **The bounded receive buffer** behind `nonblocking::Receiver` (`named_receiver.rs`): a task
  moves messages from a subscription into a buffer of fixed capacity. It drops the ones that
  arrive while the buffer is full. `try_recv` never waits; `recv` waits. Clones share the
  buffer.
- **The request record** (`request.rs`, `request.hpp`): setters for inbox, timeout and
  payload, and `build`, which moves the set fields out. The dispatch of the engine's answer
  into the callback's two pointers, exactly one of them non-null. The C++ millisecond
  conversion of a `steady_clock` duration.
- **The error-kind mapping** (`error.rs`): the total, injective and onto mapping of the
  engine's error kinds to the two C enums, whose values follow declaration order.
- **The cancellable channel** (`channel.rs`): a shared one-shot shutdown slot that is taken at
  most once. Its `pop` prefers ready messages to shutdown.
- **The C++ handles** (`connection.hpp`, `subscribtion.hpp`, `request.hpp`,
  `nonblocking/*.hpp`): ownership of the raw pointer under move, copy, assignment,
  destruction and `release`; the lazily cached `what()` text; the completion trampolines,
  which classify `(value, error)`, call the handler once and return the handler's storage
  (in `connection.hpp` with `deallocate_ctx`, which runs no destructor; in `subscribtion.hpp`
  with `delete`).

The engine itself (wire protocol, inboxes, timeouts, delivery) is not visible. Its outcomes
are parameters:

- a request's `Response`;
- a `ConnectOutcome`;
- whether a subscribe or a publish was accepted;
- the messages a subscription has pending, and whether it is still open.

Raw-pointer ownership is a set of live heap objects (`Ffi.Heap.live`). Every handler context
keeps a log of its invocation, destruction and release, so "the destructor runs before the
storage is freed" is a property of that log.

Modules, one per core file plus three shared ones:

| module | file | models |
|---|---|---|
| `Common` | common.dfy | `Option`, bytes, the message value, a `Poll` result |
| `Ffi` | ffi.dfy | owned raw pointers, handler contexts, `allocate_ctx`/`deallocate_ctx`/`delete` |
| `Engine` | engine.dfy | the engine objects the layer passes around (connection, options, subscription stream) |
| `ErrorKinds` | error_kinds.dfy | `rust/src/error.rs` |
| `NamedSender` | named_sender.dfy | `rust/src/named_sender.rs` |
| `NamedReceiver` | named_receiver.dfy | `rust/src/named_receiver.rs` |
| `Requests` | request.dfy | `rust/src/request.rs` |
| `Channel` | channel.dfy | `rust/src/channel.rs` |
| `CppRequest` | cpp_request.dfy | `include/async_nats/request.hpp` |
| `CppSubscription` | cpp_subscription.dfy | `include/async_nats/subscribtion.hpp` |
| `CppConnection` | cpp_connection.dfy | `include/async_nats/connection.hpp` |
| `CppNonblocking` | cpp_nonblocking.dfy | `include/async_nats/nonblocking/sender.hpp`, `receiver.hpp` |

## Model

| member | source | states |
|---|---|---|
| Ffi.Heap.Allocate | rust/src/named_sender.rs:69-74 | handing a new box out through a raw pointer adds exactly that object to the live set |
| Ffi.Heap.AllocateContext | include/async_nats/detail/helpers.hpp:9-19 | the handler is moved into fresh storage that is live, not yet called and not destroyed |
| Ffi.Heap.Free | rust/src/named_sender.rs:87-91 | reclaiming a box needs it live (no double free) and removes exactly it from the live set |
| Ffi.Heap.InvokeThenDeallocate | include/async_nats/detail/helpers.hpp:21-31 | completion through `deallocate_ctx`: the handler is called once and its storage freed with its destructor never run, which breaks the destroy-before-free order |
| Ffi.Heap.InvokeThenDestroy | include/async_nats/subscribtion.hpp:66-71 | completion through `delete`: the handler is called once, destroyed, then freed, and the destroy-before-free order is kept |
| Ffi.DestroyKeepsOrder | include/async_nats/subscribtion.hpp:69-70 | appending invoke, destroy, free keeps every freed context destroyed earlier |
| Ffi.DeallocateBreaksOrder | include/async_nats/detail/helpers.hpp:29-30 | appending invoke, free for a context never destroyed yields a log in which a context is freed without its destructor |
| Engine.ConfigObj.constructor | rust/src/connection.rs:181-184 | new connection options have no name and no address |
| Engine.SubscriptionObj.Pop | rust/src/named_receiver.rs:19-21 | one `pop` of the stream: the oldest pending message; the end of the stream once closed and drained; otherwise wait |
| ErrorKinds.CConnectErrorKind.Value | rust/src/error.rs:8-23 | the value C sees is one of the seven declared positions |
| ErrorKinds.CRequestErrorKind.Value | rust/src/error.rs:64-72 | the value C sees is one of the three declared positions |
| ErrorKinds.ConnectErrorKindOf | rust/src/error.rs:25-41 | every engine connect kind maps to the C enumerator named after it |
| ErrorKinds.RequestErrorKindOf | rust/src/error.rs:74-84 | every engine request kind maps to the C enumerator named after it |
| ErrorKinds.ConnectErrorKindFromValue | rust/src/error.rs:8-23 | exactly the values 0..6 decode, each to a kind that encodes back to that value |
| ErrorKinds.RequestErrorKindFromValue | rust/src/error.rs:64-72 | exactly the values 0..2 decode, each to a kind that encodes back to that value |
| ErrorKinds.ConnectErrorKindRoundTrip | rust/src/error.rs:30-40 | decoding the C value of a connect kind gives that kind back |
| ErrorKinds.RequestErrorKindRoundTrip | rust/src/error.rs:79-83 | decoding the C value of a request kind gives that kind back |
| ErrorKinds.ConnectErrorKindInjective | rust/src/error.rs:30-40 | distinct engine connect kinds get distinct C values |
| ErrorKinds.RequestErrorKindInjective | rust/src/error.rs:79-83 | distinct engine request kinds get distinct C values |
| ErrorKinds.ConnectErrorKindOnto | rust/src/error.rs:30-40 | every C connect enumerator is reached by some engine kind |
| ErrorKinds.RequestErrorKindOnto | rust/src/error.rs:79-83 | every C request enumerator is reached by some engine kind |
| ErrorKinds.DeclarationOrder | rust/src/error.rs:8-72 | ServerParse=0 … Io=6 and TimedOut=0, NoResponders=1, Other=2 |
| NamedSender.Held | rust/src/named_sender.rs:56-60 | queued entries hold at most one permit each |
| NamedSender.HeldAppend | rust/src/named_sender.rs:117-127 | queueing an entry adds its permit (if any) to the permits held by the queue |
| NamedSender.Subject | rust/src/named_sender.rs:37 | an entry without a topic is published on the sender's topic; one with a topic, on that topic |
| NamedSender.Publications | rust/src/named_sender.rs:28-42 | publishing a queue gives one publication per entry, in queue order, each on its subject with its payload |
| NamedSender.PublicationsAppend | rust/src/named_sender.rs:28-42 | publishing one more entry extends the publications by exactly that entry |
| NamedSender.ChannelRecv | rust/src/named_sender.rs:29-31 | `recv` yields the oldest entry iff something is queued, and the end iff nothing is queued and no sender is alive |
| NamedSender.Owners | rust/src/named_sender.rs:26 | the shared state has no owner left exactly when no handle remains and the task, which holds `inner_clone`, has gone |
| NamedSender.ForwardingNeverEndsAsWritten | rust/src/named_sender.rs:26-43 | as written, the forwarding loop of a running task never sees the end of its channel, whatever handles remain |
| NamedSender.ForwardingEndsWhenIdle | rust/src/named_sender.rs:26-43 | as intended, the loop ends exactly when no handle remains and nothing is queued |
| NamedSender.SenderInner.constructor | rust/src/named_sender.rs:16-24 | new shared state: every permit free, an empty queue, nothing published, the task running |
| NamedSender.SenderInner.Push | rust/src/named_sender.rs:126 | the entry is queued while the task lives; otherwise it is dropped with its permit, keeping the permit invariant |
| NamedSender.SenderInner.BeginPublish | rust/src/named_sender.rs:29-31 | the loop takes the oldest entry off the queue and holds it in flight, keeping the permit invariant |
| NamedSender.SenderInner.FinishPublish | rust/src/named_sender.rs:33-41 | an accepted entry is published on its subject and only then is its permit freed; a rejection ends the task, drops the queue and frees every permit |
| NamedSender.SenderInner.Forward | rust/src/named_sender.rs:26-43 | as written: the loop publishes every queued entry in FIFO order and frees every permit they held, and then keeps waiting, never ending, even when no handle remains |
| NamedSender.SenderInner.ForwardIntended | rust/src/named_sender.rs:26-43 | as intended: the same publishing and permits, and the loop ends iff no handle remains |
| NamedSender.NamedSender.WithCapacity | rust/src/named_sender.rs:16-46 | a sender with `capacity` free permits, an empty queue, a running task, and itself as only handle |
| NamedSender.NamedSender.Clone | rust/src/named_sender.rs:78-84 | a clone shares the same queue and permit pool and is one more handle on it |
| NamedSender.NamedSender.TrySend | rust/src/named_sender.rs:94-128 | true iff a permit was free; then exactly the caller's bytes are queued under the given topic with one permit; otherwise nothing is queued |
| NamedSender.NamedSender.Send | rust/src/named_sender.rs:131-164 | exactly the caller's bytes are always queued, with a permit iff one was free, so the queue may outgrow the capacity |
| NamedSender.New | rust/src/named_sender.rs:62-75 | a new boxed sender, live, with all permits free |
| NamedSender.CloneBoxed | rust/src/named_sender.rs:77-84 | a new boxed handle on the same shared state |
| NamedSender.Delete | rust/src/named_sender.rs:86-91 | the box is freed and the shared state loses that one handle |
| NamedReceiver.Offer | rust/src/named_receiver.rs:22 | a message is appended when the buffer has room and dropped when it is full |
| NamedReceiver.AdmitKeepsOldest | rust/src/named_receiver.rs:15-23 | from a buffer within capacity, forwarding keeps the oldest messages of the stream that fit and drops every later one |
| NamedReceiver.AdmitWithinCapacity | rust/src/named_receiver.rs:15 | the buffer never holds more than `capacity` messages |
| NamedReceiver.AdmitFromEmpty | rust/src/named_receiver.rs:15-23 | from an empty buffer, the first `capacity` messages forwarded are buffered, in order |
| NamedReceiver.BoundedChannel.constructor | rust/src/named_receiver.rs:15 | a new channel is empty, connected, and within capacity |
| NamedReceiver.BoundedChannel.Forward | rust/src/named_receiver.rs:16-24 | the task drains the subscription, buffering what fits (nothing once no receiver is left), and disconnects iff the stream has ended |
| NamedReceiver.NamedReceiver.constructor | rust/src/named_receiver.rs:13-27 | a receiver on a new empty channel fed from the subscription, and its only handle |
| NamedReceiver.NamedReceiver.Clone | rust/src/named_receiver.rs:41-46 | a clone is one more handle on the same buffer |
| NamedReceiver.NamedReceiver.TryRecv | rust/src/named_receiver.rs:55-64 | the oldest buffered message, removed; empty without waiting when nothing is buffered; the buffer stays within capacity |
| NamedReceiver.NamedReceiver.Recv | rust/src/named_receiver.rs:66-75 | the oldest buffered message, removed; with nothing buffered, wait while the task lives and empty once it is gone; the buffer stays within capacity |
| NamedReceiver.CompetingReceivers | rust/src/named_receiver.rs:7-10 | for any buffer, two handles taking in turn get the first and the second buffered message (or nothing once it runs out): what one takes the other does not see |
| NamedReceiver.New | rust/src/named_receiver.rs:30-38 | the subscription's box is consumed (no longer live) and a new boxed receiver is live |
| NamedReceiver.CloneBoxed | rust/src/named_receiver.rs:40-46 | a new boxed handle on the same buffer |
| NamedReceiver.Delete | rust/src/named_receiver.rs:48-53 | the box is freed and the channel loses that one receiver |
| Requests.AsyncRequest.constructor | rust/src/request.rs:77-83 | a new request has no inbox, no timeout and no payload |
| Requests.AsyncRequest.SetInbox | rust/src/request.rs:113-121 | sets the inbox and leaves timeout and payload unchanged |
| Requests.AsyncRequest.SetTimeout | rust/src/request.rs:123-127 | sets the timeout to exactly the given milliseconds and leaves the rest unchanged |
| Requests.AsyncRequest.SetMessage | rust/src/request.rs:129-140 | sets the payload to exactly the caller's bytes and leaves the rest unchanged |
| Requests.AsyncRequest.Build | rust/src/request.rs:86-98 | the outgoing request carries exactly the fields that were set, and all three are empty afterwards |
| Requests.BuildTwice | rust/src/request.rs:88-96 | a second build yields a bare request, whatever the first carried |
| Requests.NewRequest | rust/src/request.rs:101-104 | a new boxed empty request, live |
| Requests.DeleteRequest | rust/src/request.rs:106-111 | the box is freed |
| Requests.Dispatch | rust/src/request.rs:37-46 | a reply becomes a message and a null error, an error a null message and the error: exactly one pointer is non-null |
| Requests.ResponseOf | rust/src/request.rs:64-73 | from callback arguments with exactly one non-null pointer, the answer they carry |
| Requests.DispatchRoundTrip | rust/src/request.rs:37-46 | dispatch loses nothing, and every well-formed pair of callback arguments is the dispatch of one answer |
| Requests.Deliver | rust/src/request.rs:37-46 | the callback gets the reply, or a newly boxed live error with the engine's kind and text |
| Requests.RequestAsync | rust/src/request.rs:18-48 | the payload sent is what the caller's borrowed buffer holds when the spawned task copies it, and the callback gets exactly one of message or boxed error |
| Requests.SendRequestAsync | rust/src/request.rs:50-75 | the request box is consumed, the request sent carries exactly its set fields, and the callback gets exactly one of message or error |
| Channel.ShutdownSlot.constructor | rust/src/channel.rs:34-39 | a new channel's slot holds the shutdown sender, armed |
| Channel.Channel.constructor | rust/src/channel.rs:23-41 | a new channel has a full slot and has not unsubscribed |
| Channel.CancellationToken.Close | rust/src/channel.rs:163-168 | the first close empties the slot and sends shutdown; later closes change nothing |
| Channel.Channel.GetCancellationToken | rust/src/channel.rs:64-68 | a new token sharing this channel's slot |
| Channel.Channel.Unsubscribe | rust/src/channel.rs:51 | the stream stops receiving new messages; pending ones stay |
| Channel.Channel.Close | rust/src/channel.rs:57-62 | unsubscribes iff the slot was still full, dropping the sender unsent; otherwise nothing changes |
| Channel.Channel.Pop | rust/src/channel.rs:44-55 | a ready message is returned in preference to shutdown; on shutdown it unsubscribes and re-polls, so the result still comes from the stream |
| Channel.Channel.Recv | rust/src/channel.rs:112-122 | a null result exactly when nothing was pending and the stream is closed; otherwise the oldest pending message |
| Channel.TokensShareOneSlot | rust/src/channel.rs:64-68 | from any state, the first token's close sends the signal if it is still armed; another token's close and the channel's close then change nothing and never unsubscribe |
| CppRequest.TruncateToMillis | include/async_nats/request.hpp:72 | `duration_cast<milliseconds>` rounds toward zero on both signs |
| CppRequest.TimeoutMillisAsWritten | include/async_nats/request.hpp:69-72 | as written, the timeout is the truncated count modulo 2^64 |
| CppRequest.ExpiredTimeoutOutlastsAnyAsWritten | include/async_nats/request.hpp:67-73 | as written, a duration over by a millisecond or more gives a longer timeout than any non-negative duration |
| CppRequest.TimeoutMillis | include/async_nats/request.hpp:67-73 | as intended, a negative duration gives 0 and any other gives its whole milliseconds, rounded down |
| CppRequest.TimeoutMillisMonotone | include/async_nats/request.hpp:67-73 | a longer duration never gives a shorter intended timeout |
| CppRequest.TimeoutMillisAgreesWhenNotOver | include/async_nats/request.hpp:67-73 | on every non-negative duration the intended timeout equals the one the code computes |
| CppRequest.Request.constructor | include/async_nats/request.hpp:17-20 | a new handle owns a new live empty request |
| CppRequest.Request.MoveFrom | include/async_nats/request.hpp:24-28 | moving takes the other's box and empties the other |
| CppRequest.Request.Destroy | include/async_nats/request.hpp:30-34 | the box is freed only when there is one |
| CppRequest.Request.MoveAssign | include/async_nats/request.hpp:38-50 | self-assignment changes nothing; otherwise the old box is freed first, then the other's is taken and the other emptied |
| CppRequest.Request.Inbox | include/async_nats/request.hpp:52-56 | sets the inbox and returns the same handle |
| CppRequest.Request.Data | include/async_nats/request.hpp:58-63 | sets the payload to the buffer's bytes and returns the same handle |
| CppRequest.Request.Timeout | include/async_nats/request.hpp:67-74 | as written: sets the timeout to the truncated millisecond count modulo 2^64 and returns the same handle; on a non-negative duration that is its whole milliseconds |
| CppRequest.Request.TimeoutIntended | include/async_nats/request.hpp:67-74 | as intended: a duration that is over sets a zero timeout, any other its whole milliseconds |
| CppRequest.Request.Release | include/async_nats/request.hpp:79-84 | returns the held box and leaves the handle empty |
| CppSubscription.Subscribtion.constructor | include/async_nats/subscribtion.hpp:14 | the default handle is empty |
| CppSubscription.Subscribtion.FromRaw | include/async_nats/subscribtion.hpp:16-19 | adopts the raw pointer, which may be null |
| CppSubscription.Subscribtion.MoveFrom | include/async_nats/subscribtion.hpp:22-26 | moving takes the other's box and empties the other |
| CppSubscription.Subscribtion.Destroy | include/async_nats/subscribtion.hpp:28-32 | the box is freed only when there is one |
| CppSubscription.Subscribtion.MoveAssign | include/async_nats/subscribtion.hpp:35-46 | self-assignment changes nothing; otherwise the old box is freed first, then the other's is taken and the other emptied |
| CppSubscription.Subscribtion.ReleaseRaw | include/async_nats/subscribtion.hpp:52-57 | returns the held box, non-null iff `operator bool` was true, and leaves the handle empty and false |
| CppSubscription.Subscribtion.Receive | include/async_nats/subscribtion.hpp:73 | the handler is moved into one new live context, not yet called |
| CppSubscription.Subscribtion.ReceiveNext | include/async_nats/subscribtion.hpp:59-79 | with a message pending the handler gets it; at the end of the stream it gets an empty message; either way once, and the log gains its call, destruction and free in that order, whatever the log held before; otherwise it keeps waiting, its context live and uncalled and the log unchanged |
| CppSubscription.ReceiveCallback | include/async_nats/subscribtion.hpp:66-71 | the handler is called once with the message (empty for null), then destroyed and freed: the log gains exactly call, destroy, free |
| CppConnection.ConnectionOptions.constructor | include/async_nats/connection.hpp:23 | a new handle owns new live options with no name and no address |
| CppConnection.ConnectionOptions.MoveFrom | include/async_nats/connection.hpp:26-30 | moving takes the other's box and empties the other |
| CppConnection.ConnectionOptions.Destroy | include/async_nats/connection.hpp:32-37 | the box is freed only when there is one |
| CppConnection.ConnectionOptions.MoveAssign | include/async_nats/connection.hpp:40-53 | self-assignment changes nothing; otherwise the old box is freed first, then the other's is taken and the other emptied |
| CppConnection.ConnectionOptions.Name | include/async_nats/connection.hpp:55-59 | replaces the name, keeps the addresses, returns the same handle |
| CppConnection.ConnectionOptions.Address | include/async_nats/connection.hpp:61-65 | appends one address after the others, keeps the name, returns the same handle |
| CppConnection.ErrorHandle.constructor | include/async_nats/connection.hpp:78-81 | adopts the raw error with nothing cached |
| CppConnection.ErrorHandle.CopyFrom | include/async_nats/connection.hpp:83 | holds a new live box with the other's kind and text, nothing cached |
| CppConnection.ErrorHandle.MoveFrom | include/async_nats/connection.hpp:85-90 | takes the other's error and cache; the other holds no error, and its engaged cache now holds a null string |
| CppConnection.ErrorHandle.Destroy | include/async_nats/connection.hpp:92-97 | the error is freed only when there is one |
| CppConnection.ErrorHandle.CopyAssignAsWritten | include/async_nats/connection.hpp:99-111 | as written: frees its error, holds a clone of the other's, and keeps its old cache |
| CppConnection.ErrorHandle.CopyAssign | include/async_nats/connection.hpp:99-111 | as intended: as written, but the cache is cleared, so a cached text always belongs to the held error |
| CppConnection.ErrorHandle.MoveAssign | include/async_nats/connection.hpp:113-127 | self-assignment changes nothing; otherwise frees its error, then takes the other's error and cache as the move constructor does |
| CppConnection.ErrorHandle.What | include/async_nats/connection.hpp:132-141 | the first call computes the error's text and caches it; later calls return the cache; a coherent handle always reports its error's text |
| CppConnection.KindOfConnectionError | include/async_nats/connection.hpp:129 | the C kind named after the held error's kind, which decodes back to that kind |
| CppConnection.KindOfRequestError | include/async_nats/connection.hpp:210 | the C kind named after the held error's kind, which decodes back to that kind |
| CppConnection.StaleTextAfterCopyAssign | include/async_nats/connection.hpp:173-185 | as written, an error read as "request timed out" and then assigned "no responders" still reports "request timed out" |
| CppConnection.CurrentTextAfterCopyAssign | include/async_nats/connection.hpp:173-185 | as intended, the same sequence reports "no responders" |
| CppConnection.Connection.constructor | include/async_nats/connection.hpp:242 | the default handle is empty |
| CppConnection.Connection.FromRaw | include/async_nats/connection.hpp:244-247 | adopts the raw pointer, which may be null |
| CppConnection.Connection.CopyFrom | include/async_nats/connection.hpp:249 | a new live box on the same client |
| CppConnection.Connection.MoveFrom | include/async_nats/connection.hpp:251-255 | moving takes the other's box and leaves the other empty and false |
| CppConnection.Connection.Destroy | include/async_nats/connection.hpp:257-262 | the box is freed only when there is one |
| CppConnection.Connection.CopyAssign | include/async_nats/connection.hpp:264-276 | self-assignment changes nothing; otherwise the old box is freed first, then a new box on the other's client is taken |
| CppConnection.Connection.MoveAssign | include/async_nats/connection.hpp:278-291 | self-assignment changes nothing; otherwise the old box is freed first, then the other's is taken and the other emptied |
| CppConnection.Classify | include/async_nats/connection.hpp:417-421 | failure with the error iff the value is missing; success carries exactly the value |
| CppConnection.DispatchThenClassify | include/async_nats/connection.hpp:414-421 | the Rust dispatch followed by the C++ test hands a reply to the handler as success and an engine error as failure |
| CppConnection.PublishCallback | include/async_nats/connection.hpp:322-327 | the handler is called once with no arguments, then its storage is freed with `deallocate_ctx`, its destructor never run |
| CppConnection.PublishCallbackIntended | include/async_nats/connection.hpp:322-327 | as intended: the handler is called once, destroyed, then freed, keeping the destroy-before-free order |
| CppConnection.SubscribeCallback | include/async_nats/connection.hpp:388-394 | never an error: the handler gets once a `Subscribtion` owning exactly the returned pointer, empty when null; its storage is then freed without its destructor |
| CppConnection.RequestCallback | include/async_nats/connection.hpp:414-424 | the handler gets once an error and an empty message iff no message came back, otherwise no error and the message; the error is a clone with the engine's kind and text, and the engine's error is deleted; the handler's storage is then freed without its destructor |
| CppConnection.MakeExceptionPtr | include/async_nats/connection.hpp:418 | `make_exception_ptr` copies its by-value argument: the handler's error holds a new box with the same kind and text, and the engine's error is deleted with the temporary |
| CppConnection.ConnectCallback | include/async_nats/connection.hpp:493-503 | the handler gets once a `Connection` owning exactly the returned pointer, plus an error iff that pointer is null; the error is a clone with the engine's kind and text, and the engine's error is deleted; the handler's storage is then freed without its destructor |
| CppConnection.Publish | include/async_nats/connection.hpp:313-339 | the handler is called exactly once and nothing stays live, but the handler is freed without its destructor, so the destroy-before-free order is broken |
| CppConnection.Subscribe | include/async_nats/connection.hpp:381-403 | the handler is called once with a subscription that is non-empty iff the engine accepted, holding a new open stream; the handler is freed without its destructor |
| CppConnection.SubscribeThenReceive | include/async_nats/subscribtion.hpp:59-79 | a subscription from `subcribe` can be received from: its handler frees the subscribe handler without its destructor, then the receive handler gets the delivered message and is destroyed before it is freed |
| CppConnection.Request | include/async_nats/connection.hpp:405-434 | the bytes the buffer holds when the engine's task reads it are sent; the handler is called once with the reply and no error, or with the engine's error and no message; the handler is freed without its destructor |
| CppConnection.SendRequest | include/async_nats/connection.hpp:436-463 | the builder is released and consumed, the request sent carries its set fields, and the handler is called once with exactly one of reply or error; the handler is freed without its destructor |
| CppConnection.Connect | include/async_nats/connection.hpp:482-512 | the handler is called once with a live connection on the engine's client and no error, or with the engine's error and an empty connection; the handler is freed without its destructor |
| CppNonblocking.Sender.constructor | include/async_nats/nonblocking/sender.hpp:37-40 | a new boxed sender on the topic with exactly `capacity` free permits |
| CppNonblocking.Sender.WithDefaultCapacity | include/async_nats/nonblocking/sender.hpp:22-25 | the same with 128 permits |
| CppNonblocking.Sender.CopyFrom | include/async_nats/nonblocking/sender.hpp:42-45 | a new boxed handle on the same queue and permit pool |
| CppNonblocking.Sender.MoveFrom | include/async_nats/nonblocking/sender.hpp:47-51 | moving takes the other's box and empties the other |
| CppNonblocking.Sender.Destroy | include/async_nats/nonblocking/sender.hpp:53-57 | the box is freed only when there is one, and the queue loses that handle; its queue, permits and task are untouched |
| CppNonblocking.Sender.CopyAssign | include/async_nats/nonblocking/sender.hpp:59-69 | self-assignment changes nothing; otherwise the old box is freed first, then a new handle on the other's queue is taken: the old queue loses the old handle, the other's gains the new one, and only those handle sets change |
| CppNonblocking.Sender.MoveAssign | include/async_nats/nonblocking/sender.hpp:71-83 | self-assignment changes nothing; otherwise the old box is freed first, so the old queue loses that handle and nothing else of it changes, then the other's is taken and the other emptied |
| CppNonblocking.Sender.TrySend | include/async_nats/nonblocking/sender.hpp:99-103 | a null topic: true iff a permit was free, and then the bytes are queued for the sender's own topic |
| CppNonblocking.Sender.TrySendTo | include/async_nats/nonblocking/sender.hpp:105-109 | the given topic: true iff a permit was free, and then the bytes are queued for that topic |
| CppNonblocking.Sender.Send | include/async_nats/nonblocking/sender.hpp:117-121 | a null topic: the bytes are always queued, with a permit iff one was free |
| CppNonblocking.Sender.SendTo | include/async_nats/nonblocking/sender.hpp:123-127 | the given topic: the bytes are always queued, with a permit iff one was free |
| CppNonblocking.TopicSelection | include/async_nats/nonblocking/sender.hpp:99-109 | what the one-argument overloads queue is published on the sender's topic; what the topic overloads queue, on the given topic |
| CppNonblocking.Receiver.constructor | include/async_nats/nonblocking/receiver.hpp:17-20 | takes the subscription's box through `release_raw`, leaving it empty, into a new receiver of the given capacity |
| CppNonblocking.Receiver.WithDefaultCapacity | include/async_nats/nonblocking/receiver.hpp:17 | the same with capacity 1024 |
| CppNonblocking.Receiver.CopyFrom | include/async_nats/nonblocking/receiver.hpp:22-25 | a new boxed handle on the same buffer |
| CppNonblocking.Receiver.MoveFrom | include/async_nats/nonblocking/receiver.hpp:27-31 | moving takes the other's box and empties the other |
| CppNonblocking.Receiver.Destroy | include/async_nats/nonblocking/receiver.hpp:33-37 | the box is freed only when there is one, and the buffer loses that receiver; its contents and connection are untouched |
| CppNonblocking.Receiver.CopyAssign | include/async_nats/nonblocking/receiver.hpp:39-49 | self-assignment changes nothing; otherwise the old box is freed first, then a new handle on the other's buffer is taken: the old buffer loses the old receiver, the other's gains the new one, and only those receiver sets change |
| CppNonblocking.Receiver.MoveAssign | include/async_nats/nonblocking/receiver.hpp:51-62 | self-assignment changes nothing; otherwise the old box is freed first, so the old buffer loses that receiver and nothing else of it changes, then the other's is taken and the other emptied |
| CppNonblocking.Receiver.Receive | include/async_nats/nonblocking/receiver.hpp:72-75 | the oldest buffered message; with nothing buffered, wait while the stream may deliver and an empty message once it has ended; the buffer stays within capacity |
| CppNonblocking.Receiver.TryReceive | include/async_nats/nonblocking/receiver.hpp:84-87 | never waits: the oldest buffered message, or an empty message; the buffer stays within capacity |
| CppNonblocking.OnlyOneReceiverGetsAMessage | include/async_nats/nonblocking/receiver.hpp:64-75 | for any buffer, of two copies calling `receive` in turn the first gets the oldest message and the second the next one, or waits or gets an empty message once nothing is left |

## Left out

- Threads, the tokio runtime, semaphore atomics, crossbeam blocking and mutexes: every operation is one atomic step, and a blocking wait is a `Pending` result.
- The engine (`async_nats` crate): publish, subscribe, request, inbox creation, timeouts, no-responders detection and reconnection. Their outcomes are method parameters.
- `Channel.Channel.Pop`: tokio's oneshot receiver panics if polled after it has completed. The model marks a handled signal `Observed`, which never fires again, so that panic is not modelled.
- `NamedReceiver.BoundedChannel.Forward`: crossbeam's `bounded(0)` is a rendezvous channel, whose `try_send` succeeds only with a receiver already waiting. The model drops every message at capacity 0.
- `NamedSender.NamedSender.WithCapacity`: tokio's `Semaphore::new` panics when `capacity` exceeds `Semaphore::MAX_PERMITS` (`usize::MAX >> 3`), so creating a sender with such a capacity panics. The model accepts every `nat` as a capacity and does not model that panic.
- `NamedSender.SenderInner.Forward` and `NamedSender.SenderInner.ForwardIntended`: assume every publish is accepted. A rejected publish, which panics the task through `expect`, is modelled on its own by `NamedSender.SenderInner.FinishPublish`.
- The lossy UTF-8 conversion of topics, subjects, names and addresses is not modelled. Strings pass through unchanged.
- `CppConnection.ErrorHandle.CopyFrom`: `async_nats_connection_error_clone` and `async_nats_request_error_clone` are declared in the C header but have no definition in `rust/src/error.rs`. They are modelled as a new box with the same kind and text, and the clone requires a non-null error.
- `CppConnection.RequestCallback` and `CppConnection.ConnectCallback`: their failure paths copy the error into the exception object (`CppConnection.MakeExceptionPtr`), which calls the same undefined clone functions. Those paths rely on the same assumed clone. The exception object, which owns the clone, lives as long as the last `std::exception_ptr` the handler keeps. The model leaves that clone live.
- `nats_channel_create`, `nats_channel_delete`, `nats_channel_recv_async` and `nats_channel_bench` (`rust/src/channel.rs:77-153`) are left out. They are runtime plumbing around `pop`, whose behaviour is modelled.
- `Channel::new_with_size` panics when no client is present, and `expect` panics when subscribe or unsubscribe fails. Neither panic is modelled: the model's channel starts from a subscription that exists.
- `async_nats_connection_config_addr` panics through `expect` on an address that does not parse. The model stores every address.
- Message boxes handed to C are values (`Option<Message>`), not tracked heap objects. The `Message` accessors are not part of this model.
- `CppConnection.SubscribeCallback`: the subscribe error string is ignored by the trampoline (a to-do in the source) and never freed. Owned strings are not tracked.
- The moved-from `str_` of an error is an engaged optional holding a moved-from `OwnedString`. The model gives it a state of its own (`MovedOut`), whose `what()` is a null string.
- `connection.hpp` takes a `RequestBuilder`, which no header defines. It is modelled with `request.hpp`'s `Request`.
- Copying `Subscribtion`, `Request` and `ConnectionOptions` is deleted in the source, so the model has no copy members for them.
- The publish-with-reply overload (`include/async_nats/connection.hpp:348-377`) has the same trampoline as `publish` and is modelled by `CppConnection.PublishCallback`. Its reply subject is not modelled.
- `CppConnection.PublishCallbackIntended`: the corrected release is written out for the `publish` trampoline only. The other trampolines would change the same way, from `Ffi.Heap.InvokeThenDeallocate` to `Ffi.Heap.InvokeThenDestroy`.
- `CppConnection.Publish`: the subject and payload are not modelled, and the engine's publish result, which the source ignores, is not either.
- `CppConnection.Subscribe`: the subject is not modelled. A subscription the engine refuses reaches the handler as an empty `Subscribtion`.
- `CppNonblocking.Sender.constructor`: the connection must hold a handle but is not recorded. The model records publications in the sender's shared state instead.
- `Connection::new_mailbox` (`include/async_nats/connection.hpp:302-305`) calls the engine's inbox generator, which is not part of this model. The `get_raw` accessors only return the field.
- `CppRequest.TruncateToMillis`: assumes `steady_clock` ticks are nanoseconds, as in libstdc++ and libc++.
- `Requests.RequestAsync` and `CppConnection.Request`: the payload is a borrowed buffer that is read only inside the spawned task (`rust/src/request.rs:28-34`), after `Connection::request` has returned (`include/async_nats/connection.hpp:428-429`). `publish` copies it before returning (`rust/src/connection.rs:122-126`). The model takes `data` to be the buffer's contents when the task reads it. It does not promise that the caller keeps the buffer alive and unchanged until then, or what is sent if the caller does not.
- Every spawned task dereferences the caller's `conn` pointer after the C call has returned (`rust/src/connection.rs:128-130`, `153-155`; `rust/src/request.rs:28`, `61`). The model does not state that the connection must outlive the task: a connection is never freed while an operation on it is under way.
- The thread-local scratch buffers in `try_send`/`send` are an allocation detail. The model states only that the payload is copied exactly.

## Findings

| source | as written | input that shows it | evidently intended | confidence | as-written member | corrected member |
|---|---|---|---|---|---|---|
| include/async_nats/connection.hpp:99-111 (and 173-185) | copy assignment replaces `e_` but keeps the cached `str_` | an error whose `what()` was read, then copy-assigned a different error: `what()` returns the old text | clear `str_` when `e_` is replaced | high, not executed | CppConnection.ErrorHandle.CopyAssignAsWritten, CppConnection.StaleTextAfterCopyAssign | CppConnection.ErrorHandle.CopyAssign, CppConnection.CurrentTextAfterCopyAssign |
| include/async_nats/detail/helpers.hpp:29-30 | `deallocate_ctx` returns the handler's storage without running its destructor; every trampoline in connection.hpp releases through it | any handler with a non-trivial destructor (a coroutine or a `use_future` token holding state): its destructor never runs after completion | destroy the handler (`std::allocator_traits::destroy`) before deallocating, as `receive` does with `delete` | high, not executed | Ffi.Heap.InvokeThenDeallocate, Ffi.DeallocateBreaksOrder, CppConnection.PublishCallback, CppConnection.Publish | Ffi.Heap.InvokeThenDestroy, Ffi.DestroyKeepsOrder, CppConnection.PublishCallbackIntended |
| rust/src/named_sender.rs:26-43 | the task holds `inner_clone`, which holds the only `UnboundedSender`, so `rx.recv()` never yields `None` | create a sender and delete every handle: the task keeps waiting forever, and the connection and state are never released | the task ends once every handle is gone and the queue is drained (a weak reference, or the sender outside the shared state) | high, not executed | NamedSender.ForwardingNeverEndsAsWritten, NamedSender.SenderInner.Forward | NamedSender.ForwardingEndsWhenIdle, NamedSender.SenderInner.ForwardIntended |
| include/async_nats/request.hpp:67-73 | `static_cast<uint64_t>` of a negative millisecond count wraps around | `timeout(-1ms)`, a deadline already past: about 2^64 ms, in effect no timeout | an expired duration gives a zero timeout | medium, not executed | CppRequest.TimeoutMillisAsWritten, CppRequest.ExpiredTimeoutOutlastsAnyAsWritten, CppRequest.Request.Timeout | CppRequest.TimeoutMillis, CppRequest.TimeoutMillisAgreesWhenNotOver, CppRequest.Request.TimeoutIntended |
