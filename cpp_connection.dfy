/** The C++ connection layer: the connection options and connection handles, the two error
    classes with their lazily cached text, and the completion trampolines of `publish`,
    `subcribe`, `request` and `connect`, which turn the engine's `(value, error)` pointers into
    the handler's arguments, call the handler once and return its storage with
    `deallocate_ctx`, without running its destructor. */
module CppConnection {
  import opened Common
  import opened Ffi
  import opened Engine
  import opened ErrorKinds
  import opened Requests
  import opened CppRequest
  import opened CppSubscription

  // ---------------------------------------------------------------------------------------
  // Connection options

  /** `ConnectionOptions`: owns the boxed option record `options` when non-null. */
  class ConnectionOptions {
    var options: ConfigObj?

    ghost predicate Valid(heap: Heap)
      reads this, heap
    {
      options != null ==> options in heap.live
    }

    /** `ConnectionOptions()`: a new box with no name and no address. */
    constructor (heap: Heap)
      modifies heap
      ensures options != null && fresh(options) && Valid(heap)
      ensures options.name == None && options.addresses == []
      ensures heap.live == old(heap.live) + {options} && heap.log == old(heap.log)
    {
      var o := new ConfigObj();
      heap.Allocate(o);
      options := o;
    }

    /** `ConnectionOptions(ConnectionOptions&&)`: takes the other handle's box and empties it. */
    constructor MoveFrom(o: ConnectionOptions)
      modifies o`options
      ensures options == old(o.options) && o.options == null
    {
      options := o.options;
      new;
      o.options := null;
    }

    /** `~ConnectionOptions`: deletes the box only when there is one. */
    method Destroy(heap: Heap)
      requires Valid(heap)
      modifies heap
      ensures options != null ==> heap.live == old(heap.live) - {options}
      ensures options == null ==> heap.live == old(heap.live)
      ensures heap.log == old(heap.log)
    {
      if options != null {
        heap.Free(options);
      }
    }

    /** `operator=(ConnectionOptions&&)`: self-assignment changes nothing; otherwise the old box
        (if any) is deleted first, then the other handle's box is taken and that handle emptied. */
    method MoveAssign(heap: Heap, o: ConnectionOptions) returns (self: ConnectionOptions)
      requires Valid(heap) && o.Valid(heap)
      requires this != o && options != null ==> options != o.options
      modifies heap, `options, o`options
      ensures self == this
      ensures this == o ==> options == old(options) && heap.live == old(heap.live)
      ensures this != o ==> options == old(o.options) && o.options == null && Valid(heap)
      ensures this != o && old(options) != null ==> heap.live == old(heap.live) - {old(options)}
      ensures this != o && old(options) == null ==> heap.live == old(heap.live)
      ensures heap.log == old(heap.log)
    {
      self := this;
      if this == o {
        return;
      }
      if options != null {
        heap.Free(options);
      }
      options := o.options;
      o.options := null;
    }

    /** `name`: replaces the client name, keeps the addresses, and returns this same handle. */
    method Name(name: string) returns (self: ConnectionOptions)
      requires options != null
      modifies options`name
      ensures self == this && options.name == Some(name)
      ensures options.addresses == old(options.addresses)
    {
      options.name := Some(name);
      self := this;
    }

    /** `address`: adds one server address after those already given, keeps the name, and
        returns this same handle. */
    method Address(address: string) returns (self: ConnectionOptions)
      requires options != null
      modifies options`addresses
      ensures self == this && options.addresses == old(options.addresses) + [address]
      ensures options.name == old(options.name)
    {
      options.addresses := options.addresses + [address];
      self := this;
    }
  }

  // ---------------------------------------------------------------------------------------
  // Errors

  /** The `mutable std::optional<OwnedString> str_` cache of an error's text: not yet
      computed, computed, or left engaged but holding a null string after being moved from. */
  datatype TextCache = Uncached | Cached(text: string) | MovedOut

  /** `ConnectionError` and `RequestError`, which differ only in their kind: owns the boxed
      library error `e` when non-null, and caches its text. */
  class ErrorHandle<K> {
    var e: ErrorObj?<K>
    var str: TextCache

    ghost predicate Valid(heap: Heap)
      reads this, heap
    {
      e != null ==> e in heap.live
    }

    /** A cached text is the text of the error currently held, and only a handle that has
        given its error away has a moved-out cache. */
    ghost predicate Coherent()
      reads this
    {
      && (str.Cached? ==> e != null && str.text == e.description)
      && (str.MovedOut? ==> e == null)
    }

    /** `ConnectionError(AsyncNatsConnectError*)`: adopts a raw error; nothing is cached. */
    constructor (e: ErrorObj?<K>)
      ensures this.e == e && str == Uncached && Coherent()
    {
      this.e := e;
      str := Uncached;
    }

    /** The copy constructor: holds a new box with a copy of the other's error (the library's
        clone); nothing is cached. */
    constructor CopyFrom(heap: Heap, o: ErrorHandle<K>)
      requires o.e != null
      modifies heap
      ensures e != null && fresh(e) && e.kind == o.e.kind && e.description == o.e.description
      ensures str == Uncached && Coherent() && Valid(heap)
      ensures heap.live == old(heap.live) + {e} && heap.log == old(heap.log)
    {
      var c := new ErrorObj(o.e.kind, o.e.description);
      heap.Allocate(c);
      e := c;
      str := Uncached;
    }

    /** The move constructor: takes the other's error and cache; the other holds no error, and
        its cache, if it was engaged, now holds a null string. */
    constructor MoveFrom(o: ErrorHandle<K>)
      modifies o
      ensures e == old(o.e) && str == old(o.str)
      ensures o.e == null && o.str == (if old(o.str).Uncached? then Uncached else MovedOut)
      ensures old(o.Coherent()) ==> Coherent()
    {
      e := o.e;
      str := o.str;
      new;
      o.e := null;
      o.str := if o.str.Uncached? then Uncached else MovedOut;
    }

    /** The destructor: deletes the error only when there is one. */
    method Destroy(heap: Heap)
      requires Valid(heap)
      modifies heap
      ensures e != null ==> heap.live == old(heap.live) - {e}
      ensures e == null ==> heap.live == old(heap.live)
      ensures heap.log == old(heap.log)
    {
      if e != null {
        heap.Free(e);
      }
    }

    /** The copy assignment as written: after deleting its own error and cloning the other's,
        it keeps its old cache, so a text computed before still answers `what()`. */
    method CopyAssignAsWritten(heap: Heap, o: ErrorHandle<K>)
      requires Valid(heap) && (this != o ==> o.e != null && (e != null ==> e != o.e))
      modifies heap, `e
      ensures this == o ==> e == old(e) && heap.live == old(heap.live)
      ensures this != o ==> fresh(e) && e.kind == o.e.kind && e.description == o.e.description && Valid(heap)
      ensures str == old(str)
      ensures this != o ==> heap.live == old(heap.live) - (if old(e) == null then {} else {old(e)}) + {e}
      ensures heap.log == old(heap.log)
    {
      if this == o {
        return;
      }
      if e != null {
        heap.Free(e);
      }
      var c := new ErrorObj(o.e.kind, o.e.description);
      heap.Allocate(c);
      e := c;
    }

    /** The copy assignment as intended: as written, but the cache is emptied with the old
        error, so the text is recomputed from the new one. */
    method CopyAssign(heap: Heap, o: ErrorHandle<K>)
      requires Valid(heap) && Coherent() && (this != o ==> o.e != null && (e != null ==> e != o.e))
      modifies heap, `e, `str
      ensures Coherent()
      ensures this == o ==> e == old(e) && str == old(str) && heap.live == old(heap.live)
      ensures this != o ==> fresh(e) && e.kind == o.e.kind && e.description == o.e.description && Valid(heap)
      ensures this != o ==> str == Uncached
      ensures this != o ==> heap.live == old(heap.live) - (if old(e) == null then {} else {old(e)}) + {e}
      ensures heap.log == old(heap.log)
    {
      if this == o {
        return;
      }
      CopyAssignAsWritten(heap, o);
      str := Uncached;
    }

    /** The move assignment: self-assignment changes nothing; otherwise its own error (if any)
        is deleted and the other's error and cache are taken as by the move constructor. */
    method MoveAssign(heap: Heap, o: ErrorHandle<K>)
      requires Valid(heap) && o.Valid(heap) && (this != o && e != null ==> e != o.e)
      modifies heap, this, o
      ensures this == o ==> e == old(e) && str == old(str) && heap.live == old(heap.live)
      ensures this != o ==> e == old(o.e) && str == old(o.str) && Valid(heap)
      ensures this != o ==> o.e == null && o.str == (if old(o.str).Uncached? then Uncached else MovedOut)
      ensures this != o && old(o.Coherent()) ==> Coherent()
      ensures this != o ==> heap.live == old(heap.live) - (if old(e) == null then {} else {old(e)})
      ensures heap.log == old(heap.log)
    {
      if this == o {
        return;
      }
      if e != null {
        heap.Free(e);
      }
      e := o.e;
      str := o.str;
      o.e := null;
      o.str := if o.str.Uncached? then Uncached else MovedOut;
    }

    /** `what()`: the first call computes the error's text and caches it; later calls return
        the cached text (a null string, `None`, once moved from). Without a cache the handle
        must hold an error. */
    method What() returns (text: Option<string>)
      requires str.Uncached? ==> e != null
      modifies `str
      ensures old(str).Uncached? ==> text == Some(e.description) && str == Cached(e.description)
      ensures old(str).Cached? ==> text == Some(old(str).text) && str == old(str)
      ensures old(str).MovedOut? ==> text == None && str == MovedOut
      ensures old(Coherent()) && e != null ==> text == Some(e.description) && Coherent()
    {
      match str
      case Uncached =>
        str := Cached(e.description);
        text := Some(e.description);
      case Cached(t) =>
        text := Some(t);
      case MovedOut =>
        text := None;
    }
  }

  /** `std::make_exception_ptr(ConnectionError(e))` (or `RequestError(e)`): the temporary
      adopts `e`, the exception object is copy-constructed from it through the library's clone,
      and the temporary is then destroyed, deleting `e`. The exception object holds a new box
      with the same kind and text. */
  method MakeExceptionPtr<K>(heap: Heap, e: ErrorObj<K>) returns (h: ErrorHandle<K>)
    requires e in heap.live
    modifies heap
    ensures fresh(h) && h.e != null && fresh(h.e) && h.str == Uncached && h.Coherent()
    ensures h.e.kind == e.kind && h.e.description == e.description
    ensures heap.live == old(heap.live) - {e} + {h.e} && heap.log == old(heap.log)
  {
    var tmp := new ErrorHandle<K>(e);
    h := new ErrorHandle<K>.CopyFrom(heap, tmp);
    tmp.Destroy(heap);
  }

  type ConnectionError = ErrorHandle<ConnectErrorKind>
  type RequestError = ErrorHandle<RequestErrorKind>

  /** `ConnectionError::kind`: the C kind of the held error, the one of the same name. */
  function KindOfConnectionError(err: ConnectionError): (c: CConnectErrorKind)
    reads err
    requires err.e != null
    ensures c.KindName() == ConnectKindName(err.e.kind)
    ensures ConnectErrorKindFromValue(c.Value()) == Some(err.e.kind)
  {
    ConnectErrorKindOf(err.e.kind)
  }

  /** `RequestError::kind`: the C kind of the held error, the one of the same name. */
  function KindOfRequestError(err: RequestError): (c: CRequestErrorKind)
    reads err
    requires err.e != null
    ensures c.KindName() == RequestKindName(err.e.kind)
    ensures RequestErrorKindFromValue(c.Value()) == Some(err.e.kind)
  {
    RequestErrorKindOf(err.e.kind)
  }

  /** With the copy assignment as written, an error whose text was read once and which is then
      assigned a different error still reports the old text. */
  method StaleTextAfterCopyAssign(heap: Heap) returns (before: Option<string>, after: Option<string>, current: string)
    modifies heap
    ensures before == after == Some("request timed out")
    ensures current == "no responders" && after != Some(current)
  {
    var timedOut := new ErrorObj(RequestTimedOut, "request timed out");
    heap.Allocate(timedOut);
    var noResponders := new ErrorObj(NoResponders, "no responders");
    heap.Allocate(noResponders);
    var x := new ErrorHandle<RequestErrorKind>(timedOut);
    var y := new ErrorHandle<RequestErrorKind>(noResponders);
    before := x.What();
    x.CopyAssignAsWritten(heap, y);
    current := x.e.description;
    after := x.What();
  }

  /** With the intended copy assignment, the same sequence reports the new error's text. */
  method CurrentTextAfterCopyAssign(heap: Heap) returns (before: Option<string>, after: Option<string>, current: string)
    modifies heap
    ensures before == Some("request timed out")
    ensures current == "no responders" && after == Some(current)
  {
    var timedOut := new ErrorObj(RequestTimedOut, "request timed out");
    heap.Allocate(timedOut);
    var noResponders := new ErrorObj(NoResponders, "no responders");
    heap.Allocate(noResponders);
    var x := new ErrorHandle<RequestErrorKind>(timedOut);
    var y := new ErrorHandle<RequestErrorKind>(noResponders);
    before := x.What();
    x.CopyAssign(heap, y);
    current := x.e.description;
    after := x.What();
  }

  // ---------------------------------------------------------------------------------------
  // Connection

  /** `Connection`: owns the boxed connection `conn` when non-null; copies share the client. */
  class Connection {
    var conn: ConnectionObj?

    ghost predicate Valid(heap: Heap)
      reads this, heap
    {
      conn != null ==> conn in heap.live
    }

    /** `Connection()`: an empty handle. */
    constructor ()
      ensures conn == null
    {
      conn := null;
    }

    /** `Connection(AsyncNatsConnection*)`: adopts a raw connection, which may be null. */
    constructor FromRaw(conn: ConnectionObj?)
      ensures this.conn == conn
    {
      this.conn := conn;
    }

    /** The copy constructor: a new box on the same client (`async_nats_connection_clone`). */
    constructor CopyFrom(heap: Heap, o: Connection)
      requires o.conn != null
      modifies heap
      ensures conn != null && fresh(conn) && conn.client == o.conn.client && Valid(heap)
      ensures heap.live == old(heap.live) + {conn} && heap.log == old(heap.log)
    {
      var c := new ConnectionObj(o.conn.client);
      heap.Allocate(c);
      conn := c;
    }

    /** The move constructor: takes the other handle's box and empties it. */
    constructor MoveFrom(o: Connection)
      modifies o`conn
      ensures conn == old(o.conn) && o.conn == null && !o.IsTrue()
    {
      conn := o.conn;
      new;
      o.conn := null;
    }

    /** `~Connection`: deletes the box only when there is one. */
    method Destroy(heap: Heap)
      requires Valid(heap)
      modifies heap
      ensures conn != null ==> heap.live == old(heap.live) - {conn}
      ensures conn == null ==> heap.live == old(heap.live)
      ensures heap.log == old(heap.log)
    {
      if conn != null {
        heap.Free(conn);
      }
    }

    /** The copy assignment: self-assignment changes nothing; otherwise the old box (if any) is
        deleted first, then a new box on the other's client is taken. */
    method CopyAssign(heap: Heap, o: Connection) returns (self: Connection)
      requires Valid(heap) && (this != o ==> o.conn != null && (conn != null ==> conn != o.conn))
      modifies heap, `conn
      ensures self == this
      ensures this == o ==> conn == old(conn) && heap.live == old(heap.live)
      ensures this != o ==> conn != null && fresh(conn) && conn.client == o.conn.client && Valid(heap)
      ensures this != o ==> heap.live == old(heap.live) - (if old(conn) == null then {} else {old(conn)}) + {conn}
      ensures heap.log == old(heap.log)
    {
      self := this;
      if this == o {
        return;
      }
      if conn != null {
        heap.Free(conn);
      }
      var c := new ConnectionObj(o.conn.client);
      heap.Allocate(c);
      conn := c;
    }

    /** The move assignment: self-assignment changes nothing; otherwise the old box (if any) is
        deleted first, then the other handle's box is taken and that handle emptied. */
    method MoveAssign(heap: Heap, o: Connection) returns (self: Connection)
      requires Valid(heap) && o.Valid(heap)
      requires this != o && conn != null ==> conn != o.conn
      modifies heap, `conn, o`conn
      ensures self == this
      ensures this == o ==> conn == old(conn) && heap.live == old(heap.live)
      ensures this != o ==> conn == old(o.conn) && o.conn == null && Valid(heap)
      ensures this != o && old(conn) != null ==> heap.live == old(heap.live) - {old(conn)}
      ensures this != o && old(conn) == null ==> heap.live == old(heap.live)
      ensures heap.log == old(heap.log)
    {
      self := this;
      if this == o {
        return;
      }
      if conn != null {
        heap.Free(conn);
      }
      conn := o.conn;
      o.conn := null;
    }

    /** `operator bool`: whether the handle holds a connection. */
    predicate IsTrue()
      reads this
    {
      conn != null
    }
  }

  // ---------------------------------------------------------------------------------------
  // Completion trampolines

  /** What a handler learns from a completion: an error, or the value. */
  datatype Completion<E, V> = Failure(error: E) | Success(value: V)

  /** The `if (!msg)` / `if (!conn)` test of the request and connect trampolines: a missing
      value means failure with the error pointer; a present value means success. */
  function Classify<E, V>(value: Option<V>, error: E): (c: Completion<E, V>)
    ensures c.Failure? <==> value.None?
    ensures c.Failure? ==> c.error == error
    ensures c.Success? ==> value == Some(c.value)
  {
    match value
    case None => Failure(error)
    case Some(v) => Success(v)
  }

  /** A request's engine answer reaches the handler intact: the Rust dispatch followed by the
      C++ classification gives the reply as success, and an error as failure. */
  lemma DispatchThenClassify<E>(r: Response, error: E)
    ensures Classify(Dispatch(r).msg, error) == (if r.Replied? then Success(r.msg) else Failure(error))
  {
  }

  /** The arguments of a request handler: the `RequestError` inside the exception pointer, if
      any, and the `Message` (empty as `None`). */
  datatype RequestHandlerArgs = RequestHandlerArgs(error: Option<RequestError>, msg: Option<Message>)

  /** The arguments of a connect handler: the `ConnectionError` inside the exception pointer,
      if any, and the `Connection` handle. */
  datatype ConnectHandlerArgs = ConnectHandlerArgs(error: Option<ConnectionError>, conn: Connection)

  /** The `publish` trampolines: call the handler once with no arguments, then return its
      storage with `deallocate_ctx`, so the handler's destructor never runs. */
  method PublishCallback(heap: Heap, ctx: Context<()>)
    requires ctx in heap.live && ctx.calls == [] && !ctx.destroyed
    modifies heap, ctx
    ensures ctx.calls == [()] && !ctx.destroyed
    ensures heap.live == old(heap.live) - {ctx}
    ensures heap.log == old(heap.log) + [Invoked(ctx), Freed(ctx)]
    ensures Destroyed(ctx) !in old(heap.log) ==> !DestroyedBeforeFreed(heap.log)
  {
    heap.InvokeThenDeallocate(ctx, ());
  }

  /** The `subcribe` trampoline: never reports an error; calls the handler once with a
      `Subscribtion` owning `sub`, which is empty when the engine returned none, then returns
      the handler's storage with `deallocate_ctx`. */
  method SubscribeCallback(heap: Heap, ctx: Context<Subscribtion>, sub: SubscriptionObj?)
    requires ctx in heap.live && ctx.calls == [] && !ctx.destroyed
    modifies heap, ctx
    ensures |ctx.calls| == 1 && fresh(ctx.calls[0]) && ctx.calls[0].sub == sub && !ctx.destroyed
    ensures heap.live == old(heap.live) - {ctx}
    ensures heap.log == old(heap.log) + [Invoked(ctx), Freed(ctx)]
    ensures Destroyed(ctx) !in old(heap.log) ==> !DestroyedBeforeFreed(heap.log)
  {
    var s := new Subscribtion.FromRaw(sub);
    heap.InvokeThenDeallocate(ctx, s);
  }

  /** The `request` trampolines: with no message, the handler gets an exception pointer to a
      copy of `RequestError(e)`, holding a clone of `e` while `e` itself is deleted, and an
      empty `Message`; otherwise no error and the message. The handler is called once, then its
      storage is returned with `deallocate_ctx`. */
  method RequestCallback(heap: Heap, ctx: Context<RequestHandlerArgs>, msg: Option<Message>, e: ErrorObj?<RequestErrorKind>)
    requires ctx in heap.live && ctx.calls == [] && !ctx.destroyed
    requires msg.None? ==> e != null && e in heap.live
    modifies heap, ctx
    ensures |ctx.calls| == 1 && !ctx.destroyed
    ensures (ctx.calls[0].error.Some?) == msg.None? && ctx.calls[0].msg == msg
    ensures msg.None? ==>
      && var err := ctx.calls[0].error.value;
      && fresh(err) && err.e != null && fresh(err.e) && err.str == Uncached
      && err.e.kind == e.kind && err.e.description == e.description
      && heap.live == old(heap.live) - {ctx, e} + {err.e}
    ensures msg.Some? ==> heap.live == old(heap.live) - {ctx}
    ensures heap.log == old(heap.log) + [Invoked(ctx), Freed(ctx)]
    ensures Destroyed(ctx) !in old(heap.log) ==> !DestroyedBeforeFreed(heap.log)
  {
    var args;
    match Classify(msg, e) {
      case Failure(err) =>
        var re := MakeExceptionPtr(heap, err);
        args := RequestHandlerArgs(Some(re), None);
      case Success(m) =>
        args := RequestHandlerArgs(None, Some(m));
    }
    heap.InvokeThenDeallocate(ctx, args);
  }

  /** The `connect` trampoline: with no connection, the handler gets an exception pointer to a
      copy of `ConnectionError(e)`, holding a clone of `e` while `e` itself is deleted, and an
      empty `Connection`; otherwise no error and a `Connection` owning `conn`. The handler is
      called once, then its storage is returned with `deallocate_ctx`. */
  method ConnectCallback(heap: Heap, ctx: Context<ConnectHandlerArgs>, conn: ConnectionObj?, e: ErrorObj?<ConnectErrorKind>)
    requires ctx in heap.live && ctx.calls == [] && !ctx.destroyed
    requires conn == null ==> e != null && e in heap.live
    modifies heap, ctx
    ensures |ctx.calls| == 1 && !ctx.destroyed
    ensures fresh(ctx.calls[0].conn) && ctx.calls[0].conn.conn == conn
    ensures (ctx.calls[0].error.Some?) == (conn == null)
    ensures conn == null ==>
      && var err := ctx.calls[0].error.value;
      && fresh(err) && err.e != null && fresh(err.e) && err.str == Uncached
      && err.e.kind == e.kind && err.e.description == e.description
      && heap.live == old(heap.live) - {ctx, e} + {err.e}
    ensures conn != null ==> heap.live == old(heap.live) - {ctx}
    ensures heap.log == old(heap.log) + [Invoked(ctx), Freed(ctx)]
    ensures Destroyed(ctx) !in old(heap.log) ==> !DestroyedBeforeFreed(heap.log)
  {
    var handle := new Connection.FromRaw(conn);
    var args;
    match Classify(if conn == null then None else Some(conn), e) {
      case Failure(err) =>
        var ce := MakeExceptionPtr(heap, err);
        args := ConnectHandlerArgs(Some(ce), handle);
      case Success(_) =>
        args := ConnectHandlerArgs(None, handle);
    }
    heap.InvokeThenDeallocate(ctx, args);
  }

  /** The `publish` trampoline as intended: the same call, but the handler is destroyed before
      its storage is freed (as `receive` does with `delete`), which every trampoline would need. */
  method PublishCallbackIntended(heap: Heap, ctx: Context<()>)
    requires ctx in heap.live && ctx.calls == [] && !ctx.destroyed
    modifies heap, ctx
    ensures ctx.calls == [()] && ctx.destroyed
    ensures heap.live == old(heap.live) - {ctx}
    ensures heap.log == old(heap.log) + [Invoked(ctx), Destroyed(ctx), Freed(ctx)]
    ensures DestroyedBeforeFreed(old(heap.log)) ==> DestroyedBeforeFreed(heap.log)
  {
    heap.InvokeThenDestroy(ctx, ());
  }

  // ---------------------------------------------------------------------------------------
  // Operations from start to completion, the engine's part given as its outcome

  /** `publish`: the handler is moved into a new context, the engine publishes (its result is
      ignored), and the handler is called once with no arguments; its storage is freed without
      its destructor, so afterwards some freed handler was never destroyed. */
  method Publish(heap: Heap, c: Connection) returns (ctx: Context<()>)
    requires c.conn != null
    modifies heap
    ensures fresh(ctx) && ctx.calls == [()] && !ctx.destroyed
    ensures heap.live == old(heap.live) && heap.log == old(heap.log) + [Invoked(ctx), Freed(ctx)]
    ensures !DestroyedBeforeFreed(heap.log)
  {
    ctx := heap.AllocateContext<()>();
    PublishCallback(heap, ctx);
  }

  /** `subcribe`: when the engine accepts, the handler receives a `Subscribtion` owning a new
      boxed subscription with nothing delivered yet; when it refuses, an empty one. The
      handler's storage is freed without its destructor. */
  method Subscribe(heap: Heap, c: Connection, accepted: bool) returns (ctx: Context<Subscribtion>)
    requires c.conn != null
    modifies heap
    ensures fresh(ctx) && |ctx.calls| == 1 && !ctx.destroyed
    ensures heap.log == old(heap.log) + [Invoked(ctx), Freed(ctx)] && !DestroyedBeforeFreed(heap.log)
    ensures ctx.calls[0].IsSome() == accepted
    ensures accepted ==> fresh(ctx.calls[0].sub) && ctx.calls[0].sub.pending == [] && ctx.calls[0].sub.open
    ensures heap.live == old(heap.live) + (if accepted then {ctx.calls[0].sub} else {})
  {
    ctx := heap.AllocateContext<Subscribtion>();
    var sub: SubscriptionObj? := null;
    if accepted {
      sub := new SubscriptionObj([], true);
      heap.Allocate(sub);
    }
    SubscribeCallback(heap, ctx, sub);
  }

  /** A subscription from `subcribe` is received from like any other: after the engine
      delivers `m`, `receive` hands it to its handler, which is destroyed before it is freed,
      although the subscribe handler before it was freed without its destructor. */
  method SubscribeThenReceive(heap: Heap, c: Connection, m: Message)
    returns (sctx: Context<Subscribtion>, rctx: Context<Option<Message>>)
    requires c.conn != null
    modifies heap
    ensures |sctx.calls| == 1 && !sctx.destroyed && rctx.calls == [Some(m)] && rctx.destroyed
    ensures heap.log == old(heap.log) + [Invoked(sctx), Freed(sctx), Invoked(rctx), Destroyed(rctx), Freed(rctx)]
  {
    sctx := Subscribe(heap, c, true);
    var s := sctx.calls[0];
    s.sub.pending := [m];
    rctx := s.ReceiveNext(heap);
  }

  /** `request(subject, data)`: the buffer's contents when the engine's task reads it (`data`)
      are sent (`sent == data` holds by that abstraction, not by a copy made in the call), and
      the handler is called exactly once, with the reply and no error, or with the engine's
      error and no message; its storage is freed without its destructor. */
  method Request(heap: Heap, c: Connection, data: Bytes, response: Response)
    returns (sent: Bytes, ctx: Context<RequestHandlerArgs>)
    requires c.conn != null
    modifies heap
    ensures sent == data
    ensures fresh(ctx) && |ctx.calls| == 1 && !ctx.destroyed
    ensures heap.log == old(heap.log) + [Invoked(ctx), Freed(ctx)] && !DestroyedBeforeFreed(heap.log)
    ensures response.Replied? ==> ctx.calls[0] == RequestHandlerArgs(None, Some(response.msg)) && heap.live == old(heap.live)
    ensures response.Failed? ==>
      && ctx.calls[0].msg == None && ctx.calls[0].error.Some?
      && var err := ctx.calls[0].error.value;
      && err.e != null && err.e.kind == response.failure.kind && err.e.description == response.failure.description
      && heap.live == old(heap.live) + {err.e}
  {
    ctx := heap.AllocateContext<RequestHandlerArgs>();
    var msg, e;
    sent, msg, e := RequestAsync(heap, data, response);
    RequestCallback(heap, ctx, msg, e);
  }

  /** `request(subject, Request&&)`: the builder's box is released and taken by the engine,
      which sends the request built from it; the handler is called exactly once, with the reply
      and no error, or with the engine's error and no message; its storage is freed without its
      destructor. */
  method SendRequest(heap: Heap, c: Connection, req: CppRequest.Request, response: Response)
    returns (sent: OutgoingRequest, ctx: Context<RequestHandlerArgs>)
    requires c.conn != null && req.request != null && req.Valid(heap)
    modifies heap, req, req.request
    ensures sent == OutgoingRequest(old(req.request.inbox), old(req.request.timeoutMillis), old(req.request.payload))
    ensures req.request == null
    ensures fresh(ctx) && |ctx.calls| == 1 && !ctx.destroyed
    ensures heap.log == old(heap.log) + [Invoked(ctx), Freed(ctx)] && !DestroyedBeforeFreed(heap.log)
    ensures response.Replied? ==>
      ctx.calls[0] == RequestHandlerArgs(None, Some(response.msg)) && heap.live == old(heap.live) - {old(req.request)}
    ensures response.Failed? ==>
      && ctx.calls[0].msg == None && ctx.calls[0].error.Some?
      && var err := ctx.calls[0].error.value;
      && err.e != null && err.e.kind == response.failure.kind && err.e.description == response.failure.description
      && heap.live == old(heap.live) - {old(req.request)} + {err.e}
  {
    ctx := heap.AllocateContext<RequestHandlerArgs>();
    var raw := req.Release();
    var msg, e;
    sent, msg, e := SendRequestAsync(heap, raw, response);
    RequestCallback(heap, ctx, msg, e);
  }

  /** The engine's answer to a connection attempt: a connection on some client, or an error. */
  datatype ConnectOutcome = Connected(client: nat) | Refused(kind: ConnectErrorKind, description: string)

  /** `connect`: the handler is called exactly once, with no error and a `Connection` owning a
      new boxed connection, or with a `ConnectionError` owning a new boxed error and an empty
      `Connection`; its storage is freed without its destructor. */
  method Connect(heap: Heap, options: ConnectionOptions, outcome: ConnectOutcome) returns (ctx: Context<ConnectHandlerArgs>)
    requires options.options != null
    modifies heap
    ensures fresh(ctx) && |ctx.calls| == 1 && !ctx.destroyed
    ensures heap.log == old(heap.log) + [Invoked(ctx), Freed(ctx)] && !DestroyedBeforeFreed(heap.log)
    ensures outcome.Connected? ==>
      && ctx.calls[0].error == None && ctx.calls[0].conn.IsTrue()
      && ctx.calls[0].conn.conn.client == outcome.client
      && heap.live == old(heap.live) + {ctx.calls[0].conn.conn}
    ensures outcome.Refused? ==>
      && !ctx.calls[0].conn.IsTrue() && ctx.calls[0].error.Some?
      && var err := ctx.calls[0].error.value;
      && err.e != null && err.e.kind == outcome.kind && err.e.description == outcome.description
      && heap.live == old(heap.live) + {err.e}
  {
    ctx := heap.AllocateContext<ConnectHandlerArgs>();
    match outcome
    case Connected(client) =>
      var conn := new ConnectionObj(client);
      heap.Allocate(conn);
      ConnectCallback(heap, ctx, conn, null);
    case Refused(kind, description) =>
      var e := new ErrorObj(kind, description);
      heap.Allocate(e);
      ConnectCallback(heap, ctx, null, e);
  }
}
