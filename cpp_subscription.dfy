/** The C++ `Subscribtion` handle: a move-only owner of one boxed subscription, and its
    `receive`, whose handler context is created with `new` and removed with `delete`. */
module CppSubscription {
  import opened Common
  import opened Ffi
  import opened Engine

  /** `Subscribtion`: owns the boxed subscription `sub` when non-null. */
  class Subscribtion {
    var sub: SubscriptionObj?

    /** The handle owns a live box, if any. */
    ghost predicate Valid(heap: Heap)
      reads this, heap
    {
      sub != null ==> sub in heap.live
    }

    /** `Subscribtion()`: an empty handle. */
    constructor ()
      ensures sub == null
    {
      sub := null;
    }

    /** `Subscribtion(AsyncNatsSubscription*)`: adopts a raw subscription, which may be null. */
    constructor FromRaw(sub: SubscriptionObj?)
      ensures this.sub == sub
    {
      this.sub := sub;
    }

    /** `Subscribtion(Subscribtion&&)`: takes the other handle's box and empties it. */
    constructor MoveFrom(o: Subscribtion)
      modifies o`sub
      ensures sub == old(o.sub) && o.sub == null
    {
      sub := o.sub;
      new;
      o.sub := null;
    }

    /** `~Subscribtion`: deletes the box only when there is one. */
    method Destroy(heap: Heap)
      requires Valid(heap)
      modifies heap
      ensures sub != null ==> heap.live == old(heap.live) - {sub}
      ensures sub == null ==> heap.live == old(heap.live)
      ensures heap.log == old(heap.log)
    {
      if sub != null {
        heap.Free(sub);
      }
    }

    /** `operator=(Subscribtion&&)`: self-assignment changes nothing; otherwise the old box (if
        any) is deleted first, then the other handle's box is taken and that handle emptied. */
    method MoveAssign(heap: Heap, o: Subscribtion) returns (self: Subscribtion)
      requires Valid(heap) && o.Valid(heap)
      requires this != o && sub != null ==> sub != o.sub
      modifies heap, `sub, o`sub
      ensures self == this
      ensures this == o ==> sub == old(sub) && heap.live == old(heap.live)
      ensures this != o ==> sub == old(o.sub) && o.sub == null && Valid(heap)
      ensures this != o && old(sub) != null ==> heap.live == old(heap.live) - {old(sub)}
      ensures this != o && old(sub) == null ==> heap.live == old(heap.live)
      ensures heap.log == old(heap.log)
    {
      self := this;
      if this == o {
        return;
      }
      if sub != null {
        heap.Free(sub);
      }
      sub := o.sub;
      o.sub := null;
    }

    /** `operator bool`: whether the handle holds a subscription. */
    predicate IsSome()
      reads this
    {
      sub != null
    }

    /** `release_raw`: hands the box over to the caller and leaves the handle empty. */
    method ReleaseRaw() returns (r: SubscriptionObj?)
      modifies `sub
      ensures r == old(sub) && (r != null) == old(IsSome())
      ensures sub == null && !IsSome()
    {
      r := sub;
      sub := null;
    }

    /** `receive`, start: the handler is moved into a context created with `new`; the engine
        then pops the subscription in a task of its own. */
    method Receive(heap: Heap) returns (ctx: Context<Option<Message>>)
      requires sub != null
      modifies heap
      ensures fresh(ctx) && ctx.calls == [] && !ctx.destroyed
      ensures heap.live == old(heap.live) + {ctx} && heap.log == old(heap.log)
    {
      ctx := heap.AllocateContext<Option<Message>>();
    }

    /** `receive` from start to completion, one step of the engine's task: with a message
        pending, or the stream ended, the handler is called once with `Message(msg)` (empty at
        the end of the stream) and its context is destroyed and freed; otherwise the task keeps
        waiting and the context stays live and uncalled. */
    method ReceiveNext(heap: Heap) returns (ctx: Context<Option<Message>>)
      requires sub != null
      modifies heap, sub`pending
      ensures fresh(ctx)
      ensures DestroyedBeforeFreed(old(heap.log)) ==> DestroyedBeforeFreed(heap.log)
      ensures old(sub.pending) != [] ==>
        ctx.calls == [Some(old(sub.pending)[0])] && sub.pending == old(sub.pending)[1..]
      ensures old(sub.pending) == [] && !sub.open ==> ctx.calls == [None] && sub.pending == []
      ensures old(sub.pending) == [] && sub.open ==> ctx.calls == [] && ctx in heap.live && sub.pending == []
      ensures ctx.calls != [] ==>
        && ctx.destroyed && heap.live == old(heap.live)
        && heap.log == old(heap.log) + [Invoked(ctx), Destroyed(ctx), Freed(ctx)]
      ensures ctx.calls == [] ==> !ctx.destroyed && heap.live == old(heap.live) + {ctx} && heap.log == old(heap.log)
    {
      ctx := Receive(heap);
      var next := sub.Pop();
      if next.Ready? {
        ReceiveCallback(heap, ctx, next.value);
      }
    }
  }

  /** The `receive` trampoline: calls the handler once with `Message(msg)` (empty when `msg` is
      null), then `delete`s the context, running the handler's destructor before its storage
      is freed. */
  method ReceiveCallback(heap: Heap, ctx: Context<Option<Message>>, msg: Option<Message>)
    requires ctx in heap.live && ctx.calls == [] && !ctx.destroyed
    modifies heap, ctx
    ensures ctx.calls == [msg] && ctx.destroyed
    ensures heap.live == old(heap.live) - {ctx}
    ensures heap.log == old(heap.log) + [Invoked(ctx), Destroyed(ctx), Freed(ctx)]
    ensures DestroyedBeforeFreed(old(heap.log)) ==> DestroyedBeforeFreed(heap.log)
  {
    heap.InvokeThenDestroy(ctx, msg);
  }
}
