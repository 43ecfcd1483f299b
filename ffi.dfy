/** The boundary between the C++ headers and the Rust library: which heap objects are owned
    through raw pointers, and how a completion handler is stored, invoked and released. */
module Ffi {

  /** The heap storage of one asynchronous operation's completion handler: the handler is moved
      here when the operation starts, and the engine's callback invokes it. */
  class Context<A> {
    /** Arguments of every invocation of the handler, in order. */
    var calls: seq<A>
    /** Whether the handler object's destructor has run. */
    var destroyed: bool

    constructor ()
      ensures calls == [] && !destroyed
    {
      calls := [];
      destroyed := false;
    }
  }

  /** What happens to a handler context, in order. */
  datatype Event = Invoked(ctx: object) | Destroyed(ctx: object) | Freed(ctx: object)

  /** The objects currently reachable through an owning raw pointer (a `Box::into_raw` result,
      a `new` or an allocator's `allocate`), and the history of handler contexts. */
  class Heap {
    var live: set<object>
    var log: seq<Event>

    constructor ()
      ensures live == {} && log == []
    {
      live := {};
      log := [];
    }

    /** Hands a newly boxed object out through a raw pointer. */
    method Allocate(o: object)
      requires o !in live
      modifies this
      ensures live == old(live) + {o} && log == old(log)
    {
      live := live + {o};
    }

    /** `allocate_ctx` (or `new`): moves a completion handler into fresh heap storage. */
    method AllocateContext<A>() returns (ctx: Context<A>)
      modifies this
      ensures fresh(ctx) && ctx.calls == [] && !ctx.destroyed
      ensures live == old(live) + {ctx} && log == old(log)
      ensures Destroyed(ctx) !in log
    {
      ctx := new Context<A>();
      live := live + {ctx};
    }

    /** Reclaims the object behind a raw pointer; freeing anything not live would be a double free. */
    method Free(o: object)
      requires o in live
      modifies this
      ensures live == old(live) - {o} && log == old(log)
    {
      live := live - {o};
    }

    /** Completion through `deallocate_ctx`: invokes the handler once, then returns the storage
        to the allocator WITHOUT running the handler's destructor. */
    method InvokeThenDeallocate<A>(ctx: Context<A>, args: A)
      requires ctx in live && ctx.calls == [] && !ctx.destroyed
      modifies this, ctx
      ensures ctx.calls == [args] && !ctx.destroyed
      ensures live == old(live) - {ctx}
      ensures log == old(log) + [Invoked(ctx), Freed(ctx)]
      ensures Destroyed(ctx) !in old(log) ==> !DestroyedBeforeFreed(log)
    {
      if Destroyed(ctx) !in log {
        DeallocateBreaksOrder(log, ctx);
      }
      ctx.calls := ctx.calls + [args];
      log := log + [Invoked(ctx)];
      live := live - {ctx};
      log := log + [Freed(ctx)];
    }

    /** Completion through `delete` (or a destroy followed by deallocation): invokes the handler
        once, runs its destructor, then frees the storage. */
    method InvokeThenDestroy<A>(ctx: Context<A>, args: A)
      requires ctx in live && ctx.calls == [] && !ctx.destroyed
      modifies this, ctx
      ensures ctx.calls == [args] && ctx.destroyed
      ensures live == old(live) - {ctx}
      ensures log == old(log) + [Invoked(ctx), Destroyed(ctx), Freed(ctx)]
      ensures DestroyedBeforeFreed(old(log)) ==> DestroyedBeforeFreed(log)
    {
      if DestroyedBeforeFreed(log) {
        DestroyKeepsOrder(log, ctx);
      }
      ctx.calls := ctx.calls + [args];
      log := log + [Invoked(ctx)];
      ctx.destroyed := true;
      log := log + [Destroyed(ctx)];
      live := live - {ctx};
      log := log + [Freed(ctx)];
    }
  }

  /** Every context freed in `log` had its destructor run earlier in `log`. */
  ghost predicate DestroyedBeforeFreed(log: seq<Event>)
  {
    forall i | 0 <= i < |log| && log[i].Freed? ::
      exists j | 0 <= j < i :: log[j] == Destroyed(log[i].ctx)
  }

  /** Appending a destroy-then-free completion keeps every free preceded by its destruction. */
  lemma DestroyKeepsOrder(log: seq<Event>, ctx: object)
    requires DestroyedBeforeFreed(log)
    ensures DestroyedBeforeFreed(log + [Invoked(ctx), Destroyed(ctx), Freed(ctx)])
  {
    var log' := log + [Invoked(ctx), Destroyed(ctx), Freed(ctx)];
    forall i | 0 <= i < |log'| && log'[i].Freed?
      ensures exists j | 0 <= j < i :: log'[j] == Destroyed(log'[i].ctx)
    {
      if i < |log| {
        var j :| 0 <= j < i && log[j] == Destroyed(log[i].ctx);
        assert log'[j] == log[j];
      } else {
        assert log'[|log| + 1] == Destroyed(ctx);
      }
    }
  }

  /** Appending an invoke-then-deallocate completion of a context that was never destroyed
      frees it without its destructor having run. */
  lemma DeallocateBreaksOrder(log: seq<Event>, ctx: object)
    requires Destroyed(ctx) !in log
    ensures !DestroyedBeforeFreed(log + [Invoked(ctx), Freed(ctx)])
  {
    var log' := log + [Invoked(ctx), Freed(ctx)];
    var i := |log| + 1;
    assert log'[i] == Freed(ctx);
    forall j | 0 <= j < i
      ensures log'[j] != Destroyed(ctx)
    {
      if j < |log| {
        assert log'[j] == log[j] && log[j] in log;
      } else {
        assert log'[j] == Invoked(ctx);
      }
    }
  }
}
