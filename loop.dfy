/** Signal sources on a loop (`pipewire/src/loop_.rs`).

    `Loop::add_signal_local` boxes a closure, asks the loop's utils interface
    for a native signal source bound to the `call_closure` trampoline and the
    box, and returns a `Source` handle; dropping the handle calls
    `Loop::destroy_source` with the stored pointer, after which Rust's drop
    glue frees the box.

    The native side is a registry of live sources (each with the context it
    was registered with), the set of allocated closure boxes and a trace of
    what crossed the boundary, in order. Each operation is first given as a
    pure step on a `State`; the classes `NativeLoop` and `Source` are the
    imperative model and are proved to perform exactly those steps. Fresh
    addresses come from a counter, so an address is never handed out twice. */
module Loop {
  import opened Native

  /** What crosses the boundary, in order. */
  datatype Event =
    | BoxAlloc(box: Ptr)                          // Box::into_raw(Box::new(callback))
    | AddSignal(signal: int, ctx: Ptr, source: Ptr) // utils add_signal(signal, call_closure, ctx), returning source
    | DestroySource(source: Ptr)                  // utils destroy_source(source)
    | BoxFree(box: Ptr)                           // the closure box is dropped
    | ClosureCall(box: Ptr)                       // the closure in this box ran

  /** A loop (its `pw_loop` pointer and the loop's `utils` pointer) and the
      native registry behind it. */
  datatype State = State(
    ptr: Ptr,
    utils: Ptr,
    sources: map<Ptr, Ptr>,  // live native sources, each with its context
    boxes: set<Ptr>,         // closure boxes currently allocated
    next: nat,               // every address handed out so far is at most next
    trace: seq<Event>)

  /** What a `Source` stores: the native source and its closure box. */
  datatype SourceHandle = SourceHandle(ptr: Ptr, box: Ptr)

  /** The outcome of an operation together with the state it leaves. */
  datatype Step<T> = Step(outcome: Outcome<T>, post: State)

  /** Addresses in the registry are non-null and were handed out already. */
  ghost predicate Wf(s: State)
  {
    && NULL !in s.sources
    && (forall p :: p in s.sources ==> p <= s.next && 0 < s.sources[p] <= s.next)
    && (forall b :: b in s.boxes ==> 0 < b <= s.next)
  }

  /** Both unwraps on the way to the utils interface succeed. */
  predicate LoopReady(s: State)
  {
    s.ptr != NULL && s.utils != NULL
  }

  /** The number of `add_signal` requests in a trace. */
  function Requests(t: seq<Event>): nat
  {
    if t == [] then 0 else (if t[0].AddSignal? then 1 else 0) + Requests(t[1..])
  }

  lemma {:induction false} RequestsAppend(a: seq<Event>, b: seq<Event>)
    ensures Requests(a + b) == Requests(a) + Requests(b)
  {
    if a == [] {
      assert a + b == b;
    } else {
      assert (a + b)[1..] == a[1..] + b;
      RequestsAppend(a[1..], b);
    }
  }

  /** `call_closure`: restores the closure from the context and runs it once;
      the signal number is not looked at. */
  function CallClosure(ctx: Ptr, signal: int): (r: Outcome<Event>)
    ensures r.Panic? <==> ctx == NULL
    ensures r.Panic? ==> r.fatal == NullContext
    ensures r.Done? ==> r.value.ClosureCall? && r.value.box == ctx
  {
    if ctx == NULL then Panic(NullContext) else Done(ClosureCall(ctx))
  }

  /** `Loop::add_signal_local`, for a caller that is (`onMain`) or is not on
      the main thread, and a native `add_signal` that fails (returns null)
      exactly when `nativeFails`. */
  function AddSignalLocalStep(s: State, signal: int, onMain: bool, nativeFails: bool): (r: Step<SourceHandle>)
    requires Wf(s)
    ensures Wf(r.post) && r.post.ptr == s.ptr && r.post.utils == s.utils && s.next <= r.post.next
    ensures s.trace <= r.post.trace
    // the thread check comes before anything else
    ensures !onMain ==> r == Step(Panic(NotMainThread), s)
    // exactly one native request when the utils interface is reached, none otherwise
    ensures Requests(r.post.trace) == Requests(s.trace) + (if onMain && LoopReady(s) then 1 else 0)
    // a null loop or utils pointer is fatal, and the box already handed out is leaked
    ensures onMain && !LoopReady(s) ==>
              && r.outcome == Panic(if s.ptr == NULL then NullLoop else NullUtils)
              && r.post.sources == s.sources
              && exists b :: b !in s.boxes && r.post.boxes == s.boxes + {b} && r.post.trace == s.trace + [BoxAlloc(b)]
    // a null source is fatal; no source exists and the box is freed again
    ensures onMain && LoopReady(s) && nativeFails ==>
              && r.outcome == Panic(NullSource) && r.post.sources == s.sources && r.post.boxes == s.boxes
              && exists b :: b !in s.boxes && r.post.trace == s.trace + [BoxAlloc(b), AddSignal(signal, b, NULL), BoxFree(b)]
    // a handle is produced exactly on full success ...
    ensures r.outcome.Done? <==> onMain && LoopReady(s) && !nativeFails
    // ... and it holds a new live source registered with a new box
    ensures r.outcome.Done? ==>
              var h := r.outcome.value;
              && h.ptr != NULL && h.ptr !in s.sources && h.box !in s.boxes
              && r.post.sources == s.sources[h.ptr := h.box]
              && r.post.boxes == s.boxes + {h.box}
              && r.post.trace == s.trace + [BoxAlloc(h.box), AddSignal(signal, h.box, h.ptr)]
  {
    if !onMain then Step(Panic(NotMainThread), s)
    else
      var box := s.next + 1;
      var s1 := s.(next := box, boxes := s.boxes + {box}, trace := s.trace + [BoxAlloc(box)]);
      RequestsAppend(s.trace, [BoxAlloc(box)]);
      if s.ptr == NULL then Step(Panic(NullLoop), s1)
      else if s.utils == NULL then Step(Panic(NullUtils), s1)
      else
        var source := if nativeFails then NULL else box + 1;
        var req := [AddSignal(signal, box, source)];
        var s2 := s1.(next := if nativeFails then box else source,
                      sources := if nativeFails then s1.sources else s1.sources[source := box],
                      trace := s1.trace + req);
        RequestsAppend(s1.trace, req);
        if source == NULL then
          RequestsAppend(s2.trace, [BoxFree(box)]);
          Step(Panic(NullSource), s2.(boxes := s2.boxes - {box}, trace := s2.trace + [BoxFree(box)]))
        else
          Step(Done(SourceHandle(source, box)), s2)
  }

  /** `Loop::destroy_source`: one native `destroy_source` request carrying the
      given source pointer. */
  function DestroySourceStep(s: State, source: Ptr): (r: Step<()>)
    requires Wf(s)
    ensures Wf(r.post) && r.post.ptr == s.ptr && r.post.utils == s.utils && r.post.next == s.next
    ensures r.outcome.Panic? <==> !LoopReady(s)
    ensures !LoopReady(s) ==> r == Step(Panic(if s.ptr == NULL then NullLoop else NullUtils), s)
    ensures LoopReady(s) ==>
              && r.post.trace == s.trace + [DestroySource(source)]
              && r.post.sources == s.sources - {source}
              && r.post.boxes == s.boxes
  {
    if s.ptr == NULL then Step(Panic(NullLoop), s)
    else if s.utils == NULL then Step(Panic(NullUtils), s)
    else Step(Done(()), s.(sources := s.sources - {source}, trace := s.trace + [DestroySource(source)]))
  }

  /** Dropping a `Source`: `Drop::drop` destroys the source through the
      handle's loop, then the drop glue frees the closure box (also when
      `drop` panics, since unwinding still drops the fields). */
  function DropSourceStep(s: State, h: SourceHandle): (r: Step<()>)
    requires Wf(s)
    ensures Wf(r.post) && r.post.ptr == s.ptr && r.post.utils == s.utils && r.post.next == s.next
    // destroy strictly before free, each exactly once
    ensures LoopReady(s) ==> r.post.trace == s.trace + [DestroySource(h.ptr), BoxFree(h.box)]
    ensures !LoopReady(s) ==> r.post.trace == s.trace + [BoxFree(h.box)]
    // a drop on a loop whose pointers are null panics, but the box is still freed
    ensures r.outcome.Panic? <==> !LoopReady(s)
    ensures r.post.sources == if LoopReady(s) then s.sources - {h.ptr} else s.sources
    ensures r.post.boxes == s.boxes - {h.box}
  {
    var d := DestroySourceStep(s, h.ptr);
    Step(d.outcome, d.post.(boxes := d.post.boxes - {h.box}, trace := d.post.trace + [BoxFree(h.box)]))
  }

  /** The native loop dispatching a signal to `source`: a live source has its
      trampoline called with its own context, any other source is ignored. */
  function FireStep(s: State, source: Ptr, signal: int): (r: Step<()>)
    requires Wf(s)
    ensures Wf(r.post) && r.post.sources == s.sources && r.post.boxes == s.boxes
    ensures r.post.ptr == s.ptr && r.post.utils == s.utils && r.post.next == s.next
    ensures r.outcome.Done?
    ensures source !in s.sources ==> r.post == s
    ensures source in s.sources ==> r.post.trace == s.trace + [ClosureCall(s.sources[source])]
  {
    if source !in s.sources then Step(Done(()), s)
    else match CallClosure(s.sources[source], signal)
      case Done(e) => Step(Done(()), s.(trace := s.trace + [e]))
      case Panic(f) => Step(Panic(f), s)
  }

  /** The trampoline does not depend on the signal it is passed. */
  lemma CallClosureIgnoresSignal(ctx: Ptr, a: int, b: int)
    ensures CallClosure(ctx, a) == CallClosure(ctx, b)
  {
  }

  /** The loop firing the same signal at `source` `n` times. */
  function FireTimes(s: State, source: Ptr, signal: int, n: nat): (r: State)
    requires Wf(s)
    ensures Wf(r)
    decreases n
  {
    if n == 0 then s else FireTimes(FireStep(s, source, signal).post, source, signal, n - 1)
  }

  /** `n` signals delivered to a live source run its closure exactly `n` times
      and leave the registry as it was. */
  lemma {:induction false} FiringCountsCalls(s: State, source: Ptr, signal: int, n: nat)
    requires Wf(s) && source in s.sources
    ensures FireTimes(s, source, signal, n).sources == s.sources
    ensures FireTimes(s, source, signal, n).boxes == s.boxes
    ensures multiset(FireTimes(s, source, signal, n).trace)[ClosureCall(s.sources[source])]
            == multiset(s.trace)[ClosureCall(s.sources[source])] + n
    decreases n
  {
    if n > 0 {
      var s' := FireStep(s, source, signal).post;
      FiringCountsCalls(s', source, signal, n - 1);
    }
  }

  /** Once its handle is dropped, a source's closure never runs again. */
  lemma {:induction false} NoCallAfterDrop(s: State, h: SourceHandle, signal: int, n: nat)
    requires Wf(s) && LoopReady(s)
    ensures var dropped := DropSourceStep(s, h).post;
            FireTimes(dropped, h.ptr, signal, n) == dropped
  {
    var dropped := DropSourceStep(s, h).post;
    NotLiveFiresNothing(dropped, h.ptr, signal, n);
  }

  lemma {:induction false} NotLiveFiresNothing(s: State, source: Ptr, signal: int, n: nat)
    requires Wf(s) && source !in s.sources
    ensures FireTimes(s, source, signal, n) == s
    decreases n
  {
    if n > 0 {
      NotLiveFiresNothing(FireStep(s, source, signal).post, source, signal, n - 1);
    }
  }

  /** The imperative model: a `Loop` implementation and its native registry. */
  class NativeLoop {
    const ptr: Ptr
    const utils: Ptr
    var sources: map<Ptr, Ptr>
    var boxes: set<Ptr>
    var next: nat
    var trace: seq<Event>

    function Snapshot(): State
      reads this
    {
      State(ptr, utils, sources, boxes, next, trace)
    }

    ghost predicate Valid()
      reads this
    {
      Wf(Snapshot())
    }

    /** A loop whose `as_ptr()` is `ptr` and whose `utils` field is `utils`,
        with no sources yet. */
    constructor (ptr: Ptr, utils: Ptr)
      ensures Valid() && Snapshot() == State(ptr, utils, map[], {}, 0, [])
    {
      this.ptr, this.utils := ptr, utils;
      sources, boxes, next, trace := map[], {}, 0, [];
    }

    /** The native utils `add_signal`: creates a source bound to `ctx`, or
        returns null when `fails`. */
    method NativeAddSignal(signal: int, ctx: Ptr, fails: bool) returns (source: Ptr)
      requires Valid() && 0 < ctx <= next
      modifies this
      ensures Valid() && boxes == old(boxes)
      ensures fails ==> source == NULL && sources == old(sources) && next == old(next)
      ensures !fails ==> source == old(next) + 1 && next == source && sources == old(sources)[source := ctx]
      ensures trace == old(trace) + [AddSignal(signal, ctx, source)]
    {
      source := if fails then NULL else next + 1;
      if !fails {
        next := source;
        sources := sources[source := ctx];
      }
      trace := trace + [AddSignal(signal, ctx, source)];
    }

    /** `Loop::add_signal_local`. */
    method AddSignalLocal(signal: int, onMain: bool, nativeFails: bool) returns (r: Outcome<Source>)
      requires Valid()
      modifies this
      ensures Valid()
      ensures var step := AddSignalLocalStep(old(Snapshot()), signal, onMain, nativeFails);
              && Snapshot() == step.post
              && (r.Panic? <==> step.outcome.Panic?)
              && (r.Panic? ==> r.fatal == step.outcome.fatal)
              && (r.Done? ==> fresh(r.value) && r.value.loop_ == this && !r.value.dropped
                              && r.value.Handle() == step.outcome.value)
    {
      if !onMain {
        return Panic(NotMainThread);
      }
      var box := next + 1;
      next, boxes, trace := box, boxes + {box}, trace + [BoxAlloc(box)];
      if ptr == NULL {
        return Panic(NullLoop);
      }
      if utils == NULL {
        return Panic(NullUtils);
      }
      var source := NativeAddSignal(signal, box, nativeFails);
      if source == NULL {
        // expect("source is NULL") unwinds and drops the box reclaimed by Box::from_raw
        boxes, trace := boxes - {box}, trace + [BoxFree(box)];
        return Panic(NullSource);
      }
      var handle := new Source(source, this, box);
      return Done(handle);
    }

    /** `Loop::destroy_source`. */
    method DestroySource(source: Source) returns (r: Outcome<()>)
      requires Valid()
      modifies this
      ensures Valid()
      ensures var step := DestroySourceStep(old(Snapshot()), source.ptr);
              Snapshot() == step.post && r == step.outcome
    {
      if ptr == NULL {
        return Panic(NullLoop);
      }
      if utils == NULL {
        return Panic(NullUtils);
      }
      sources := sources - {source.ptr};
      trace := trace + [Event.DestroySource(source.ptr)];
      return Done(());
    }

    /** The drop glue releasing a closure box. */
    method FreeBox(box: Ptr)
      requires Valid()
      modifies this
      ensures Valid() && Snapshot() == old(Snapshot()).(boxes := old(boxes) - {box}, trace := old(trace) + [BoxFree(box)])
    {
      boxes, trace := boxes - {box}, trace + [BoxFree(box)];
    }
  }

  /** `Source<'a, F, L>`: the native source, a borrow of its loop and the
      closure box. `dropped` records that Rust's ownership has already run
      this handle's `Drop`, which it does at most once. */
  class Source {
    const ptr: NonNull
    const loop_: NativeLoop
    const data: Ptr
    ghost var dropped: bool

    function Handle(): SourceHandle
    {
      SourceHandle(ptr, data)
    }

    constructor (ptr: NonNull, loop_: NativeLoop, data: Ptr)
      ensures this.ptr == ptr && this.loop_ == loop_ && this.data == data && !dropped
    {
      this.ptr, this.loop_, this.data := ptr, loop_, data;
      dropped := false;
    }

    /** `Drop for Source`: destroy on its own loop, then free the box. */
    method Drop()
      requires !dropped && loop_.Valid()
      modifies this, loop_
      ensures dropped && loop_.Valid()
      ensures loop_.Snapshot() == DropSourceStep(old(loop_.Snapshot()), Handle()).post
    {
      var _ := loop_.DestroySource(this);
      loop_.FreeBox(data);
      dropped := true;
    }
  }
}
