/** Any interleaving of `add_signal_local`, handle drops, signal deliveries
    and direct `destroy_source` calls on one loop.

    A session keeps every `Source` handle ever returned and the set of those
    already dropped; Rust's ownership lets a handle be dropped at most once
    and only borrowed while it is alive, so an operation naming a dropped or
    unknown handle does nothing. */
module LoopSession {
  import opened Native
  import opened Loop

  datatype Op =
    | Add(signal: int, onMain: bool, nativeFails: bool)  // loop.add_signal_local(signal, closure)
    | Drop(handle: nat)                                  // drop(source)
    | Fire(handle: nat, signal: int)                     // the loop delivers a signal to the source
    | DestroyDirect(handle: nat)                         // loop.destroy_source(&source), source still owned

  datatype Session = Session(state: State, handles: seq<SourceHandle>, dropped: set<nat>)

  function Start(ptr: Ptr, utils: Ptr): Session
  {
    Session(State(ptr, utils, map[], {}, 0, []), [], {})
  }

  predicate Owned(ss: Session, k: nat)
  {
    k < |ss.handles| && k !in ss.dropped
  }

  function Apply(ss: Session, op: Op): (r: Session)
    requires Wf(ss.state)
    ensures Wf(r.state)
  {
    match op
    case Add(signal, onMain, nativeFails) =>
      var step := AddSignalLocalStep(ss.state, signal, onMain, nativeFails);
      if step.outcome.Done? then Session(step.post, ss.handles + [step.outcome.value], ss.dropped)
      else ss.(state := step.post)
    case Drop(k) =>
      if Owned(ss, k) then Session(DropSourceStep(ss.state, ss.handles[k]).post, ss.handles, ss.dropped + {k})
      else ss
    case Fire(k, signal) =>
      if k < |ss.handles| then ss.(state := FireStep(ss.state, ss.handles[k].ptr, signal).post) else ss
    case DestroyDirect(k) =>
      if Owned(ss, k) then ss.(state := DestroySourceStep(ss.state, ss.handles[k].ptr).post) else ss
  }

  function Run(ss: Session, ops: seq<Op>): (r: Session)
    requires Wf(ss.state)
    ensures Wf(r.state)
    decreases |ops|
  {
    if ops == [] then ss else Run(Apply(ss, ops[0]), ops[1..])
  }

  /** Every handle is dropped through its owner only. */
  predicate OwnedOnly(ops: seq<Op>)
  {
    forall i :: 0 <= i < |ops| ==> !ops[i].DestroyDirect?
  }

  function Destroys(t: seq<Event>, source: Ptr): nat
  {
    multiset(t)[DestroySource(source)]
  }

  function Frees(t: seq<Event>, box: Ptr): nat
  {
    multiset(t)[BoxFree(box)]
  }

  /** The trace mentions no address above `n`. */
  ghost predicate Below(e: Event, n: nat)
  {
    match e
    case BoxAlloc(b) => b <= n
    case AddSignal(_, b, p) => b <= n && p <= n
    case DestroySource(p) => p <= n
    case BoxFree(b) => b <= n
    case ClosureCall(b) => b <= n
  }

  /** A live handle: registered, nothing destroyed or freed yet. */
  ghost predicate Registered(s: State, h: SourceHandle)
  {
    && h.ptr in s.sources && s.sources[h.ptr] == h.box && h.box in s.boxes
    && Destroys(s.trace, h.ptr) == 0 && Frees(s.trace, h.box) == 0
  }

  /** A dropped handle: destroyed once, freed once, destroy first. */
  ghost predicate Released(s: State, h: SourceHandle)
  {
    && h.ptr !in s.sources && h.box !in s.boxes
    && Destroys(s.trace, h.ptr) == 1 && Frees(s.trace, h.box) == 1
    && exists i, j :: 0 <= i < j < |s.trace| && s.trace[i] == DestroySource(h.ptr) && s.trace[j] == BoxFree(h.box)
  }

  /** Addresses are bounded by the counter and handles are distinct. */
  ghost predicate Shape(ss: Session)
  {
    var s := ss.state;
    && Wf(s)
    && (|ss.handles| > 0 ==> LoopReady(s))
    && (forall i :: 0 <= i < |s.trace| ==> Below(s.trace[i], s.next))
    && (forall k :: k in ss.dropped ==> k < |ss.handles|)
    && (forall k :: 0 <= k < |ss.handles| ==> 0 < ss.handles[k].ptr <= s.next && 0 < ss.handles[k].box <= s.next)
    && (forall j, k :: 0 <= j < k < |ss.handles| ==>
          ss.handles[j].ptr != ss.handles[k].ptr && ss.handles[j].box != ss.handles[k].box)
  }

  /** Owned handles are registered and dropped ones released. */
  ghost predicate Tracked(ss: Session)
  {
    && (forall k :: 0 <= k < |ss.handles| && k !in ss.dropped ==> Registered(ss.state, ss.handles[k]))
    && (forall k :: 0 <= k < |ss.handles| && k in ss.dropped ==> Released(ss.state, ss.handles[k]))
  }

  ghost predicate Inv(ss: Session)
  {
    Shape(ss) && Tracked(ss)
  }

  lemma StartInv(ptr: Ptr, utils: Ptr)
    ensures Inv(Start(ptr, utils))
  {
  }

  /** An event above `next` is not in a trace that stays below it. */
  lemma NotYetSeen(s: State, e: Event)
    requires forall i :: 0 <= i < |s.trace| ==> Below(s.trace[i], s.next)
    requires !Below(e, s.next)
    ensures multiset(s.trace)[e] == 0
  {
  }

  lemma RegisteredKept(s: State, s': State, h: SourceHandle, added: seq<Event>)
    requires Registered(s, h) && s'.trace == s.trace + added
    requires DestroySource(h.ptr) !in added && BoxFree(h.box) !in added
    requires h.ptr in s'.sources && s'.sources[h.ptr] == h.box && h.box in s'.boxes
    ensures Registered(s', h)
  {
    assert multiset(s'.trace) == multiset(s.trace) + multiset(added);
  }

  lemma ReleasedKept(s: State, s': State, h: SourceHandle, added: seq<Event>)
    requires Released(s, h) && s'.trace == s.trace + added
    requires DestroySource(h.ptr) !in added && BoxFree(h.box) !in added
    requires h.ptr !in s'.sources && h.box !in s'.boxes
    ensures Released(s', h)
  {
    assert multiset(s'.trace) == multiset(s.trace) + multiset(added);
    var i, j :| 0 <= i < j < |s.trace| && s.trace[i] == DestroySource(h.ptr) && s.trace[j] == BoxFree(h.box);
    assert s'.trace[i] == s.trace[i] && s'.trace[j] == s.trace[j];
  }

  /** Appending events that name no existing handle keeps every existing
      handle's status, given the registry still agrees with it. */
  lemma OldHandlesKept(ss: Session, r: Session, added: seq<Event>)
    requires Inv(ss)
    requires r.state.trace == ss.state.trace + added
    requires |ss.handles| <= |r.handles| && r.handles[..|ss.handles|] == ss.handles && r.dropped == ss.dropped
    requires forall k :: 0 <= k < |ss.handles| ==>
               DestroySource(ss.handles[k].ptr) !in added && BoxFree(ss.handles[k].box) !in added
    requires forall p :: p in ss.state.sources ==> p in r.state.sources && r.state.sources[p] == ss.state.sources[p]
    requires ss.state.boxes <= r.state.boxes
    requires forall k :: 0 <= k < |ss.handles| && k in ss.dropped ==>
               ss.handles[k].ptr !in r.state.sources && ss.handles[k].box !in r.state.boxes
    ensures forall k :: 0 <= k < |ss.handles| && k !in r.dropped ==> Registered(r.state, r.handles[k])
    ensures forall k :: 0 <= k < |ss.handles| && k in r.dropped ==> Released(r.state, r.handles[k])
  {
    forall k | 0 <= k < |ss.handles| && k !in r.dropped
      ensures Registered(r.state, r.handles[k])
    {
      assert r.handles[k] == ss.handles[k];
      RegisteredKept(ss.state, r.state, ss.handles[k], added);
    }
    forall k | 0 <= k < |ss.handles| && k in r.dropped
      ensures Released(r.state, r.handles[k])
    {
      assert r.handles[k] == ss.handles[k];
      ReleasedKept(ss.state, r.state, ss.handles[k], added);
    }
  }

  /** What `add_signal_local` appends to the trace names only the new box
      and the new source. */
  lemma AddedEvents(s: State, signal: int, nativeFails: bool)
    requires Wf(s)
    ensures var post := AddSignalLocalStep(s, signal, true, nativeFails).post;
            && |s.trace| <= |post.trace|
            && post.trace == s.trace + post.trace[|s.trace|..]
            && forall i :: |s.trace| <= i < |post.trace| ==>
                 && Below(post.trace[i], post.next) && s.next < post.next
                 && (post.trace[i].BoxAlloc? ==> post.trace[i].box > s.next)
                 && !post.trace[i].DestroySource? && !post.trace[i].ClosureCall?
                 && (post.trace[i].BoxFree? ==> post.trace[i].box > s.next)
  {
  }

  /** The trace after `add_signal_local` still stays below `next`, and the
      handles already held are unaffected. */
  lemma AddKeepsTrace(ss: Session, signal: int, nativeFails: bool)
    requires Inv(ss)
    ensures var r := Apply(ss, Add(signal, true, nativeFails));
            && (forall i :: 0 <= i < |r.state.trace| ==> Below(r.state.trace[i], r.state.next))
            && (forall k :: 0 <= k < |ss.handles| && k !in r.dropped ==> Registered(r.state, r.handles[k]))
            && (forall k :: 0 <= k < |ss.handles| && k in r.dropped ==> Released(r.state, r.handles[k]))
  {
    var s := ss.state;
    var step := AddSignalLocalStep(s, signal, true, nativeFails);
    var r := Apply(ss, Add(signal, true, nativeFails));
    AddedEvents(s, signal, nativeFails);
    var added := step.post.trace[|s.trace|..];
    assert forall i :: 0 <= i < |added| ==> added[i] == step.post.trace[|s.trace| + i];
    forall k | 0 <= k < |ss.handles|
      ensures DestroySource(ss.handles[k].ptr) !in added && BoxFree(ss.handles[k].box) !in added
    {
    }
    OldHandlesKept(ss, r, added);
    forall i | 0 <= i < |r.state.trace| ensures Below(r.state.trace[i], r.state.next) {
      if i < |s.trace| {
        assert r.state.trace[i] == s.trace[i] && Below(s.trace[i], s.next);
      }
    }
  }

  /** The handle `add_signal_local` returns is new, distinct from every
      handle held, and registered with nothing destroyed or freed. */
  lemma AddNewHandle(ss: Session, signal: int, nativeFails: bool)
    requires Inv(ss)
    ensures var r := Apply(ss, Add(signal, true, nativeFails));
            && (forall k :: 0 <= k < |r.handles| ==> 0 < r.handles[k].ptr <= r.state.next && 0 < r.handles[k].box <= r.state.next)
            && (forall j, k :: 0 <= j < k < |r.handles| ==>
                  r.handles[j].ptr != r.handles[k].ptr && r.handles[j].box != r.handles[k].box)
  {
    var s := ss.state;
    var step := AddSignalLocalStep(s, signal, true, nativeFails);
    var r := Apply(ss, Add(signal, true, nativeFails));
    forall k | 0 <= k < |r.handles|
      ensures 0 < r.handles[k].ptr <= r.state.next && 0 < r.handles[k].box <= r.state.next
    {
      if k < |ss.handles| {
        assert r.handles[k] == ss.handles[k];
      } else {
        assert r.handles[k] == step.outcome.value;
      }
    }
    forall j, k | 0 <= j < k < |r.handles|
      ensures r.handles[j].ptr != r.handles[k].ptr && r.handles[j].box != r.handles[k].box
    {
      assert r.handles[j] == ss.handles[j];
      if k < |ss.handles| {
        assert r.handles[k] == ss.handles[k];
      } else {
        assert r.handles[k] == step.outcome.value;
      }
    }
  }

  lemma AddRegisters(ss: Session, signal: int, nativeFails: bool)
    requires Inv(ss)
    ensures var r := Apply(ss, Add(signal, true, nativeFails));
            forall k :: |ss.handles| <= k < |r.handles| ==> k !in r.dropped && Registered(r.state, r.handles[k])
  {
    var s := ss.state;
    var step := AddSignalLocalStep(s, signal, true, nativeFails);
    var r := Apply(ss, Add(signal, true, nativeFails));
    if step.outcome.Done? {
      var h := step.outcome.value;
      var added := [BoxAlloc(h.box), AddSignal(signal, h.box, h.ptr)];
      assert r.state.trace == s.trace + added;
      assert h.ptr > s.next && h.box > s.next;
      NotYetSeen(s, DestroySource(h.ptr));
      NotYetSeen(s, BoxFree(h.box));
      assert multiset(r.state.trace) == multiset(s.trace) + multiset(added);
      assert r.handles[|ss.handles|] == h;
    }
  }

  lemma AddPreserves(ss: Session, signal: int, onMain: bool, nativeFails: bool)
    requires Inv(ss)
    ensures Inv(Apply(ss, Add(signal, onMain, nativeFails)))
  {
    if onMain {
      AddKeepsTrace(ss, signal, nativeFails);
      AddNewHandle(ss, signal, nativeFails);
      AddRegisters(ss, signal, nativeFails);
    }
  }

  /** Dropping handle `k` releases it and leaves every other handle as it was. */
  lemma DropKeepsOthers(ss: Session, k: nat)
    requires Inv(ss) && Owned(ss, k)
    ensures Tracked(Apply(ss, Drop(k)))
  {
    var s := ss.state;
    var h := ss.handles[k];
    var r := Apply(ss, Drop(k));
    var added := [DestroySource(h.ptr), BoxFree(h.box)];
    assert r.state.trace == s.trace + added;
    assert r.state.sources == s.sources - {h.ptr} && r.state.boxes == s.boxes - {h.box};
    forall j | 0 <= j < |ss.handles| && j !in r.dropped
      ensures Registered(r.state, ss.handles[j])
    {
      RegisteredKept(s, r.state, ss.handles[j], added);
    }
    forall j | 0 <= j < |ss.handles| && j in r.dropped
      ensures Released(r.state, ss.handles[j])
    {
      if j == k {
        DropReleases(ss, k);
      } else {
        ReleasedKept(s, r.state, ss.handles[j], added);
      }
    }
  }

  /** Dropping handle `k` destroys its source, then frees its box, once each. */
  lemma DropReleases(ss: Session, k: nat)
    requires Inv(ss) && Owned(ss, k)
    ensures Released(Apply(ss, Drop(k)).state, ss.handles[k])
  {
    var s := ss.state;
    var h := ss.handles[k];
    var r := Apply(ss, Drop(k));
    var added := [DestroySource(h.ptr), BoxFree(h.box)];
    assert r.state.trace == s.trace + added;
    assert multiset(r.state.trace) == multiset(s.trace) + multiset(added);
    assert r.state.trace[|s.trace|] == DestroySource(h.ptr) && r.state.trace[|s.trace| + 1] == BoxFree(h.box);
  }

  /** Dropping a handle logs only addresses handed out already. */
  lemma DropKeepsShape(ss: Session, k: nat)
    requires Inv(ss) && Owned(ss, k)
    ensures Shape(Apply(ss, Drop(k)))
  {
    var s := ss.state;
    var h := ss.handles[k];
    var r := Apply(ss, Drop(k)).state;
    assert r.trace == s.trace + [DestroySource(h.ptr), BoxFree(h.box)] && r.next == s.next;
    forall i | 0 <= i < |r.trace|
      ensures Below(r.trace[i], r.next)
    {
      if i >= |s.trace| {
        assert h.ptr <= s.next && h.box <= s.next;
      }
    }
  }

  lemma DropPreserves(ss: Session, k: nat)
    requires Inv(ss)
    ensures Inv(Apply(ss, Drop(k)))
  {
    if Owned(ss, k) {
      DropKeepsShape(ss, k);
      DropKeepsOthers(ss, k);
    }
  }

  lemma FirePreserves(ss: Session, k: nat, signal: int)
    requires Inv(ss)
    ensures Inv(Apply(ss, Fire(k, signal)))
  {
    if k < |ss.handles| && ss.handles[k].ptr in ss.state.sources {
      var s := ss.state;
      var r := Apply(ss, Fire(k, signal));
      var added := [ClosureCall(s.sources[ss.handles[k].ptr])];
      assert r.state.trace == s.trace + added;
      forall j | 0 <= j < |ss.handles| && j !in ss.dropped
        ensures Registered(r.state, ss.handles[j])
      {
        RegisteredKept(s, r.state, ss.handles[j], added);
      }
      forall j | 0 <= j < |ss.handles| && j in ss.dropped
        ensures Released(r.state, ss.handles[j])
      {
        ReleasedKept(s, r.state, ss.handles[j], added);
      }
    }
  }

  /** Without direct `destroy_source` calls, in every reachable state each
      dropped handle's source was destroyed exactly once and its box freed
      exactly once, destroy first, and each handle still owned is registered
      with nothing destroyed or freed. */
  lemma {:induction false} SessionExactlyOnce(ss: Session, ops: seq<Op>)
    requires Inv(ss) && OwnedOnly(ops)
    ensures Inv(Run(ss, ops))
    decreases |ops|
  {
    if ops != [] {
      var op := ops[0];
      if op.Add? {
        AddPreserves(ss, op.signal, op.onMain, op.nativeFails);
      } else if op.Drop? {
        DropPreserves(ss, op.handle);
      } else {
        assert op.Fire?;
        FirePreserves(ss, op.handle, op.signal);
      }
      assert OwnedOnly(ops[1..]);
      SessionExactlyOnce(Apply(ss, ops[0]), ops[1..]);
    }
  }

  /** From a fresh loop: every handle dropped during the session has had
      exactly one destroy and exactly one free, destroy first. */
  lemma {:induction false} DroppedExactlyOnce(ptr: Ptr, utils: Ptr, ops: seq<Op>, k: nat)
    requires OwnedOnly(ops)
    requires k in Run(Start(ptr, utils), ops).dropped
    ensures var r := Run(Start(ptr, utils), ops);
            k < |r.handles| &&
            Destroys(r.state.trace, r.handles[k].ptr) == 1 && Frees(r.state.trace, r.handles[k].box) == 1
  {
    StartInv(ptr, utils);
    SessionExactlyOnce(Start(ptr, utils), ops);
  }

  /** A signal delivered to a dropped handle's source runs nothing. */
  lemma NoCallbackAfterDrop(ss: Session, k: nat, signal: int)
    requires Inv(ss) && k in ss.dropped
    ensures Apply(ss, Fire(k, signal)) == ss
  {
  }

  /** As written, `destroy_source` is callable on a source whose handle is
      still owned, and the handle's `Drop` then destroys the same source a
      second time. */
  lemma DoubleDestroyAsWritten()
    ensures var r := Run(Start(1, 1), [Add(2, true, false), DestroyDirect(0), Drop(0)]);
            |r.handles| == 1 && Destroys(r.state.trace, r.handles[0].ptr) == 2
  {
    var s0 := Start(1, 1);
    var s1 := Apply(s0, Add(2, true, false));
    assert s1.handles == [SourceHandle(2, 1)];
    var s2 := Apply(s1, DestroyDirect(0));
    var s3 := Apply(s2, Drop(0));
    assert s3.state.trace == [BoxAlloc(1), AddSignal(2, 1, 2), DestroySource(2), DestroySource(2), BoxFree(1)];
    assert Run(s0, [Add(2, true, false), DestroyDirect(0), Drop(0)]) == s3 by {
      assert [Add(2, true, false), DestroyDirect(0), Drop(0)][1..] == [DestroyDirect(0), Drop(0)];
      assert [DestroyDirect(0), Drop(0)][1..] == [Drop(0)];
      assert [Drop(0)][1..] == [];
    }
  }
}
