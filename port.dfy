/** A port proxy and its listeners (`pipewire/src/port.rs`).

    `Port::add_listener_local` starts a builder with no callbacks; `info` and
    `param` each fill one slot, replacing what was there; `register` builds a
    pinned `pw_port_events` table whose function slots are set exactly for
    the configured callbacks, allocates a hook, and hands hook, table and the
    boxed callbacks to the proxy's `add_listener`. The returned
    `PortListener` keeps all three and unhooks itself when dropped.

    User closures are identified, not executed: running one is recorded as an
    `Invocation` with the decoded arguments it receives. The native proxy is
    the class `Port`: its listener list (hook to table and context) and a log
    of the native operations made through it, in order. */
module Port {
  import opened Native
  import opened Spa

  /** `PW_VERSION_PORT_EVENTS` from the native `port.h`. */
  const PW_VERSION_PORT_EVENTS: u32 := 0

  /** `PW_ID_ANY`, the "any id" sentinel. */
  const ID_ANY: u32 := 0xFFFF_FFFF

  /** A user closure, by identity. */
  datatype Closure = Closure(id: nat)

  /** `ListenerLocalCallbacks`. */
  datatype Callbacks = Callbacks(info: Option<Closure>, param: Option<Closure>)

  /** `PortListenerLocalBuilder`: the port it is bound to and its callbacks. */
  datatype Builder = Builder(port: Port, cbs: Callbacks)

  /** `Port::add_listener_local`. */
  function AddListenerLocal(port: Port): (b: Builder)
    ensures b.port == port && b.cbs.info.None? && b.cbs.param.None?
  {
    Builder(port, Callbacks(None, None))
  }

  /** `PortListenerLocalBuilder::info`. */
  function Info(b: Builder, f: Closure): (r: Builder)
    ensures r.port == b.port && r.cbs.info == Some(f) && r.cbs.param == b.cbs.param
  {
    b.(cbs := b.cbs.(info := Some(f)))
  }

  /** `PortListenerLocalBuilder::param`. */
  function Param(b: Builder, g: Closure): (r: Builder)
    ensures r.port == b.port && r.cbs.param == Some(g) && r.cbs.info == b.cbs.info
  {
    b.(cbs := b.cbs.(param := Some(g)))
  }

  /** Configuring a slot again replaces the earlier closure, and the two
      slots are independent of the order they are filled in. */
  lemma ConfigureOverwrites(b: Builder, f: Closure, f': Closure, g: Closure, g': Closure)
    ensures Info(Info(b, f), f') == Info(b, f')
    ensures Param(Param(b, g), g') == Param(b, g')
    ensures Info(Param(b, g), f) == Param(Info(b, f), g)
  {
  }

  /** The two trampolines a table slot can hold. */
  datatype Trampoline = PortEventsInfo | PortEventsParam

  /** `pw_port_events` as a value: its version and its two function slots. */
  datatype EventsTable = EventsTable(version: u32, info: Option<Trampoline>, param: Option<Trampoline>)

  /** The table `register` must build for `cbs`. */
  function TableFor(cbs: Callbacks): (t: EventsTable)
    ensures t.version == PW_VERSION_PORT_EVENTS
    ensures t.info.Some? <==> cbs.info.Some?
    ensures t.param.Some? <==> cbs.param.Some?
    ensures t.info.Some? ==> t.info.value == PortEventsInfo
    ensures t.param.Some? ==> t.param.value == PortEventsParam
  {
    EventsTable(PW_VERSION_PORT_EVENTS,
                if cbs.info.Some? then Some(PortEventsInfo) else None,
                if cbs.param.Some? then Some(PortEventsParam) else None)
  }

  /** A user closure running, with the arguments it receives. */
  datatype Invocation =
    | InfoCall(f: Closure, info: Ptr)  // f(&PortInfoRef) viewing the record at `info`
    | ParamCall(f: Closure, seqNum: i32, id: ParamType, index: u32, next: u32, param: Option<PodRef>)

  /** `port_events_info`: restores the callbacks from the context, rejects a
      null record, and runs the info closure on a view of the record. */
  function InfoTrampoline(data: Option<Callbacks>, info: Ptr): (r: Outcome<Invocation>)
    ensures data.None? ==> r == Panic(NullContext)
    ensures data.Some? && info == NULL ==> r == Panic(NullInfo)
    ensures r.Done? <==> data.Some? && info != NULL && data.value.info.Some?
    ensures r.Done? ==> r.value == InfoCall(data.value.info.value, info)
  {
    if data.None? then Panic(NullContext)
    else if info == NULL then Panic(NullInfo)
    else if data.value.info.None? then Panic(MissingCallback)
    else Done(InfoCall(data.value.info.value, info))
  }

  /** `port_events_param`: passes `seqNum`, `index` and `next` through, decodes
      the id, and turns a null payload into `None`. */
  function ParamTrampoline(data: Option<Callbacks>, seqNum: i32, id: u32, index: u32, next: u32, param: Ptr): (r: Outcome<Invocation>)
    ensures data.None? ==> r == Panic(NullContext)
    ensures r.Done? <==> data.Some? && data.value.param.Some?
    ensures r.Done? ==>
              && r.value.ParamCall? && r.value.f == data.value.param.value
              && r.value.seqNum == seqNum && r.value.index == index && r.value.next == next
              && r.value.id == ParamTypeFromRaw(id)
              && (r.value.param.None? <==> param == NULL)
              && (r.value.param.Some? ==> r.value.param.value.addr == param)
  {
    if data.None? then Panic(NullContext)
    else
      var pod := if param != NULL then Some(PodRef(param)) else None;
      if data.value.param.None? then Panic(MissingCallback)
      else Done(ParamCall(data.value.param.value, seqNum, ParamTypeFromRaw(id), index, next, pod))
  }

  /** An event the native proxy emits to its listeners. */
  datatype NativeEvent =
    | InfoEvent(info: Ptr)
    | ParamEvent(seqNum: i32, id: u32, index: u32, next: u32, param: Ptr)

  /** The native side emitting an event to one listener: a null slot is
      skipped, a set slot calls its trampoline with the listener's context. */
  function Emit(t: EventsTable, data: Option<Callbacks>, ev: NativeEvent): (r: Option<Outcome<Invocation>>)
    ensures r.None? <==> (ev.InfoEvent? && t.info.None?) || (ev.ParamEvent? && t.param.None?)
  {
    match ev
    case InfoEvent(info) =>
      if t.info.None? then None else Some(InfoTrampoline(data, info))
    case ParamEvent(seqNum, id, index, next, param) =>
      if t.param.None? then None else Some(ParamTrampoline(data, seqNum, id, index, next, param))
  }

  /** With the table `register` builds, an event reaches a closure exactly
      when a closure of its kind was configured, reaches that closure, and
      never finds its slot's callback missing. */
  lemma SelectiveDispatch(cbs: Callbacks, ev: NativeEvent)
    ensures var r := Emit(TableFor(cbs), Some(cbs), ev);
            && (r.None? <==> (ev.InfoEvent? && cbs.info.None?) || (ev.ParamEvent? && cbs.param.None?))
            && (r.Some? ==> r.value != Panic(MissingCallback))
            && (r.Some? && ev.ParamEvent? ==> r.value.Done? && r.value.value.f == cbs.param.value)
            && (r.Some? && ev.InfoEvent? ==> (r.value.Done? <==> ev.info != NULL))
            && (r.Some? && r.value.Done? && ev.InfoEvent? ==> r.value.value == InfoCall(cbs.info.value, ev.info))
  {
  }

  /** A listener configured with only a param callback ignores info events
      and runs that callback once per param event. */
  lemma ParamOnlyListener(b: Builder, g: Closure, info: Ptr, seqNum: i32, id: u32, index: u32, next: u32, param: Ptr)
    requires b.cbs.info.None?
    ensures var cbs := Param(b, g).cbs;
            && Emit(TableFor(cbs), Some(cbs), InfoEvent(info)) == None
            && Emit(TableFor(cbs), Some(cbs), ParamEvent(seqNum, id, index, next, param)).Some?
            && Emit(TableFor(cbs), Some(cbs), ParamEvent(seqNum, id, index, next, param)).value.Done?
            && Emit(TableFor(cbs), Some(cbs), ParamEvent(seqNum, id, index, next, param)).value.value.f == g
  {
    SelectiveDispatch(Param(b, g).cbs, ParamEvent(seqNum, id, index, next, param));
  }

  /** The method table a proxy call dispatches through. */
  datatype Methods = PortMethods | NodeMethods

  /** Native operations made through the proxy, and the releases of the
      listener's allocations, in order. */
  datatype NativeOp =
    | AddListener(methods: Methods, hook: Hook, events: PortEvents, data: CallbackBox)
    | SubscribeParams(methods: Methods, ids: seq<u32>, nIds: u32)
    | EnumParams(methods: Methods, seqNum: i32, id: u32, start: u32, num: u32, filter: Ptr)
    | HookRemove(hook: Hook)      // spa::utils::hook::remove
    | FreeEvents(events: PortEvents)
    | FreeHook(hook: Hook)
    | FreeCallbacks(data: CallbackBox)

  /** The raw ids of a `&[ParamType]`, which has the layout of `u32`s. */
  function RawIds(ids: seq<ParamType>): (raw: seq<u32>)
    ensures |raw| == |ids| && forall i :: 0 <= i < |ids| ==> raw[i] == ids[i].raw
  {
    seq(|ids|, i requires 0 <= i < |ids| => ids[i].raw)
  }

  /** The call `Port::subscribe_params` makes: the ids and their count,
      which must fit a `u32`. */
  function SubscribeParamsCall(ids: seq<ParamType>): (r: Outcome<NativeOp>)
    ensures r.Panic? <==> |ids| > U32_MAX
    ensures r.Panic? ==> r.fatal == CountOverflow
    ensures r.Done? ==>
              && r.value.SubscribeParams? && r.value.methods == PortMethods
              && r.value.nIds == |ids| && r.value.ids == RawIds(ids)
  {
    if |ids| > U32_MAX then Panic(CountOverflow) else Done(SubscribeParams(PortMethods, RawIds(ids), |ids|))
  }

  /** The call `Port::enum_params` makes. It dispatches through the node
      method table although the proxy is a port. */
  function EnumParamsCall(seqNum: i32, id: Option<ParamType>, start: u32, num: u32): (c: NativeOp)
    ensures c.EnumParams? && c.methods == NodeMethods
    ensures c.seqNum == seqNum && c.start == start && c.num == num && c.filter == NULL
    ensures id.Some? ==> c.id == id.value.raw
    ensures c.id == ID_ANY <==> id.None? || id.value.raw == ID_ANY
  {
    var raw := match id case Some(t) => t.raw case None => ID_ANY;
    EnumParams(NodeMethods, seqNum, raw, start, num, NULL)
  }

  /** `Port` over its native proxy. */
  class Port {
    var listeners: map<Hook, Registration>  // the proxy's hook list
    var log: seq<NativeOp>

    constructor ()
      ensures listeners == map[] && log == []
    {
      listeners, log := map[], [];
    }

    /** The native `pw_port_methods::add_listener`: links the hook into the
        proxy's list with the table and context. */
    method AddListenerNative(hook: Hook, events: PortEvents, data: CallbackBox)
      modifies this
      ensures listeners == old(listeners)[hook := Registration(events, data)]
      ensures log == old(log) + [AddListener(PortMethods, hook, events, data)]
    {
      listeners := listeners[hook := Registration(events, data)];
      log := log + [AddListener(PortMethods, hook, events, data)];
    }

    /** `Port::subscribe_params`. */
    method SubscribeParams(ids: seq<ParamType>) returns (r: Outcome<()>)
      modifies this
      ensures listeners == old(listeners)
      ensures r.Panic? <==> SubscribeParamsCall(ids).Panic?
      ensures r.Panic? ==> log == old(log)
      ensures r.Done? ==> log == old(log) + [SubscribeParamsCall(ids).value]
    {
      if |ids| > U32_MAX {
        return Panic(CountOverflow);
      }
      log := log + [NativeOp.SubscribeParams(PortMethods, RawIds(ids), |ids|)];
      return Done(());
    }

    /** `Port::enum_params`. */
    method EnumParams(seqNum: i32, id: Option<ParamType>, start: u32, num: u32)
      modifies this
      ensures listeners == old(listeners)
      ensures log == old(log) + [EnumParamsCall(seqNum, id, start, num)]
    {
      var raw := if id.Some? then id.value.raw else ID_ANY;
      log := log + [NativeOp.EnumParams(NodeMethods, seqNum, raw, start, num, NULL)];
    }
  }

  /** `spa_hook`, allocated once per registration. */
  class Hook {
    constructor ()
    {
    }
  }

  /** `Box<ListenerLocalCallbacks>`. */
  class CallbackBox {
    const cbs: Callbacks

    constructor (cbs: Callbacks)
      ensures this.cbs == cbs
    {
      this.cbs := cbs;
    }
  }

  /** `Pin<Box<pw_port_events>>`: the table the native side keeps the
      address of. */
  class PortEvents {
    var version: u32
    var info: Option<Trampoline>
    var param: Option<Trampoline>

    function Table(): EventsTable
      reads this
    {
      EventsTable(version, info, param)
    }

    /** `Box::pin(mem::zeroed())`. */
    constructor Zeroed()
      ensures Table() == EventsTable(0, None, None)
    {
      version, info, param := 0, None, None;
    }
  }

  /** What the proxy's hook list holds for one listener. */
  datatype Registration = Registration(events: PortEvents, data: CallbackBox)

  /** `PortListener`: the pinned table, the pinned hook and the callbacks.
      The Rust struct holds no reference to its port; `port` here only names
      the hook list the registration lives in, so that `drop` can say what
      unhooking changes. */
  class PortListener {
    const events: PortEvents
    const hook: Hook
    const data: CallbackBox
    const port: Port
    ghost var dropped: bool

    /** Registered and not yet dropped. */
    ghost predicate Valid()
      reads this, port
    {
      !dropped && hook in port.listeners && port.listeners[hook] == Registration(events, data)
    }

    constructor (events: PortEvents, hook: Hook, data: CallbackBox, port: Port)
      ensures this.events == events && this.hook == hook && this.data == data && this.port == port
      ensures !dropped
    {
      this.events, this.hook, this.data, this.port := events, hook, data, port;
      dropped := false;
    }

    /** `Drop for PortListener`: unhooks once, then the fields are released
        in declaration order. */
    method Drop()
      requires Valid()
      modifies this, port
      ensures dropped
      ensures hook !in port.listeners && port.listeners == old(port.listeners) - {hook}
      ensures port.log == old(port.log) + [HookRemove(hook), FreeEvents(events), FreeHook(hook), FreeCallbacks(data)]
    {
      port.listeners := port.listeners - {hook};
      port.log := port.log + [HookRemove(hook), FreeEvents(events), FreeHook(hook), FreeCallbacks(data)];
      dropped := true;
    }
  }

  /** `PortListenerLocalBuilder::register`. */
  method Register(b: Builder) returns (l: PortListener)
    modifies b.port
    ensures fresh(l) && fresh(l.events) && fresh(l.hook) && fresh(l.data)
    ensures l.port == b.port && l.data.cbs == b.cbs
    ensures l.events.Table() == TableFor(b.cbs)
    ensures l.Valid()
    ensures b.port.listeners == old(b.port.listeners)[l.hook := Registration(l.events, l.data)]
    ensures b.port.log == old(b.port.log) + [AddListener(PortMethods, l.hook, l.events, l.data)]
  {
    var e := new PortEvents.Zeroed();
    e.version := PW_VERSION_PORT_EVENTS;
    if b.cbs.info.Some? {
      e.info := Some(PortEventsInfo);
    }
    if b.cbs.param.Some? {
      e.param := Some(PortEventsParam);
    }
    var data := new CallbackBox(b.cbs);
    var hook := new Hook();
    b.port.AddListenerNative(hook, e, data);
    l := new PortListener(e, hook, data, b.port);
  }
}
