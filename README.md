# pipewire-rs signal sources and port listeners, in Dafny

This project models the safety layer that pipewire-rs puts over two
callback-driven parts of the PipeWire C API, and proves what it promises
about ownership: every registration is torn down exactly once, in the
right order, and nothing else changes.

- **Signal sources on a loop** (`pipewire/src/loop_.rs`, module `Loop`,
  session proofs in `LoopSession`). `add_signal_local` checks the thread,
  boxes the closure, makes one native `add_signal` request with the
  `call_closure` trampoline and the box as context, and wraps the returned
  non-null source in a `Source` handle. Dropping the handle calls
  `destroy_source` on its own loop, and then the drop glue frees the box.
  The native loop is a registry of live sources, the set of allocated
  closure boxes and an ordered trace of what crossed the boundary. Each
  operation is a pure step on a `State`. The classes `NativeLoop` and
  `Source` carry out the operation step by step and are proved to produce
  that state.
- **Port listeners** (`pipewire/src/port.rs`, module `Port`). The builder
  starts empty, and `info`/`param` each overwrite one slot. `register`
  zero-allocates a `pw_port_events` table, sets its version and exactly the
  slots that have a callback, allocates a hook, and makes one `add_listener`
  call with hook, table and the boxed callbacks. The `PortListener` unhooks
  once on drop. Both trampolines, the native side's dispatch through the
  table, `enum_params` and `subscribe_params` are modelled as the values
  they pass across the boundary.
- **Port info** (`pipewire/src/port.rs`, module `InfoRecord`). The
  `PortInfoRef` accessors are total projections of `pw_port_info`. Each
  null pointer becomes absence: no props, or an empty params list. The
  change mask keeps every raw bit. The owned `PortInfo` frees its record
  exactly once, unless `into_raw` hands the pointer out.

Native memory is never modelled as memory. Pointers are abstract addresses
(`Native.Ptr`, 0 is null), and the loop hands out fresh addresses from a
counter, so no address is reused. A Rust panic is `Outcome.Panic` carrying
the violated precondition (`Native.Fatal`). Thread affinity is a boolean
argument (`onMain`). Whether the native `add_signal` fails is a boolean
argument (`nativeFails`). User closures are identities. Running one is
recorded as a `ClosureCall` event or an `Invocation` carrying the decoded
arguments.

## Model

| member | source | states |
|---|---|---|
| `Loop.AddSignalLocalStep` | pipewire/src/loop_.rs:16-62 | The thread check comes first and a failing one changes nothing. Exactly one `add_signal` request is made when the loop and utils pointers are non-null, and none otherwise. A null loop or utils pointer panics after exactly one new box was allocated: the box is leaked and only `BoxAlloc` is logged. A null source panics after exactly `BoxAlloc(b)`, `AddSignal(signal, b, null)` and `BoxFree(b)` are logged, and leaves sources and boxes as they were. A handle is returned exactly on full success. It holds a new live source registered with a new box, and exactly `BoxAlloc` and `AddSignal(signal, box, source)` are logged. |
| `Loop.NativeLoop.AddSignalLocal` | pipewire/src/loop_.rs:16-62 | The imperative `add_signal_local` leaves exactly the state of `AddSignalLocalStep` and panics exactly when the step does. On success it returns a fresh `Source` holding the step's source and box and borrowing this loop. |
| `Loop.NativeLoop.NativeAddSignal` | pipewire/src/loop_.rs:43-50 | The native `add_signal` records one request carrying the signal, the context and the returned source. A non-null return is a new source registered with that context. |
| `Loop.CallClosure` | pipewire/src/loop_.rs:23-29 | The trampoline panics exactly on a null context and otherwise runs the closure in that box once. |
| `Loop.CallClosureIgnoresSignal` | pipewire/src/loop_.rs:23-29 | The trampoline's result does not depend on the signal number. |
| `Loop.DestroySourceStep` | pipewire/src/loop_.rs:64-86 | A null loop or utils pointer panics before any call. Otherwise exactly one `destroy_source` request carrying the given pointer is logged. The registry loses that source and nothing else changes: every other source keeps its context and the boxes are unchanged. |
| `Loop.NativeLoop.DestroySource` | pipewire/src/loop_.rs:64-86 | The imperative `destroy_source` leaves exactly the state and outcome of `DestroySourceStep`. |
| `Loop.DropSourceStep` | pipewire/src/loop_.rs:88-117 | On a loop with non-null pointers, dropping a handle appends exactly `DestroySource(ptr)` and then `BoxFree(box)`, so destroy comes before free and each happens once, and exactly that source leaves the registry. On a loop with a null pointer the drop panics, logs only `BoxFree(box)` because the box is still freed during unwinding, and leaves the sources as they were. Either way only that box is released, and every other source keeps its context. |
| `Loop.Source.Drop` | pipewire/src/loop_.rs:110-117 | The imperative drop destroys the source on the handle's own loop and then frees its box, matching `DropSourceStep`. |
| `Loop.NativeLoop.FreeBox` | pipewire/src/loop_.rs:95-97 | The drop glue of the `data` field releases the box and records that release. |
| `Loop.Source.constructor` | pipewire/src/loop_.rs:57-61 | A handle stores the exact non-null pointer, the loop it borrows and the closure box. |
| `Loop.FireStep` | pipewire/src/loop_.rs:23-29 | The loop delivering a signal to a live source runs that source's closure once. A source that is not live is ignored. |
| `Loop.FiringCountsCalls` | pipewire/src/loop_.rs:23-29 | N signals delivered to a live source run its closure exactly N times and leave the registry unchanged. |
| `Loop.NoCallAfterDrop` | pipewire/src/loop_.rs:110-117 | After a handle is dropped, no number of signals runs its closure again. |
| `Loop.RequestsAppend` | pipewire/src/loop_.rs:43-50 | The number of `add_signal` requests in a concatenated trace is the sum of the requests in its parts. |
| `LoopSession.SessionExactlyOnce` | pipewire/src/loop_.rs:57-117 | For any interleaving of adds, drops and signal deliveries, every dropped handle has had exactly one destroy and exactly one free, destroy first. Every handle still held is registered with neither. |
| `LoopSession.DroppedExactlyOnce` | pipewire/src/loop_.rs:110-117 | Starting from a fresh loop, each dropped handle's source was destroyed exactly once and its box freed exactly once. |
| `LoopSession.NoCallbackAfterDrop` | pipewire/src/loop_.rs:110-117 | In any reachable session, a signal aimed at a dropped handle changes nothing. |
| `LoopSession.DoubleDestroyAsWritten` | pipewire/src/loop_.rs:64-86 | `destroy_source` called on a handle that is still owned, followed by the handle's drop, destroys the same native source twice. |
| `Port.AddListenerLocal` | pipewire/src/port.rs:25-30 | A new builder is bound to the port and has neither an info nor a param callback. |
| `Port.Info` | pipewire/src/port.rs:245-251 | `info(f)` sets the info slot to `f` and leaves the param slot and the port alone. |
| `Port.Param` | pipewire/src/port.rs:254-260 | `param(g)` sets the param slot to `g` and leaves the info slot and the port alone. |
| `Port.ConfigureOverwrites` | pipewire/src/port.rs:245-260 | A second `info` or `param` replaces the first, and filling the two slots commutes. |
| `Port.TableFor` | pipewire/src/port.rs:294-306 | The table has version `PW_VERSION_PORT_EVENTS`. The info slot is set iff an info callback was configured, and the param slot iff a param callback was. A set slot holds its own trampoline. |
| `Port.Register` | pipewire/src/port.rs:262-332 | `register` returns a listener with a fresh table equal to `TableFor` of the callbacks, a fresh hook and a fresh box holding the callbacks. It makes exactly one `add_listener` call with hook, table and box. The hook is then linked into the port's list, with nothing else in the list changed. |
| `Port.Port.AddListenerNative` | pipewire/src/port.rs:315-322 | The native `add_listener` links the hook to the table and context and records one call through the port method table. |
| `Port.PortEvents.Zeroed` | pipewire/src/port.rs:295 | A zeroed table has version 0 and both slots null. |
| `Port.CallbackBox.constructor` | pipewire/src/port.rs:311 | The box holds exactly the builder's callbacks. |
| `Port.PortListener.constructor` | pipewire/src/port.rs:327-331 | The listener keeps the table, the hook and the callbacks box. |
| `Port.PortListener.Drop` | pipewire/src/port.rs:226-241 | Dropping a registered listener removes the hook from the list exactly once and changes no other entry. The table, the hook and the callbacks are then released in declaration order. |
| `Port.InfoTrampoline` | pipewire/src/port.rs:264-272 | A null context and a null info record are fatal. Otherwise the info closure runs once on a view of the record at the given address. |
| `Port.ParamTrampoline` | pipewire/src/port.rs:274-292 | `seq`, `index` and `next` pass through unchanged and the id is decoded with `ParamType::from_raw`. The payload is `None` iff its pointer is null, and otherwise the pod at that address. The param closure runs once. |
| `Port.Emit` | pipewire/src/port.rs:298-303 | The native side skips an event exactly when that event's slot is null. |
| `Port.SelectiveDispatch` | pipewire/src/port.rs:264-306 | With the table `register` builds, an event reaches a closure iff a closure of its kind was configured. It reaches that closure, and the `unwrap` of the callback slot never panics. |
| `Port.ParamOnlyListener` | pipewire/src/port.rs:294-306 | A listener with only a param callback ignores info events and runs its param callback on each param event. |
| `Port.RawIds` | pipewire/src/port.rs:42 | The id array passed across has one raw id per `ParamType`, in order. |
| `Port.SubscribeParamsCall` | pipewire/src/port.rs:36-46 | The call carries the raw ids and their count through the port method table. A count that does not fit `u32` is fatal. |
| `Port.Port.SubscribeParams` | pipewire/src/port.rs:36-46 | On success one `subscribe_params` call is logged. On panic nothing is logged. |
| `Port.EnumParamsCall` | pipewire/src/port.rs:60-75 | The call sends `id.as_raw()` for `Some(id)` and `ID_ANY` for `None`, so the id is `ID_ANY` iff the argument is `None` or itself `ID_ANY`. `seq`, `start` and `num` pass through, the filter is null, and the call goes through the node method table. |
| `Port.Port.EnumParams` | pipewire/src/port.rs:60-75 | One `enum_params` call, the one `EnumParamsCall` describes, is logged and the listeners are untouched. |
| `InfoRecord.NamedFlags` | pipewire/src/port.rs:206-212 | A named flag is in the decoded set iff its bit is set. |
| `InfoRecord.ChangeMaskDecoding` | pipewire/src/port.rs:206-212 | `PROPS \| PARAMS` decodes to both named flags, and 0 to none. |
| `InfoRecord.Id` | pipewire/src/port.rs:124-126 | `id` is the record's id, unchanged. |
| `InfoRecord.GetDirection` | pipewire/src/port.rs:128-130 | `direction` is the record's raw direction code decoded by `Direction::from_raw`. |
| `InfoRecord.ChangeMask` | pipewire/src/port.rs:132-134 | The mask keeps every raw bit, and a named flag is contained iff its bit is set. |
| `InfoRecord.UnnamedBitsRetained` | pipewire/src/port.rs:132-134 | For every mask, bits with no name survive in the mask but add no named flag. The named flags are those of the mask's two named bits alone. |
| `InfoRecord.GetProps` | pipewire/src/port.rs:136-139 | `props` is absent iff its pointer is null, and otherwise refers to the dictionary at that address. |
| `InfoRecord.GetParams` | pipewire/src/port.rs:141-151 | `params` is empty for a null pointer. Otherwise it has exactly `n_params` elements and is a prefix of the native array. It is empty iff the pointer is null or the count is 0. |
| `InfoRecord.ProjectionExample` | pipewire/src/port.rs:124-151 | A record with id 7, a given direction, null props and three params reads back as id 7, that direction, no props and the three params. |
| `InfoRecord.InfoRegistry.Free` | pipewire/src/port.rs:188 | `pw_port_info_free` removes that record and records one free of that pointer. |
| `InfoRecord.PortInfo.New` | pipewire/src/port.rs:171-173 | `new` owns the given non-null pointer. |
| `InfoRecord.PortInfo.FromRaw` | pipewire/src/port.rs:175-179 | `from_raw` panics iff the pointer is null, and otherwise owns exactly that pointer. |
| `InfoRecord.PortInfo.IntoRaw` | pipewire/src/port.rs:181-183 | `into_raw` hands back the same pointer, ends ownership and frees nothing. |
| `InfoRecord.PortInfo.View` | pipewire/src/port.rs:192-198 | Dereferencing an owned `PortInfo` gives a view of the record itself. After `into_raw` or `drop` no view can be taken. |
| `InfoRecord.PortInfo.Drop` | pipewire/src/port.rs:186-190 | Dropping makes exactly one `pw_port_info_free` call with the owned pointer and ends ownership, so no second free can follow. |

## Left out

- Native memory, raw pointer casts, `Pin`, `Box::into_raw`/`from_raw` address stability and the `spa_interface_call_method!` macro's own lookup of a method slot are not modelled. Addresses are abstract and fresh, and a proxy or loop call is one logged operation.
- `assert_main_thread`'s implementation is not modelled. Thread affinity is the boolean `onMain`.
- The `Direction::from_raw`, `ParamType::from_raw` and `ParamType::as_raw` tables are not modelled. They are wrappers that keep the raw value, so a direction code that PipeWire would reject is not a panic here.
- Pod and dictionary contents are not modelled. They are references by address.
- What user closures do is not modelled. Only that they run, and with which arguments.
- The integer results returned by the native `add_listener`, `subscribe_params`, and `enum_params` are ignored, as the source ignores them.
- The `removed` callback that `spa_hook_remove` may run is not modelled.
- Panics are modelled with unwinding semantics: locals and fields are dropped on the way out. Under `panic = "abort"`, the box freed after a null source would not be freed.
- `Port.Emit` is the native side's dispatch to one listener. Delivery order across several listeners and the loop's own scheduling are not modelled.
- `PortInfoRef::as_raw`, `as_raw_ptr`, `AsRef`, the `Debug` impls, `ProxyT` and `Source::as_ptr` are not modelled because they are accessors or formatting with no behaviour of their own.
- The "exactly once" of `Source::drop`, `PortListener::drop`, `PortInfo::drop` and `into_raw` rests on Rust's move semantics. These are modelled by a ghost `dropped`/`owned` flag that each of these methods requires and clears.
- The lifetime borrow from a `Source` to its loop is the field `loop_`. Dafny objects never die, so "does not outlive" is not modelled.
- `PortListener` holds no reference to its port (port.rs:226-233), so in Rust a listener can outlive the `Port` it was registered on. `Port.PortListener.port` is only the name of the hook list the registration lives in, so that `drop` can state what unhooking changes. It is not a borrow.
- InfoRecord.GetParams: the result is a value sequence, so the model does not say whether `params` borrows the native array or copies it. The Rust slice borrows it.
- `libspa/tests/pod.c` and `pipewire-sys/build.rs` are not part of this model. They are test wrappers over a library not shown, and build-time binding generation.
- `PW_VERSION_PORT_EVENTS` (0), `PW_ID_ANY` (0xffffffff) and the change-mask bits (1 and 2) are taken from PipeWire's C headers, which are not part of this model.

## Findings

| source | as written | input that shows it | evidently intended | confidence | as-written member | corrected member |
|---|---|---|---|---|---|---|
| pipewire/src/loop_.rs:64-86 | `Loop::destroy_source` is a safe public trait method that takes `&Source`. `Drop for Source` (lines 110-117) calls it again for the same source. | `let s = l.add_signal_local(sig, f); l.destroy_source(&s); drop(s);` makes two native `destroy_source` calls for one source. | A source is destroyed only by its handle's drop, for example by making `destroy_source` crate-private or `unsafe`. Each source is then destroyed exactly once, before its box is freed. | medium; not executed | `LoopSession.DoubleDestroyAsWritten` | `LoopSession.SessionExactlyOnce` |
