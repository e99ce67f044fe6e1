/** Values that cross the FFI boundary, shared by every module of the model.

    Native memory is never modelled as memory: a pointer is an abstract
    address (a `nat`), and 0 is the null pointer. A Rust panic (an `unwrap`
    or `expect` on a null value, a failed assertion) is an `Outcome.Panic`
    carrying the violated precondition; nothing in this layer recovers from
    one. */
module Native {

  /** An abstract native address; `NULL` is the null pointer. */
  type Ptr = nat

  const NULL: Ptr := 0

  /** `ptr::NonNull`. */
  type NonNull = p: Ptr | p != NULL witness 1

  const U32_MAX: int := 0xFFFF_FFFF

  /** C `uint32_t`. */
  type u32 = x: int | 0 <= x <= U32_MAX

  /** C `int32_t`. */
  type i32 = x: int | -0x8000_0000 <= x <= 0x7FFF_FFFF

  datatype Option<+T> = None | Some(value: T)

  /** The fatal precondition violations of the core, one per panic site. */
  datatype Fatal =
    | NotMainThread    // assert_main_thread()
    | NullLoop         // as_ptr().as_ref().unwrap()
    | NullUtils        // .utils.as_ref().unwrap()
    | NullSource       // expect("source is NULL")
    | NullContext      // a trampoline's (data as *mut _).as_ref().unwrap()
    | NullInfo         // expect("info is NULL")
    | NullPointer      // expect("Provided pointer is null")
    | MissingCallback  // callbacks.<slot>.as_ref().unwrap()
    | CountOverflow    // ids.len().try_into().unwrap()

  /** The result of an operation that either completes or panics. */
  datatype Outcome<+T> = Done(value: T) | Panic(fatal: Fatal)
}

/** The SPA types the core passes through without interpreting them. Their
    decoding tables are not part of this model: each is a wrapper that keeps
    the raw value it was built from. */
module Spa {
  import opened Native

  /** `spa::param::ParamType`, a transparent wrapper over the raw id. */
  datatype ParamType = ParamType(raw: u32)

  /** `ParamType::from_raw`. */
  function ParamTypeFromRaw(raw: u32): ParamType
  {
    ParamType(raw)
  }

  /** `spa::utils::Direction`, identified by its raw code. */
  datatype Direction = Direction(raw: u32)

  /** `Direction::from_raw`: decodes the raw code without losing it. */
  function DirectionFromRaw(raw: u32): Direction
  {
    Direction(raw)
  }

  /** A borrowed `&Pod` at a non-null native address. */
  datatype PodRef = PodRef(addr: Ptr)

  /** A borrowed `&DictRef` at a non-null native address. */
  datatype DictRef = DictRef(addr: Ptr)

  /** `spa_param_info`: an element of a port's parameter list. */
  datatype ParamInfo = ParamInfo(id: ParamType, flags: u32)
}
