/** The port info record (`pipewire/src/port.rs`): the borrowed view
    `PortInfoRef`, the owned `PortInfo` and the `PortChangeMask` bit set.

    The record is `pw_port_info` with its fields as values; its `props` and
    `params` fields are native addresses. Parameter arrays live in native
    memory, given as a map from address to the array stored there. */
module InfoRecord {
  import opened Native
  import opened Spa

  /** `PW_PORT_CHANGE_MASK_PROPS` and `PW_PORT_CHANGE_MASK_PARAMS` from the
      native `port.h`. */
  const PW_PORT_CHANGE_MASK_PROPS: bv64 := 1
  const PW_PORT_CHANGE_MASK_PARAMS: bv64 := 2

  /** `PortChangeMask`, a `bitflags` set over `u64` with two named flags. */
  datatype PortChangeMask = PortChangeMask(bits: bv64)

  datatype ChangeFlag = Props | Params

  function FlagBits(f: ChangeFlag): bv64
  {
    match f
    case Props => PW_PORT_CHANGE_MASK_PROPS
    case Params => PW_PORT_CHANGE_MASK_PARAMS
  }

  /** `PortChangeMask::contains` for a single named flag. */
  predicate Contains(m: PortChangeMask, f: ChangeFlag)
  {
    m.bits & FlagBits(f) == FlagBits(f)
  }

  /** The named flags set in `m`, as `bitflags`' `iter_names` yields them. */
  function NamedFlags(m: PortChangeMask): (r: set<ChangeFlag>)
    ensures forall f :: f in r <==> Contains(m, f)
  {
    (if m.bits & PW_PORT_CHANGE_MASK_PROPS != 0 then {Props} else {}) +
    (if m.bits & PW_PORT_CHANGE_MASK_PARAMS != 0 then {Params} else {})
  }

  /** A mask combining both named bits decodes to both flags, and the zero
      mask to none. */
  lemma ChangeMaskDecoding()
    ensures NamedFlags(PortChangeMask(PW_PORT_CHANGE_MASK_PROPS | PW_PORT_CHANGE_MASK_PARAMS)) == {Props, Params}
    ensures NamedFlags(PortChangeMask(0)) == {}
  {
    assert Props in NamedFlags(PortChangeMask(PW_PORT_CHANGE_MASK_PROPS | PW_PORT_CHANGE_MASK_PARAMS));
    assert Params in NamedFlags(PortChangeMask(PW_PORT_CHANGE_MASK_PROPS | PW_PORT_CHANGE_MASK_PARAMS));
  }

  /** `pw_port_info`. */
  datatype RawPortInfo = RawPortInfo(
    id: u32,
    direction: u32,
    changeMask: bv64,
    props: Ptr,    // struct spa_dict *
    params: Ptr,   // struct spa_param_info *
    nParams: u32)

  /** `PortInfoRef`, a transparent wrapper over the record. */
  datatype PortInfoRef = PortInfoRef(raw: RawPortInfo)

  /** `PortInfoRef::id`: the record's own id, unchanged. */
  function Id(info: PortInfoRef): (r: u32)
    ensures r == info.raw.id
  {
    info.raw.id
  }

  /** `PortInfoRef::direction`: the raw direction code, decoded. */
  function GetDirection(info: PortInfoRef): (r: Direction)
    ensures r == DirectionFromRaw(info.raw.direction)
  {
    DirectionFromRaw(info.raw.direction)
  }

  /** `PortInfoRef::change_mask`: `from_bits_retain`, so every raw bit is
      kept, named or not, and a named flag is set exactly when its bit is. */
  function ChangeMask(info: PortInfoRef): (m: PortChangeMask)
    ensures m.bits == info.raw.changeMask
    ensures forall f :: Contains(m, f) <==> info.raw.changeMask & FlagBits(f) != 0
  {
    PortChangeMask(info.raw.changeMask)
  }

  /** Bits with no name survive the change mask but add no named flag: the
      named flags of any mask are those of its named bits alone. */
  lemma UnnamedBitsRetained(info: PortInfoRef)
    ensures ChangeMask(info).bits == info.raw.changeMask
    ensures NamedFlags(ChangeMask(info))
            == NamedFlags(PortChangeMask(info.raw.changeMask & (PW_PORT_CHANGE_MASK_PROPS | PW_PORT_CHANGE_MASK_PARAMS)))
  {
    var named := PortChangeMask(info.raw.changeMask & (PW_PORT_CHANGE_MASK_PROPS | PW_PORT_CHANGE_MASK_PARAMS));
    forall f: ChangeFlag
      ensures f in NamedFlags(ChangeMask(info)) <==> f in NamedFlags(named)
    {
      assert Contains(ChangeMask(info), f) <==> Contains(named, f);
    }
  }

  /** `PortInfoRef::props`: present exactly when the pointer is not null. */
  function GetProps(info: PortInfoRef): (d: Option<DictRef>)
    ensures d.None? <==> info.raw.props == NULL
    ensures d.Some? ==> d.value.addr == info.raw.props
  {
    if info.raw.props == NULL then None else Some(DictRef(info.raw.props))
  }

  /** What `std::slice::from_raw_parts` demands: a non-null `params` points
      at an array of at least `n_params` elements. */
  predicate ParamsReadable(info: PortInfoRef, mem: map<Ptr, seq<ParamInfo>>)
  {
    info.raw.params == NULL || (info.raw.params in mem && info.raw.nParams <= |mem[info.raw.params]|)
  }

  /** `PortInfoRef::params`: empty for a null pointer, otherwise a view of
      exactly `n_params` elements of the native array, without copying. */
  function GetParams(info: PortInfoRef, mem: map<Ptr, seq<ParamInfo>>): (ps: seq<ParamInfo>)
    requires ParamsReadable(info, mem)
    ensures info.raw.params == NULL ==> ps == []
    ensures info.raw.params != NULL ==> |ps| == info.raw.nParams && ps <= mem[info.raw.params]
    ensures ps == [] <==> info.raw.params == NULL || info.raw.nParams == 0
  {
    if info.raw.params == NULL then [] else mem[info.raw.params][..info.raw.nParams]
  }

  /** A record with id 7, direction output, no properties and three
      parameters reads back as such. */
  lemma ProjectionExample(mem: map<Ptr, seq<ParamInfo>>, arr: Ptr, output: u32)
    requires arr != NULL && arr in mem && |mem[arr]| == 3
    ensures var info := PortInfoRef(RawPortInfo(7, output, 0, NULL, arr, 3));
            && Id(info) == 7 && GetDirection(info) == DirectionFromRaw(output)
            && GetProps(info) == None && GetParams(info, mem) == mem[arr]
  {
    assert mem[arr][..3] == mem[arr];
  }

  /** Native info records not yet freed, and the `pw_port_info_free` calls
      made so far. */
  class InfoRegistry {
    var records: map<Ptr, RawPortInfo>
    var freed: seq<Ptr>

    constructor (records: map<Ptr, RawPortInfo>)
      ensures this.records == records && freed == []
    {
      this.records, freed := records, [];
    }

    /** `pw_port_info_free`. */
    method Free(ptr: Ptr)
      modifies this
      ensures records == old(records) - {ptr} && freed == old(freed) + [ptr]
    {
      records, freed := records - {ptr}, freed + [ptr];
    }
  }

  /** `PortInfo`: owns a non-null record. `owned` is false once ownership has
      ended, by `drop` or by `into_raw`; Rust lets either happen only once. */
  class PortInfo {
    const ptr: NonNull
    const registry: InfoRegistry
    ghost var owned: bool

    /** `PortInfo::new`, from a `NonNull` pointer. */
    constructor New(registry: InfoRegistry, ptr: NonNull)
      ensures this.ptr == ptr && this.registry == registry && owned
    {
      this.ptr, this.registry := ptr, registry;
      owned := true;
    }

    /** `PortInfo::from_raw`: a null pointer is fatal. */
    static method FromRaw(registry: InfoRegistry, raw: Ptr) returns (r: Outcome<PortInfo>)
      ensures r.Panic? <==> raw == NULL
      ensures r.Panic? ==> r.fatal == NullPointer
      ensures r.Done? ==> fresh(r.value) && r.value.ptr == raw && r.value.registry == registry && r.value.owned
    {
      if raw == NULL {
        return Panic(NullPointer);
      }
      var info := new PortInfo.New(registry, raw);
      return Done(info);
    }

    /** `PortInfo::into_raw`: hands the pointer back and never frees it. */
    method IntoRaw() returns (raw: Ptr)
      requires owned
      modifies this
      ensures raw == ptr && raw != NULL && !owned
      ensures unchanged(registry)
    {
      owned := false;
      return ptr;
    }

    /** `Deref for PortInfo`: the view is the record itself. */
    function View(): (info: PortInfoRef)
      reads this, registry
      requires owned && ptr in registry.records
      ensures info.raw == registry.records[ptr]
    {
      PortInfoRef(registry.records[ptr])
    }

    /** `Drop for PortInfo`: one `pw_port_info_free` of the owned pointer. */
    method Drop()
      requires owned
      modifies this, registry
      ensures !owned
      ensures registry.freed == old(registry.freed) + [ptr]
      ensures registry.records == old(registry.records) - {ptr}
    {
      registry.Free(ptr);
      owned := false;
    }
  }
}
