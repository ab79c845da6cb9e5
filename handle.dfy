/** Typed handles (src/hal/handle.rs): one newtype over `i32` per kind of
    hardware resource, and the `Handle` trait that builds a handle from its
    raw integer (`new`), reads it back (`get_handle`) and converts between
    kinds (`transmute_handle`).  Each kind is its own datatype, so handles of
    different kinds cannot be mixed up; the trait becomes a record of its two
    required functions, passed explicitly where Rust would pick the impl. */
module Handles {
  import opened Ints

  datatype AnalogInputHandle = AnalogInputHandle(raw: i32)
  datatype GyroHandle = GyroHandle(raw: i32)
  datatype PortHandle = PortHandle(raw: i32)
  datatype AnalogOutputHandle = AnalogOutputHandle(raw: i32)
  datatype AnalogTriggerHandle = AnalogTriggerHandle(raw: i32)
  datatype CompressorHandle = CompressorHandle(raw: i32)
  datatype CounterHandle = CounterHandle(raw: i32)
  datatype DigitalHandle = DigitalHandle(raw: i32)
  datatype DigitalPwmHandle = DigitalPwmHandle(raw: i32)
  datatype RelayHandle = RelayHandle(raw: i32)
  datatype SolenoidHandle = SolenoidHandle(raw: i32)
  datatype InterruptHandle = InterruptHandle(raw: i32)
  datatype NotifierHandle = NotifierHandle(raw: i32)
  datatype SpiHandle = SpiHandle(raw: i32)

  /** An `impl Handle for H`: its `new` and `get_handle`. */
  datatype HandleImpl<!H> = HandleImpl(newHandle: i32 -> H, getHandle: H -> i32)

  /** The laws every generated impl obeys: `get_handle` gives back what `new`
      was given, and every handle is `new` of its own raw integer. */
  ghost predicate Lawful<H(!new)>(impl: HandleImpl<H>) {
    && (forall n: i32 :: impl.getHandle(impl.newHandle(n)) == n)
    && (forall h: H :: impl.newHandle(impl.getHandle(h)) == h)
  }

  /** The provided `transmute_handle::<B>()` of a handle of kind `A`: a `B`
      built from the source's raw integer. */
  function TransmuteHandle<A, B(!new)>(from: HandleImpl<A>, to: HandleImpl<B>, h: A): (r: B)
    requires Lawful(to)
    ensures to.getHandle(r) == from.getHandle(h)
  {
    to.newHandle(from.getHandle(h))
  }

  /** Transmuting to another kind and back returns the original handle. */
  lemma TransmuteRoundTrip<A(!new), B(!new)>(ia: HandleImpl<A>, ib: HandleImpl<B>, h: A)
    requires Lawful(ia) && Lawful(ib)
    ensures TransmuteHandle(ib, ia, TransmuteHandle(ia, ib, h)) == h
  {
    var b := TransmuteHandle(ia, ib, h);
    assert ia.newHandle(ib.getHandle(b)) == ia.newHandle(ia.getHandle(h));
  }

  /** The derived `PartialEq`: two handles of one kind are equal exactly when
      their raw integers are. */
  lemma EqualIffSameRaw<H(!new)>(impl: HandleImpl<H>, a: H, b: H)
    requires Lawful(impl)
    ensures a == b <==> impl.getHandle(a) == impl.getHandle(b)
  {
    if impl.getHandle(a) == impl.getHandle(b) {
      assert a == impl.newHandle(impl.getHandle(a));
      assert b == impl.newHandle(impl.getHandle(b));
    }
  }

  /** `impl Handle for AnalogInputHandle`. */
  function AnalogInputImpl(): (impl: HandleImpl<AnalogInputHandle>)
    ensures Lawful(impl)
  {
    HandleImpl(n => AnalogInputHandle(n), (h: AnalogInputHandle) => h.raw)
  }

  /** `impl Handle for GyroHandle`. */
  function GyroImpl(): (impl: HandleImpl<GyroHandle>)
    ensures Lawful(impl)
  {
    HandleImpl(n => GyroHandle(n), (h: GyroHandle) => h.raw)
  }

  /** `impl Handle for PortHandle`. */
  function PortImpl(): (impl: HandleImpl<PortHandle>)
    ensures Lawful(impl)
  {
    HandleImpl(n => PortHandle(n), (h: PortHandle) => h.raw)
  }

  /** `impl Handle for AnalogOutputHandle`. */
  function AnalogOutputImpl(): (impl: HandleImpl<AnalogOutputHandle>)
    ensures Lawful(impl)
  {
    HandleImpl(n => AnalogOutputHandle(n), (h: AnalogOutputHandle) => h.raw)
  }

  /** `impl Handle for AnalogTriggerHandle`. */
  function AnalogTriggerImpl(): (impl: HandleImpl<AnalogTriggerHandle>)
    ensures Lawful(impl)
  {
    HandleImpl(n => AnalogTriggerHandle(n), (h: AnalogTriggerHandle) => h.raw)
  }

  /** `impl Handle for CompressorHandle`. */
  function CompressorImpl(): (impl: HandleImpl<CompressorHandle>)
    ensures Lawful(impl)
  {
    HandleImpl(n => CompressorHandle(n), (h: CompressorHandle) => h.raw)
  }

  /** `impl Handle for CounterHandle`. */
  function CounterImpl(): (impl: HandleImpl<CounterHandle>)
    ensures Lawful(impl)
  {
    HandleImpl(n => CounterHandle(n), (h: CounterHandle) => h.raw)
  }

  /** `impl Handle for DigitalHandle`. */
  function DigitalImpl(): (impl: HandleImpl<DigitalHandle>)
    ensures Lawful(impl)
  {
    HandleImpl(n => DigitalHandle(n), (h: DigitalHandle) => h.raw)
  }

  /** `impl Handle for DigitalPwmHandle`. */
  function DigitalPwmImpl(): (impl: HandleImpl<DigitalPwmHandle>)
    ensures Lawful(impl)
  {
    HandleImpl(n => DigitalPwmHandle(n), (h: DigitalPwmHandle) => h.raw)
  }

  /** `impl Handle for RelayHandle`. */
  function RelayImpl(): (impl: HandleImpl<RelayHandle>)
    ensures Lawful(impl)
  {
    HandleImpl(n => RelayHandle(n), (h: RelayHandle) => h.raw)
  }

  /** `impl Handle for SolenoidHandle`. */
  function SolenoidImpl(): (impl: HandleImpl<SolenoidHandle>)
    ensures Lawful(impl)
  {
    HandleImpl(n => SolenoidHandle(n), (h: SolenoidHandle) => h.raw)
  }

  /** `impl Handle for InterruptHandle`. */
  function InterruptImpl(): (impl: HandleImpl<InterruptHandle>)
    ensures Lawful(impl)
  {
    HandleImpl(n => InterruptHandle(n), (h: InterruptHandle) => h.raw)
  }

  /** `impl Handle for NotifierHandle`. */
  function NotifierImpl(): (impl: HandleImpl<NotifierHandle>)
    ensures Lawful(impl)
  {
    HandleImpl(n => NotifierHandle(n), (h: NotifierHandle) => h.raw)
  }

  /** `impl Handle for SpiHandle`. */
  function SpiImpl(): (impl: HandleImpl<SpiHandle>)
    ensures Lawful(impl)
  {
    HandleImpl(n => SpiHandle(n), (h: SpiHandle) => h.raw)
  }

}
