/** The per-thread state the driver keeps while a probe runs: the thread's
    tracing-private pointer is either empty or points at a `TLSData` record
    holding the probe call depth and 64 words of plugin data. Probes raise the
    depth on entry and lower it on exit; the record is allocated on demand and
    released only by an exit probe that is allowed to free (`shouldFree`) and
    brings the depth back to 0. */
module DynamicTraceApi {
  import opened Words

  /** `MAX_TLS_SLOT`: words of plugin data per thread. */
  const MAX_TLS_SLOT: nat := 64

  type TlsSlots = s: seq<uint64> | |s| == MAX_TLS_SLOT witness seq(64, _ => 0)

  /** A `TLSData` record. */
  datatype TlsData = TlsData(calldepth: uint64, arbitraryData: TlsSlots)

  /** The part of a kernel thread the driver uses: slot 0 of its
      tracing-private array, holding the `TLSData` pointer. */
  class KThread {
    var tracingPrivateData: Option<TlsData>

    constructor ()
      ensures tracingPrivateData == None
    {
      tracingPrivateData := None;
    }
  }

  /** `getRawTLSData`: the thread's record, none when the kernel reports an
      empty tracing-private array. */
  function RawTlsData(arraySize: uint32, tls: Option<TlsData>): (r: Option<TlsData>)
    ensures arraySize == 0 ==> r == None
    ensures arraySize != 0 ==> r == tls
  {
    if arraySize == 0 then None else tls
  }

  /** `getTlsDataCalldepth`: the recorded depth, 0 when there is no record. */
  function Calldepth(arraySize: uint32, tls: Option<TlsData>): (d: uint64)
    ensures RawTlsData(arraySize, tls).None? ==> d == 0
    ensures RawTlsData(arraySize, tls).Some? ==> d == tls.value.calldepth
  {
    if arraySize == 0 then 0
    else if tls.None? then 0
    else tls.value.calldepth
  }

  /** `isCallFromInsideProbe`: a probe is already running further up. */
  predicate InsideProbe(arraySize: uint32, tls: Option<TlsData>)
  {
    Calldepth(arraySize, tls) > 1
  }

  /** The thread's record after a step, and the step's `calledChildren`
      report (whether it allocated or released the record). */
  datatype TlsStep = TlsStep(tls: Option<TlsData>, calledChildren: bool)

  /** `setTlsDataCalldepth(value, calledChildren, shouldFree)`. `block` is what
      the lookaside allocator hands back when the record is missing: none when
      allocation fails, otherwise a block of unspecified contents. */
  function SetCalldepth(arraySize: uint32, tls: Option<TlsData>, value: uint64, shouldFree: bool,
                        block: Option<TlsData>): (s: TlsStep)
    ensures arraySize == 0 ==> s == TlsStep(tls, false)
    ensures arraySize != 0 && tls.None? && block.None? ==> s == TlsStep(None, false)
    ensures arraySize != 0 && (tls.Some? || block.Some?) ==>
              if shouldFree && value == 0 then s == TlsStep(None, true)
              else s.tls.Some? && s.tls.value.calldepth == value && s.calledChildren == tls.None? &&
                   (tls.Some? ==> s.tls.value.arbitraryData == tls.value.arbitraryData)
  {
    if arraySize == 0 then
      TlsStep(tls, false)
    else
      var record := if tls.Some? then tls else block;
      if record.None? then
        TlsStep(None, false)
      else if shouldFree && value == 0 then
        TlsStep(None, true)
      else
        TlsStep(Some(record.value.(calldepth := value)), tls.None?)
  }

  /** `EnterProbe`: sets the depth one higher (64-bit arithmetic). */
  function Enter(arraySize: uint32, tls: Option<TlsData>, block: Option<TlsData>): (s: TlsStep)
    ensures arraySize == 0 ==> s == TlsStep(tls, false)
    ensures arraySize != 0 && (tls.Some? || block.Some?) ==> s.tls.Some? && s.calledChildren == tls.None?
  {
    SetCalldepth(arraySize, tls, ToUInt64(Calldepth(arraySize, tls) + 1), false, block)
  }

  /** `ExitProbe(shouldFree)`: sets the depth one lower (64-bit arithmetic, so
      0 becomes 2^64 - 1), releasing the record at 0 when `shouldFree`. */
  function Exit(arraySize: uint32, tls: Option<TlsData>, shouldFree: bool, block: Option<TlsData>): (s: TlsStep)
    ensures arraySize == 0 ==> s == TlsStep(tls, false)
    ensures arraySize != 0 && (tls.Some? || block.Some?) && s.tls.None? ==>
              shouldFree && Calldepth(arraySize, tls) == 1 && s.calledChildren
  {
    SetCalldepth(arraySize, tls, ToUInt64(Calldepth(arraySize, tls) - 1), shouldFree, block)
  }

  /** Whenever the record exists or can be allocated, the depth read back
      after a set is the value set; a released record reads as 0, which is
      the only value that releases. */
  lemma SetThenGet(arraySize: uint32, tls: Option<TlsData>, value: uint64, shouldFree: bool, block: Option<TlsData>)
    requires arraySize != 0 && (tls.Some? || block.Some?)
    ensures Calldepth(arraySize, SetCalldepth(arraySize, tls, value, shouldFree, block).tls) == value
  {
  }

  /** `EnterProbe` raises the depth by exactly one and keeps the record. */
  lemma EnterRaisesDepth(arraySize: uint32, tls: Option<TlsData>, block: Option<TlsData>)
    requires arraySize != 0 && (tls.Some? || block.Some?)
    ensures var s := Enter(arraySize, tls, block);
            s.tls.Some? && Calldepth(arraySize, s.tls) == ToUInt64(Calldepth(arraySize, tls) + 1)
  {
    SetThenGet(arraySize, tls, ToUInt64(Calldepth(arraySize, tls) + 1), false, block);
  }

  /** `ExitProbe` lowers the depth by exactly one, modulo 2^64. */
  lemma ExitLowersDepth(arraySize: uint32, tls: Option<TlsData>, shouldFree: bool, block: Option<TlsData>)
    requires arraySize != 0 && (tls.Some? || block.Some?)
    ensures Calldepth(arraySize, Exit(arraySize, tls, shouldFree, block).tls) ==
            ToUInt64(Calldepth(arraySize, tls) - 1)
  {
    SetThenGet(arraySize, tls, ToUInt64(Calldepth(arraySize, tls) - 1), shouldFree, block);
  }

  /** An exit probe at depth 0 wraps to 2^64 - 1 and keeps the record. */
  lemma ExitAtZeroWraps(arraySize: uint32, d: TlsData, shouldFree: bool, block: Option<TlsData>)
    requires arraySize != 0 && d.calldepth == 0
    ensures Exit(arraySize, Some(d), shouldFree, block) ==
            TlsStep(Some(d.(calldepth := UINT64_MODULUS - 1)), false)
  {
  }

  /** From an empty thread, an entry probe allocates a record at depth 1, and
      the exit probe that frees brings the thread back to empty; both report
      `calledChildren`. */
  lemma EnterThenExitFrees(arraySize: uint32, block: TlsData, later: Option<TlsData>)
    requires arraySize != 0
    ensures var entered := Enter(arraySize, None, Some(block));
            entered == TlsStep(Some(block.(calldepth := 1)), true) &&
            Exit(arraySize, entered.tls, true, later) == TlsStep(None, true)
  {
  }

  /** An exit probe that may not free leaves the record allocated at depth 0. */
  lemma ExitWithoutFreeKeepsRecord(arraySize: uint32, d: TlsData, block: Option<TlsData>)
    requires arraySize != 0 && d.calldepth == 1
    ensures Exit(arraySize, Some(d), false, block) == TlsStep(Some(d.(calldepth := 0)), false)
  {
  }

  /** Only a nested probe is inside a probe: after one entry from an empty
      thread the depth is 1, after a second it is 2. */
  lemma NestedEntryIsInsideProbe(arraySize: uint32, block: TlsData, later: Option<TlsData>)
    requires arraySize != 0
    ensures var first := Enter(arraySize, None, Some(block));
            !InsideProbe(arraySize, first.tls) &&
            InsideProbe(arraySize, Enter(arraySize, first.tls, later).tls)
  {
  }

  /** `isCallFromInsideProbe` holds exactly when the thread has a record
      (under a non-empty tracing-private array) whose depth exceeds 1; a thread
      without a record is never inside a probe. */
  lemma InsideProbeExactly(arraySize: uint32, tls: Option<TlsData>)
    ensures InsideProbe(arraySize, tls) <==> arraySize != 0 && tls.Some? && tls.value.calldepth > 1
    ensures RawTlsData(arraySize, tls).None? ==> !InsideProbe(arraySize, tls)
  {
  }

  /** An entry probe on a thread already at depth `d >= 1` (short of the
      wrap-around) is inside a probe, and so is every entry it makes before
      the matching exit. */
  lemma EnterFromRunningProbeIsInside(arraySize: uint32, d: TlsData, block: Option<TlsData>)
    requires arraySize != 0 && 1 <= d.calldepth < UINT64_MODULUS - 1
    ensures InsideProbe(arraySize, Enter(arraySize, Some(d), block).tls)
    ensures !InsideProbe(arraySize, Some(d)) <==> d.calldepth == 1
  {
  }

  /** Without a tracing-private array nothing is ever stored or read. */
  lemma NoArrayNoEffect(tls: Option<TlsData>, value: uint64, shouldFree: bool, block: Option<TlsData>)
    ensures SetCalldepth(0, tls, value, shouldFree, block) == TlsStep(tls, false)
    ensures Enter(0, tls, block) == TlsStep(tls, false)
    ensures Exit(0, tls, shouldFree, block) == TlsStep(tls, false)
    ensures RawTlsData(0, tls) == None && Calldepth(0, tls) == 0 && !InsideProbe(0, tls)
  {
  }

  /** `TraceApi`, the kernel's dynamic-trace context; the model keeps the one
      field the probe bookkeeping reads. The current thread is passed in. */
  class TraceApi {
    var tracingPrivateDataArraySize: uint32

    constructor (arraySize: uint32)
      ensures tracingPrivateDataArraySize == arraySize
    {
      tracingPrivateDataArraySize := arraySize;
    }

    /** `setTlsDataCalldepth` on the current thread. */
    method SetTlsDataCalldepth(thread: KThread, value: uint64, shouldFree: bool, block: Option<TlsData>)
      returns (calledChildren: bool)
      modifies thread
      ensures TlsStep(thread.tracingPrivateData, calledChildren) ==
              SetCalldepth(tracingPrivateDataArraySize, old(thread.tracingPrivateData), value, shouldFree, block)
    {
      calledChildren := false;
      if tracingPrivateDataArraySize == 0 {
        return;
      }
      if thread.tracingPrivateData.None? {
        thread.tracingPrivateData := block;
        if thread.tracingPrivateData.None? {
          return;
        }
        calledChildren := true;
      }
      if shouldFree && value == 0 {
        thread.tracingPrivateData := None;
        calledChildren := true;
      } else {
        thread.tracingPrivateData := Some(thread.tracingPrivateData.value.(calldepth := value));
      }
    }

    /** `EnterProbe` on the current thread. */
    method EnterProbe(thread: KThread, block: Option<TlsData>) returns (calledChildren: bool)
      modifies thread
      ensures TlsStep(thread.tracingPrivateData, calledChildren) ==
              Enter(tracingPrivateDataArraySize, old(thread.tracingPrivateData), block)
    {
      var recursiveCallDepth: int := Calldepth(tracingPrivateDataArraySize, thread.tracingPrivateData);
      calledChildren := SetTlsDataCalldepth(thread, ToUInt64(recursiveCallDepth + 1), false, block);
    }

    /** `ExitProbe(shouldFree)` on the current thread. */
    method ExitProbe(thread: KThread, shouldFree: bool, block: Option<TlsData>) returns (calledChildren: bool)
      modifies thread
      ensures TlsStep(thread.tracingPrivateData, calledChildren) ==
              Exit(tracingPrivateDataArraySize, old(thread.tracingPrivateData), shouldFree, block)
    {
      var recursiveCallDepth: int := Calldepth(tracingPrivateDataArraySize, thread.tracingPrivateData);
      calledChildren := SetTlsDataCalldepth(thread, ToUInt64(recursiveCallDepth - 1), shouldFree, block);
    }
  }
}
