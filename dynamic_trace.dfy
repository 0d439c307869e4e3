/** The memory-access primitive the driver and its plugins use, and the
    per-thread plugin data slots. */
module DynamicTrace {
  import opened Words
  import opened DynamicTraceApi

  /** The access widths that move data; any other chunk size is walked but
      copies nothing. */
  predicate MovesData(chunkSize: nat)
  {
    chunkSize == 1 || chunkSize == 2 || chunkSize == 4 || chunkSize == 8
  }

  /** How many leading bytes an access copies: every whole chunk of a moving
      width, nothing for any other width. */
  function CopiedLength(numberOfBytes: nat, chunkSize: nat): (m: nat)
    requires chunkSize > 0
    ensures m <= numberOfBytes && m % chunkSize == 0
    ensures MovesData(chunkSize) ==> numberOfBytes - m < chunkSize
    ensures !MovesData(chunkSize) ==> m == 0
  {
    if MovesData(chunkSize) then numberOfBytes / chunkSize * chunkSize else 0
  }

  /** Whether the access reports success: the length is a whole number of
      chunks. */
  predicate AccessSucceeds(numberOfBytes: nat, chunkSize: nat)
    requires chunkSize > 0 || numberOfBytes == 0
  {
    numberOfBytes == 0 || numberOfBytes % chunkSize == 0
  }

  /** The destination after an access: the copied prefix comes from the
      source, the rest is as it was. */
  function Transferred(source: seq<byte>, dest: seq<byte>, numberOfBytes: nat, chunkSize: nat): (r: seq<byte>)
    requires numberOfBytes <= |source| && numberOfBytes <= |dest|
    requires chunkSize > 0 || numberOfBytes == 0
    ensures |r| == |dest|
  {
    var m := if numberOfBytes == 0 then 0 else CopiedLength(numberOfBytes, chunkSize);
    source[..m] + dest[m..]
  }

  /** With a moving width and a whole number of chunks all `numberOfBytes`
      bytes arrive, the access succeeds, and nothing past them changes. */
  lemma WholeChunksCopyEverything(source: seq<byte>, dest: seq<byte>, numberOfBytes: nat, chunkSize: nat)
    requires numberOfBytes <= |source| && numberOfBytes <= |dest|
    requires MovesData(chunkSize) && numberOfBytes % chunkSize == 0
    ensures AccessSucceeds(numberOfBytes, chunkSize)
    ensures Transferred(source, dest, numberOfBytes, chunkSize) == source[..numberOfBytes] + dest[numberOfBytes..]
  {
    if numberOfBytes > 0 {
      var m := CopiedLength(numberOfBytes, chunkSize);
      assert m == numberOfBytes;
    }
  }

  /** A length that is not a whole number of chunks fails, after copying the
      whole chunks and leaving the overhang untouched. */
  lemma OverhangFails(source: seq<byte>, dest: seq<byte>, numberOfBytes: nat, chunkSize: nat)
    requires numberOfBytes <= |source| && numberOfBytes <= |dest|
    requires chunkSize > 0 && numberOfBytes % chunkSize != 0
    ensures !AccessSucceeds(numberOfBytes, chunkSize)
    ensures var m := CopiedLength(numberOfBytes, chunkSize);
            Transferred(source, dest, numberOfBytes, chunkSize)[..m] == source[..m] &&
            Transferred(source, dest, numberOfBytes, chunkSize)[m..] == dest[m..]
  {
  }

  /** A width other than 1, 2, 4 or 8 leaves the destination as it was. */
  lemma OtherWidthsCopyNothing(source: seq<byte>, dest: seq<byte>, numberOfBytes: nat, chunkSize: nat)
    requires numberOfBytes <= |source| && numberOfBytes <= |dest|
    requires chunkSize > 0 && !MovesData(chunkSize)
    ensures Transferred(source, dest, numberOfBytes, chunkSize) == dest
  {
  }

  /** Bytes past `numberOfBytes` are never written. */
  lemma NothingPastTheLength(source: seq<byte>, dest: seq<byte>, numberOfBytes: nat, chunkSize: nat)
    requires numberOfBytes <= |source| && numberOfBytes <= |dest|
    requires chunkSize > 0 || numberOfBytes == 0
    ensures Transferred(source, dest, numberOfBytes, chunkSize)[numberOfBytes..] == dest[numberOfBytes..]
  {
  }

  lemma MulAtLeast(a: int, c: nat)
    requires a >= 1 && c > 0
    ensures a * c >= c
  {
  }

  /** `n = q * c + r` with `0 <= r < c` fixes the quotient and remainder. */
  lemma DivModUnique(n: nat, c: nat, q: nat, r: nat)
    requires c > 0 && n == q * c + r && r < c
    ensures n / c == q && n % c == r
  {
    var d, m := n / c, n % c;
    assert d * c + m == q * c + r;
    assert (d - q) * c == r - m;
    if d > q {
      MulAtLeast(d - q, c);
    } else if d < q {
      MulAtLeast(q - d, c);
    }
  }

  /** The bytes of `dest` after the first `copied` bytes of `source` have
      been stored over it. */
  predicate CopiedPrefix(dest: seq<byte>, source: seq<byte>, destBefore: seq<byte>, copied: nat)
    requires |dest| == |destBefore| && copied <= |source| && copied <= |dest|
  {
    dest == source[..copied] + destBefore[copied..]
  }

  /** The copy loop stopped after `chunks` steps with `remaining` bytes left,
      `remaining` being 0 or less than a chunk: the bytes it moved are the
      ones `Transferred` describes. */
  lemma LoopExit(source: seq<byte>, dest: seq<byte>, destBefore: seq<byte>, numberOfBytes: nat,
                 chunkSize: nat, chunks: nat, remaining: nat)
    requires numberOfBytes <= |source| && numberOfBytes <= |destBefore| && |dest| == |destBefore|
    requires chunkSize > 0 && numberOfBytes == chunks * chunkSize + remaining && remaining < chunkSize
    requires MovesData(chunkSize) ==> CopiedPrefix(dest, source, destBefore, chunks * chunkSize)
    requires !MovesData(chunkSize) ==> dest == destBefore
    ensures dest == Transferred(source, destBefore, numberOfBytes, chunkSize)
    ensures AccessSucceeds(numberOfBytes, chunkSize) <==> remaining == 0
  {
    DivModUnique(numberOfBytes, chunkSize, chunks, remaining);
  }

  /** `TraceAccessMemory`: copies `numberOfBytes` bytes in `chunkSize`-wide
      steps from `unsafeMemory` to `safeMemory` when `doRead`, the other way
      round otherwise. A step needs a whole chunk left, else the access stops
      and fails. */
  method TraceAccessMemory(safeMemory: array<byte>, unsafeMemory: array<byte>,
                           numberOfBytes: nat, chunkSize: nat, doRead: bool) returns (ok: bool)
    requires safeMemory != unsafeMemory
    requires numberOfBytes <= safeMemory.Length && numberOfBytes <= unsafeMemory.Length
    requires chunkSize > 0 || numberOfBytes == 0
    modifies if doRead then safeMemory else unsafeMemory
    ensures ok == AccessSucceeds(numberOfBytes, chunkSize)
    ensures doRead ==>
              unchanged(unsafeMemory) &&
              safeMemory[..] == Transferred(old(unsafeMemory[..]), old(safeMemory[..]), numberOfBytes, chunkSize)
    ensures !doRead ==>
              unchanged(safeMemory) &&
              unsafeMemory[..] == Transferred(old(safeMemory[..]), old(unsafeMemory[..]), numberOfBytes, chunkSize)
  {
    var source, dest := unsafeMemory, safeMemory;
    if !doRead {
      source, dest := safeMemory, unsafeMemory;
    }
    if numberOfBytes == 0 {
      return true;
    }
    ok := CopyChunks(source, dest, numberOfBytes, chunkSize);
  }

  /** The loop of `TraceAccessMemory` once source and destination are
      chosen. */
  method CopyChunks(source: array<byte>, dest: array<byte>, numberOfBytes: nat, chunkSize: nat)
    returns (ok: bool)
    requires source != dest && chunkSize > 0
    requires numberOfBytes <= source.Length && numberOfBytes <= dest.Length
    modifies dest
    ensures ok == AccessSucceeds(numberOfBytes, chunkSize)
    ensures dest[..] == Transferred(source[..], old(dest[..]), numberOfBytes, chunkSize)
  {
    ghost var destBefore := dest[..];
    var remaining: nat := numberOfBytes;
    var offset: nat := 0;
    ghost var chunks: nat := 0;
    while remaining != 0
      invariant offset + remaining == numberOfBytes
      invariant offset == chunks * chunkSize
      invariant MovesData(chunkSize) ==> CopiedPrefix(dest[..], source[..], destBefore, offset)
      invariant !MovesData(chunkSize) ==> dest[..] == destBefore
    {
      if remaining < chunkSize {
        LoopExit(source[..], dest[..], destBefore, numberOfBytes, chunkSize, chunks, remaining);
        return false;
      }
      if MovesData(chunkSize) {
        forall k | 0 <= k < chunkSize {
          dest[offset + k] := source[offset + k];
        }
        assert dest[..] == source[..offset + chunkSize] + destBefore[offset + chunkSize..];
      }
      remaining := remaining - chunkSize;
      offset := offset + chunkSize;
      chunks := chunks + 1;
    }
    LoopExit(source[..], dest[..], destBefore, numberOfBytes, chunkSize, chunks, 0);
    return true;
  }

  /** The value `GetTLSData` reports for `slot`: none for a slot past the
      table, without a trace context, or without a record on the thread. */
  function TlsSlotValue(api: TraceApi?, thread: KThread, slot: uint8): (r: Option<uint64>)
    reads api, thread
    ensures r.Some? <==> slot < MAX_TLS_SLOT && api != null &&
                         RawTlsData(api.tracingPrivateDataArraySize, thread.tracingPrivateData).Some?
    ensures r.Some? ==> r.value == thread.tracingPrivateData.value.arbitraryData[slot]
  {
    if slot >= MAX_TLS_SLOT || api == null then None
    else
      var data := RawTlsData(api.tracingPrivateDataArraySize, thread.tracingPrivateData);
      if data.None? then None else Some(data.value.arbitraryData[slot])
  }

  /** `SetTLSData(value, slot)` on the current thread, with `api` the global
      trace context. On success only word `slot` of the record changes, and
      it now reads back as `value`; on failure nothing changes. */
  method SetTlsData(api: TraceApi?, thread: KThread, value: uint64, slot: uint8) returns (ok: bool)
    modifies thread
    ensures ok <==> old(TlsSlotValue(api, thread, slot)).Some?
    ensures !ok ==> unchanged(thread)
    ensures ok ==> thread.tracingPrivateData ==
                   Some(old(thread.tracingPrivateData).value.(arbitraryData :=
                          old(thread.tracingPrivateData).value.arbitraryData[slot := value]))
    ensures ok ==> TlsSlotValue(api, thread, slot) == Some(value)
    ensures forall s: uint8 | s != slot :: TlsSlotValue(api, thread, s) == old(TlsSlotValue(api, thread, s))
  {
    if slot >= MAX_TLS_SLOT as uint8 {
      return false;
    }
    if api == null {
      return false;
    }
    var pData := RawTlsData(api.tracingPrivateDataArraySize, thread.tracingPrivateData);
    if pData.None? {
      return false;
    }
    thread.tracingPrivateData := Some(pData.value.(arbitraryData := pData.value.arbitraryData[slot := value]));
    return true;
  }

  /** `GetTLSData(value, slot)` on the current thread: `valueOut` is the
      reference parameter after the call, the stored word on success and
      `value` untouched on failure. */
  method GetTlsData(api: TraceApi?, thread: KThread, value: uint64, slot: uint8) returns (ok: bool, valueOut: uint64)
    ensures ok <==> TlsSlotValue(api, thread, slot).Some?
    ensures ok ==> valueOut == TlsSlotValue(api, thread, slot).value
    ensures !ok ==> valueOut == value
  {
    valueOut := value;
    if slot >= MAX_TLS_SLOT as uint8 {
      return false, valueOut;
    }
    if api == null {
      return false, valueOut;
    }
    var pData := RawTlsData(api.tracingPrivateDataArraySize, thread.tracingPrivateData);
    if pData.None? {
      return false, valueOut;
    }
    valueOut := pData.value.arbitraryData[slot];
    return true, valueOut;
  }
}
