/** The driver's side of the interface: its read-only argument view, and the
    `CallerInfo` record of the calling process with the module attribution of
    a captured stack trace. */
module DriverInterface {
  import opened Words
  import opened ArgumentLayout

  /** The driver's copy of the argument view. It only reads, and it refuses
      every index, answering 0, when `regArgsSize` exceeds `paramCount`. */
  class MachineState {
    var paramCount: uint32
    var regArgsSize: uint32
    var pStackArgs: array<uint64>
    var pRegArgs: array<uint64>

    /** When the guard lets reads through, the arrays hold every accepted index. */
    ghost predicate Valid()
      reads this
    {
      regArgsSize > paramCount ||
      Covers(paramCount, regArgsSize, pRegArgs.Length, pStackArgs.Length)
    }

    constructor (paramCount: uint32, regArgsSize: uint32, pStackArgs: array<uint64>, pRegArgs: array<uint64>)
      ensures this.paramCount == paramCount && this.regArgsSize == regArgsSize
      ensures this.pStackArgs == pStackArgs && this.pRegArgs == pRegArgs
    {
      this.paramCount := paramCount;
      this.regArgsSize := regArgsSize;
      this.pStackArgs := pStackArgs;
      this.pRegArgs := pRegArgs;
    }

    /** `read_argument`: 0 past `paramCount` or when `regArgsSize > paramCount`,
        otherwise argument `idx` of the two-array layout. */
    function ReadArgument(idx: uint32): (r: uint64)
      reads this, pRegArgs, pStackArgs
      requires Valid()
      ensures idx > paramCount || regArgsSize > paramCount ==> r == 0
      ensures idx <= paramCount && regArgsSize <= paramCount ==>
                r == LogicalArguments(paramCount, regArgsSize, pRegArgs[..], pStackArgs[..])[idx]
    {
      if idx > paramCount || regArgsSize > paramCount then
        0
      else if idx >= regArgsSize then
        pStackArgs[idx - regArgsSize]
      else
        pRegArgs[idx]
    }
  }

  /** `MAX_PATH`: bytes in a frame's module path buffer, terminator included. */
  const MAX_PATH: nat := 260
  /** `MAX_FRAME_DEPTH`: most return addresses a trace captures. */
  const MAX_FRAME_DEPTH: nat := 50
  /** The path stored for a module whose path does not fit. */
  const NAME_TOO_LONG: string := "NAME_TOO_LONG"

  /** One captured frame: its return address, the base of the module it was
      attributed to (0 while unattributed) and that module's path. */
  datatype StackFrame = StackFrame(frameAddress: uint64, moduleBase: uint64, modulePath: string)

  /** A loaded module as an enumeration reports it. */
  datatype Module = Module(path: string, base: uint64, size: uint64)

  /** A frame as capture starts it: the address, base 0 and an empty path
      (the frame array is zero-filled). */
  function Unattributed(addr: uint64): (f: StackFrame)
    ensures f.frameAddress == addr && f.moduleBase == 0 && f.modulePath == []
  {
    StackFrame(addr, 0, [])
  }

  /** `base <= addr < base + size`, the sum computed in 64-bit arithmetic. */
  predicate InModule(addr: uint64, m: Module)
  {
    m.base <= addr < ToUInt64(m.base + m.size)
  }

  /** A path can be copied with its terminator into the frame's buffer. */
  predicate PathFits(path: string)
  {
    |path| < MAX_PATH
  }

  /** The guard the source writes, `strlen(path) <= sizeof(modulePath)`. */
  predicate PathGuardAsWritten(path: string)
  {
    |path| <= MAX_PATH
  }

  /** The as-written guard admits a path of exactly `MAX_PATH` characters,
      whose terminator does not fit in the `MAX_PATH`-byte buffer. */
  lemma PathGuardAsWrittenOverflows(path: string)
    requires |path| == MAX_PATH
    ensures PathGuardAsWritten(path) && !PathFits(path)
    ensures |path| + 1 > MAX_PATH
  {
  }

  /** The path a frame records for a module. */
  function StoredPath(path: string): (s: string)
    ensures |s| + 1 <= MAX_PATH
    ensures PathFits(path) ==> s == path
    ensures !PathFits(path) ==> s == NAME_TOO_LONG
  {
    if PathFits(path) then path else NAME_TOO_LONG
  }

  /** One module considered for one frame: the frame takes the module's base
      and path when it is still unattributed and its address lies in the
      module; otherwise it is left as it is. */
  function Consider(f: StackFrame, m: Module): (g: StackFrame)
    ensures g.frameAddress == f.frameAddress
    ensures f.moduleBase != 0 ==> g == f
    ensures g != f ==> InModule(f.frameAddress, m) && g.moduleBase == m.base && g.modulePath == StoredPath(m.path)
    ensures f.moduleBase == 0 && InModule(f.frameAddress, m) ==>
            g == f.(moduleBase := m.base, modulePath := StoredPath(m.path))
  {
    if f.moduleBase == 0 && InModule(f.frameAddress, m) then
      f.(moduleBase := m.base, modulePath := StoredPath(m.path))
    else
      f
  }

  /** A frame after the modules of `ms` have been considered in order. */
  function Attribute(f: StackFrame, ms: seq<Module>): (g: StackFrame)
    ensures g == f || f.moduleBase == 0
  {
    if |ms| == 0 then f else Consider(Attribute(f, ms[..|ms| - 1]), ms[|ms| - 1])
  }

  /** Attribution never moves a frame's address. */
  lemma {:induction false} AttributeKeepsAddress(f: StackFrame, ms: seq<Module>)
    ensures Attribute(f, ms).frameAddress == f.frameAddress
  {
    if |ms| > 0 {
      AttributeKeepsAddress(f, ms[..|ms| - 1]);
    }
  }

  /** Two enumerations in a row act as one over their concatenation: the
      kernel pass followed by the user pass is one scan of kernel modules
      then user modules. */
  lemma {:induction false} AttributeAppend(f: StackFrame, a: seq<Module>, b: seq<Module>)
    ensures Attribute(f, a + b) == Attribute(Attribute(f, a), b)
  {
    if |b| == 0 {
      assert a + b == a;
    } else {
      assert (a + b)[..|a + b| - 1] == a + b[..|b| - 1];
      AttributeAppend(f, a, b[..|b| - 1]);
    }
  }

  /** A frame that already has a module is never overwritten. */
  lemma {:induction false} AttributedFrameKept(f: StackFrame, ms: seq<Module>)
    requires f.moduleBase != 0
    ensures Attribute(f, ms) == f
  {
    if |ms| > 0 {
      AttributedFrameKept(f, ms[..|ms| - 1]);
    }
  }

  /** A frame whose address lies in no module stays unattributed. */
  lemma {:induction false} UnmatchedFrameKept(f: StackFrame, ms: seq<Module>)
    requires forall k | 0 <= k < |ms| :: !InModule(f.frameAddress, ms[k])
    ensures Attribute(f, ms) == f
  {
    if |ms| > 0 {
      UnmatchedFrameKept(f, ms[..|ms| - 1]);
    }
  }

  /** The first module whose range holds the address wins when its base is
      nonzero: an unattributed frame ends with that module's base and path,
      whatever follows. */
  lemma {:induction false} FirstMatchWins(f: StackFrame, ms: seq<Module>, k: nat)
    requires f.moduleBase == 0
    requires k < |ms| && InModule(f.frameAddress, ms[k]) && ms[k].base != 0
    requires forall j | 0 <= j < k :: !InModule(f.frameAddress, ms[j])
    ensures Attribute(f, ms) == f.(moduleBase := ms[k].base, modulePath := StoredPath(ms[k].path))
  {
    assert ms == ms[..k] + [ms[k]] + ms[k + 1..];
    UnmatchedFrameKept(f, ms[..k]);
    AttributeAppend(f, ms[..k], [ms[k]]);
    assert Attribute(f, [ms[k]]) == Consider(Attribute(f, []), ms[k]);
    AttributeAppend(f, ms[..k] + [ms[k]], ms[k + 1..]);
    AttributedFrameKept(f.(moduleBase := ms[k].base, modulePath := StoredPath(ms[k].path)), ms[k + 1..]);
  }

  /** Base 0 is also the "not yet attributed" mark, so a matching module
      loaded at base 0 records its path but leaves the frame open: a later
      matching module with a nonzero base overwrites it. */
  lemma ZeroBaseMatchIsOverwritten(f: StackFrame, m0: Module, m1: Module)
    requires f.moduleBase == 0
    requires InModule(f.frameAddress, m0) && m0.base == 0
    requires InModule(f.frameAddress, m1) && m1.base != 0
    ensures Attribute(f, [m0]) == f.(modulePath := StoredPath(m0.path))
    ensures Attribute(f, [m0]).moduleBase == 0
    ensures Attribute(f, [m0, m1]) == f.(moduleBase := m1.base, modulePath := StoredPath(m1.path))
  {
    assert [m0, m1][..1] == [m0];
  }

  /** Attribution is sound: a frame either keeps its state or was unattributed
      and now carries the base and stored path of a module whose range holds
      its address. */
  lemma {:induction false} AttributionSound(f: StackFrame, ms: seq<Module>)
    ensures var g := Attribute(f, ms);
            g == f ||
            (f.moduleBase == 0 && exists k | 0 <= k < |ms| ::
               InModule(f.frameAddress, ms[k]) &&
               g == f.(moduleBase := ms[k].base, modulePath := StoredPath(ms[k].path)))
  {
    if |ms| > 0 {
      var init := ms[..|ms| - 1];
      AttributionSound(f, init);
      var h := Attribute(f, init);
      if h != f {
        var k :| 0 <= k < |init| && InModule(f.frameAddress, init[k]) &&
                 h == f.(moduleBase := init[k].base, modulePath := StoredPath(init[k].path));
        assert ms[k] == init[k];
      } else if Attribute(f, ms) != f {
        assert InModule(f.frameAddress, ms[|ms| - 1]);
      }
    }
  }

  /** Kernel modules are scanned before user modules: an unattributed frame
      whose first matching kernel module has a nonzero base is attributed to
      it, whatever the user modules are. */
  lemma KernelModulesFirst(f: StackFrame, kernelModules: seq<Module>, userModules: seq<Module>, k: nat)
    requires f.moduleBase == 0
    requires k < |kernelModules| && InModule(f.frameAddress, kernelModules[k]) && kernelModules[k].base != 0
    requires forall j | 0 <= j < k :: !InModule(f.frameAddress, kernelModules[j])
    ensures Attribute(f, kernelModules + userModules) ==
            f.(moduleBase := kernelModules[k].base, modulePath := StoredPath(kernelModules[k].path))
  {
    FirstMatchWins(f, kernelModules + userModules, k);
  }

  /** Information on the process that made an intercepted call. */
  class CallerInfo {
    var processName: string
    var processId: uint64
    var frames: array?<StackFrame>
    var frameDepth: uint8
    var isWow64: bool

    /** The record of the current process; its id, name and bitness are
        handed in. No frames are captured yet. */
    constructor (processId: uint64, processName: string, isWow64: bool)
      ensures this.processId == processId && this.processName == processName
      ensures this.isWow64 == isWow64
      ensures frames == null && frameDepth == 0
    {
      this.processId := processId;
      this.processName := processName;
      this.isWow64 := isWow64;
      frames := null;
      frameDepth := 0;
    }

    /** `IsTargetProcId`: the caller is the process with id `pid`. */
    function IsTargetProcId(pid: uint64): (b: bool)
      reads this
      ensures b <==> processId == pid
    {
      processId == pid
    }

    /** `IsTargetProcName`: the caller's name is `procName` (compared as
        strings). */
    function IsTargetProcName(procName: string): (b: bool)
      reads this
      ensures b <==> processName == procName
    {
      processName == procName
    }

    /** `CaptureStackTrace`: records the return addresses of `trace`, then
        attributes each frame first against the kernel modules and then
        against the user modules. `bufferAllocated` is whether the frame buffer
        allocation succeeded. The pool result is stored before it is tested, so a
        failed allocation leaves `frames` null and `frameDepth` as it was. */
    method CaptureStackTrace(trace: seq<uint64>, kernelModules: seq<Module>, userModules: seq<Module>, bufferAllocated: bool)
      requires |trace| <= MAX_FRAME_DEPTH
      modifies this
      ensures processId == old(processId) && processName == old(processName) && isWow64 == old(isWow64)
      ensures !bufferAllocated ==> frames == null && frameDepth == old(frameDepth)
      ensures bufferAllocated ==> frames != null && fresh(frames) && frames.Length == frameDepth as int == |trace|
      ensures bufferAllocated ==> forall i | 0 <= i < |trace| ::
                frames[i] == Attribute(Unattributed(trace[i]), kernelModules + userModules)
    {
      if !bufferAllocated {
        frames := null;
        return;
      }
      var fs := new StackFrame[|trace|](i => Unattributed(0));
      frames := fs;
      frameDepth := |trace| as uint8;
      for i := 0 to |trace|
        modifies fs
        invariant forall j | 0 <= j < i :: fs[j] == Unattributed(trace[j])
        invariant forall j | i <= j < |trace| :: fs[j] == Unattributed(0)
      {
        fs[i] := fs[i].(frameAddress := trace[i]);
      }
      AttributePass(fs, trace, kernelModules);
      forall i | 0 <= i < |trace|
        ensures fs[i].frameAddress == trace[i]
      {
        AttributeKeepsAddress(Unattributed(trace[i]), kernelModules);
      }
      AttributePass(fs, trace, userModules);
      forall i | 0 <= i < |trace|
        ensures fs[i] == Attribute(Unattributed(trace[i]), kernelModules + userModules)
      {
        AttributeAppend(Unattributed(trace[i]), kernelModules, userModules);
      }
    }
  }

  /** One module enumeration: for each module in turn, every frame whose
      address (taken from `trace`) lies in it and that is still unattributed
      takes the module's base and path. */
  method AttributePass(frames: array<StackFrame>, trace: seq<uint64>, modules: seq<Module>)
    requires frames.Length == |trace|
    requires forall i | 0 <= i < |trace| :: frames[i].frameAddress == trace[i]
    modifies frames
    ensures forall i | 0 <= i < frames.Length :: frames[i] == Attribute(old(frames[i]), modules)
  {
    for k := 0 to |modules|
      invariant forall i | 0 <= i < frames.Length :: frames[i] == Attribute(old(frames[i]), modules[..k])
    {
      var m := modules[k];
      for i := 0 to frames.Length
        invariant forall j | 0 <= j < i :: frames[j] == Attribute(old(frames[j]), modules[..k + 1])
        invariant forall j | i <= j < frames.Length :: frames[j] == Attribute(old(frames[j]), modules[..k])
      {
        assert modules[..k + 1][..k] == modules[..k];
        AttributeKeepsAddress(old(frames[i]), modules[..k]);
        var addr := trace[i];
        if frames[i].moduleBase == 0 && addr >= m.base && addr < ToUInt64(m.base + m.size) {
          var path := if PathFits(m.path) then m.path else NAME_TOO_LONG;
          frames[i] := frames[i].(moduleBase := m.base, modulePath := path);
        }
      }
    }
    assert modules[..|modules|] == modules;
  }
}
