/** The `MachineState` a plugin receives with every intercepted system call:
    the parameter count, the number of register arguments and the two argument
    arrays, with the accessors a plugin uses to read and rewrite the call's
    arguments, its return value and its target. */
module PluginMachineState {
  import opened Words
  import opened ArgumentLayout

  class MachineState {
    var paramCount: uint32
    var regArgsSize: uint32
    var pStackArgs: array<uint64>
    var pRegArgs: array<uint64>

    /** The arrays hold every argument index the accessors accept. */
    ghost predicate Valid()
      reads this
    {
      Covers(paramCount, regArgsSize, pRegArgs.Length, pStackArgs.Length)
    }

    /** The call's arguments `0 .. paramCount`, in order. */
    ghost function Arguments(): (args: seq<uint64>)
      reads this, pRegArgs, pStackArgs
      requires Valid()
      ensures |args| == paramCount + 1
    {
      LogicalArguments(paramCount, regArgsSize, pRegArgs[..], pStackArgs[..])
    }

    constructor (paramCount: uint32, regArgsSize: uint32, pStackArgs: array<uint64>, pRegArgs: array<uint64>)
      ensures this.paramCount == paramCount && this.regArgsSize == regArgsSize
      ensures this.pStackArgs == pStackArgs && this.pRegArgs == pRegArgs
    {
      this.paramCount := paramCount;
      this.regArgsSize := regArgsSize;
      this.pStackArgs := pStackArgs;
      this.pRegArgs := pRegArgs;
    }

    /** `read_argument`: argument `idx` of the call, 0 past `paramCount`. */
    function ReadArgument(idx: uint32): (r: uint64)
      reads this, pRegArgs, pStackArgs
      requires Valid()
      ensures idx <= paramCount ==> r == Arguments()[idx]
      ensures idx > paramCount ==> r == 0
    {
      if idx > paramCount then
        0
      else if idx >= regArgsSize then
        pStackArgs[idx - regArgsSize]
      else
        pRegArgs[idx]
    }

    /** `write_argument`: stores `(uint64_t)value` as argument `idx`; an index
        past `paramCount` is ignored. Exactly one word of one array changes, and
        no other argument does. */
    method WriteArgument(idx: uint32, value: int)
      requires Valid() && pRegArgs != pStackArgs
      modifies pRegArgs, pStackArgs
      ensures Valid()
      ensures idx > paramCount ==> unchanged(pRegArgs) && unchanged(pStackArgs)
      ensures idx <= paramCount ==> Arguments() == old(Arguments())[idx := ToUInt64(value)]
      ensures forall j: uint32 :: ReadArgument(j) ==
                if j == idx && idx <= paramCount then ToUInt64(value) else old(ReadArgument(j))
      ensures Locate(paramCount, regArgsSize, idx).Register? ==>
                pRegArgs[..] == old(pRegArgs[..])[idx := ToUInt64(value)] && unchanged(pStackArgs)
      ensures Locate(paramCount, regArgsSize, idx).Stack? ==>
                pStackArgs[..] == old(pStackArgs[..])[idx - regArgsSize := ToUInt64(value)] && unchanged(pRegArgs)
    {
      if idx > paramCount {
        return;
      }
      if idx >= regArgsSize {
        pStackArgs[idx - regArgsSize] := ToUInt64(value);
      } else {
        pRegArgs[idx] := ToUInt64(value);
      }
      ghost var args := Arguments();
      assert |args| == |old(Arguments())|;
      forall i | 0 <= i < |args|
        ensures args[i] == old(Arguments())[idx := ToUInt64(value)][i]
      {
        if i != idx {
          LocateInjective(paramCount, regArgsSize, i, idx);
        }
      }
    }

    /** `redirect_syscall`: the address the call is dispatched to is kept in
        register slot 4, just after the four register arguments. */
    method RedirectSyscall(pFn: uint64)
      requires 4 < pRegArgs.Length
      modifies pRegArgs
      ensures pRegArgs[..] == old(pRegArgs[..])[4 := pFn]
      ensures old(Valid()) && regArgsSize <= 4 && pRegArgs != pStackArgs ==>
                Valid() && Arguments() == old(Arguments())
    {
      pRegArgs[4] := pFn;
    }

    /** `read_return_value`: the return value shares register slot 0 with the
        first argument. */
    function ReadReturnValue(): (r: uint64)
      reads this, pRegArgs
      requires 0 < pRegArgs.Length
      ensures r == pRegArgs[0]
      ensures Valid() && 0 < regArgsSize ==> r == ReadArgument(0)
    {
      pRegArgs[0]
    }

    /** `write_return_value`: stores `(uint64_t)value` in register slot 0. */
    method WriteReturnValue(value: int)
      requires 0 < pRegArgs.Length
      modifies pRegArgs
      ensures pRegArgs[..] == old(pRegArgs[..])[0 := ToUInt64(value)]
      ensures ReadReturnValue() == ToUInt64(value)
      ensures Valid() && 0 < regArgsSize ==> ReadArgument(0) == ToUInt64(value)
    {
      pRegArgs[0] := ToUInt64(value);
    }
  }
}
