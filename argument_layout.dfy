/** Where the arguments of an intercepted system call live. The hook hands over
    two arrays of 64-bit words: the register arguments and the stack arguments.
    Argument `idx` is in the register array when `idx < regArgsSize`, and
    otherwise in the stack array at `idx - regArgsSize` (the stack array starts
    after the register arguments). Indices `0 .. paramCount` are accepted, so a
    call with `paramCount` parameters exposes `paramCount + 1` argument slots. */
module ArgumentLayout {

  function Min(a: int, b: int): int
  {
    if a <= b then a else b
  }

  /** Number of accepted indices that fall in the register array. */
  function RegisterCount(paramCount: nat, regArgsSize: nat): (n: nat)
    ensures n <= regArgsSize && n <= paramCount + 1
    ensures n == regArgsSize || n == paramCount + 1
  {
    Min(regArgsSize, paramCount + 1)
  }

  /** Number of accepted indices that fall in the stack array. */
  function StackCount(paramCount: nat, regArgsSize: nat): (n: nat)
    ensures RegisterCount(paramCount, regArgsSize) + n == paramCount + 1
    ensures n > 0 <==> regArgsSize <= paramCount
  {
    paramCount + 1 - RegisterCount(paramCount, regArgsSize)
  }

  /** Where one argument index is read from and written to. */
  datatype Slot =
    | Register(index: nat)
    | Stack(offset: nat)
    | Dropped

  /** The slot of argument `idx`: indices past `paramCount` are dropped (a read
      yields 0, a write does nothing); the others are in the register array
      below `regArgsSize` and in the stack array from there on. */
  function Locate(paramCount: nat, regArgsSize: nat, idx: nat): (s: Slot)
    ensures s.Dropped? <==> idx > paramCount
    ensures s.Register? ==> s.index == idx < RegisterCount(paramCount, regArgsSize)
    ensures s.Stack? ==> s.offset + regArgsSize == idx && s.offset < StackCount(paramCount, regArgsSize)
  {
    if idx > paramCount then Dropped
    else if idx >= regArgsSize then Stack(idx - regArgsSize)
    else Register(idx)
  }

  /** The two arrays are long enough for every accepted index. */
  predicate Covers(paramCount: nat, regArgsSize: nat, regLength: nat, stackLength: nat)
  {
    RegisterCount(paramCount, regArgsSize) <= regLength &&
    StackCount(paramCount, regArgsSize) <= stackLength
  }

  /** The argument list the two arrays represent: the used prefix of the
      register array followed by the used prefix of the stack array. */
  function LogicalArguments<T>(paramCount: nat, regArgsSize: nat, regs: seq<T>, stack: seq<T>): (args: seq<T>)
    requires Covers(paramCount, regArgsSize, |regs|, |stack|)
    ensures |args| == paramCount + 1
    ensures forall i | 0 <= i < |args| && i < regArgsSize :: args[i] == regs[i]
    ensures forall i | regArgsSize <= i < |args| :: args[i] == stack[i - regArgsSize]
  {
    regs[..RegisterCount(paramCount, regArgsSize)] + stack[..StackCount(paramCount, regArgsSize)]
  }

  /** Every accepted index has a slot of its own: two different indices never
      share a word, so writing one argument leaves every other one alone. */
  lemma LocateInjective(paramCount: nat, regArgsSize: nat, i: nat, j: nat)
    requires i <= paramCount && j <= paramCount && i != j
    ensures Locate(paramCount, regArgsSize, i) != Locate(paramCount, regArgsSize, j)
  {
  }

  /** Every slot of the two arrays that holds an argument is reached by exactly
      one index: the layout is a bijection between `0 .. paramCount` and the
      used prefixes of the arrays. */
  lemma LocateOnto(paramCount: nat, regArgsSize: nat, s: Slot)
    requires (s.Register? && s.index < RegisterCount(paramCount, regArgsSize)) ||
             (s.Stack? && s.offset < StackCount(paramCount, regArgsSize))
    ensures s.Register? ==> Locate(paramCount, regArgsSize, s.index) == s
    ensures s.Stack? ==> Locate(paramCount, regArgsSize, s.offset + regArgsSize) == s
  {
  }

  /** The clamp `idx > paramCount` accepts index `paramCount` as well: it is
      the word right after the `paramCount` words of the declared arguments,
      in the register array when those all fit there and in the stack array
      otherwise. */
  lemma ClampAcceptsWordAfterArguments(paramCount: nat, regArgsSize: nat)
    ensures paramCount < regArgsSize ==> Locate(paramCount, regArgsSize, paramCount) == Register(paramCount)
    ensures regArgsSize <= paramCount ==>
              Locate(paramCount, regArgsSize, paramCount) == Stack(paramCount - regArgsSize)
  {
  }

  /** So arrays that hold every accepted index hold one word past the declared
      arguments: a register word when they all fit in registers, and otherwise a
      stack word past the `paramCount - regArgsSize` declared stack arguments. */
  lemma CoversNeedsExtraWord(paramCount: nat, regArgsSize: nat, regLength: nat, stackLength: nat)
    requires Covers(paramCount, regArgsSize, regLength, stackLength)
    ensures paramCount < regArgsSize ==> regLength > paramCount
    ensures regArgsSize <= paramCount ==> stackLength > paramCount - regArgsSize
  {
  }
}
