/** Nested disabling of interrupts, as a lock does it. */
module Interrupts {

  type i32 = x: int | -0x8000_0000 <= x < 0x8000_0000

  datatype Op = PushOff | PopOff

  /** Sections opened minus sections closed. */
  function Depth(ops: seq<Op>): int {
    if ops == [] then 0
    else Depth(ops[..|ops| - 1]) + if ops[|ops| - 1].PushOff? then 1 else -1
  }

  /** No section is closed before it was opened, starting `depth` sections deep. */
  predicate Nested(ops: seq<Op>, depth: int) {
    forall k :: 0 <= k <= |ops| ==> depth + Depth(ops[..k]) >= 0
  }

  class Cpu {
    var noff: i32
    var interruptEnable: bool
    /** The interrupt flag of the hardware. */
    var enabled: bool

    /** Interrupts are off inside a section. */
    ghost predicate Valid()
      reads this
    {
      noff >= 0 && (noff > 0 ==> !enabled)
    }

    /** The interrupt flag outside all sections. */
    ghost function Outside(): bool
      reads this
    {
      if noff == 0 then enabled else interruptEnable
    }

    constructor (enabled: bool)
      ensures Valid() && noff == 0 && this.enabled == enabled
    {
      noff, interruptEnable, this.enabled := 0, false, enabled;
    }

    method Push()
      requires Valid() && noff < 0x7FFF_FFFF
      modifies this
      ensures Valid() && noff == old(noff) + 1 && !enabled && Outside() == old(Outside())
    {
      var was := enabled;
      enabled := false;
      if noff == 0 {
        interruptEnable := was;
      }
      noff := noff + 1;
    }

    /** Fails exactly outside all sections. */
    method Pop() returns (ok: bool)
      requires Valid()
      modifies this
      ensures Valid() && ok == (old(noff) > 0) && Outside() == old(Outside())
      ensures ok ==> noff == old(noff) - 1 && enabled == (noff == 0 && Outside())
      ensures !ok ==> noff == old(noff) && enabled == old(enabled)
    {
      if enabled || noff < 1 {
        return false;
      }
      noff := noff - 1;
      if noff == 0 && interruptEnable {
        enabled := true;
      }
      ok := true;
    }

    /** Any run goes through exactly if it is properly nested.  Interrupts are off inside sections, and outside
        them the flag is what it was before. */
    method Run(ops: seq<Op>) returns (ok: bool)
      requires Valid() && forall k :: 0 <= k <= |ops| ==> noff + Depth(ops[..k]) <= 0x7FFF_FFFF
      modifies this
      ensures Valid() && Outside() == old(Outside())
      ensures ok <==> Nested(ops, old(noff))
      ensures ok ==> noff == old(noff) + Depth(ops) && (old(noff) == 0 ==> enabled == (Depth(ops) == 0 && old(enabled)))
    {
      for i := 0 to |ops|
        invariant Valid() && Outside() == old(Outside())
        invariant noff == old(noff) + Depth(ops[..i])
        invariant forall k :: 0 <= k <= i ==> old(noff) + Depth(ops[..k]) >= 0
        invariant noff == 0 ==> enabled == old(Outside())
      {
        assert old(noff) + Depth(ops[..i + 1]) <= 0x7FFF_FFFF;
        assert ops[..i + 1][..i] == ops[..i];
        match ops[i] {
          case PushOff => Push();
          case PopOff =>
            var popped := Pop();
            if !popped {
              assert old(noff) + Depth(ops[..i + 1]) < 0;
              return false;
            }
        }
      }
      assert ops[..|ops|] == ops;
      ok := true;
    }
  }
}
