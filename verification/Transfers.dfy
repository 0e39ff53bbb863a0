/** What a device finds that follows the descriptors of a chain into memory. */
module Transfers {
  import opened Wrap
  import opened QueueModel

  type Memory = nat -> u8

  /** The `n` bytes from address `at` on. */
  function Bytes(m: Memory, at: nat, n: nat): (s: seq<u8>)
    ensures |s| == n && forall i :: 0 <= i < n ==> s[i] == m(at + i)
  {
    seq(n, i requires 0 <= i < n => m(at + i))
  }

  /** Their addresses. */
  function Span(at: nat, n: nat): (s: seq<nat>)
    ensures |s| == n && forall i :: 0 <= i < n ==> s[i] == at + i
  {
    seq(n, i requires 0 <= i < n => at + i)
  }

  /** The device may write to the buffer. */
  predicate Writable(d: Descriptor) {
    d.flags / WRITE % 2 == 1
  }

  /** What the device reads: the bytes of the buffers that it may not write to, in the order of the chain. */
  function Input(m: Memory, c: seq<Descriptor>): seq<u8> {
    if c == [] then []
    else (if Writable(c[0]) then [] else Bytes(m, c[0].addr, c[0].len)) + Input(m, c[1..])
  }

  /** Where the device writes: the addresses of the buffers that it may write to, in the order of the chain. */
  function Output(c: seq<Descriptor>): seq<nat> {
    if c == [] then []
    else (if Writable(c[0]) then Span(c[0].addr, c[0].len) else []) + Output(c[1..])
  }

  /** The `next` fields do not matter. */
  lemma {:induction false} SameTransfer(m: Memory, a: seq<Descriptor>, b: seq<Descriptor>)
    requires SameBuffers(a, b)
    ensures Input(m, a) == Input(m, b) && Output(a) == Output(b)
  {
    if a != [] {
      assert a[0].SameBuffer(b[0]);
      SameTransfer(m, a[1..], b[1..]);
    }
  }

  lemma InputCons(m: Memory, d: Descriptor, c: seq<Descriptor>)
    ensures Input(m, [d] + c) == (if Writable(d) then [] else Bytes(m, d.addr, d.len)) + Input(m, c)
    ensures Output([d] + c) == (if Writable(d) then Span(d.addr, d.len) else []) + Output(c)
  {
    assert ([d] + c)[1..] == c;
  }

  lemma LastRead(m: Memory, d: Descriptor)
    requires !Writable(d)
    ensures Input(m, [d]) == Bytes(m, d.addr, d.len) && Output([d]) == []
  {
    InputCons(m, d, []);
    assert [d] + [] == [d];
  }

  lemma LastWritten(m: Memory, d: Descriptor)
    requires Writable(d)
    ensures Input(m, [d]) == [] && Output([d]) == Span(d.addr, d.len)
  {
    InputCons(m, d, []);
    assert [d] + [] == [d];
  }

  lemma FirstRead(m: Memory, d: Descriptor, c: seq<Descriptor>)
    requires !Writable(d)
    ensures Input(m, [d] + c) == Bytes(m, d.addr, d.len) + Input(m, c) && Output([d] + c) == Output(c)
  {
    InputCons(m, d, c);
  }

  lemma FirstWritten(m: Memory, d: Descriptor, c: seq<Descriptor>)
    requires Writable(d)
    ensures Input(m, [d] + c) == Input(m, c) && Output([d] + c) == Span(d.addr, d.len) + Output(c)
  {
    InputCons(m, d, c);
  }

  /** A buffer to read, and one to write. */
  lemma Command(m: Memory, d: Descriptor, e: Descriptor)
    requires !Writable(d) && Writable(e)
    ensures Input(m, [d, e]) == Bytes(m, d.addr, d.len) && Output([d, e]) == Span(e.addr, e.len)
  {
    LastWritten(m, e);
    FirstRead(m, d, [e]);
    assert [d] + [e] == [d, e];
  }

  /** Two buffers to read. */
  lemma Message(m: Memory, d: Descriptor, e: Descriptor)
    requires !Writable(d) && !Writable(e)
    ensures Input(m, [d, e]) == Bytes(m, d.addr, d.len) + Bytes(m, e.addr, e.len) && Output([d, e]) == []
  {
    LastRead(m, e);
    FirstRead(m, d, [e]);
    assert [d] + [e] == [d, e];
  }

  /** One to read, two to write. */
  lemma Query(m: Memory, d: Descriptor, e: Descriptor, f: Descriptor)
    requires !Writable(d) && Writable(e) && Writable(f)
    ensures Input(m, [d, e, f]) == Bytes(m, d.addr, d.len)
    ensures Output([d, e, f]) == Span(e.addr, e.len) + Span(f.addr, f.len)
  {
    LastWritten(m, f);
    FirstWritten(m, e, [f]);
    FirstRead(m, d, [e, f]);
    assert [e] + [f] == [e, f] && [d] + [e, f] == [d, e, f];
  }

  /** Two to read, one to write. */
  lemma Order(m: Memory, d: Descriptor, e: Descriptor, f: Descriptor)
    requires !Writable(d) && !Writable(e) && Writable(f)
    ensures Input(m, [d, e, f]) == Bytes(m, d.addr, d.len) + Bytes(m, e.addr, e.len)
    ensures Output([d, e, f]) == Span(f.addr, f.len)
  {
    Command(m, e, f);
    FirstRead(m, d, [e, f]);
    assert [d] + [e, f] == [d, e, f];
  }
}
