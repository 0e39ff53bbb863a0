/** How records lie in memory: each field at the next multiple of its alignment, and the whole padded to a multiple of
    the largest. */
module Records {

  datatype Field = Field(size: nat, align: nat)

  const U8 := Field(1, 1)
  const U16 := Field(2, 2)
  const U32 := Field(4, 4)
  const U64 := Field(8, 8)

  function ArrayOf(n: nat, element: Field): Field {
    Field(n * element.size, element.align)
  }

  /** The next multiple of `align`; nothing is aligned to zero. */
  function RoundTo(n: nat, align: nat): nat {
    if align == 0 then n else (n + align - 1) / align * align
  }

  /** Where the last field ends. */
  function EndOf(fields: seq<Field>): nat {
    if fields == [] then 0
    else
      var last := fields[|fields| - 1];
      RoundTo(EndOf(fields[..|fields| - 1]), last.align) + last.size
  }

  function Larger(a: nat, b: nat): nat {
    if a < b then b else a
  }

  function AlignOf(fields: seq<Field>): nat {
    if fields == [] then 1
    else Larger(AlignOf(fields[..|fields| - 1]), fields[|fields| - 1].align)
  }

  function SizeOf(fields: seq<Field>): nat {
    RoundTo(EndOf(fields), AlignOf(fields))
  }

  lemma EndNext(fields: seq<Field>, f: Field)
    ensures EndOf(fields + [f]) == RoundTo(EndOf(fields), f.align) + f.size
    ensures AlignOf(fields + [f]) == Larger(AlignOf(fields), f.align)
  {
    assert (fields + [f])[..|fields|] == fields;
  }

  lemma SizeOfTwo(a: Field, b: Field)
    ensures EndOf([a, b]) == RoundTo(RoundTo(0, a.align) + a.size, b.align) + b.size
    ensures AlignOf([a, b]) == Larger(Larger(1, a.align), b.align)
  {
    EndNext([], a);
    EndNext([a], b);
    assert [] + [a] == [a] && [a] + [b] == [a, b];
  }

  lemma SizeOfFour(a: Field, b: Field, c: Field, d: Field)
    ensures EndOf([a, b, c, d]) == RoundTo(RoundTo(EndOf([a, b]), c.align) + c.size, d.align) + d.size
    ensures EndOf([a, b]) == RoundTo(RoundTo(0, a.align) + a.size, b.align) + b.size
    ensures AlignOf([a, b, c, d]) == Larger(Larger(Larger(Larger(1, a.align), b.align), c.align), d.align)
  {
    SizeOfTwo(a, b);
    EndNext([a, b], c);
    EndNext([a, b, c], d);
    assert [a, b] + [c] == [a, b, c] && [a, b, c] + [d] == [a, b, c, d];
  }
}
