/** The slices the pages hand to their pie charts. Each page builds a fixed list of named values
    and drops the slices that are not positive before drawing. */
module Charts {
  import Seqs

  datatype Slice = Slice(name: string, value: real)

  function IsPositive(s: Slice): bool
  {
    s.value > 0.0
  }

  /** The positive slices: every slice kept is positive, every positive slice is kept, and the
      list never grows. */
  function PositiveSlices(slices: seq<Slice>): (r: seq<Slice>)
    ensures |r| <= |slices|
    ensures forall i :: 0 <= i < |r| ==> r[i].value > 0.0 && r[i] in slices
    ensures forall i :: 0 <= i < |slices| && slices[i].value > 0.0 ==> slices[i] in r
    ensures forall s :: s in r <==> s in slices && s.value > 0.0
  {
    Seqs.Filter(slices, IsPositive)
  }

  /** The slices that stay keep their order: filtering a list split in two is filtering each
      part. */
  lemma PositiveSlicesKeepOrder(a: seq<Slice>, b: seq<Slice>)
    ensures PositiveSlices(a + b) == PositiveSlices(a) + PositiveSlices(b)
  {
    Seqs.FilterAppend(a, b, IsPositive);
  }

  /** A slice on its own: kept when positive, dropped otherwise. */
  function Kept(s: Slice): seq<Slice>
  {
    if s.value > 0.0 then [s] else []
  }

  /** Filtering a list of slices keeps each slice exactly when it is positive, in order. */
  lemma {:induction false} SlicesOneByOne(slices: seq<Slice>)
    ensures slices != [] ==> PositiveSlices(slices) == Kept(slices[0]) + PositiveSlices(slices[1..])
  {
    if slices != [] {
      assert slices == [slices[0]] + slices[1..];
      PositiveSlicesKeepOrder([slices[0]], slices[1..]);
      assert [slices[0]][1..] == [];
    }
  }

  /** The slices kept from a list of two. */
  lemma TwoSlices(a: Slice, b: Slice)
    ensures PositiveSlices([a, b]) == Kept(a) + Kept(b)
  {
    SlicesOneByOne([a, b]);
    SlicesOneByOne([b]);
    assert [a, b][1..] == [b];
    assert [b][1..] == [];
  }

  /** The slices kept from a list of four. */
  lemma FourSlices(a: Slice, b: Slice, c: Slice, d: Slice)
    ensures PositiveSlices([a, b, c, d]) == Kept(a) + Kept(b) + Kept(c) + Kept(d)
  {
    assert [a, b, c, d] == [a, b] + [c, d];
    PositiveSlicesKeepOrder([a, b], [c, d]);
    TwoSlices(a, b);
    TwoSlices(c, d);
  }

  /** The slices kept from a list of five. */
  lemma FiveSlices(a: Slice, b: Slice, c: Slice, d: Slice, e: Slice)
    ensures PositiveSlices([a, b, c, d, e]) == Kept(a) + Kept(b) + Kept(c) + Kept(d) + Kept(e)
  {
    assert [a, b, c, d, e] == [a, b, c, d] + [e];
    PositiveSlicesKeepOrder([a, b, c, d], [e]);
    FourSlices(a, b, c, d);
    SlicesOneByOne([e]);
    assert [e][1..] == [];
  }
}
