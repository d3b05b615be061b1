/** The bitmap of non-empty ready queues: one bit for each of the 16 priorities. */
module Primap {

  predicate Marked(m: bv16, bit: bv16) { m & bit != 0 }

  predicate Apart(a: bv16, b: bv16) { a & b == 0 }

  /** A choice of PRIMAP_BIT: 16 different bits. */
  ghost predicate ValidBits(bits: seq<bv16>) {
    && |bits| == 16
    && (forall p :: 0 <= p < 16 ==> Marked(bits[p], bits[p]))
    && (forall p, q :: 0 <= p < 16 && 0 <= q < 16 && p != q ==> Apart(bits[p], bits[q]))
  }

  lemma OrApart(m: bv16, a: bv16, b: bv16)
    requires Apart(a, b)
    ensures Marked(m | a, b) <==> Marked(m, b)
  {
  }

  lemma OrSame(m: bv16, a: bv16)
    requires Marked(a, a)
    ensures Marked(m | a, a)
  {
  }

  lemma AndNotApart(m: bv16, a: bv16, b: bv16)
    requires Apart(a, b)
    ensures Marked(m & !a, b) <==> Marked(m, b)
  {
  }

  lemma AndNotSame(m: bv16, a: bv16)
    ensures !Marked(m & !a, a)
  {
  }

  method SetBit(m: bv16, a: bv16) returns (r: bv16)
    requires Marked(a, a)
    ensures Marked(r, a)
    ensures forall b :: Apart(a, b) ==> (Marked(r, b) <==> Marked(m, b))
  {
    r := m | a;
    OrSame(m, a);
    forall b | Apart(a, b) ensures Marked(r, b) <==> Marked(m, b) {
      OrApart(m, a, b);
    }
  }

  method ClearBit(m: bv16, a: bv16) returns (r: bv16)
    ensures !Marked(r, a)
    ensures forall b :: Apart(a, b) ==> (Marked(r, b) <==> Marked(m, b))
  {
    r := m & !a;
    AndNotSame(m, a);
    forall b | Apart(a, b) ensures Marked(r, b) <==> Marked(m, b) {
      AndNotApart(m, a, b);
    }
  }

  /** The usual choice: bit `pri` stands for priority `pri`. */
  const PRIMAP_BITS: seq<bv16> :=
    [0x0001, 0x0002, 0x0004, 0x0008, 0x0010, 0x0020, 0x0040, 0x0080,
     0x0100, 0x0200, 0x0400, 0x0800, 0x1000, 0x2000, 0x4000, 0x8000]

  lemma LowBitApart(p: nat, a: bv16)
    requires p < 8 && a == PRIMAP_BITS[p]
    ensures Marked(a, a)
    ensures forall q :: 0 <= q < 16 && p != q ==> Apart(a, PRIMAP_BITS[q])
  {
  }

  lemma HighBitApart(p: nat, a: bv16)
    requires 8 <= p < 16 && a == PRIMAP_BITS[p]
    ensures Marked(a, a)
    ensures forall q :: 0 <= q < 16 && p != q ==> Apart(a, PRIMAP_BITS[q])
  {
  }

  lemma UsualBits()
    ensures ValidBits(PRIMAP_BITS)
  {
    forall p | 0 <= p < 16
      ensures Marked(PRIMAP_BITS[p], PRIMAP_BITS[p])
      ensures forall q :: 0 <= q < 16 && p != q ==> Apart(PRIMAP_BITS[p], PRIMAP_BITS[q])
    {
      if p < 8 { LowBitApart(p, PRIMAP_BITS[p]); } else { HighBitApart(p, PRIMAP_BITS[p]); }
    }
  }

  lemma EmptyMarksNothing(m: bv16)
    ensures m == 0 <==> forall q :: 0 <= q < 16 ==> !Marked(m, PRIMAP_BITS[q])
  {
    var b := PRIMAP_BITS;
    if m != 0 {
      assert Marked(m, b[0]) || Marked(m, b[1]) || Marked(m, b[2]) || Marked(m, b[3])
          || Marked(m, b[4]) || Marked(m, b[5]) || Marked(m, b[6]) || Marked(m, b[7])
          || Marked(m, b[8]) || Marked(m, b[9]) || Marked(m, b[10]) || Marked(m, b[11])
          || Marked(m, b[12]) || Marked(m, b[13]) || Marked(m, b[14]) || Marked(m, b[15]);
    }
  }

  const BITMAP_SEARCH_TABLE: seq<nat> := [0, 1, 0, 2, 0, 1, 0, 3, 0, 1, 0, 2, 0, 1, 0]

  /** `n` is the number of the lowest bit of the bitmap. */
  ghost predicate Lowest(bits: seq<bv16>, bitmap: bv16, n: nat)
    requires |bits| == 16
  {
    n < 16 && Marked(bitmap, bits[n]) && forall q :: 0 <= q < n ==> !Marked(bitmap, bits[q])
  }

  method BitmapSearch(bitmap: bv16) returns (n: nat)
    requires bitmap != 0
    ensures Lowest(PRIMAP_BITS, bitmap, n)
  {
    n := 0;
    var b := bitmap;
    if b & 0x00ff == 0 {
      b := b >> 8;
      n := n + 8;
    }
    if b & 0x000f == 0 {
      b := b >> 4;
      n := n + 4;
    }
    var i := (b & 0x000f) as int;
    assert 1 <= i < 16;
    n := n + BITMAP_SEARCH_TABLE[i - 1];
  }

  /** `ready_primap` and the operations on it; `marks` is the set of marked priorities. */
  class ReadyPrimap {
    var bitmap: bv16
    ghost var marks: set<nat>

    ghost predicate Valid()
      reads this
    {
      && ValidBits(PRIMAP_BITS)
      && (forall p :: p in marks ==> p < 16)
      && (forall p :: 0 <= p < 16 ==> (p in marks <==> Marked(bitmap, PRIMAP_BITS[p])))
    }

    constructor ()
      ensures Valid() && marks == {}
    {
      bitmap := 0;
      marks := {};
      new;
      UsualBits();
      EmptyMarksNothing(bitmap);
    }

    method Empty() returns (r: bool)
      requires Valid()
      ensures r <==> marks == {}
    {
      EmptyMarksNothing(bitmap);
      r := bitmap == 0;
      if marks != {} {
        var p :| p in marks;
        assert Marked(bitmap, PRIMAP_BITS[p]);
      }
    }

    method Search() returns (pri: nat)
      requires Valid() && marks != {}
      ensures pri in marks && forall q :: q in marks ==> pri <= q
    {
      EmptyMarksNothing(bitmap);
      assert exists p :: p in marks && Marked(bitmap, PRIMAP_BITS[p]);
      pri := BitmapSearch(bitmap);
    }

    method Set(pri: nat)
      requires Valid() && pri < 16
      modifies this
      ensures Valid() && marks == old(marks) + {pri}
    {
      bitmap := SetBit(bitmap, PRIMAP_BITS[pri]);
      marks := marks + {pri};
    }

    method Clear(pri: nat)
      requires Valid() && pri < 16
      modifies this
      ensures Valid() && marks == old(marks) - {pri}
    {
      bitmap := ClearBit(bitmap, PRIMAP_BITS[pri]);
      marks := marks - {pri};
    }
  }
}
