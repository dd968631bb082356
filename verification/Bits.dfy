/** 32-bit port bitmaps and packed multi-bit properties: what the C macros and
    shifts compute, and the sets and tables they stand for. */
module Bits {

  const POSITIONS: nat := 32   // VIRTUSB_HUB_POSITION_COUNT
  const WORD_BITS: nat := 32
  const ALL: bv32 := 0xFFFF_FFFF

  // ---- words ------------------------------------------------------------------

  function Twice(x: bv32): bv32 { x << 1 }

  function Half(x: bv32): bv32 { x >> 1 }

  function Less(x: bv32): bv32 { x - 1 }

  /** x << n. */
  function Up(x: bv32, n: nat): bv32 {
    if n == 0 then x else Twice(Up(x, n - 1))
  }

  /** x >> n. */
  function Down(x: bv32, n: nat): bv32 {
    if n == 0 then x else Down(Half(x), n - 1)
  }

  function And(x: bv32, y: bv32): bv32 { x & y }

  function Or(x: bv32, y: bv32): bv32 { x | y }

  function Not(x: bv32): bv32 { !x }

  // Facts about single words, each decided bit by bit.

  lemma AndCommutes(x: bv32, y: bv32)
    ensures And(x, y) == And(y, x)
  {
  }

  lemma AndAssociates(x: bv32, y: bv32, z: bv32)
    ensures And(And(x, y), z) == And(x, And(y, z))
  {
  }

  lemma AndSame(x: bv32)
    ensures And(x, x) == x && And(x, ALL) == x && And(ALL, x) == x && And(x, 0) == 0 && And(0, x) == 0
  {
  }

  lemma AndOverOr(x: bv32, y: bv32, z: bv32)
    ensures And(Or(x, y), z) == Or(And(x, z), And(y, z))
  {
  }

  lemma OrZero(x: bv32, y: bv32)
    ensures Or(0, x) == x && Or(x, 0) == x && (Or(x, y) == 0 <==> x == 0 && y == 0)
  {
  }

  lemma AndNot(x: bv32)
    ensures And(Not(x), x) == 0 && Not(0) == ALL
  {
  }

  lemma AndNotApart(x: bv32, y: bv32)
    requires And(x, y) == 0
    ensures And(Not(x), y) == y
  {
  }

  lemma OneUp(x: bv32, y: bv32)
    ensures And(Twice(x), Twice(y)) == Twice(And(x, y)) && And(Twice(x), 1) == 0 && And(1, Twice(x)) == 0 && Twice(0) == 0
  {
  }

  lemma OneDown(x: bv32, y: bv32)
    ensures Half(And(x, y)) == And(Half(x), Half(y)) && Half(0) == 0
  {
  }

  lemma OneUpDown(x: bv32)
    ensures Half(Twice(x)) == And(x, Half(ALL)) && And(ALL, Half(ALL)) == Half(ALL)
  {
  }

  // The same for shifts of any distance, one place at a time.

  lemma {:induction false} AndUp(x: bv32, y: bv32, n: nat)
    ensures And(Up(x, n), Up(y, n)) == Up(And(x, y), n)
  {
    hide And, Twice;
    if n > 0 {
      AndUp(x, y, n - 1);
      OneUp(Up(x, n - 1), Up(y, n - 1));
    }
  }

  lemma {:induction false} AndDown(x: bv32, y: bv32, n: nat)
    ensures Down(And(x, y), n) == And(Down(x, n), Down(y, n))
    decreases n
  {
    hide And, Half;
    if n > 0 {
      OneDown(x, y);
      AndDown(Half(x), Half(y), n - 1);
    }
  }

  lemma {:induction false} UpUp(x: bv32, m: nat, n: nat)
    ensures Up(Up(x, m), n) == Up(x, m + n)
  {
    hide Twice;
    if n > 0 { UpUp(x, m, n - 1); }
  }

  lemma {:induction false} DownDown(x: bv32, m: nat, n: nat)
    ensures Down(Down(x, m), n) == Down(x, m + n)
    decreases m
  {
    hide Half;
    if m > 0 { DownDown(Half(x), m - 1, n); }
  }

  lemma {:induction false} UpZero(n: nat)
    ensures Up(0, n) == 0
  {
    if n > 0 { UpZero(n - 1); }
  }

  lemma {:induction false} DownZero(n: nat)
    ensures Down(0, n) == 0
  {
    if n > 0 { DownZero(n - 1); }
  }

  /** A full word shifted down once more has fewer bits. */
  lemma DownAllShrinks(n: nat)
    ensures And(Down(ALL, n), Down(ALL, n + 1)) == Down(ALL, n + 1)
  {
    hide And, Half;
    OneUpDown(0);
    AndDown(ALL, Half(ALL), n);
  }

  lemma {:induction false} DownAllStays(m: nat, n: nat)
    ensures And(Down(ALL, m), Down(ALL, m + n)) == Down(ALL, m + n)
    decreases n
  {
    hide And;
    if n == 0 {
      AndSame(Down(ALL, m));
    } else {
      DownAllStays(m, n - 1);
      DownAllShrinks(m + n - 1);
      hide Down;
      AndAssociates(Down(ALL, m), Down(ALL, m + n - 1), Down(ALL, m + n));
    }
  }

  /** Up and down again keeps the bits that had room. */
  lemma {:induction false} UpDown(x: bv32, n: nat)
    ensures Down(Up(x, n), n) == And(x, Down(ALL, n))
  {
    hide And, Twice, Half;
    AndSame(x);
    if n > 0 {
      var y := Up(x, n - 1);
      OneUpDown(y);
      AndDown(y, Half(ALL), n - 1);
      UpDown(x, n - 1);
      AndAssociates(x, Down(ALL, n - 1), Down(ALL, n));
      DownAllShrinks(n - 1);
    }
  }

  // Some distances worked out, up to four places at a time.

  lemma Few(x: bv32)
    ensures Up(x, 1) == Twice(x) && Up(x, 2) == Twice(Twice(x)) && Down(x, 1) == Half(x) && Down(x, 2) == Half(Half(x))
    ensures Up(x, 4) == Twice(Twice(Twice(Twice(x)))) && Down(x, 4) == Half(Half(Half(Half(x))))
  {
    hide Twice, Half;
    assert Up(x, 1) == Twice(x);
    assert Up(x, 2) == Twice(Up(x, 1));
    assert Up(x, 3) == Twice(Up(x, 2));
    assert Down(Half(x), 1) == Down(Half(Half(x)), 0);
    assert Down(Half(Half(Half(x))), 1) == Down(Half(Half(Half(Half(x)))), 0);
    assert Down(Half(Half(x)), 2) == Down(Half(Half(Half(x))), 1);
    assert Down(x, 4) == Down(Half(x), 3);
  }

  lemma LowBits()
    ensures Up(1, 1) == 2 && Up(1, 2) == 4 && Up(1, 4) == 0x10 && Up(1, 8) == 0x100 && Up(1, 16) == 0x1_0000 && Up(1, 28) == 0x1000_0000
  {
    hide Up, Down;
    Few(1); Few(0x10); Few(0x100); Few(0x1000); Few(0x1_0000); Few(0x10_0000); Few(0x100_0000);
    UpUp(1, 4, 4); UpUp(1, 8, 4); UpUp(1, 12, 4); UpUp(1, 16, 4); UpUp(1, 20, 4); UpUp(1, 24, 4);
  }

  lemma TopBit()
    ensures Up(1, 31) == 0x8000_0000
  {
    LowBits();
    hide Up, Down;
    Few(0x1000_0000); Few(0x4000_0000);
    UpUp(1, 28, 2); UpUp(1, 30, 1);
  }

  lemma LastBits()
    ensures Down(ALL, 16) == 0xFFFF && Down(ALL, 24) == 255 && Down(ALL, 28) == 15 && Down(ALL, 30) == 3 && Down(ALL, 31) == 1
  {
    hide Up, Down;
    Few(ALL); Few(0xFFF_FFFF); Few(0xFF_FFFF); Few(0xF_FFFF); Few(0xFFFF); Few(0xFFF); Few(0xFF); Few(15); Few(3);
    DownDown(ALL, 4, 4); DownDown(ALL, 8, 4); DownDown(ALL, 12, 4); DownDown(ALL, 16, 4); DownDown(ALL, 20, 4);
    DownDown(ALL, 24, 4); DownDown(ALL, 28, 2); DownDown(ALL, 30, 1);
  }

  // ---- bitmaps: one bit for each of the positions 0..31 -------------------------

  /** BIT(p). */
  function Bit(p: nat): bv32
    requires p < POSITIONS
  {
    Up(1, p)
  }

  predicate Test(x: bv32, p: nat)
    requires p < POSITIONS
  {
    And(x, Bit(p)) != 0
  }

  function Set(x: bv32, p: nat): bv32
    requires p < POSITIONS
  {
    Or(x, Bit(p))
  }

  function Clear(x: bv32, p: nat): bv32
    requires p < POSITIONS
  {
    And(x, Not(Bit(p)))
  }

  /** The positions whose bit is set. */
  function Ports(x: bv32): set<nat> {
    set p: nat | p < POSITIONS && Test(x, p)
  }

  /** No bit is lost at the top. */
  lemma BitNotZero(p: nat)
    requires p < POSITIONS
    ensures Bit(p) != 0
  {
    UpUp(1, p, 31 - p);
    UpZero(31 - p);
    TopBit();
    hide Up;
  }

  lemma BitsApart(p: nat, k: nat)
    requires p < POSITIONS && k < POSITIONS && p != k
    ensures And(Bit(p), Bit(k)) == 0
  {
    hide And, Twice;
    var low, gap := if p < k then p else k, if p < k then k - p else p - k;
    UpUp(1, gap, low);
    AndUp(1, Up(1, gap), low);
    OneUp(Up(1, gap - 1), 0);
    UpZero(low);
    AndCommutes(Bit(p), Bit(k));
  }

  lemma SetTest(x: bv32, p: nat, k: nat)
    requires p < POSITIONS && k < POSITIONS
    ensures Test(Set(x, p), k) <==> k == p || Test(x, k)
  {
    hide And, Or, Bit;
    AndOverOr(x, Bit(p), Bit(k));
    BitNotZero(p);
    AndSame(Bit(p));
    OrZero(And(x, Bit(k)), And(Bit(p), Bit(k)));
    if p != k { BitsApart(p, k); }
  }

  lemma ClearTest(x: bv32, p: nat, k: nat)
    requires p < POSITIONS && k < POSITIONS
    ensures Test(Clear(x, p), k) <==> k != p && Test(x, k)
  {
    hide And, Not, Bit;
    AndAssociates(x, Not(Bit(p)), Bit(k));
    AndNot(Bit(p));
    AndSame(x);
    if p != k {
      BitsApart(p, k);
      AndNotApart(Bit(p), Bit(k));
    }
  }

  lemma HalfLeft(x: bv32)
    requires x != 0 && And(x, 1) == 0
    ensures Half(x) != 0
  {
  }

  /** A word that is not zero has a bit. */
  lemma {:induction false} SomeBit(x: bv32, n: nat) returns (p: nat)
    requires x != 0 && Down(x, n) == 0 && n <= POSITIONS
    ensures p < n && And(x, Bit(p)) != 0
    decreases n
  {
    hide And, Half, Twice;
    if And(x, 1) != 0 {
      p := 0;
    } else {
      HalfLeft(x);
      var k := SomeBit(Half(x), n - 1);
      p := k + 1;
      HalfBit(x, Bit(k));
      AllOrNothing(Half(x), k);
      BitNotZero(p);
    }
  }

  lemma NothingAbove(x: bv32)
    ensures Down(x, POSITIONS) == 0
  {
    LastBits();
    DownDown(ALL, 31, 1);
    assert Down(1, 1) == Down(0, 0);
    hide And, Down;
    AndDown(x, ALL, POSITIONS);
    AndSame(x);
    AndSame(Down(x, POSITIONS));
  }

  lemma SomePort(x: bv32)
    requires x != 0
    ensures Ports(x) != {}
  {
    NothingAbove(x);
    var p := SomeBit(x, POSITIONS);
    hide And, Bit, Down;
    assert p in Ports(x);
  }

  /** Setting and clearing a bit adds and removes one port, and nothing else. */
  lemma PortsSetClear(x: bv32, p: nat)
    requires p < POSITIONS
    ensures Ports(Set(x, p)) == Ports(x) + {p}
    ensures Ports(Clear(x, p)) == Ports(x) - {p}
  {
    hide Set, Clear, Test;
    forall k: nat | k < POSITIONS
      ensures (Test(Set(x, p), k) <==> k == p || Test(x, k)) && (Test(Clear(x, p), k) <==> k != p && Test(x, k))
    {
      SetTest(x, p, k);
      ClearTest(x, p, k);
    }
  }

  lemma PortsTest(x: bv32, p: nat)
    requires p < POSITIONS
    ensures Test(x, p) <==> p in Ports(x)
  {
  }

  lemma PortsNone()
    ensures Ports(0) == {}
  {
    hide And, Bit;
    forall p: nat | p < POSITIONS ensures !Test(0, p) { AndSame(Bit(p)); }
  }

  // ---- packed properties ----------------------------------------------------------

  /** A width that divides the word, which a power of two alone does. */
  predicate WidthValid(bits: nat) {
    0 < bits <= WORD_BITS && WORD_BITS % bits == 0
  }

  lemma Widths(bits: nat)
    ensures bits < WORD_BITS && WidthValid(bits) <==> bits in {1, 2, 4, 8, 16}
  {
  }

  function PerWord(bits: nat): (n: nat)
    requires WidthValid(bits)
    ensures n > 0
  {
    WORD_BITS / bits
  }

  function WordCount(bits: nat): nat
    requires WidthValid(bits)
  {
    (POSITIONS + PerWord(bits) - 1) / PerWord(bits)
  }

  function WordIndex(p: nat, bits: nat): nat
    requires WidthValid(bits)
  {
    p / PerWord(bits)
  }

  function Shift(p: nat, bits: nat): nat
    requires WidthValid(bits)
  {
    (p % PerWord(bits)) * bits
  }

  /** (1 << bits) - 1. */
  function Mask(bits: nat): bv32 {
    Less(Up(1, bits))
  }

  /** Clear a field and or a value into it. */
  function Merge(w: bv32, field: bv32, y: bv32): bv32 {
    Or(And(w, Not(field)), And(y, field))
  }

  function PutWord(w: bv32, mask: bv32, shift: nat, v: bv32): bv32 {
    Merge(w, Up(mask, shift), Up(v, shift))
  }

  function GetWord(w: bv32, mask: bv32, shift: nat): bv32 {
    And(Down(w, shift), mask)
  }

  /** An array of words with room for every position. */
  predicate Holds(words: seq<bv32>, bits: nat) {
    bits < WORD_BITS && WidthValid(bits) && |words| == WordCount(bits)
  }

  /** set_port_speed for any width. */
  function Put(words: seq<bv32>, bits: nat, p: nat, v: bv32): (after: seq<bv32>)
    requires Holds(words, bits) && p < POSITIONS
    ensures |after| == |words|
  {
    Places(p, bits);
    var i := WordIndex(p, bits);
    words[i := PutWord(words[i], Mask(bits), Shift(p, bits), v)]
  }

  /** get_port_speed for any width. */
  function Get(words: seq<bv32>, bits: nat, p: nat): bv32
    requires Holds(words, bits) && p < POSITIONS
  {
    Places(p, bits);
    GetWord(words[WordIndex(p, bits)], Mask(bits), Shift(p, bits))
  }

  /** The fields follow each other from the lowest bit of the first word on, and each lies inside a word of the array. */
  lemma Places(p: nat, bits: nat)
    requires bits < WORD_BITS && WidthValid(bits) && p < POSITIONS
    ensures WordIndex(p, bits) < WordCount(bits) && Shift(p, bits) + bits <= WORD_BITS
    ensures 32 * WordIndex(p, bits) + Shift(p, bits) == p * bits && 32 * WordCount(bits) == 32 * bits
  {
    Widths(bits);
    if bits == 1 { } else if bits == 2 { } else if bits == 4 { } else if bits == 8 { } else { assert bits == 16; }
  }

  /** Two fields of one word do not overlap. */
  lemma PlacesApart(p: nat, k: nat, bits: nat)
    requires bits < WORD_BITS && WidthValid(bits) && p < POSITIONS && k < POSITIONS && p < k
    requires WordIndex(p, bits) == WordIndex(k, bits)
    ensures Shift(p, bits) + bits <= Shift(k, bits)
  {
    hide PerWord;
    var per := PerWord(bits);
    LaterPlace(p, k, per);
    Ahead(p % per, k % per, bits);
  }

  /** Of two positions in one word, the later one has the higher place. */
  lemma LaterPlace(p: nat, k: nat, per: nat)
    requires p < k && per > 0 && p / per == k / per
    ensures p % per < k % per
  {
    assert p == per * (p / per) + p % per && k == per * (k / per) + k % per;
  }

  lemma Ahead(a: nat, b: nat, bits: nat)
    requires a < b
    ensures a * bits + bits <= b * bits
  {
    assert b * bits == a * bits + (b - a) * bits;
    assert (b - a) * bits == bits + (b - a - 1) * bits;
  }

  // A field is its mask moved up to its place; fields in different places have nothing in common.

  lemma ReadByField(x: bv32, mask: bv32, shift: nat)
    ensures And(Down(x, shift), mask) == Down(And(x, Up(mask, shift)), shift)
  {
    hide And, Up, Down;
    AndDown(x, Up(mask, shift), shift);
    UpDown(mask, shift);
    AndCommutes(mask, Down(ALL, shift));
    AndAssociates(Down(x, shift), Down(ALL, shift), mask);
    AndDown(x, ALL, shift);
    AndSame(x);
  }

  lemma Overwrite(w: bv32, field: bv32, y: bv32)
    ensures And(Merge(w, field, y), field) == And(y, field)
  {
    hide And, Or, Not;
    AndOverOr(And(w, Not(field)), And(y, field), field);
    AndAssociates(w, Not(field), field);
    AndAssociates(y, field, field);
    AndNot(field);
    AndSame(w);
    AndSame(field);
    OrZero(And(y, field), 0);
  }

  lemma Beside(w: bv32, field: bv32, y: bv32, other: bv32)
    requires And(field, other) == 0
    ensures And(Merge(w, field, y), other) == And(w, other)
  {
    hide And, Or, Not;
    AndOverOr(And(w, Not(field)), And(y, field), other);
    AndAssociates(w, Not(field), other);
    AndNotApart(field, other);
    AndAssociates(y, field, other);
    AndSame(y);
    OrZero(And(w, other), 0);
  }

  lemma MaskStep(y: bv32)
    ensures Less(Twice(y)) == Or(Twice(Less(y)), 1) && Less(1) == 0
  {
  }

  /** Values moved up by a width leave the mask of that width alone. */
  lemma {:induction false} MaskBelow(x: bv32, bits: nat)
    ensures And(Mask(bits), Up(x, bits)) == 0
  {
    hide And, Or, Twice, Less;
    AndSame(x);
    MaskStep(1);
    if bits > 0 {
      MaskStep(Up(1, bits - 1));
      AndOverOr(Twice(Mask(bits - 1)), 1, Up(x, bits));
      OneUp(Mask(bits - 1), Up(x, bits - 1));
      OneUp(Up(x, bits - 1), 0);
      MaskBelow(x, bits - 1);
      OrZero(0, 0);
    }
  }

  /** A mask has every bit below its width. */
  lemma {:induction false} MaskHas(bits: nat, r: nat)
    requires r < bits
    ensures And(Mask(bits), Up(1, r)) == Up(1, r)
    decreases r
  {
    hide And, Or, Twice, Less;
    var low := Mask(bits - 1);
    MaskStep(Up(1, bits - 1));
    AndOverOr(Twice(low), 1, Up(1, r));
    if r == 0 {
      OneUp(low, 0);
      AndSame(1);
      OrZero(1, 0);
    } else {
      MaskHas(bits - 1, r - 1);
      OneUp(low, Up(1, r - 1));
      OneUp(Up(1, r - 1), 0);
      OrZero(Up(1, r), 0);
    }
  }

  lemma HalfBit(x: bv32, y: bv32)
    ensures And(x, Twice(y)) == Twice(And(Half(x), y)) && (And(x, 1) == 0 || And(x, 1) == 1)
  {
  }

  /** Of a single bit, all or nothing is left. */
  lemma {:induction false} AllOrNothing(x: bv32, n: nat)
    ensures And(x, Up(1, n)) == 0 || And(x, Up(1, n)) == Up(1, n)
    decreases n
  {
    hide And, Twice, Half;
    HalfBit(x, if n > 0 then Up(1, n - 1) else 0);
    OneUp(0, 0);
    if n > 0 { AllOrNothing(Half(x), n - 1); }
  }

  lemma FieldsApart(bits: nat, shift: nat, other: nat)
    requires shift + bits <= other
    ensures And(Up(Mask(bits), shift), Up(Mask(bits), other)) == 0
    ensures And(Up(Mask(bits), other), Up(Mask(bits), shift)) == 0
  {
    hide And, Mask;
    var m, gap := Mask(bits), other - shift - bits;
    UpUp(m, gap, bits);
    UpUp(m, gap + bits, shift);
    AndUp(m, Up(m, gap + bits), shift);
    MaskBelow(Up(m, gap), bits);
    UpZero(shift);
    AndCommutes(Up(m, shift), Up(m, other));
  }

  /** A mask fits where there is room for its bits. */
  lemma MaskFits(bits: nat, shift: nat)
    requires bits < WORD_BITS && WidthValid(bits) && shift + bits <= WORD_BITS
    ensures And(Mask(bits), Down(ALL, shift)) == Mask(bits)
  {
    Widths(bits);
    MaskIsDown(bits);
    hide And, Mask;
    DownDown(ALL, shift, WORD_BITS - bits - shift);
    DownAllStays(shift, WORD_BITS - bits - shift);
    AndCommutes(Mask(bits), Down(ALL, shift));
  }

  lemma MaskIsDown(bits: nat)
    requires bits in {1, 2, 4, 8, 16}
    ensures Mask(bits) == Down(ALL, WORD_BITS - bits)
  {
    hide Up, Down;
    LowBits();
    LastBits();
  }

  lemma SameField(w: bv32, mask: bv32, shift: nat, v: bv32)
    requires And(mask, Down(ALL, shift)) == mask
    ensures GetWord(PutWord(w, mask, shift, v), mask, shift) == And(v, mask)
  {
    hide And, Merge, Up, Down;
    ReadByField(PutWord(w, mask, shift, v), mask, shift);
    Overwrite(w, Up(mask, shift), Up(v, shift));
    AndUp(v, mask, shift);
    UpDown(And(v, mask), shift);
    AndAssociates(v, mask, Down(ALL, shift));
  }

  lemma OtherField(w: bv32, mask: bv32, shift: nat, other: nat, v: bv32)
    requires And(Up(mask, shift), Up(mask, other)) == 0
    ensures GetWord(PutWord(w, mask, shift, v), mask, other) == GetWord(w, mask, other)
  {
    hide And, Merge, Up, Down;
    ReadByField(PutWord(w, mask, shift, v), mask, other);
    ReadByField(w, mask, other);
    Beside(w, Up(mask, shift), Up(v, shift), Up(mask, other));
  }

  /** The same for two positions of one word. */
  lemma SameWord(w: bv32, bits: nat, p: nat, v: bv32, k: nat)
    requires bits < WORD_BITS && WidthValid(bits) && p < POSITIONS && k < POSITIONS && WordIndex(k, bits) == WordIndex(p, bits)
    ensures GetWord(PutWord(w, Mask(bits), Shift(p, bits), v), Mask(bits), Shift(k, bits)) ==
      if k == p then And(v, Mask(bits)) else GetWord(w, Mask(bits), Shift(k, bits))
  {
    Places(p, bits);
    hide Mask, GetWord, PutWord, Shift, WordIndex, PerWord, And;
    if k == p {
      MaskFits(bits, Shift(p, bits));
      SameField(w, Mask(bits), Shift(p, bits), v);
    } else if p < k {
      PlacesApart(p, k, bits);
      FieldsApart(bits, Shift(p, bits), Shift(k, bits));
      OtherField(w, Mask(bits), Shift(p, bits), Shift(k, bits), v);
    } else {
      PlacesApart(k, p, bits);
      FieldsApart(bits, Shift(k, bits), Shift(p, bits));
      OtherField(w, Mask(bits), Shift(p, bits), Shift(k, bits), v);
    }
  }

  /** Reading back what was written gives the value where it was written, and
      the old value at every other position. */
  lemma ReadAfterWrite(words: seq<bv32>, bits: nat, p: nat, v: bv32, k: nat)
    requires Holds(words, bits) && p < POSITIONS && k < POSITIONS
    ensures Get(Put(words, bits, p, v), bits, k) == if k == p then And(v, Mask(bits)) else Get(words, bits, k)
  {
    Places(p, bits);
    Places(k, bits);
    hide Mask, GetWord, PutWord, Shift, WordIndex, PerWord, WordCount, And;
    if WordIndex(k, bits) == WordIndex(p, bits) {
      SameWord(words[WordIndex(p, bits)], bits, p, v, k);
    }
  }

  /** An array of zero words holds zero everywhere. */
  lemma ReadZero(words: seq<bv32>, bits: nat, p: nat)
    requires Holds(words, bits) && p < POSITIONS && forall i :: 0 <= i < |words| ==> words[i] == 0
    ensures Get(words, bits, p) == 0
  {
    Places(p, bits);
    hide And, Mask, Shift, WordIndex, PerWord, WordCount;
    DownZero(Shift(p, bits));
    AndSame(Mask(bits));
  }
}
