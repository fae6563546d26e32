/** The masks and shifts of the source on unsigned numbers are the ranges and quotients that the model uses. */
module Bits {
  import opened Wire
  import opened Names
  import opened Messages

  function Pow2(k: nat): (r: nat)
    ensures r > 0
  {
    if k == 0 then 1 else 2 * Pow2(k - 1)
  }

  /** Bit by bit, lowest first. */
  function And(a: nat, b: nat): (r: nat)
    ensures r <= b
  {
    if a == 0 || b == 0 then 0 else 2 * And(a / 2, b / 2) + if a % 2 == 1 && b % 2 == 1 then 1 else 0
  }

  function Or(a: nat, b: nat): (r: nat)
  {
    if a == 0 then b
    else if b == 0 then a
    else 2 * Or(a / 2, b / 2) + if a % 2 == 1 || b % 2 == 1 then 1 else 0
  }

  function Shl(a: nat, k: nat): (r: nat)
  {
    a * Pow2(k)
  }

  function Shr(a: nat, k: nat): (r: nat)
  {
    if k == 0 then a else Shr(a / 2, k - 1)
  }

  lemma Powers()
    ensures Pow2(2) == 4 && Pow2(4) == 0x10 && Pow2(6) == 0x40 && Pow2(7) == 0x80 && Pow2(8) == 0x100
    ensures Pow2(9) == 0x200 && Pow2(10) == 0x400 && Pow2(11) == 0x800 && Pow2(15) == 0x8000
  {
  }

  /** Half of a number that is split into high and low bits. */
  lemma HalfOf(k: nat, q: nat, r: nat)
    requires k > 0
    ensures (Pow2(k) * q + r) / 2 == Pow2(k - 1) * q + r / 2
    ensures (Pow2(k) * q + r) % 2 == r % 2
  {
    var p := Pow2(k - 1) * q;
    assert Pow2(k) * q == 2 * p;
  }

  lemma ShlTwice(a: nat, k: nat)
    requires k > 0
    ensures Shl(a, k) == 2 * Shl(a, k - 1)
  {
    var p := Pow2(k - 1);
    assert a * (2 * p) == 2 * (a * p);
  }

  lemma ShlNothing(a: nat)
    ensures Shl(a, 0) == a
  {
  }

  // ----- Masks -----------------------------------------------------------------------

  lemma AndStep(a: nat, b: nat)
    ensures And(a, b) == 2 * And(a / 2, b / 2) + if a % 2 == 1 && b % 2 == 1 then 1 else 0
  {
  }

  lemma OddMask(m: nat)
    requires m > 0
    ensures (2 * m - 1) / 2 == m - 1 && (2 * m - 1) % 2 == 1
  {
  }

  lemma AndMaskStep(a: nat, m: nat, r: nat)
    requires m > 0 && And(a / 2, m - 1) == r / 2 && a % 2 == r % 2
    ensures And(a, 2 * m - 1) == r
  {
    hide And;
    OddMask(m);
    AndStep(a, 2 * m - 1);
  }

  /** A mask of the k low bits keeps these. */
  lemma {:induction false} AndMask(k: nat, q: nat, r: nat)
    requires r < Pow2(k)
    ensures And(Pow2(k) * q + r, Pow2(k) - 1) == r
    decreases k
  {
    hide And;
    if k > 0 {
      AndMask(k - 1, q, r / 2);
      HalfOf(k, q, r);
      AndMaskStep(Pow2(k) * q + r, Pow2(k - 1), r);
    } else {
      AndNothing(q);
    }
  }

  lemma AndNothing(a: nat)
    ensures And(a, 0) == 0
  {
  }

  /** A right shift by k drops the k low bits. */
  lemma {:induction false} ShrDrops(k: nat, q: nat, r: nat)
    requires r < Pow2(k)
    ensures Shr(Pow2(k) * q + r, k) == q
    decreases k
  {
    if k > 0 {
      HalfOf(k, q, r);
      ShrDrops(k - 1, q, r / 2);
    }
  }

  lemma AndEven(a: nat, b: nat)
    ensures And(a, 2 * b) == 2 * And(a / 2, b)
  {
    hide And;
    AndStep(a, 2 * b);
    EvenMask(b);
  }

  lemma EvenMask(b: nat)
    ensures 2 * b / 2 == b && 2 * b % 2 == 0
  {
  }

  lemma AndShiftedStep(a: nat, b: nat, c: nat, k: nat)
    requires k > 0 && And(a / 2, Shl(b, k - 1)) == Shl(c, k - 1)
    ensures And(a, Shl(b, k)) == Shl(c, k)
  {
    hide And, Shl;
    ShlTwice(b, k);
    ShlTwice(c, k);
    AndEven(a, Shl(b, k - 1));
  }

  /** A mask shifted left by k sees the bits above. */
  lemma {:induction false} AndShifted(k: nat, q: nat, r: nat, b: nat)
    requires r < Pow2(k)
    ensures And(Pow2(k) * q + r, Shl(b, k)) == Shl(And(q, b), k)
    decreases k
  {
    hide And, Shl;
    if k == 0 {
      ShlNothing(b);
      ShlNothing(And(q, b));
    } else {
      HalfOf(k, q, r);
      AndShifted(k - 1, q, r / 2, b);
      AndShiftedStep(Pow2(k) * q + r, b, And(q, b), k);
    }
  }

  lemma AndOne(a: nat)
    ensures And(a, 1) == a % 2
  {
    AndMask(1, a / 2, a % 2);
  }

  lemma AndFifteen(a: nat)
    ensures And(a, 0xF) == a % 16
  {
    hide And;
    Powers();
    AndMask(4, a / 16, a % 16);
  }

  lemma AndSixBits(a: nat)
    ensures And(a, 0x3F) == a % 64
  {
    hide And;
    Powers();
    AndMask(6, a / 64, a % 64);
  }

  /** The two high bits of an octet. */
  lemma AndHighBits(b: Byte)
    ensures And(b, 0xC0) == b / 64 * 64
  {
    hide And;
    Powers();
    AndShifted(6, b / 64, b % 64, 3);
    AndMask(2, 0, b / 64);
  }

  // ----- Disjunction of fields that do not overlap ---------------------------------------

  lemma OrStep(a: nat, b: nat)
    ensures Or(a, b) == 2 * Or(a / 2, b / 2) + if a % 2 == 1 || b % 2 == 1 then 1 else 0
  {
  }

  lemma {:induction false} OrAdds(a: nat, k: nat, b: nat)
    requires b < Pow2(k)
    ensures Or(Shl(a, k), b) == Shl(a, k) + b
    decreases k
  {
    if k > 0 {
      hide Or, Shl;
      ShlTwice(a, k);
      OrAdds(a, k - 1, b / 2);
      OrStep(Shl(a, k), b);
    }
  }

  /** The same with the power written out. */
  lemma OrBelow(a: nat, k: nat, p: nat, b: nat)
    requires p == Pow2(k) && b < p
    ensures Or(a * p, b) == a * p + b
  {
    hide Or;
    OrAdds(a, k, b);
  }

  // ----- The octets of a name ---------------------------------------------------------------

  /** A cell of a name by the masks of read_name. */
  function MaskedCellAt(buffer: seq<Byte>, cursor: nat): (c: Cell)
  {
    if cursor >= |buffer| then Malformed
    else
      var length: int := buffer[cursor];
      if And(length, 0xC0) == 0xC0 then
        if cursor + 1 >= |buffer| then Malformed
        else Pointer(Or(Shl(And(length, 0x3F), 8), buffer[cursor + 1]))
      else if And(length, 0xC0) != 0 then Malformed
      else if length == 0 then Terminator
      else if cursor + 1 + length > |buffer| then Malformed
      else Text(buffer[cursor + 1..cursor + 1 + length], cursor + 1 + length)
  }

  lemma CellsByMasks(buffer: seq<Byte>, cursor: nat)
    ensures MaskedCellAt(buffer, cursor) == CellAt(buffer, cursor)
  {
    hide And, Or, Shl;
    if cursor < |buffer| {
      var length: int := buffer[cursor];
      AndHighBits(length);
      if cursor + 1 < |buffer| {
        PointerTarget(length, buffer[cursor + 1]);
      }
    }
  }

  lemma PointerTarget(high: Byte, low: Byte)
    ensures high >= 192 ==> Or(Shl(And(high, 0x3F), 8), low) == (high - 192) * 0x100 + low
  {
    hide And, Or;
    AndSixBits(high);
    Powers();
    OrAdds(And(high, 0x3F), 8, low);
  }

  // ----- The flag word --------------------------------------------------------------------------

  /** The fields as header::write puts them together, one after the other. */
  function PackedFlags(h: Header): (flags: nat)
  {
    var f0 := Shl(Bit(h.response), 15);
    var f1 := Or(f0, Shl(And(h.opcode, 0xF), 11));
    var f2 := Or(f1, Shl(Bit(h.authoritative), 10));
    var f3 := Or(f2, Shl(Bit(h.truncated), 9));
    var f4 := Or(f3, Shl(Bit(h.recursionDesired), 8));
    var f5 := Or(f4, Shl(Bit(h.recursionAvailable), 7));
    Or(f5, And(h.rcode, 0xF))
  }

  lemma FlagsArePacked(h: Header)
    ensures PackedFlags(h) == FlagWord(h)
  {
    hide And, Or, Shl;
    AndFifteen(h.opcode);
    AndFifteen(h.rcode);
    FieldsAdd(Bit(h.response), h.opcode % 16, Bit(h.authoritative), Bit(h.truncated), Bit(h.recursionDesired),
              Bit(h.recursionAvailable), h.rcode % 16);
  }

  lemma FieldsAdd(r: nat, op: nat, aa: nat, tc: nat, rd: nat, ra: nat, rc: nat)
    requires r < 2 && op < 16 && aa < 2 && tc < 2 && rd < 2 && ra < 2 && rc < 16
    ensures Or(Or(Or(Or(Or(Or(Shl(r, 15), Shl(op, 11)), Shl(aa, 10)), Shl(tc, 9)), Shl(rd, 8)), Shl(ra, 7)), rc)
         == r * 0x8000 + op * 0x800 + aa * 0x400 + tc * 0x200 + rd * 0x100 + ra * 0x80 + rc
  {
    Powers();
    hide Or, Pow2;
    var f1 := r * 16 + op;
    var f2 := f1 * 2 + aa;
    var f3 := f2 * 2 + tc;
    var f4 := f3 * 2 + rd;
    var f5 := f4 * 2 + ra;
    OrBelow(r, 15, 0x8000, op * 0x800);
    OrBelow(f1, 11, 0x800, aa * 0x400);
    OrBelow(f2, 10, 0x400, tc * 0x200);
    OrBelow(f3, 9, 0x200, rd * 0x100);
    OrBelow(f4, 8, 0x100, ra * 0x80);
    OrBelow(f5, 7, 0x80, rc);
  }

  /** The header as header::read takes it apart. */
  function UnpackedByMasks(id: U16, flags: U16, qd: U16, an: U16, ns: U16, ar: U16): (h: Header)
  {
    Header(id, And(Shr(flags, 15), 1) != 0, And(Shr(flags, 11), 0xF), And(Shr(flags, 10), 1) != 0,
           And(Shr(flags, 9), 1) != 0, And(Shr(flags, 8), 1) != 0, And(Shr(flags, 7), 1) != 0, And(flags, 0xF),
           qd, an, ns, ar)
  }

  lemma ShrValues(a: nat)
    ensures Shr(a, 7) == a / 0x80 && Shr(a, 8) == a / 0x100 && Shr(a, 9) == a / 0x200
    ensures Shr(a, 10) == a / 0x400 && Shr(a, 11) == a / 0x800 && Shr(a, 15) == a / 0x8000
  {
    Powers();
    hide Pow2, Shr;
    ShrDrops(7, a / 0x80, a % 0x80);
    ShrDrops(8, a / 0x100, a % 0x100);
    ShrDrops(9, a / 0x200, a % 0x200);
    ShrDrops(10, a / 0x400, a % 0x400);
    ShrDrops(11, a / 0x800, a % 0x800);
    ShrDrops(15, a / 0x8000, a % 0x8000);
  }

  lemma HeadersByMasks(id: U16, flags: U16, qd: U16, an: U16, ns: U16, ar: U16)
    ensures UnpackedByMasks(id, flags, qd, an, ns, ar) == Unpack(id, flags, qd, an, ns, ar)
  {
    hide And, Shr;
    ShrValues(flags);
    AndOne(Shr(flags, 15));
    AndFifteen(Shr(flags, 11));
    AndOne(Shr(flags, 10));
    AndOne(Shr(flags, 9));
    AndOne(Shr(flags, 8));
    AndOne(Shr(flags, 7));
    AndFifteen(flags);
  }
}
