/** JavaScript's 32-bit operators on numbers, and how they meet arithmetic on words. The
    operators cut their operands to 32 bits and read the result as signed; a word of the
    standard is a natural number below 2^32. The lemmas say that computing with the one is
    computing with the other. */
module JsNumbers {
  import opened Fips180

  type Int32 = x: int | -0x8000_0000 <= x < 0x8000_0000

  function ToUint32(x: int): Word { x % 0x1_0000_0000 }

  function ToInt32(x: int): Int32
  {
    var m := x % 0x1_0000_0000;
    if m < 0x8000_0000 then m else m - 0x1_0000_0000
  }

  // The operators |, ^, &, ~, << and >>>.
  function BitOr(x: int, y: int): Int32 { ToInt32(OrW(ToUint32(x), ToUint32(y))) }
  function BitXor(x: int, y: int): Int32 { ToInt32(XorW(ToUint32(x), ToUint32(y))) }
  function BitAnd(x: int, y: int): Int32 { ToInt32(AndW(ToUint32(x), ToUint32(y))) }
  function BitNot(x: int): Int32 { ToInt32(NotW(ToUint32(x))) }
  function ShiftLeft(x: int, n: nat): Int32 { ToInt32(Shl(ToUint32(x), n)) }
  function ShiftRight(x: int, n: nat): Word { Shr(ToUint32(x), n) }

  /** Reading a number as a word forgets only multiples of 2^32. */
  lemma SameWord(x: int, y: int, k: int)
    requires x == y + k * 0x1_0000_0000
    ensures ToUint32(x) == ToUint32(y) && ToInt32(x) == ToInt32(y)
  {
  }

  /** A word survives being stored as a signed number. */
  lemma WordOfInt32(w: Word)
    ensures ToUint32(ToInt32(w)) == w
  {
  }

  lemma Unsign(p: int, w: Word)
    ensures ToInt32(p + ToInt32(w)) == ToInt32(p + w)
  {
    SameWord(p + w, p + ToInt32(w), if w < 0x8000_0000 then 0 else 1);
  }

  lemma Unfold(p: int, x: Word, y: Word)
    ensures ToInt32(p + Add(x, y)) == ToInt32(p + x + y)
  {
    SameWord(p + x + y, p + Add(x, y), if x + y < 0x1_0000_0000 then 0 else 1);
  }

  // `(x + y) | 0` and its longer forms add words modulo 2^32, although each
  // operand is read as a signed number.
  lemma Sum2(x: Word, y: Word)
    ensures ToInt32(ToInt32(x) + ToInt32(y)) == ToInt32(Add(x, y))
  {
    Unsign(ToInt32(x), y);
    Unsign(y, x);
    Unfold(0, x, y);
  }

  lemma Append(p: int, w: Word, y: Word)
    requires ToInt32(p) == ToInt32(w)
    ensures ToInt32(p + ToInt32(y)) == ToInt32(Add(w, y))
  {
    var k := p / 0x1_0000_0000;
    assert p == w + k * 0x1_0000_0000;
    Unsign(p, y);
    SameWord(p + y, w + y, k);
    Unfold(0, w, y);
  }

  lemma Sum4(x: Word, y: Word, z: Word, u: Word)
    ensures ToInt32(ToInt32(x) + ToInt32(y) + ToInt32(z) + ToInt32(u)) == ToInt32(Add(Add(Add(x, y), z), u))
  {
    Sum2(x, y);
    Append(ToInt32(x) + ToInt32(y), Add(x, y), z);
    Append(ToInt32(x) + ToInt32(y) + ToInt32(z), Add(Add(x, y), z), u);
  }

  lemma Sum5(x: Word, y: Word, z: Word, u: Word, v: Word)
    ensures ToInt32(ToInt32(x) + ToInt32(y) + ToInt32(z) + ToInt32(u) + ToInt32(v))
         == ToInt32(Add(Add(Add(Add(x, y), z), u), v))
  {
    Sum4(x, y, z, u);
    Append(ToInt32(x) + ToInt32(y) + ToInt32(z) + ToInt32(u), Add(Add(Add(x, y), z), u), v);
  }

  /** `(x >>> n) | (x << 32 - n)`: the source's spelling of a rotation. */
  function Rotate(x: int, n: nat): Int32
    requires n <= 32
  {
    BitOr(ShiftRight(x, n), ShiftLeft(x, 32 - n))
  }

  lemma ShiftsOfWord(w: Word, n: nat)
    ensures ShiftRight(ToInt32(w), n) == Shr(w, n)
    ensures ToUint32(ShiftLeft(ToInt32(w), n)) == Shl(w, n)
  {
    WordOfInt32(w);
    WordOfInt32(Shl(w, n));
  }

  lemma OrOf(x: int, y: int, u: Word, v: Word)
    requires ToUint32(x) == u && ToUint32(y) == v
    ensures BitOr(x, y) == ToInt32(OrW(u, v)) && ToUint32(BitOr(x, y)) == OrW(u, v)
  {
    WordOfInt32(OrW(u, v));
  }

  lemma RotateIsRotr(w: Word, n: nat)
    requires n <= 32
    ensures Rotate(ToInt32(w), n) == ToInt32(Rotr(w, n)) && ToUint32(Rotate(ToInt32(w), n)) == Rotr(w, n)
  {
    ShiftsOfWord(w, n);
    ShiftsOfWord(w, 32 - n);
    OrOf(ShiftRight(ToInt32(w), n), ShiftLeft(ToInt32(w), 32 - n), Shr(w, n), Shl(w, 32 - n));
  }

  lemma {:induction false} OrDisjoint(x: nat, y: nat, n: nat)
    requires y < Up(1, n)
    ensures Bitwise(Or, Up(x, n), y) == Up(x, n) + y
    decreases n
  {
    if n > 0 {
      OrDisjoint(x, y / 2, n - 1);
    } else {
      OrZero(x);
    }
  }

  lemma OrZero(x: nat)
    ensures Bitwise(Or, x, 0) == x
  {
  }

  /** The 32-bit number that four bytes spell, most significant first. */
  function LoadBigEndian(b0: Byte, b1: Byte, b2: Byte, b3: Byte): Int32
  {
    BitOr(BitOr(BitOr(ShiftLeft(b0, 24), ShiftLeft(b1, 16)), ShiftLeft(b2, 8)), b3)
  }

  lemma {:induction false} ShlNoWrap(w: Word, n: nat)
    requires Up(w, n) < 0x1_0000_0000
    ensures Shl(w, n) == Up(w, n)
    decreases n
  {
    if n > 0 { ShlNoWrap(w, n - 1); }
  }

  lemma ShrNibble(w: Word, n: nat)
    ensures Shr(w, n + 4) == Shr(w, n) / 16
  {
    assert Shr(w, n + 1) == Shr(w, n) / 2;
    assert Shr(w, n + 2) == Shr(w, n + 1) / 2;
    assert Shr(w, n + 3) == Shr(w, n + 2) / 2;
  }

  lemma ShrBytes(w: Word)
    ensures Shr(w, 0) == w && Shr(w, 8) == w / 0x100 && Shr(w, 16) == w / 0x1_0000 && Shr(w, 24) == w / 0x100_0000
  {
    ShrNibble(w, 0); ShrNibble(w, 4); ShrNibble(w, 8); ShrNibble(w, 12); ShrNibble(w, 16); ShrNibble(w, 20);
  }

  /** One more byte joins a number whose lowest `n` bits are zero. */
  lemma Join(x: int, high: nat, y: int, n: nat)
    requires Up(high, n) < 0x1_0000_0000 && ToUint32(x) == Up(high, n) && ToUint32(y) < Up(1, n)
    ensures ToUint32(BitOr(x, y)) == Up(high, n) + ToUint32(y)
  {
    OrOf(x, y, ToUint32(x), ToUint32(y));
    OrDisjoint(high, ToUint32(y), n);
  }

  lemma Shifted(b: Byte, n: nat)
    requires Up(b, n) < 0x1_0000_0000
    ensures ToUint32(ShiftLeft(b, n)) == Up(b, n)
  {
    ShlNoWrap(b, n);
    WordAsIs(b);
    WordOfInt32(Shl(b, n));
  }

  lemma LoadTwo(x: int, w: Byte, b1: Byte)
    requires ToUint32(x) == w * 0x100_0000
    ensures ToUint32(BitOr(x, ShiftLeft(b1, 16))) == w * 0x100_0000 + b1 * 0x1_0000
  {
    UpBytes(w);
    UpBytes(b1);
    UpBytes(1);
    Shifted(b1, 16);
    Join(x, w, ShiftLeft(b1, 16), 24);
  }

  lemma LoadThree(x: int, w: nat, b2: Byte)
    requires w < 0x1_0000 && ToUint32(x) == w * 0x1_0000
    ensures ToUint32(BitOr(x, ShiftLeft(b2, 8))) == w * 0x1_0000 + b2 * 0x100
  {
    UpBytes(w);
    UpBytes(b2);
    UpBytes(1);
    Shifted(b2, 8);
    Join(x, w, ShiftLeft(b2, 8), 16);
  }

  lemma LoadFour(x: int, w: nat, b3: Byte)
    requires w < 0x100_0000 && ToUint32(x) == w * 0x100
    ensures BitOr(x, b3) == ToInt32(w * 0x100 + b3)
  {
    UpBytes(w);
    UpBytes(1);
    WordAsIs(b3);
    Join(x, w, b3, 8);
    SignOf(BitOr(x, b3), w * 0x100 + b3);
  }

  lemma LoadHigh(b0: Byte, b1: Byte, b2: Byte)
    ensures ToUint32(BitOr(BitOr(ShiftLeft(b0, 24), ShiftLeft(b1, 16)), ShiftLeft(b2, 8)))
         == (b0 * 0x1_0000 + b1 * 0x100 + b2) * 0x100
  {
    UpBytes(b0);
    Shifted(b0, 24);
    LoadTwo(ShiftLeft(b0, 24), b0, b1);
    LoadThree(BitOr(ShiftLeft(b0, 24), ShiftLeft(b1, 16)), b0 * 0x100 + b1, b2);
  }

  lemma LoadIsWord(b0: Byte, b1: Byte, b2: Byte, b3: Byte)
    ensures LoadBigEndian(b0, b1, b2, b3)
         == ToInt32((b0 * 0x1_0000 + b1 * 0x100 + b2) * 0x100 + b3)
  {
    LoadHigh(b0, b1, b2);
    var high := BitOr(BitOr(ShiftLeft(b0, 24), ShiftLeft(b1, 16)), ShiftLeft(b2, 8));
    LoadFour(high, b0 * 0x1_0000 + b1 * 0x100 + b2, b3);
  }

  lemma SignOf(x: Int32, w: Word)
    requires ToUint32(x) == w
    ensures x == ToInt32(w)
  {
  }

  lemma BitsOf(x: int, y: int, u: Word, v: Word)
    requires ToUint32(x) == u && ToUint32(y) == v
    ensures BitXor(x, y) == ToInt32(XorW(u, v)) && ToUint32(BitXor(x, y)) == XorW(u, v)
    ensures BitAnd(x, y) == ToInt32(AndW(u, v)) && ToUint32(BitAnd(x, y)) == AndW(u, v)
    ensures BitNot(x) == ToInt32(NotW(u)) && ToUint32(BitNot(x)) == NotW(u)
  {
    WordOfInt32(XorW(u, v));
    WordOfInt32(AndW(u, v));
    WordOfInt32(NotW(u));
  }

  /** `rotation ^ rotation ^ rotation`, as the source spells the two large sigmas. */
  function ThreeRotations(x: int, i: nat, j: nat, k: nat): Int32
    requires i <= 32 && j <= 32 && k <= 32
  {
    BitXor(BitXor(Rotate(x, i), Rotate(x, j)), Rotate(x, k))
  }

  /** `rotation ^ rotation ^ shift`, as the source spells the two small sigmas. */
  function TwoRotationsAndShift(x: int, i: nat, j: nat, k: nat): Int32
    requires i <= 32 && j <= 32
  {
    BitXor(BitXor(Rotate(x, i), Rotate(x, j)), ShiftRight(x, k))
  }

  lemma XorThree(x: int, y: int, z: int, u: Word, v: Word, w: Word)
    requires ToUint32(x) == u && ToUint32(y) == v && ToUint32(z) == w
    ensures BitXor(BitXor(x, y), z) == ToInt32(XorW(XorW(u, v), w))
  {
    BitsOf(x, y, u, v);
    BitsOf(BitXor(x, y), z, XorW(u, v), w);
  }

  lemma ThreeRotationsOfWord(w: Word, i: nat, j: nat, k: nat)
    requires i <= 32 && j <= 32 && k <= 32
    ensures ThreeRotations(ToInt32(w), i, j, k) == ToInt32(XorW(XorW(Rotr(w, i), Rotr(w, j)), Rotr(w, k)))
  {
    var x := ToInt32(w);
    RotateIsRotr(w, i);
    RotateIsRotr(w, j);
    RotateIsRotr(w, k);
    XorThree(Rotate(x, i), Rotate(x, j), Rotate(x, k), Rotr(w, i), Rotr(w, j), Rotr(w, k));
  }

  lemma WordAsIs(w: Word)
    ensures ToUint32(w) == w
  {
  }

  lemma TwoRotationsAndShiftOfWord(w: Word, i: nat, j: nat, k: nat)
    requires i <= 32 && j <= 32
    ensures TwoRotationsAndShift(ToInt32(w), i, j, k) == ToInt32(XorW(XorW(Rotr(w, i), Rotr(w, j)), Shr(w, k)))
  {
    var x := ToInt32(w);
    RotateIsRotr(w, i);
    RotateIsRotr(w, j);
    ShiftsOfWord(w, k);
    WordAsIs(Shr(w, k));
    XorThree(Rotate(x, i), Rotate(x, j), ShiftRight(x, k), Rotr(w, i), Rotr(w, j), Shr(w, k));
  }

  /** `(e & f) ^ (~e & g)`. */
  function Choose(e: int, f: int, g: int): Int32 { BitXor(BitAnd(e, f), BitAnd(BitNot(e), g)) }

  /** `(a & b) ^ (a & c) ^ (b & c)`. */
  function Majority(a: int, b: int, c: int): Int32 { BitXor(BitXor(BitAnd(a, b), BitAnd(a, c)), BitAnd(b, c)) }

  lemma ChooseIsCh(e: Word, f: Word, g: Word)
    ensures Choose(ToInt32(e), ToInt32(f), ToInt32(g)) == ToInt32(Ch(e, f, g))
  {
    WordOfInt32(e); WordOfInt32(f); WordOfInt32(g);
    BitsOf(ToInt32(e), ToInt32(f), e, f);
    BitsOf(BitNot(ToInt32(e)), ToInt32(g), NotW(e), g);
    BitsOf(BitAnd(ToInt32(e), ToInt32(f)), BitAnd(BitNot(ToInt32(e)), ToInt32(g)), AndW(e, f), AndW(NotW(e), g));
  }

  lemma MajorityIsMaj(a: Word, b: Word, c: Word)
    ensures Majority(ToInt32(a), ToInt32(b), ToInt32(c)) == ToInt32(Maj(a, b, c))
  {
    WordOfInt32(a); WordOfInt32(b); WordOfInt32(c);
    var x, y, z := ToInt32(a), ToInt32(b), ToInt32(c);
    BitsOf(x, y, a, b);
    BitsOf(x, z, a, c);
    BitsOf(y, z, b, c);
    BitsOf(BitAnd(x, y), BitAnd(x, z), AndW(a, b), AndW(a, c));
    BitsOf(BitXor(BitAnd(x, y), BitAnd(x, z)), BitAnd(y, z), XorW(AndW(a, b), AndW(a, c)), AndW(b, c));
  }
}
