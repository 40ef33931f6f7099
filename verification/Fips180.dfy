/** SHA-256 as FIPS 180-4 publishes it: sections 3.2, 4.1.2, 4.2.2, 5.1.1, 5.2.1, 5.3.3 and 6.2.2.
    Words are the naturals below 2^32 and addition is modulo 2^32. */
module Fips180 {


  type Byte = x: int | 0 <= x < 256
  type Word = x: int | 0 <= x < 0x1_0000_0000

  // --- Section 3.2: operations on words ---

  datatype BitOp = And | Or | Xor {
    function OnBits(x: nat, y: nat): (r: nat)
      requires x < 2 && y < 2
      ensures r < 2
    {
      match this
      case And => x * y
      case Or => if x + y > 0 then 1 else 0
      case Xor => (x + y) % 2
    }
  }

  /** The operation bit by bit; no bit is set where both arguments are zero. */
  function Bitwise(op: BitOp, x: nat, y: nat): (r: nat)
    ensures r <= x + y
  {
    if x == 0 && y == 0 then 0
    else op.OnBits(x % 2, y % 2) + 2 * Bitwise(op, x / 2, y / 2)
  }

  /** x doubled n times. */
  function Up(x: nat, n: nat): nat decreases n { if n == 0 then x else 2 * Up(x, n - 1) }

  lemma {:induction false} BitwiseInRange(op: BitOp, x: nat, y: nat, n: nat)
    requires x < Up(1, n) && y < Up(1, n)
    ensures Bitwise(op, x, y) < Up(1, n)
    decreases n
  {
    if n > 0 { BitwiseInRange(op, x / 2, y / 2, n - 1); }
  }

  lemma UpFour(x: nat, n: nat)
    ensures Up(x, n + 4) == 0x10 * Up(x, n)
  {
    assert Up(x, n + 2) == 4 * Up(x, n);
  }

  lemma UpBytes(x: nat)
    ensures Up(x, 8) == x * 0x100 && Up(x, 16) == x * 0x1_0000 && Up(x, 24) == x * 0x100_0000
    ensures Up(x, 32) == x * 0x1_0000_0000
  {
    UpFour(x, 0); UpFour(x, 4); UpFour(x, 8); UpFour(x, 12);
    UpFour(x, 16); UpFour(x, 20); UpFour(x, 24); UpFour(x, 28);
  }

  function OnWords(op: BitOp, x: Word, y: Word): Word
  {
    UpBytes(1);
    BitwiseInRange(op, x, y, 32);
    Bitwise(op, x, y)
  }

  function AndW(x: Word, y: Word): Word { OnWords(And, x, y) }
  function OrW(x: Word, y: Word): Word { OnWords(Or, x, y) }
  function XorW(x: Word, y: Word): Word { OnWords(Xor, x, y) }
  function NotW(x: Word): Word { 0x1_0000_0000 - 1 - x }
  function Add(x: Word, y: Word): Word { (x + y) % 0x1_0000_0000 }

  function Shr(x: Word, n: nat): Word decreases n { if n == 0 then x else Shr(x, n - 1) / 2 }
  function Shl(x: Word, n: nat): Word decreases n { if n == 0 then x else Shl(x, n - 1) * 2 % 0x1_0000_0000 }
  function Rotr(x: Word, n: nat): Word requires n <= 32 { OrW(Shr(x, n), Shl(x, 32 - n)) }

  // --- Section 4.1.2: functions ---

  function Ch(x: Word, y: Word, z: Word): Word { XorW(AndW(x, y), AndW(NotW(x), z)) }
  function Maj(x: Word, y: Word, z: Word): Word { XorW(XorW(AndW(x, y), AndW(x, z)), AndW(y, z)) }
  function BigSigma0(x: Word): Word { XorW(XorW(Rotr(x, 2), Rotr(x, 13)), Rotr(x, 22)) }
  function BigSigma1(x: Word): Word { XorW(XorW(Rotr(x, 6), Rotr(x, 11)), Rotr(x, 25)) }
  function SmallSigma0(x: Word): Word { XorW(XorW(Rotr(x, 7), Rotr(x, 18)), Shr(x, 3)) }
  function SmallSigma1(x: Word): Word { XorW(XorW(Rotr(x, 17), Rotr(x, 19)), Shr(x, 10)) }

  // --- Sections 4.2.2 and 5.3.3: constants ---

  const K: seq<Word> :=
    [0x428a2f98, 0x71374491, 0xb5c0fbcf, 0xe9b5dba5, 0x3956c25b, 0x59f111f1, 0x923f82a4, 0xab1c5ed5]
    + [0xd807aa98, 0x12835b01, 0x243185be, 0x550c7dc3, 0x72be5d74, 0x80deb1fe, 0x9bdc06a7, 0xc19bf174]
    + [0xe49b69c1, 0xefbe4786, 0x0fc19dc6, 0x240ca1cc, 0x2de92c6f, 0x4a7484aa, 0x5cb0a9dc, 0x76f988da]
    + [0x983e5152, 0xa831c66d, 0xb00327c8, 0xbf597fc7, 0xc6e00bf3, 0xd5a79147, 0x06ca6351, 0x14292967]
    + [0x27b70a85, 0x2e1b2138, 0x4d2c6dfc, 0x53380d13, 0x650a7354, 0x766a0abb, 0x81c2c92e, 0x92722c85]
    + [0xa2bfe8a1, 0xa81a664b, 0xc24b8b70, 0xc76c51a3, 0xd192e819, 0xd6990624, 0xf40e3585, 0x106aa070]
    + [0x19a4c116, 0x1e376c08, 0x2748774c, 0x34b0bcb5, 0x391c0cb3, 0x4ed8aa4a, 0x5b9cca4f, 0x682e6ff3]
    + [0x748f82ee, 0x78a5636f, 0x84c87814, 0x8cc70208, 0x90befffa, 0xa4506ceb, 0xbef9a3f7, 0xc67178f2]

  const H0: seq<Word> := [
    0x6a09e667, 0xbb67ae85, 0x3c6ef372, 0xa54ff53a, 0x510e527f, 0x9b05688c, 0x1f83d9ab, 0x5be0cd19]

  // --- Where the constants come from: sections 4.2.2 and 5.3.3 ---

  /** The first 64 primes. */
  const PRIMES: seq<nat> :=
    [2, 3, 5, 7, 11, 13, 17, 19, 23, 29, 31, 37, 41, 43, 47, 53]
    + [59, 61, 67, 71, 73, 79, 83, 89, 97, 101, 103, 107, 109, 113, 127, 131]
    + [137, 139, 149, 151, 157, 163, 167, 173, 179, 181, 191, 193, 197, 199, 211, 223]
    + [227, 229, 233, 239, 241, 251, 257, 263, 269, 271, 277, 281, 283, 293, 307, 311]

  /** q and then w are the integral part and the first 32 bits behind it of the square root of p. */
  predicate SquareRootIs(q: nat, w: Word, p: nat)
  {
    var n: nat := q * 0x1_0000_0000 + w; n * n <= p * 0x1_0000_0000_0000_0000 < (n + 1) * (n + 1)
  }

  /** The same of the cube root. */
  predicate CubeRootIs(q: nat, w: Word, p: nat)
  {
    var n: nat := q * 0x1_0000_0000 + w; n * n * n <= p * 0x1_0000_0000_0000_0000_0000_0000 < (n + 1) * (n + 1) * (n + 1)
  }

  /** The first hash value is made of the fractional parts of the square roots of the first
      eight primes. */
  lemma HashConstants(i: nat)
    requires i < 8
    ensures exists q :: SquareRootIs(q, H0[i], PRIMES[i])
  {
    hide SquareRootIs;
    SquareRoots();
    assert H0[0] == 0x6a09e667 && PRIMES[0] == 2;
    assert H0[1] == 0xbb67ae85 && PRIMES[1] == 3;
    assert H0[2] == 0x3c6ef372 && PRIMES[2] == 5;
    assert H0[3] == 0xa54ff53a && PRIMES[3] == 7;
    assert H0[4] == 0x510e527f && PRIMES[4] == 11;
    assert H0[5] == 0x9b05688c && PRIMES[5] == 13;
    assert H0[6] == 0x1f83d9ab && PRIMES[6] == 17;
    assert H0[7] == 0x5be0cd19 && PRIMES[7] == 19;
  }

  lemma SquareRoots()
    ensures SquareRootIs(1, 0x6a09e667, 2)
    ensures SquareRootIs(1, 0xbb67ae85, 3)
    ensures SquareRootIs(2, 0x3c6ef372, 5)
    ensures SquareRootIs(2, 0xa54ff53a, 7)
    ensures SquareRootIs(3, 0x510e527f, 11)
    ensures SquareRootIs(3, 0x9b05688c, 13)
    ensures SquareRootIs(4, 0x1f83d9ab, 17)
    ensures SquareRootIs(4, 0x5be0cd19, 19)
  {
  }

  /** The round constants are those of the cube roots of the first 64. */
  lemma RoundConstants(i: nat)
    requires i < 64
    ensures exists q :: CubeRootIs(q, K[i], PRIMES[i])
  {
    if i < 16 { CubeRoots16(i); } else if i < 32 { CubeRoots32(i); } else if i < 48 { CubeRoots48(i); } else { CubeRoots64(i); }
  }

  lemma CubeRoots16(i: nat)
    requires 0 <= i < 16
    ensures exists q :: CubeRootIs(q, K[i], PRIMES[i])
  {
    hide CubeRootIs;
    CubeRootsTo16();
    assert K[0] == 0x428a2f98 && PRIMES[0] == 2;
    assert K[1] == 0x71374491 && PRIMES[1] == 3;
    assert K[2] == 0xb5c0fbcf && PRIMES[2] == 5;
    assert K[3] == 0xe9b5dba5 && PRIMES[3] == 7;
    assert K[4] == 0x3956c25b && PRIMES[4] == 11;
    assert K[5] == 0x59f111f1 && PRIMES[5] == 13;
    assert K[6] == 0x923f82a4 && PRIMES[6] == 17;
    assert K[7] == 0xab1c5ed5 && PRIMES[7] == 19;
    assert K[8] == 0xd807aa98 && PRIMES[8] == 23;
    assert K[9] == 0x12835b01 && PRIMES[9] == 29;
    assert K[10] == 0x243185be && PRIMES[10] == 31;
    assert K[11] == 0x550c7dc3 && PRIMES[11] == 37;
    assert K[12] == 0x72be5d74 && PRIMES[12] == 41;
    assert K[13] == 0x80deb1fe && PRIMES[13] == 43;
    assert K[14] == 0x9bdc06a7 && PRIMES[14] == 47;
    assert K[15] == 0xc19bf174 && PRIMES[15] == 53;
  }

  lemma CubeRootsTo16()
    ensures CubeRootIs(1, 0x428a2f98, 2)
    ensures CubeRootIs(1, 0x71374491, 3)
    ensures CubeRootIs(1, 0xb5c0fbcf, 5)
    ensures CubeRootIs(1, 0xe9b5dba5, 7)
    ensures CubeRootIs(2, 0x3956c25b, 11)
    ensures CubeRootIs(2, 0x59f111f1, 13)
    ensures CubeRootIs(2, 0x923f82a4, 17)
    ensures CubeRootIs(2, 0xab1c5ed5, 19)
    ensures CubeRootIs(2, 0xd807aa98, 23)
    ensures CubeRootIs(3, 0x12835b01, 29)
    ensures CubeRootIs(3, 0x243185be, 31)
    ensures CubeRootIs(3, 0x550c7dc3, 37)
    ensures CubeRootIs(3, 0x72be5d74, 41)
    ensures CubeRootIs(3, 0x80deb1fe, 43)
    ensures CubeRootIs(3, 0x9bdc06a7, 47)
    ensures CubeRootIs(3, 0xc19bf174, 53)
  {
  }

  lemma CubeRoots32(i: nat)
    requires 16 <= i < 32
    ensures exists q :: CubeRootIs(q, K[i], PRIMES[i])
  {
    hide CubeRootIs;
    CubeRootsTo32();
    assert K[16] == 0xe49b69c1 && PRIMES[16] == 59;
    assert K[17] == 0xefbe4786 && PRIMES[17] == 61;
    assert K[18] == 0x0fc19dc6 && PRIMES[18] == 67;
    assert K[19] == 0x240ca1cc && PRIMES[19] == 71;
    assert K[20] == 0x2de92c6f && PRIMES[20] == 73;
    assert K[21] == 0x4a7484aa && PRIMES[21] == 79;
    assert K[22] == 0x5cb0a9dc && PRIMES[22] == 83;
    assert K[23] == 0x76f988da && PRIMES[23] == 89;
    assert K[24] == 0x983e5152 && PRIMES[24] == 97;
    assert K[25] == 0xa831c66d && PRIMES[25] == 101;
    assert K[26] == 0xb00327c8 && PRIMES[26] == 103;
    assert K[27] == 0xbf597fc7 && PRIMES[27] == 107;
    assert K[28] == 0xc6e00bf3 && PRIMES[28] == 109;
    assert K[29] == 0xd5a79147 && PRIMES[29] == 113;
    assert K[30] == 0x06ca6351 && PRIMES[30] == 127;
    assert K[31] == 0x14292967 && PRIMES[31] == 131;
  }

  lemma CubeRootsTo32()
    ensures CubeRootIs(3, 0xe49b69c1, 59)
    ensures CubeRootIs(3, 0xefbe4786, 61)
    ensures CubeRootIs(4, 0x0fc19dc6, 67)
    ensures CubeRootIs(4, 0x240ca1cc, 71)
    ensures CubeRootIs(4, 0x2de92c6f, 73)
    ensures CubeRootIs(4, 0x4a7484aa, 79)
    ensures CubeRootIs(4, 0x5cb0a9dc, 83)
    ensures CubeRootIs(4, 0x76f988da, 89)
    ensures CubeRootIs(4, 0x983e5152, 97)
    ensures CubeRootIs(4, 0xa831c66d, 101)
    ensures CubeRootIs(4, 0xb00327c8, 103)
    ensures CubeRootIs(4, 0xbf597fc7, 107)
    ensures CubeRootIs(4, 0xc6e00bf3, 109)
    ensures CubeRootIs(4, 0xd5a79147, 113)
    ensures CubeRootIs(5, 0x06ca6351, 127)
    ensures CubeRootIs(5, 0x14292967, 131)
  {
  }

  lemma CubeRoots48(i: nat)
    requires 32 <= i < 48
    ensures exists q :: CubeRootIs(q, K[i], PRIMES[i])
  {
    hide CubeRootIs;
    CubeRootsTo48();
    assert K[32] == 0x27b70a85 && PRIMES[32] == 137;
    assert K[33] == 0x2e1b2138 && PRIMES[33] == 139;
    assert K[34] == 0x4d2c6dfc && PRIMES[34] == 149;
    assert K[35] == 0x53380d13 && PRIMES[35] == 151;
    assert K[36] == 0x650a7354 && PRIMES[36] == 157;
    assert K[37] == 0x766a0abb && PRIMES[37] == 163;
    assert K[38] == 0x81c2c92e && PRIMES[38] == 167;
    assert K[39] == 0x92722c85 && PRIMES[39] == 173;
    assert K[40] == 0xa2bfe8a1 && PRIMES[40] == 179;
    assert K[41] == 0xa81a664b && PRIMES[41] == 181;
    assert K[42] == 0xc24b8b70 && PRIMES[42] == 191;
    assert K[43] == 0xc76c51a3 && PRIMES[43] == 193;
    assert K[44] == 0xd192e819 && PRIMES[44] == 197;
    assert K[45] == 0xd6990624 && PRIMES[45] == 199;
    assert K[46] == 0xf40e3585 && PRIMES[46] == 211;
    assert K[47] == 0x106aa070 && PRIMES[47] == 223;
  }

  lemma CubeRootsTo48()
    ensures CubeRootIs(5, 0x27b70a85, 137)
    ensures CubeRootIs(5, 0x2e1b2138, 139)
    ensures CubeRootIs(5, 0x4d2c6dfc, 149)
    ensures CubeRootIs(5, 0x53380d13, 151)
    ensures CubeRootIs(5, 0x650a7354, 157)
    ensures CubeRootIs(5, 0x766a0abb, 163)
    ensures CubeRootIs(5, 0x81c2c92e, 167)
    ensures CubeRootIs(5, 0x92722c85, 173)
    ensures CubeRootIs(5, 0xa2bfe8a1, 179)
    ensures CubeRootIs(5, 0xa81a664b, 181)
    ensures CubeRootIs(5, 0xc24b8b70, 191)
    ensures CubeRootIs(5, 0xc76c51a3, 193)
    ensures CubeRootIs(5, 0xd192e819, 197)
    ensures CubeRootIs(5, 0xd6990624, 199)
    ensures CubeRootIs(5, 0xf40e3585, 211)
    ensures CubeRootIs(6, 0x106aa070, 223)
  {
  }

  lemma CubeRoots64(i: nat)
    requires 48 <= i < 64
    ensures exists q :: CubeRootIs(q, K[i], PRIMES[i])
  {
    hide CubeRootIs;
    CubeRootsTo64();
    assert K[48] == 0x19a4c116 && PRIMES[48] == 227;
    assert K[49] == 0x1e376c08 && PRIMES[49] == 229;
    assert K[50] == 0x2748774c && PRIMES[50] == 233;
    assert K[51] == 0x34b0bcb5 && PRIMES[51] == 239;
    assert K[52] == 0x391c0cb3 && PRIMES[52] == 241;
    assert K[53] == 0x4ed8aa4a && PRIMES[53] == 251;
    assert K[54] == 0x5b9cca4f && PRIMES[54] == 257;
    assert K[55] == 0x682e6ff3 && PRIMES[55] == 263;
    assert K[56] == 0x748f82ee && PRIMES[56] == 269;
    assert K[57] == 0x78a5636f && PRIMES[57] == 271;
    assert K[58] == 0x84c87814 && PRIMES[58] == 277;
    assert K[59] == 0x8cc70208 && PRIMES[59] == 281;
    assert K[60] == 0x90befffa && PRIMES[60] == 283;
    assert K[61] == 0xa4506ceb && PRIMES[61] == 293;
    assert K[62] == 0xbef9a3f7 && PRIMES[62] == 307;
    assert K[63] == 0xc67178f2 && PRIMES[63] == 311;
  }

  lemma CubeRootsTo64()
    ensures CubeRootIs(6, 0x19a4c116, 227)
    ensures CubeRootIs(6, 0x1e376c08, 229)
    ensures CubeRootIs(6, 0x2748774c, 233)
    ensures CubeRootIs(6, 0x34b0bcb5, 239)
    ensures CubeRootIs(6, 0x391c0cb3, 241)
    ensures CubeRootIs(6, 0x4ed8aa4a, 251)
    ensures CubeRootIs(6, 0x5b9cca4f, 257)
    ensures CubeRootIs(6, 0x682e6ff3, 263)
    ensures CubeRootIs(6, 0x748f82ee, 269)
    ensures CubeRootIs(6, 0x78a5636f, 271)
    ensures CubeRootIs(6, 0x84c87814, 277)
    ensures CubeRootIs(6, 0x8cc70208, 281)
    ensures CubeRootIs(6, 0x90befffa, 283)
    ensures CubeRootIs(6, 0xa4506ceb, 293)
    ensures CubeRootIs(6, 0xbef9a3f7, 307)
    ensures CubeRootIs(6, 0xc67178f2, 311)
  {
  }

  // --- Section 5.1.1: padding ---

  /** `n` bytes of `value`, most significant first. */
  function BigEndian(value: nat, n: nat): (r: seq<Byte>)
    ensures |r| == n
  {
    if n == 0 then [] else BigEndian(value / 256, n - 1) + [value % 256]
  }

  predicate LeavesLengthField(l: nat, k: nat) { (l + 1 + k) % 512 == 448 }

  /** The least k with l + 1 + k = 448 mod 512, for a message of l bits. */
  function ZeroBits(l: nat): (k: nat)
    ensures LeavesLengthField(l, k)
    ensures forall j: nat :: j < k ==> !LeavesLengthField(l, j)
  {
    (447 - l) % 512
  }

  /** The message, a 1 bit, ZeroBits zeros and the bit length in 64 bits; the 1 bit
      and the first seven zeros make the byte 0x80. */
  function Pad(m: seq<Byte>): (r: seq<Byte>)
    ensures |r| % 64 == 0
  {
    m + [0x80] + seq(ZeroBytes(|m|), i => 0) + BigEndian(8 * |m|, 8)
  }

  /** The whole zero bytes after 0x80. */
  function ZeroBytes(length: nat): (r: nat)
    ensures ZeroBits(8 * length) == 7 + 8 * r
    ensures (length + 1 + r + 8) % 64 == 0 && r < 64
  {
    (ZeroBits(8 * length) - 7) / 8
  }

  // --- Section 6.2.2: hash computation ---

  /** The message schedule of one 64-byte block. */
  function Schedule(block: seq<Byte>, t: nat): Word
    requires |block| == 64 && t < 64
  {
    if t < 16 then
      (block[4 * t] * 0x1_0000 + block[4 * t + 1] * 0x100 + block[4 * t + 2]) * 0x100 + block[4 * t + 3]
    else
      Add(Add(Add(SmallSigma1(Schedule(block, t - 2)), Schedule(block, t - 7)),
              SmallSigma0(Schedule(block, t - 15))), Schedule(block, t - 16))
  }

  datatype Vars = Vars(a: Word, b: Word, c: Word, d: Word, e: Word, f: Word, g: Word, h: Word)

  function Round(v: Vars, k: Word, w: Word): Vars
  {
    var t1 := Add(Add(Add(Add(v.h, BigSigma1(v.e)), Ch(v.e, v.f, v.g)), k), w);
    var t2 := Add(BigSigma0(v.a), Maj(v.a, v.b, v.c));
    Vars(Add(t1, t2), v.a, v.b, v.c, Add(v.d, t1), v.e, v.f, v.g)
  }

  /** The working variables after `t` rounds over `block`. */
  function Rounds(block: seq<Byte>, t: nat, v: Vars): Vars
    requires |block| == 64 && t <= 64
  {
    if t == 0 then v else Round(Rounds(block, t - 1, v), K[t - 1], Schedule(block, t - 1))
  }

  function FromHash(h: seq<Word>): Vars
    requires |h| == 8
  {
    Vars(h[0], h[1], h[2], h[3], h[4], h[5], h[6], h[7])
  }

  /** The next intermediate hash value. */
  function Compress(h: seq<Word>, block: seq<Byte>): (r: seq<Word>)
    requires |h| == 8 && |block| == 64
    ensures |r| == 8
  {
    var v := Rounds(block, 64, FromHash(h));
    [Add(h[0], v.a), Add(h[1], v.b), Add(h[2], v.c), Add(h[3], v.d),
     Add(h[4], v.e), Add(h[5], v.f), Add(h[6], v.g), Add(h[7], v.h)]
  }

  predicate Blocks(blocks: seq<seq<Byte>>) { forall b <- blocks :: |b| == 64 }

  function Fold(h: seq<Word>, blocks: seq<seq<Byte>>): (r: seq<Word>)
    requires |h| == 8 && Blocks(blocks)
    ensures |r| == 8
  {
    if blocks == [] then h
    else Compress(Fold(h, blocks[..|blocks| - 1]), blocks[|blocks| - 1])
  }

  lemma FoldOne(h: seq<Word>, blocks: seq<seq<Byte>>, block: seq<Byte>)
    requires |h| == 8 && Blocks(blocks) && |block| == 64
    ensures Fold(h, blocks + [block]) == Compress(Fold(h, blocks), block)
  {
    assert (blocks + [block])[..|blocks|] == blocks;
  }

  function Split(padded: seq<Byte>): (r: seq<seq<Byte>>)
    requires |padded| % 64 == 0
    ensures Blocks(r) && |r| == |padded| / 64
    ensures forall i :: 0 <= i < |r| ==> r[i] == padded[64 * i..64 * i + 64]
  {
    seq(|padded| / 64, i requires 0 <= i < |padded| / 64 => padded[64 * i..64 * i + 64])
  }

  const HEX_DIGITS: string := "0123456789abcdef"

  function HexByte(b: Byte): string { [HEX_DIGITS[b / 16], HEX_DIGITS[b % 16]] }

  function HexWord(w: Word): string
  {
    HexByte(w / 0x100_0000) + HexByte(w / 0x1_0000 % 256) + HexByte(w / 0x100 % 256) + HexByte(w % 256)
  }

  /** What a hexadecimal digit is worth. */
  function DigitValue(c: char): nat
  {
    if '0' <= c <= '9' then c as nat - '0' as nat else if 'a' <= c <= 'f' then c as nat - 'a' as nat + 10 else 0
  }

  function HexValue(s: string): nat
  {
    if s == "" then 0 else HexValue(s[..|s| - 1]) * 0x10 + DigitValue(s[|s| - 1])
  }

  lemma HexByteValue(x: string, b: Byte)
    ensures HexValue(x + HexByte(b)) == HexValue(x) * 0x100 + b
  {
    var s := x + HexByte(b);
    assert s[..|s| - 1] == x + [HEX_DIGITS[b / 16]];
    assert s[..|s| - 1][..|x|] == x;
    DigitIs(b / 16);
    DigitIs(b % 16);
  }

  lemma DigitIs(d: nat)
    requires d < 16
    ensures DigitValue(HEX_DIGITS[d]) == d
  {
  }

  /** A word in hexadecimal reads back as the word. */
  lemma HexWordValue(w: Word)
    ensures |HexWord(w)| == 8 && HexValue(HexWord(w)) == w
  {
    hide HexByte;
    HexByteValue("", w / 0x100_0000);
    HexByteValue(HexByte(w / 0x100_0000), w / 0x1_0000 % 256);
    HexByteValue(HexByte(w / 0x100_0000) + HexByte(w / 0x1_0000 % 256), w / 0x100 % 256);
    HexByteValue(HexByte(w / 0x100_0000) + HexByte(w / 0x1_0000 % 256) + HexByte(w / 0x100 % 256), w % 256);
    assert "" + HexByte(w / 0x100_0000) == HexByte(w / 0x100_0000);
    TwoDigits(w / 0x100_0000);
    TwoDigits(w / 0x1_0000 % 256);
    TwoDigits(w / 0x100 % 256);
    TwoDigits(w % 256);
    FourParts(w);
  }

  lemma TwoDigits(b: Byte)
    ensures |HexByte(b)| == 2
  {
  }

  lemma FourParts(w: Word)
    ensures ((w / 0x100_0000 * 0x100 + w / 0x1_0000 % 256) * 0x100 + w / 0x100 % 256) * 0x100 + w % 256 == w
  {
    assert w / 0x100 / 0x100 == w / 0x1_0000 && w / 0x1_0000 / 0x100 == w / 0x100_0000;
  }

  function HexWords(h: seq<Word>): string
  {
    if h == [] then "" else HexWords(h[..|h| - 1]) + HexWord(h[|h| - 1])
  }

  /** The digest of `m`, in lower-case hexadecimal. */
  function Sha256(m: seq<Byte>): string
  {
    HexWords(Fold(H0, Split(Pad(m))))
  }
}
