/** The portable SHA-256 of src/shared/sha256.ts: one set of working arrays for the
    whole realm, overwritten by every call, and signed 32-bit arithmetic throughout. It is
    held against FIPS 180-4 as `Fips180` writes it down. */
module PortableSha256 {
  import opened Fips180
  import opened JsNumbers
  import opened Utf8Texts

  const SCRATCH_BYTES: nat := 65536

  /** What digest does: a hex string, or the RangeError `tail.set` throws when it is
      given more bytes than `tail` holds. */
  datatype Outcome = Hex(value: string) | RangeError

  // --- What the code feeds to compress ---

  /** A typed-array read; outside the array it is undefined, which bit operators read as 0. */
  function At(bytes: seq<Byte>, i: int): Byte { if 0 <= i < |bytes| then bytes[i] else 0 }

  function Window(bytes: seq<Byte>, offset: int): (r: seq<Byte>)
    ensures |r| == 64 && forall k :: 0 <= k < 64 ==> r[k] == At(bytes, offset + k)
  {
    seq<Byte>(64, k => At(bytes, offset + k))
  }

  function Clamp(x: int, high: nat): nat { if x < 0 then 0 else if x > high then high else x }

  /** `bytes.subarray(begin, end)`: a negative `begin` counts from the end. */
  function Subarray(bytes: seq<Byte>, begin: int, end: nat): seq<Byte>
  {
    var from := Clamp(if begin < 0 then |bytes| + begin else begin, |bytes|);
    var to := Clamp(end, |bytes|);
    if from <= to then bytes[from..to] else []
  }

  function Whole(length: nat): Word { ShiftRight(length, 6) }

  function Leftover(bytes: seq<Byte>, length: nat): seq<Byte>
  {
    Subarray(bytes, ShiftLeft(Whole(length), 6), length)
  }

  function Byte4(value: int, i: nat): Byte
    requires i < 4
  {
    LowByte(ShiftRight(value, 24 - 8 * i));
    BitAnd(ShiftRight(value, 24 - 8 * i), 0xff)
  }

  function TailEnd(length: nat): nat { if length % 64 < 56 then 64 else 128 }

  function TailByte(leftover: seq<Byte>, length: nat, i: nat): Byte
  {
    var end := TailEnd(length);
    if end - 8 <= i < end - 4 then Byte4(length / 0x2000_0000, i - (end - 8))
    else if end - 4 <= i < end then Byte4(ShiftLeft(length, 3), i - (end - 4))
    else if i == length % 64 then 0x80
    else if i < |leftover| then leftover[i]
    else 0
  }

  function Tail(leftover: seq<Byte>, length: nat): seq<Byte>
  {
    seq<Byte>(128, i requires 0 <= i => TailByte(leftover, length, i))
  }

  predicate Overflows(bytes: seq<Byte>, length: nat) { |Leftover(bytes, length)| > 128 }

  /** The first `n` blocks the code reads straight from the input. */
  function InputBlocks(bytes: seq<Byte>, n: nat): (r: seq<seq<Byte>>)
    ensures Blocks(r) && |r| == n
  {
    seq(n, b requires 0 <= b => Window(bytes, ShiftLeft(b, 6)))
  }

  /** Every block that reaches compress, in order. */
  function FedBlocks(bytes: seq<Byte>, length: nat): (r: seq<seq<Byte>>)
    ensures Blocks(r)
  {
    var tail := Tail(Leftover(bytes, length), length);
    InputBlocks(bytes, Whole(length)) + [Window(tail, 0)]
      + (if TailEnd(length) == 128 then [Window(tail, 64)] else [])
  }

  function Words(s: seq<Int32>): (r: seq<Word>)
    ensures |r| == |s|
  {
    seq(|s|, i requires 0 <= i < |s| => ToUint32(s[i]))
  }

  lemma {:induction false} Masked(q: nat, b: nat, n: nat)
    requires b < Up(1, n)
    ensures Bitwise(And, Up(q, n) + b, Up(1, n) - 1) == b
    decreases n
  {
    if n > 0 {
      Masked(q, b / 2, n - 1);
      assert (Up(q, n) + b) / 2 == Up(q, n - 1) + b / 2 && (Up(1, n) - 1) / 2 == Up(1, n - 1) - 1;
    } else {
      AndZero(q);
    }
  }

  lemma AndZero(x: nat)
    ensures Bitwise(And, x, 0) == 0
  {
  }

  lemma MaskedByte(q: nat, b: Byte)
    ensures Bitwise(And, q * 0x100 + b, 0xff) == b
  {
    hide Bitwise, Up;
    UpBytes(1);
    UpBytes(q);
    Masked(q, b, 8);
  }

  lemma AndByte(w: Word)
    ensures AndW(w, 0xff) == w % 0x100
  {
    MaskedByte(w / 0x100, w % 0x100);
  }

  lemma SmallWord(b: Byte)
    ensures ToInt32(b) == b
  {
  }

  /** `w & 0xff` is the lowest byte. */
  lemma LowByte(w: Word)
    ensures BitAnd(w, 0xff) == w % 0x100
  {
    AndByte(w);
    WordAsIs(w);
    WordAsIs(0xff);
    SmallWord(w % 0x100);
  }

  /** The realm's working arrays. */
  class Hasher {
    const words: array<Int32>
    const state: array<Int32>
    const tail: array<Byte>
    const scratch: array<Byte>

    ghost predicate Valid()
    {
      words.Length == 64 && state.Length == 8 && tail.Length == 128 && scratch.Length == SCRATCH_BYTES
      && words != state && tail != scratch
    }

    constructor ()
      ensures Valid() && fresh(words) && fresh(state) && fresh(tail) && fresh(scratch)
    {
      words := new Int32[64];
      state := new Int32[8];
      tail := new Byte[128];
      scratch := new Byte[SCRATCH_BYTES];
    }

    method LoadSchedule(bytes: array<Byte>, offset: int)
      requires Valid()
      modifies words
      ensures forall t :: 0 <= t < 64 ==> words[t] == ToInt32(Schedule(Window(bytes[..], offset), t))
    {
      hide ToInt32, ToUint32, LoadBigEndian, TwoRotationsAndShift, Add, SmallSigma0, SmallSigma1;
      ghost var block := Window(bytes[..], offset);
      for i := 0 to 16
        invariant bytes[..] == old(bytes[..])
        invariant forall t :: 0 <= t < i ==> words[t] == ToInt32(Schedule(block, t))
      {
        var at := offset + 4 * i;
        var b0, b1 := Read(bytes, at), Read(bytes, at + 1);
        var b2, b3 := Read(bytes, at + 2), Read(bytes, at + 3);
        assert block[4 * i] == b0 && block[4 * i + 1] == b1 && block[4 * i + 2] == b2 && block[4 * i + 3] == b3;
        LoadIsWord(b0, b1, b2, b3);
        words[i] := LoadBigEndian(b0, b1, b2, b3);
      }
      for i := 16 to 64
        invariant forall t :: 0 <= t < i ==> words[t] == ToInt32(Schedule(block, t))
      {
        var x, y := words[i - 15], words[i - 2];
        var s0 := TwoRotationsAndShift(x, 7, 18, 3);
        var s1 := TwoRotationsAndShift(y, 17, 19, 10);
        ScheduleStep(block, i);
        words[i] := ToInt32(words[i - 16] as int + s0 + words[i - 7] + s1);
      }
    }

    function Read(bytes: array<Byte>, at: int): Byte
      reads bytes
    {
      if 0 <= at < bytes.Length then bytes[at] else 0
    }

    method RunRounds(ghost block: seq<Byte>) returns (a: int, b: int, c: int, d: int, e: int, f: int, g: int, h: int)
      requires Valid() && |block| == 64
      requires forall t :: 0 <= t < 64 ==> words[t] == ToInt32(Schedule(block, t))
      ensures Signed(Rounds(block, 64, FromHash(Words(state[..]))), a, b, c, d, e, f, g, h)
    {
      hide ToInt32, ToUint32, ThreeRotations, Choose, Majority, Add, Round, Schedule;
      ghost var start := FromHash(Words(state[..]));
      a, b, c, d := state[0], state[1], state[2], state[3];
      e, f, g, h := state[4], state[5], state[6], state[7];
      SignedStart(state[..]);
      for i := 0 to 64
        invariant Signed(Rounds(block, i, start), a, b, c, d, e, f, g, h)
      {
        var s1 := ThreeRotations(e, 6, 11, 25);
        var t1: int := ToInt32(h + s1 + Choose(e, f, g) + ToInt32(K[i]) + words[i]);
        var s0 := ThreeRotations(a, 2, 13, 22);
        var t2: int := ToInt32(s0 as int + Majority(a, b, c));
        RoundStep(Rounds(block, i, start), K[i], Schedule(block, i));
        h := g;
        g := f;
        f := e;
        e := ToInt32(d + t1);
        d := c;
        c := b;
        b := a;
        a := ToInt32(t1 + t2);
      }
    }

    method Compress(bytes: array<Byte>, offset: int)
      requires Valid()
      modifies words, state
      ensures Words(state[..]) == Fips180.Compress(Words(old(state[..])), Window(bytes[..], offset))
    {
      hide ToInt32, ToUint32, Add, Rounds, Window, Schedule;
      ghost var block := Window(bytes[..], offset);
      LoadSchedule(bytes, offset);
      var a, b, c, d, e, f, g, h := RunRounds(block);
      FinalSums(state[..], Rounds(block, 64, FromHash(Words(state[..]))));
      state[0] := ToInt32(state[0] as int + a);
      state[1] := ToInt32(state[1] as int + b);
      state[2] := ToInt32(state[2] as int + c);
      state[3] := ToInt32(state[3] as int + d);
      state[4] := ToInt32(state[4] as int + e);
      state[5] := ToInt32(state[5] as int + f);
      state[6] := ToInt32(state[6] as int + g);
      state[7] := ToInt32(state[7] as int + h);
    }

    /** One call of digest over the first `length` bytes: whatever the arrays held
        before, the outcome depends on those bytes alone. */
    method Digest(bytes: array<Byte>, length: nat) returns (r: Outcome)
      requires Valid() && length <= bytes.Length && bytes != tail
      modifies words, state, tail
      ensures r == DigestOf(old(bytes[..]), length)
      ensures length < 0x8000_0000 ==> r == Hex(Sha256(old(bytes[..length])))
    {
      hide ToInt32, ToUint32, ShiftLeft, ShiftRight, Fips180.Compress, Fold, Window, Leftover, Overflows, Tail, InputBlocks, HexWords, FedBlocks, Split, Pad;
      if length < 0x8000_0000 {
        FedIsPadded(bytes[..], length);
        assert bytes[..][..length] == bytes[..length];
      }
      for i := 0 to 8
        invariant forall k :: 0 <= k < i ==> state[k] == ToInt32(H0[k])
      {
        state[i] := ToInt32(H0[i]);
      }
      InitialState(state[..]);
      FoldNone(bytes[..]);
      var whole := Whole(length);
      for block := 0 to whole
        invariant bytes[..] == old(bytes[..])
        invariant Words(state[..]) == Fold(H0, InputBlocks(bytes[..], block))
      {
        Compress(bytes, ShiftLeft(block, 6));
        NextInputBlock(bytes[..], block);
        FoldOne(H0, InputBlocks(bytes[..], block), Window(bytes[..], ShiftLeft(block, 6)));
      }
      var fits := FillTail(bytes, length);
      if !fits {
        return RangeError;
      }
      ghost var input := InputBlocks(old(bytes[..]), whole);
      ghost var padded := Tail(Leftover(old(bytes[..]), length), length);
      Compress(tail, 0);
      FoldOne(H0, input, Window(padded, 0));
      if TailEnd(length) == 128 {
        Compress(tail, 64);
        FoldOne(H0, input + [Window(padded, 0)], Window(padded, 64));
      }
      FedInOrder(old(bytes[..]), length);
      var hex := ToHex();
      r := Hex(hex);
    }

    /** Lay out the last one or two blocks; false when `tail.set` throws. */
    method FillTail(bytes: array<Byte>, length: nat) returns (fits: bool)
      requires Valid() && bytes != tail
      modifies tail
      ensures fits == !Overflows(bytes[..], length)
      ensures fits ==> tail[..] == Tail(Leftover(bytes[..], length), length)
    {
      hide ShiftLeft, Byte4, Leftover;
      var leftover := Leftover(bytes[..], length);
      forall i | 0 <= i < 128 {
        tail[i] := 0;
      }
      assert bytes[..] == old(bytes[..]);
      if |leftover| > 128 {
        return false;
      }
      forall i | 0 <= i < |leftover| {
        tail[i] := leftover[i];
      }
      tail[length % 64] := 0x80;
      var end := TailEnd(length);
      var high, low := length / 0x2000_0000, ShiftLeft(length, 3);
      for i := 0 to 4
        invariant forall k :: 0 <= k < i ==> tail[end - 8 + k] == Byte4(high, k) && tail[end - 4 + k] == Byte4(low, k)
        invariant forall k :: 0 <= k < 128 && !(end - 8 <= k < end - 8 + i) && !(end - 4 <= k < end - 4 + i) ==>
          tail[k] == if k == length % 64 then 0x80 else if k < |leftover| then leftover[k] else 0
      {
        tail[end - 8 + i] := Byte4(high, i);
        tail[end - 4 + i] := Byte4(low, i);
      }
      assert bytes[..] == old(bytes[..]);
      return true;
    }

    method ToHex() returns (hex: string)
      requires Valid()
      ensures hex == HexWords(Words(state[..]))
    {
      hide ToUint32, ShiftRight, HexWord, BitAnd;
      hex := "";
      ghost var w := Words(state[..]);
      for i := 0 to 8
        invariant hex == HexWords(w[..i])
      {
        var word := state[i];
        HexOfWord(word);
        assert w[..i + 1][..i] == w[..i];
        hex := hex + (HexByte(Byte4(word, 0)) + HexByte(Byte4(word, 1)) + HexByte(Byte4(word, 2)) + HexByte(Byte4(word, 3)));
      }
      assert w[..8] == w;
    }

    /** Bytes are hashed as they are. */
    method HashBytes(value: array<Byte>) returns (r: Outcome)
      requires Valid() && value != tail
      modifies words, state, tail
      ensures value.Length < 0x8000_0000 ==> r == Hex(Sha256(old(value[..])))
      ensures r == DigestOf(old(value[..]), value.Length)
    {
      assert value[..value.Length] == value[..];
      r := Digest(value, value.Length);
    }

    /** A string is hashed as UTF-8, through the kept buffer when it is short. */
    method HashString(value: seq<CodeUnit>) returns (r: Outcome)
      requires Valid()
      modifies words, state, tail, scratch
      ensures |Utf8(value)| < 0x8000_0000 ==> r == Hex(Sha256(Utf8(value)))
      ensures r == DigestOf(Utf8(value), |Utf8(value)|)
    {
      hide DigestOf, Sha256;
      var encoded := Utf8(value);
      DigestBelow(encoded);
      if |value| * 3 <= SCRATCH_BYTES {
        // encodeInto: everything fits, because a code unit is at most three bytes.
        forall i | 0 <= i < |encoded| {
          scratch[i] := encoded[i];
        }
        assert scratch[..|encoded|] == encoded;
        r := Digest(scratch, |encoded|);
      } else {
        var bytes := new Byte[|encoded|](i requires 0 <= i < |encoded| => encoded[i]);
        assert bytes[..] == encoded;
        r := HashBytes(bytes);
      }
    }
  }

  ghost predicate Signed(v: Vars, a: int, b: int, c: int, d: int, e: int, f: int, g: int, h: int)
  {
    a == ToInt32(v.a) && b == ToInt32(v.b) && c == ToInt32(v.c) && d == ToInt32(v.d)
    && e == ToInt32(v.e) && f == ToInt32(v.f) && g == ToInt32(v.g) && h == ToInt32(v.h)
  }

  lemma SignedStart(s: seq<Int32>)
    requires |s| == 8
    ensures Signed(FromHash(Words(s)), s[0], s[1], s[2], s[3], s[4], s[5], s[6], s[7])
  {
    hide ToInt32, ToUint32;
    forall i | 0 <= i < 8 ensures s[i] == ToInt32(ToUint32(s[i])) {
      SignOf(s[i], ToUint32(s[i]));
    }
  }

  lemma ScheduleStep(block: seq<Byte>, t: nat)
    requires |block| == 64 && 16 <= t < 64
    ensures ToInt32(ToInt32(Schedule(block, t - 16)) + TwoRotationsAndShift(ToInt32(Schedule(block, t - 15)), 7, 18, 3)
                    + ToInt32(Schedule(block, t - 7)) + TwoRotationsAndShift(ToInt32(Schedule(block, t - 2)), 17, 19, 10))
         == ToInt32(Schedule(block, t))
  {
    hide ToInt32, ToUint32, Add, XorW, Rotr, Shr, TwoRotationsAndShift;
    var w16, w15, w7, w2 := Schedule(block, t - 16), Schedule(block, t - 15), Schedule(block, t - 7), Schedule(block, t - 2);
    TwoRotationsAndShiftOfWord(w15, 7, 18, 3);
    TwoRotationsAndShiftOfWord(w2, 17, 19, 10);
    Sum4(SmallSigma1(w2), w7, SmallSigma0(w15), w16);
  }

  lemma RoundStep(v: Vars, k: Word, w: Word)
    ensures var t1 := ToInt32(ToInt32(v.h) + ThreeRotations(ToInt32(v.e), 6, 11, 25)
                              + Choose(ToInt32(v.e), ToInt32(v.f), ToInt32(v.g)) + ToInt32(k) + ToInt32(w));
            var t2 := ToInt32(ThreeRotations(ToInt32(v.a), 2, 13, 22) + Majority(ToInt32(v.a), ToInt32(v.b), ToInt32(v.c)));
            Signed(Round(v, k, w), ToInt32(t1 + t2), ToInt32(v.a), ToInt32(v.b), ToInt32(v.c),
                   ToInt32(ToInt32(v.d) + t1), ToInt32(v.e), ToInt32(v.f), ToInt32(v.g))
  {
    hide ToInt32, ToUint32, Add, XorW, Rotr, ThreeRotations, Choose, Majority, Ch, Maj;
    ThreeRotationsOfWord(v.e, 6, 11, 25);
    ThreeRotationsOfWord(v.a, 2, 13, 22);
    ChooseIsCh(v.e, v.f, v.g);
    MajorityIsMaj(v.a, v.b, v.c);
    Sum5(v.h, BigSigma1(v.e), Ch(v.e, v.f, v.g), k, w);
    Sum2(BigSigma0(v.a), Maj(v.a, v.b, v.c));
    var t1 := Add(Add(Add(Add(v.h, BigSigma1(v.e)), Ch(v.e, v.f, v.g)), k), w);
    var t2 := Add(BigSigma0(v.a), Maj(v.a, v.b, v.c));
    Sum2(t1, t2);
    Sum2(v.d, t1);
  }

  lemma FinalSums(s: seq<Int32>, v: Vars)
    requires |s| == 8
    ensures var h := Words(s);
            ToUint32(ToInt32(s[0] + ToInt32(v.a))) == Add(h[0], v.a)
            && ToUint32(ToInt32(s[1] + ToInt32(v.b))) == Add(h[1], v.b)
            && ToUint32(ToInt32(s[2] + ToInt32(v.c))) == Add(h[2], v.c)
            && ToUint32(ToInt32(s[3] + ToInt32(v.d))) == Add(h[3], v.d)
            && ToUint32(ToInt32(s[4] + ToInt32(v.e))) == Add(h[4], v.e)
            && ToUint32(ToInt32(s[5] + ToInt32(v.f))) == Add(h[5], v.f)
            && ToUint32(ToInt32(s[6] + ToInt32(v.g))) == Add(h[6], v.g)
            && ToUint32(ToInt32(s[7] + ToInt32(v.h))) == Add(h[7], v.h)
  {
    hide ToInt32, ToUint32, Add;
    FinalSum(s[0], v.a); FinalSum(s[1], v.b); FinalSum(s[2], v.c); FinalSum(s[3], v.d);
    FinalSum(s[4], v.e); FinalSum(s[5], v.f); FinalSum(s[6], v.g); FinalSum(s[7], v.h);
  }

  lemma FinalSum(x: Int32, w: Word)
    ensures ToUint32(ToInt32(x + ToInt32(w))) == Add(ToUint32(x), w)
  {
    SignOf(x, ToUint32(x));
    Sum2(ToUint32(x), w);
    WordOfInt32(Add(ToUint32(x), w));
  }

  function DigestOf(bytes: seq<Byte>, length: nat): Outcome
  {
    if Overflows(bytes, length) then RangeError else Hex(HexWords(Fold(H0, FedBlocks(bytes, length))))
  }

  lemma DigestBelow(m: seq<Byte>)
    ensures |m| < 0x8000_0000 ==> DigestOf(m, |m|) == Hex(Sha256(m))
  {
    hide Fips180.Compress, Fold, Overflows, HexWords, FedBlocks, Split, Pad;
    if |m| < 0x8000_0000 {
      FedIsPadded(m, |m|);
      assert m[..|m|] == m;
    }
  }

  lemma FoldNone(bytes: seq<Byte>)
    ensures Fold(H0, InputBlocks(bytes, 0)) == H0
  {
  }

  lemma NextInputBlock(bytes: seq<Byte>, n: nat)
    ensures InputBlocks(bytes, n + 1) == InputBlocks(bytes, n) + [Window(bytes, ShiftLeft(n, 6))]
  {
    hide Window, ShiftLeft;
  }

  lemma FedInOrder(bytes: seq<Byte>, length: nat)
    ensures var tail := Tail(Leftover(bytes, length), length);
            var all := InputBlocks(bytes, Whole(length)) + [Window(tail, 0)];
            FedBlocks(bytes, length) == if TailEnd(length) == 128 then all + [Window(tail, 64)] else all
  {
    hide Window, InputBlocks, Tail, Leftover, Whole;
  }

  lemma InitialState(s: seq<Int32>)
    requires |s| == 8 && forall k :: 0 <= k < 8 ==> s[k] == ToInt32(H0[k])
    ensures Words(s) == H0
  {
    hide ToInt32, ToUint32;
    forall k | 0 <= k < 8 ensures Words(s)[k] == H0[k] {
      WordOfInt32(H0[k]);
    }
  }

  /** The four bytes of a number are the four bytes of its word. */
  lemma FourBytes(x: int)
    ensures var w := ToUint32(x);
            Byte4(x, 0) == w / 0x100_0000 && Byte4(x, 1) == w / 0x1_0000 % 256
            && Byte4(x, 2) == w / 0x100 % 256 && Byte4(x, 3) == w % 256
  {
    hide ToUint32, BitAnd, Shr;
    var w := ToUint32(x);
    ShrBytes(w);
    LowByte(ShiftRight(x, 24));
    LowByte(ShiftRight(x, 16));
    LowByte(ShiftRight(x, 8));
    LowByte(ShiftRight(x, 0));
  }

  lemma HexOfWord(x: int)
    ensures HexByte(Byte4(x, 0)) + HexByte(Byte4(x, 1)) + HexByte(Byte4(x, 2)) + HexByte(Byte4(x, 3))
         == HexWord(ToUint32(x))
  {
    hide Byte4, ToUint32, HexByte;
    FourBytes(x);
  }

  // --- What the fed blocks are ---

  lemma WholeBlocks(length: nat)
    ensures Whole(length) == length % 0x1_0000_0000 / 64
  {
    var w := ToUint32(length);
    ShrNibble(w, 0);
    assert Shr(w, 5) == w / 32;
  }

  lemma SignedValue(w: Word)
    ensures ToInt32(w) == if w < 0x8000_0000 then w else w - 0x1_0000_0000
  {
  }

  lemma BlockOffset(block: nat)
    requires block * 64 < 0x1_0000_0000
    ensures ShiftLeft(block, 6) == if block * 64 < 0x8000_0000 then block * 64 else block * 64 - 0x1_0000_0000
  {
    hide ToInt32, ToUint32, Shl;
    UpFour(block, 2);
    assert Up(block, 2) == block * 4;
    ShlNoWrap(block, 6);
    WordAsIs(block);
    SignedValue(block * 64);
  }

  lemma BigEndianFour(w: Word)
    ensures BigEndian(w, 4) == [w / 0x100_0000, w / 0x1_0000 % 256, w / 0x100 % 256, w % 256]
  {
    assert BigEndian(w, 1) == [w % 256];
    assert BigEndian(w / 0x100_0000, 1) == [w / 0x100_0000];
    assert BigEndian(w / 0x1_0000, 2) == [w / 0x100_0000, w / 0x1_0000 % 256];
    assert BigEndian(w / 0x100, 3) == [w / 0x100_0000, w / 0x1_0000 % 256, w / 0x100 % 256];
  }

  lemma {:induction false} BigEndianJoin(high: nat, low: nat, n: nat, k: nat)
    requires low < Up(1, 8 * k)
    ensures BigEndian(Up(high, 8 * k) + low, n + k) == BigEndian(high, n) + BigEndian(low, k)
    decreases k
  {
    if k > 0 {
      UpByte(high, 8 * (k - 1));
      UpByte(1, 8 * (k - 1));
      BigEndianJoin(high, low / 0x100, n, k - 1);
      assert (Up(high, 8 * k) + low) / 0x100 == Up(high, 8 * (k - 1)) + low / 0x100;
    }
  }

  lemma UpByte(x: nat, n: nat)
    ensures Up(x, n + 8) == 0x100 * Up(x, n)
  {
    UpFour(x, n);
    UpFour(x, n + 4);
  }

  /** The two halves the code writes are the 64-bit length of the message in bits. */
  lemma LengthField(length: nat, j: nat)
    requires length < 0x8000_0000 && j < 8
    ensures BigEndian(8 * length, 8)[j]
         == if j < 4 then Byte4(length / 0x2000_0000, j) else Byte4(ShiftLeft(length, 3), j - 4)
  {
    hide BigEndian, Byte4, ShiftLeft, ToUint32;
    var high: Word := length / 0x2000_0000;
    var low: Word := 8 * length - high * 0x1_0000_0000;
    Halves(high, low);
    WordAsIs(high);
    FieldBytes(high, high);
    LowHalf(length);
    FieldBytes(ShiftLeft(length, 3), low);
  }

  lemma Halves(high: Word, low: Word)
    ensures BigEndian(high * 0x1_0000_0000 + low, 8) == BigEndian(high, 4) + BigEndian(low, 4)
  {
    UpBytes(1);
    UpBytes(high);
    BigEndianJoin(high, low, 4, 4);
  }

  lemma FieldBytes(x: int, w: Word)
    requires ToUint32(x) == w
    ensures BigEndian(w, 4) == [Byte4(x, 0), Byte4(x, 1), Byte4(x, 2), Byte4(x, 3)]
  {
    hide BigEndian, Byte4, ToUint32;
    BigEndianFour(w);
    FourBytes(x);
  }

  lemma ThreeDoublings(length: nat)
    requires length < 0x8000_0000
    ensures Shl(length, 3) == 8 * length % 0x1_0000_0000
  {
    assert Shl(length, 1) == 2 * length;
    assert Shl(length, 2) == 4 * length % 0x1_0000_0000;
  }

  lemma ShiftedWord(length: nat)
    requires length < 0x8000_0000 && ToUint32(length) == length
    ensures ShiftLeft(length, 3) == ToInt32(Shl(length, 3))
  {
  }

  lemma LowHalf(length: nat)
    requires length < 0x8000_0000
    ensures ToUint32(ShiftLeft(length, 3)) == 8 * length % 0x1_0000_0000
  {
    hide ToInt32, ToUint32;
    WordAsIs(length);
    ThreeDoublings(length);
    ShiftedWord(length);
    WordOfInt32(Shl(length, 3));
  }

  lemma LeftoverBytes(m: seq<Byte>, length: nat)
    requires length < 0x8000_0000 && length <= |m|
    ensures Leftover(m, length) == m[length - length % 64..length]
  {
    hide ShiftLeft, ShiftRight;
    WholeBlocks(length);
    BlockOffset(length / 64);
  }

  lemma PaddedLength(m: seq<Byte>)
    ensures |Pad(m)| == 64 * (|m| / 64) + TailEnd(|m|)
  {
    hide ZeroBytes, BigEndian;
    var zeros, rest := ZeroBytes(|m|), |m| % 64;
    assert |Pad(m)| == |m| + 1 + zeros + 8;
    assert (rest + 9 + zeros) % 64 == 0;
  }

  predicate IsByteAt(b: Byte, bytes: seq<Byte>, i: nat)
  {
    i < |bytes| && bytes[i] == b
  }

  /** Byte i of the tail is byte i of the padded message after the whole blocks. */
  lemma TailIsPadded(m: seq<Byte>, length: nat, i: nat, base: nat, padded: seq<Byte>)
    requires length < 0x8000_0000 && length <= |m| && i < TailEnd(length) && base == 64 * (length / 64) && padded == Pad(m[..length])
    ensures IsByteAt(TailByte(Leftover(m, length), length, i), padded, base + i)
  {
    hide Leftover, Byte4, ShiftLeft, ShiftRight, BigEndian;
    LeftoverBytes(m, length);
    PaddedLength(m[..length]);
    var end := TailEnd(length);
    if i >= end - 8 {
      LengthField(length, i - (end - 8));
    }
  }

  lemma InputIsPadded(m: seq<Byte>, length: nat, b: nat)
    requires length < 0x8000_0000 && length <= |m| && b < length / 64
    ensures b < |Split(Pad(m[..length]))| && Window(m, ShiftLeft(b, 6)) == Split(Pad(m[..length]))[b]
  {
    hide ShiftLeft, Pad;
    BlockOffset(b);
    PadPrefix(m[..length]);
  }

  lemma TailWindow(m: seq<Byte>, length: nat, k: nat)
    requires length < 0x8000_0000 && length <= |m| && 64 * k + 64 <= TailEnd(length)
    ensures |Split(Pad(m[..length]))| == length / 64 + TailEnd(length) / 64
    ensures Window(Tail(Leftover(m, length), length), 64 * k) == Split(Pad(m[..length]))[length / 64 + k]
  {
    hide Leftover, TailByte, Pad;
    PaddedLength(m[..length]);
    var tail := Tail(Leftover(m, length), length);
    forall i: nat | i < TailEnd(length) ensures tail[i] == Pad(m[..length])[64 * (length / 64) + i]
    {
      TailIsPadded(m, length, i, 64 * (length / 64), Pad(m[..length]));
    }
  }

  lemma Assembled(input: seq<seq<Byte>>, x: seq<Byte>, y: seq<Byte>, two: bool, padded: seq<seq<Byte>>)
    requires |padded| == |input| + (if two then 2 else 1)
    requires forall b :: 0 <= b < |input| ==> padded[b] == input[b]
    requires padded[|input|] == x && (two ==> padded[|input| + 1] == y)
    ensures padded == if two then input + [x] + [y] else input + [x]
  {
  }

  lemma InputArePadded(m: seq<Byte>, length: nat)
    requires length < 0x8000_0000 && length <= |m|
    ensures Whole(length) <= |Split(Pad(m[..length]))|
    ensures forall b: nat :: b < Whole(length) ==> InputBlocks(m, Whole(length))[b] == Split(Pad(m[..length]))[b]
  {
    hide ShiftLeft, Window, Pad, Split, Whole;
    WholeBlocks(length);
    TailWindow(m, length, 0);
    forall b: nat | b < Whole(length) ensures InputBlocks(m, Whole(length))[b] == Split(Pad(m[..length]))[b] {
      InputIsPadded(m, length, b);
    }
  }

  lemma NoOverflow(m: seq<Byte>, length: nat)
    requires length < 0x8000_0000 && length <= |m|
    ensures !Overflows(m, length)
  {
    hide Leftover;
    LeftoverBytes(m, length);
  }

  lemma FedCount(m: seq<Byte>, length: nat)
    requires length < 0x8000_0000 && length <= |m|
    ensures |Split(Pad(m[..length]))| == Whole(length) + (if TailEnd(length) == 128 then 2 else 1)
    ensures Window(Tail(Leftover(m, length), length), 0) == Split(Pad(m[..length]))[Whole(length)]
    ensures TailEnd(length) == 128 ==>
      Window(Tail(Leftover(m, length), length), 64) == Split(Pad(m[..length]))[Whole(length) + 1]
  {
    hide Window, Tail, Leftover, Pad, Whole, Split;
    WholeBlocks(length);
    TailWindow(m, length, 0);
    if TailEnd(length) == 128 { TailWindow(m, length, 1); }
  }

  /** Below 2^31 bytes, the whole blocks and the tail are exactly the padded message. */
  lemma FedIsPadded(m: seq<Byte>, length: nat)
    requires length < 0x8000_0000 && length <= |m|
    ensures !Overflows(m, length)
    ensures FedBlocks(m, length) == Split(Pad(m[..length]))
  {
    hide *;
    NoOverflow(m, length);
    FedInOrder(m, length);
    InputArePadded(m, length);
    FedCount(m, length);
    var tail := Tail(Leftover(m, length), length);
    Assembled(InputBlocks(m, Whole(length)), Window(tail, 0), Window(tail, 64), TailEnd(length) == 128,
              Split(Pad(m[..length])));
  }

  lemma PadPrefix(m: seq<Byte>)
    ensures |m| <= |Pad(m)| && Pad(m)[..|m|] == m
  {
  }

  predicate FeedsPadded(m: seq<Byte>)
  {
    !Overflows(m, |m|) && FedBlocks(m, |m|) == Split(Pad(m))
  }

  /** The code feeds every message of `length` bytes padded as published exactly when
      length < 2^31: above that, `whole << 6` and `block << 6` turn negative. */
  lemma ExactBelow2To31(length: nat)
    ensures (forall m: seq<Byte> :: |m| == length ==> FeedsPadded(m)) <==> length < 0x8000_0000
  {
    if length < 0x8000_0000 {
      forall m: seq<Byte> | |m| == length ensures FeedsPadded(m) {
        FedIsPadded(m, length);
        assert m[..length] == m;
      }
    } else {
      var m := seq<Byte>(length, i => 0xff);
      TooLong(m);
      assert !FeedsPadded(m);
    }
  }

  /** A long message of 0xff bytes: either its tail overflows, or the block at 2^31
      is read as zeros. */
  lemma TooLong(m: seq<Byte>)
    requires |m| >= 0x8000_0000 && forall i :: 0 <= i < |m| ==> m[i] == 0xff
    ensures !FeedsPadded(m)
  {
    hide ShiftLeft, ShiftRight, TailByte, Pad;
    var whole := Whole(|m|);
    WholeBlocks(|m|);
    BlockOffset(whole);
    if !Overflows(m, |m|) {
      assert whole * 64 >= 0x8000_0000;
      var b := 0x200_0000;
      BlockOffset(b);
      assert whole > b;
      PadPrefix(m);
      assert FedBlocks(m, |m|)[b][0] == 0;
      assert |Pad(m)| > 0x8000_0040 && Pad(m)[0x8000_0000] == 0xff;
      assert Split(Pad(m))[b][0] == 0xff;
    }
  }
}
