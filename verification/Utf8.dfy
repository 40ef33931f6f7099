/** UTF-8 as TextEncoder writes it, against a decoder that reads it back from its leading bits. */
module Utf8Texts {
  import opened Options
  import opened Fips180

  type CodeUnit = x: int | 0 <= x < 0x1_0000

  predicate High(u: CodeUnit) { 0xd800 <= u < 0xdc00 }
  predicate Low(u: CodeUnit) { 0xdc00 <= u < 0xe000 }

  function EncodeScalar(c: nat): (r: seq<Byte>)
    requires c < 0x11_0000
    ensures 1 <= |r| <= 4 && (c < 0x1_0000 ==> |r| <= 3)
  {
    if c < 0x80 then [c]
    else if c < 0x800 then [0xc0 + c / 0x40, 0x80 + c % 0x40]
    else if c < 0x1_0000 then [0xe0 + c / 0x1000, 0x80 + c / 0x40 % 0x40, 0x80 + c % 0x40]
    else [0xf0 + c / 0x4_0000, 0x80 + c / 0x1000 % 0x40, 0x80 + c / 0x40 % 0x40, 0x80 + c % 0x40]
  }

  /** A surrogate pair is one scalar; a lone surrogate becomes U+FFFD. */
  function Utf8(value: seq<CodeUnit>): (r: seq<Byte>)
    ensures |r| <= 3 * |value|
  {
    if value == [] then []
    else if |value| > 1 && High(value[0]) && Low(value[1]) then
      EncodeScalar(0x1_0000 + (value[0] as int - 0xd800) * 0x400 + (value[1] as int - 0xdc00)) + Utf8(value[2..])
    else if High(value[0]) || Low(value[0]) then EncodeScalar(0xfffd) + Utf8(value[1..])
    else EncodeScalar(value[0]) + Utf8(value[1..])
  }

  // --- What it means ---

  /** A Unicode scalar value: section 3.9 of the Unicode Standard. */
  predicate Scalar(c: nat)
  {
    c < 0xd800 || 0xe000 <= c < 0x11_0000
  }

  /** How many bytes a leading byte announces, by its leading bits; 0 if it cannot lead. */
  function Announced(lead: Byte): nat
  {
    if lead < 0x80 then 1
    else if lead < 0xc0 then 0
    else if lead < 0xe0 then 2
    else if lead < 0xf0 then 3
    else if lead < 0xf8 then 4
    else 0
  }

  /** The bits of a leading byte behind those. */
  function LeadBits(lead: Byte): nat
  {
    if lead < 0x80 then lead else if lead < 0xe0 then lead % 0x20 else if lead < 0xf0 then lead % 0x10 else lead % 8
  }

  /** Six bits more from each continuation byte. */
  function Continued(high: nat, bytes: seq<Byte>): Option<nat>
    decreases |bytes|
  {
    if bytes == [] then Some(high)
    else if bytes[0] < 0x80 || bytes[0] >= 0xc0 then None
    else Continued(high * 0x40 + bytes[0] % 0x40, bytes[1..])
  }

  /** The least scalar that needs so many bytes. */
  function Least(length: nat): nat
  {
    if length <= 1 then 0 else if length == 2 then 0x80 else if length == 3 then 0x800 else 0x1_0000
  }

  /** The bytes of one scalar, in its shortest form. */
  function DecodeScalar(bytes: seq<Byte>): Option<nat>
  {
    if bytes == [] || Announced(bytes[0]) != |bytes| then None
    else match Continued(LeadBits(bytes[0]), bytes[1..])
      case None => None
      case Some(c) => if Scalar(c) && Least(|bytes|) <= c then Some(c) else None
  }

  function Decode(bytes: seq<Byte>): Option<seq<nat>>
    decreases |bytes|
  {
    if bytes == [] then Some([])
    else
      var n := Announced(bytes[0]);
      if n == 0 || n > |bytes| then None
      else match DecodeScalar(bytes[..n])
        case None => None
        case Some(c) => match Decode(bytes[n..])
          case None => None
          case Some(rest) => Some([c] + rest)
  }

  /** The code units of scalars, in UTF-16. */
  function Utf16(scalars: seq<nat>): seq<CodeUnit>
    requires forall i :: 0 <= i < |scalars| ==> scalars[i] < 0x11_0000
  {
    if scalars == [] then []
    else UnitsOf(scalars[0]) + Utf16(scalars[1..])
  }

  function UnitsOf(c: nat): seq<CodeUnit>
    requires c < 0x11_0000
  {
    if c < 0x1_0000 then [c] else [0xd800 + (c - 0x1_0000) / 0x400, 0xdc00 + (c - 0x1_0000) % 0x400]
  }

  /** A surrogate whose other half is not beside it. */
  predicate Lone(value: seq<CodeUnit>, i: nat)
    requires i < |value|
  {
    (High(value[i]) && !(i + 1 < |value| && Low(value[i + 1]))) || (Low(value[i]) && !(i > 0 && High(value[i - 1])))
  }

  /** The string with every lone surrogate replaced. */
  function Repaired(value: seq<CodeUnit>): (r: seq<CodeUnit>)
  {
    seq(|value|, i requires 0 <= i < |value| => if Lone(value, i) then 0xfffd else value[i])
  }

  // --- That it does ---

  lemma ContinuedOnce(high: nat, a: nat, rest: seq<Byte>)
    requires a < 0x40
    ensures Continued(high, [0x80 + a] + rest) == Continued(high * 0x40 + a, rest)
  {
    assert ([0x80 + a as Byte] + rest)[1..] == rest;
  }

  lemma SixBits(q: nat, step: nat)
    requires step == 0x40 || step == 0x1000
    ensures q / step / 0x40 == q / (step * 0x40) && q / step == q / (step * 0x40) * 0x40 + q / step % 0x40
  {
    assert q / step == q / step / 0x40 * 0x40 + q / step % 0x40;
  }

  lemma TwoBytes(c: nat)
    requires 0x80 <= c < 0x800
    ensures DecodeScalar([0xc0 + c / 0x40, 0x80 + c % 0x40]) == Some(c)
  {
    var r: seq<Byte> := [0xc0 + c / 0x40, 0x80 + c % 0x40];
    ContinuedOnce(c / 0x40, c % 0x40, []);
    assert r[1..] == [0x80 + c % 0x40] + [] && LeadBits(r[0]) == c / 0x40;
  }

  lemma ThreeBytes(c: nat)
    requires 0x800 <= c < 0x1_0000 && Scalar(c)
    ensures DecodeScalar([0xe0 + c / 0x1000, 0x80 + c / 0x40 % 0x40, 0x80 + c % 0x40]) == Some(c)
  {
    hide Continued;
    var h, a, b := c / 0x1000, c / 0x40 % 0x40, c % 0x40;
    var r: seq<Byte> := [0xe0 + h, 0x80 + a, 0x80 + b];
    SixBits(c, 0x40);
    ContinuedOnce(h, a, [0x80 + b]);
    ContinuedOnce(h * 0x40 + a, b, []);
    ContinuedDone(c);
    assert r[1..] == [0x80 + a] + [0x80 + b] && [0x80 + b as Byte] == [0x80 + b] + [] && LeadBits(r[0]) == h;
  }

  lemma ContinuedDone(c: nat)
    ensures Continued(c, []) == Some(c)
  {
  }

  lemma FourBytes(c: nat)
    requires 0x1_0000 <= c < 0x11_0000
    ensures DecodeScalar([0xf0 + c / 0x4_0000, 0x80 + c / 0x1000 % 0x40, 0x80 + c / 0x40 % 0x40, 0x80 + c % 0x40]) == Some(c)
  {
    hide Continued;
    var h, a, b, d := c / 0x4_0000, c / 0x1000 % 0x40, c / 0x40 % 0x40, c % 0x40;
    var r: seq<Byte> := [0xf0 + h, 0x80 + a, 0x80 + b, 0x80 + d];
    SixBits(c, 0x40);
    SixBits(c, 0x1000);
    ContinuedOnce(h, a, [0x80 + b, 0x80 + d]);
    ContinuedOnce(h * 0x40 + a, b, [0x80 + d]);
    ContinuedOnce((h * 0x40 + a) * 0x40 + b, d, []);
    ContinuedDone(c);
    assert r[1..] == [0x80 + a] + [0x80 + b, 0x80 + d] && [0x80 + b as Byte, 0x80 + d] == [0x80 + b] + [0x80 + d];
    assert [0x80 + d as Byte] == [0x80 + d] + [] && LeadBits(r[0]) == h;
  }

  /** One scalar's bytes are read back, and are the only ones. */
  lemma EncodedOnce(c: nat)
    requires Scalar(c)
    ensures var r := EncodeScalar(c); Announced(r[0]) == |r| && DecodeScalar(r) == Some(c)
  {
    if c < 0x80 { ContinuedDone(c); }
    else {
      hide DecodeScalar;
      if c < 0x800 { TwoBytes(c); } else if c < 0x1_0000 { ThreeBytes(c); } else { FourBytes(c); }
    }
  }

  /** The scalars of a string, its lone surrogates replaced. */
  function Scalars(value: seq<CodeUnit>): (r: seq<nat>)
    ensures forall i :: 0 <= i < |r| ==> Scalar(r[i])
  {
    if value == [] then []
    else if |value| > 1 && High(value[0]) && Low(value[1]) then
      [0x1_0000 + (value[0] as int - 0xd800) * 0x400 + (value[1] as int - 0xdc00)] + Scalars(value[2..])
    else if High(value[0]) || Low(value[0]) then [0xfffd] + Scalars(value[1..])
    else [value[0] as nat] + Scalars(value[1..])
  }

  lemma DecodeMore(c: nat, rest: seq<Byte>)
    requires Scalar(c) && Decode(rest).Some?
    ensures Decode(EncodeScalar(c) + rest) == Some([c] + Decode(rest).value)
  {
    hide DecodeScalar, EncodeScalar;
    EncodedOnce(c);
    var r := EncodeScalar(c);
    assert (r + rest)[..|r|] == r && (r + rest)[|r|..] == rest;
  }

  lemma {:induction false} DecodesScalars(value: seq<CodeUnit>)
    ensures Decode(Utf8(value)) == Some(Scalars(value))
  {
    hide Decode, EncodeScalar, DecodeScalar;
    if value == [] {
      assert Decode([]) == Some([]) by { DecodesNothing(); }
    } else {
      var n := if |value| > 1 && High(value[0]) && Low(value[1]) then 2 else 1;
      DecodesScalars(value[n..]);
      DecodeMore(Scalars(value)[0], Utf8(value[n..]));
    }
  }

  lemma DecodesNothing()
    ensures Decode([]) == Some([])
  {
  }

  lemma {:induction false} SpellsRepaired(value: seq<CodeUnit>)
    ensures Utf16(Scalars(value)) == Repaired(value)
  {
    if value != [] {
      var n := if |value| > 1 && High(value[0]) && Low(value[1]) then 2 else 1;
      SpellsRepaired(value[n..]);
      RepairedFrom(value, n);
      assert Scalars(value)[1..] == Scalars(value[n..]);
      assert UnitsOf(Scalars(value)[0]) == Repaired(value)[..n];
    }
  }

  lemma RepairedFrom(value: seq<CodeUnit>, n: nat)
    requires n < |value| + 1 && 1 <= n && !(High(value[n - 1]) && n < |value| && Low(value[n]))
    ensures Repaired(value) == Repaired(value)[..n] + Repaired(value[n..])
  {
    forall i | 0 <= i < |value| - n ensures Lone(value[n..], i) == Lone(value, n + i) {}
  }

  /** A string's bytes are UTF-8, and say what the string says: they decode, in shortest
      forms, to scalars that spell it, with U+FFFD for every lone surrogate. */
  lemma Utf8Decodes(value: seq<CodeUnit>)
    ensures var scalars := Decode(Utf8(value));
            scalars.Some? && (forall i :: 0 <= i < |scalars.value| ==> Scalar(scalars.value[i]))
            && Utf16(scalars.value) == Repaired(value)
  {
    hide Decode, Utf8, Repaired;
    DecodesScalars(value);
    SpellsRepaired(value);
  }
}
