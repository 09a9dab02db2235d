/**
 * The padded base 32 encoding of section 6 of RFC 4648, as Go's base32.StdEncoding writes it.
 * The input bytes are read as one bit string, most significant bit first; it is cut into 5-bit
 * groups (the last one filled with zero bits), each group becomes one symbol of the alphabet,
 * and '=' pads the text to a multiple of 8 characters. `Decode` is the inverse, used to show
 * that the encoding loses nothing.
 */
module Base32 {

  import opened Wrappers

  type byte = x: int | 0 <= x < 256

  const Alphabet: string := "ABCDEFGHIJKLMNOPQRSTUVWXYZ234567"
  const Padding: char := '='

  /** The symbol for the 5-bit value v. */
  function Symbol(v: nat): (c: char)
    requires v < 32
    ensures c != Padding
  {
    if v < 26 then ('A' as int + v) as char else ('2' as int + v - 26) as char
  }

  /** The value a symbol stands for, if it is one. */
  function SymbolValue(c: char): (r: Option<nat>)
    ensures r.Some? ==> r.value < 32 && Symbol(r.value) == c
  {
    if 'A' <= c <= 'Z' then Some(c as int - 'A' as int)
    else if '2' <= c <= '7' then Some(c as int - '2' as int + 26)
    else None
  }

  /** The symbols are exactly the alphabet of the standard, in its order. */
  lemma SymbolsAreTheAlphabet(v: nat)
    requires v < 32
    ensures Symbol(v) == Alphabet[v]
    ensures SymbolValue(Symbol(v)) == Some(v)
  {
  }

  // ---------------------------------------------------------------------------------------
  // Bit strings

  function Pow2(w: nat): (r: nat)
    ensures r >= 1
  {
    if w == 0 then 1 else 2 * Pow2(w - 1)
  }

  /** The `w` low bits of `v`, most significant first. */
  function Bits(v: nat, w: nat): (r: seq<bool>)
    ensures |r| == w
    decreases w
  {
    if w == 0 then [] else Bits(v / 2, w - 1) + [v % 2 == 1]
  }

  /** The number a bit string spells, most significant bit first. */
  function Value(bits: seq<bool>): (r: nat)
    ensures r < Pow2(|bits|)
    decreases |bits|
  {
    if bits == [] then 0 else 2 * Value(bits[..|bits| - 1]) + (if bits[|bits| - 1] then 1 else 0)
  }

  lemma {:induction false} ValueOfBits(v: nat, w: nat)
    requires v < Pow2(w)
    ensures Value(Bits(v, w)) == v
    decreases w
  {
    if w > 0 {
      var r := Bits(v, w);
      assert r[..w - 1] == Bits(v / 2, w - 1);
      ValueOfBits(v / 2, w - 1);
    }
  }

  lemma {:induction false} BitsOfValue(bits: seq<bool>)
    ensures Bits(Value(bits), |bits|) == bits
    decreases |bits|
  {
    if bits != [] {
      var init := bits[..|bits| - 1];
      BitsOfValue(init);
      assert Value(bits) / 2 == Value(init);
      assert bits == init + [bits[|bits| - 1]];
    }
  }

  /** w * (n + 1) == w * n + w: the group lemmas need it to split the first group off the bits. */
  lemma Distribute(w: nat, n: nat)
    ensures w * (n + 1) == w * n + w
  {
  }

  /** The values, each written in `w` bits, one after the other. */
  function Concat(vs: seq<nat>, w: nat): (r: seq<bool>)
    ensures |r| == w * |vs|
    decreases |vs|
  {
    if vs == [] then [] else Bits(vs[0], w) + Concat(vs[1..], w)
  }

  /** The `n` consecutive `w`-bit groups of `bits`, each read as a number. */
  function Groups(bits: seq<bool>, w: nat, n: nat): (r: seq<nat>)
    requires |bits| == w * n
    ensures |r| == n
    ensures forall i :: 0 <= i < n ==> r[i] < Pow2(w)
    decreases n
  {
    if n == 0 then [] else [Value(bits[..w])] + Groups(bits[w..], w, n - 1)
  }

  lemma {:induction false} GroupsOfConcat(vs: seq<nat>, w: nat)
    requires forall i :: 0 <= i < |vs| ==> vs[i] < Pow2(w)
    ensures Groups(Concat(vs, w), w, |vs|) == vs
    decreases |vs|
  {
    if vs != [] {
      Distribute(w, |vs| - 1);
      var c := Concat(vs, w);
      assert c[..w] == Bits(vs[0], w);
      assert c[w..] == Concat(vs[1..], w);
      ValueOfBits(vs[0], w);
      GroupsOfConcat(vs[1..], w);
      assert vs == [vs[0]] + vs[1..];
    }
  }

  lemma {:induction false} ConcatOfGroups(bits: seq<bool>, w: nat, n: nat)
    requires |bits| == w * n
    ensures Concat(Groups(bits, w, n), w) == bits
    decreases n
  {
    if n > 0 {
      Distribute(w, n - 1);
      var g := Groups(bits, w, n);
      assert g[1..] == Groups(bits[w..], w, n - 1);
      ConcatOfGroups(bits[w..], w, n - 1);
      BitsOfValue(bits[..w]);
      assert bits == bits[..w] + bits[w..];
    }
  }

  function Zeros(n: nat): (r: seq<bool>)
    ensures |r| == n && forall i :: 0 <= i < n ==> !r[i]
  {
    seq(n, i => false)
  }

  function Pads(n: nat): (r: string)
    ensures |r| == n && forall i :: 0 <= i < n ==> r[i] == Padding
  {
    seq(n, i => Padding)
  }

  // ---------------------------------------------------------------------------------------
  // Encoding and decoding

  /** The number of symbols, before padding, that encode `n` bytes: ⌈8n/5⌉. */
  function SymbolCount(n: nat): (k: nat)
    ensures 8 * n <= 5 * k < 8 * n + 5
  {
    (8 * n + 4) / 5
  }

  /** The 5-bit values of the symbols that encode `b`. */
  function SymbolValues(b: seq<byte>): (r: seq<nat>)
    ensures |r| == SymbolCount(|b|)
    ensures forall i :: 0 <= i < |r| ==> r[i] < 32
  {
    var k := SymbolCount(|b|);
    var bits := Concat(b, 8) + Zeros(5 * k - 8 * |b|);
    assert Pow2(5) == 32;
    Groups(bits, 5, k)
  }

  /** The number of '=' that bring `k` symbols up to a multiple of 8. */
  function PadCount(k: nat): (p: nat)
    ensures (k + p) % 8 == 0 && p < 8
  {
    (8 - k % 8) % 8
  }

  /** base32.StdEncoding.EncodeToString. */
  function Encode(b: seq<byte>): (r: string)
    ensures |r| % 8 == 0
    ensures SymbolCount(|b|) <= |r| < SymbolCount(|b|) + 8
    ensures forall i :: 0 <= i < SymbolCount(|b|) ==> r[i] in Alphabet
    ensures forall i :: SymbolCount(|b|) <= i < |r| ==> r[i] == Padding
  {
    var values := SymbolValues(b);
    Text(values) + Pads(PadCount(|values|))
  }

  /** The symbols for the 5-bit values `vs`. */
  function Text(vs: seq<nat>): (t: string)
    requires forall i :: 0 <= i < |vs| ==> vs[i] < 32
    ensures |t| == |vs| && forall i :: 0 <= i < |vs| ==> t[i] in Alphabet && t[i] == Symbol(vs[i])
  {
    var t := seq(|vs|, i requires 0 <= i < |vs| => Symbol(vs[i]));
    assert forall i :: 0 <= i < |vs| ==> t[i] in Alphabet by {
      forall i | 0 <= i < |vs| ensures t[i] in Alphabet {
        SymbolsAreTheAlphabet(vs[i]);
      }
    }
    t
  }

  /** `s` without its trailing padding characters. */
  function StripPadding(s: string): (r: string)
    ensures |r| <= |s| && r == s[..|r|]
    decreases |s|
  {
    if s != [] && s[|s| - 1] == Padding then StripPadding(s[..|s| - 1]) else s
  }

  /** The values of the symbols of `text`, or None at a character that is not a symbol. */
  function ValuesOf(text: string): (r: Option<seq<nat>>)
    ensures r.Some? ==> |r.value| == |text| && forall i :: 0 <= i < |text| ==> r.value[i] < 32
    decreases |text|
  {
    if text == [] then Some([])
    else match (SymbolValue(text[0]), ValuesOf(text[1..]))
      case (Some(v), Some(vs)) => Some([v] + vs)
      case _ => None
  }

  /**
   * Decoding: drops the padding, reads the symbols back as 5-bit groups and the whole bytes
   * they hold; the zero bits that filled the last group are dropped.
   */
  function Decode(s: string): Option<seq<byte>> {
    match ValuesOf(StripPadding(s))
    case None => None
    case Some(vs) => Some(BytesOf(vs))
  }

  /** The whole bytes held by the 5-bit groups `vs`; leftover bits are dropped. */
  function BytesOf(vs: seq<nat>): seq<byte> {
    var bits := Concat(vs, 5);
    var n := |bits| / 8;
    var g := Groups(bits[..8 * n], 8, n);
    assert Pow2(8) == 256;
    seq(n, i requires 0 <= i < n => g[i] as byte)
  }

  // ---------------------------------------------------------------------------------------
  // The round trip

  lemma {:induction false} StripPads(text: string, n: nat)
    requires text == [] || text[|text| - 1] != Padding
    ensures StripPadding(text + Pads(n)) == text
    decreases n
  {
    if n > 0 {
      assert (text + Pads(n))[..|text| + n - 1] == text + Pads(n - 1);
      StripPads(text, n - 1);
    } else {
      assert text + Pads(0) == text;
    }
  }

  lemma {:induction false} ValuesOfSymbols(vs: seq<nat>)
    requires forall i :: 0 <= i < |vs| ==> vs[i] < 32
    ensures ValuesOf(Text(vs)) == Some(vs)
    decreases |vs|
  {
    if vs != [] {
      var text := Text(vs);
      SymbolsAreTheAlphabet(vs[0]);
      ValuesOfSymbols(vs[1..]);
      assert text[1..] == Text(vs[1..]);
      assert vs == [vs[0]] + vs[1..];
    }
  }

  /** The encoded text, stripped of its padding, is the sequence of symbols. */
  lemma EncodedSymbols(b: seq<byte>)
    ensures StripPadding(Encode(b)) == Text(SymbolValues(b))
  {
    var vs := SymbolValues(b);
    StripPads(Text(vs), PadCount(|vs|));
  }

  /** The symbols' bits are the bytes' bits followed by fewer than five zero bits. */
  lemma SymbolBits(b: seq<byte>)
    ensures var bits := Concat(SymbolValues(b), 5);
            |bits| / 8 == |b| && bits[..8 * |b|] == Concat(b, 8)
  {
    var k := SymbolCount(|b|);
    var padded := Concat(b, 8) + Zeros(5 * k - 8 * |b|);
    ConcatOfGroups(padded, 5, k);
    assert Concat(SymbolValues(b), 5) == padded;
    assert padded[..8 * |b|] == Concat(b, 8);
    EighthOf(|padded|, |b|);
  }

  /** A length between 8n and 8n + 7 holds n whole bytes. */
  lemma EighthOf(m: nat, n: nat)
    requires 8 * n <= m < 8 * n + 8
    ensures m / 8 == n
  {
  }

  /** The bytes held by the symbols of `b`'s encoding are `b`. */
  lemma BytesOfSymbols(b: seq<byte>)
    ensures BytesOf(SymbolValues(b)) == b
  {
    SymbolBits(b);
    var bits := Concat(SymbolValues(b), 5);
    var n := |b|;
    assert Pow2(8) == 256;
    assert forall i :: 0 <= i < n ==> b[i] < Pow2(8);
    GroupsOfConcat(b, 8);
    var g := Groups(bits[..8 * n], 8, n);
    assert g == b;
  }

  /** Values whose 5-bit writing is the bytes' bits, zero-filled, are the bytes' symbol values. */
  lemma SymbolValuesFromBits(b: seq<byte>, vs: seq<nat>)
    requires |vs| == SymbolCount(|b|) && forall i :: 0 <= i < |vs| ==> vs[i] < 32
    requires Concat(b, 8) + Zeros(5 * |vs| - 8 * |b|) == Concat(vs, 5)
    ensures SymbolValues(b) == vs
  {
    assert Pow2(5) == 32;
    GroupsOfConcat(vs, 5);
  }

  /** A one-value writing is the value's bits. */
  lemma ConcatOne(v: nat, w: nat)
    ensures Concat([v], w) == Bits(v, w)
  {
    assert Concat([v][1..], w) == [];
  }

  /** The bits of 'f' and 'o', one halving at a time. */
  lemma BitsOfFo()
    ensures Bits(0x66, 8) == [false, true, true, false, false, true, true, false]
    ensures Bits(0x6F, 8) == [false, true, true, false, true, true, true, true]
  {
    assert Bits(0, 1) == [false];
    assert Bits(1, 2) == [false, true];
    assert Bits(3, 3) == [false, true, true];
    assert Bits(6, 4) == [false, true, true, false];
    assert Bits(12, 5) == [false, true, true, false, false];
    assert Bits(25, 6) == [false, true, true, false, false, true];
    assert Bits(51, 7) == [false, true, true, false, false, true, true];
    assert Bits(13, 5) == [false, true, true, false, true];
    assert Bits(27, 6) == [false, true, true, false, true, true];
    assert Bits(55, 7) == [false, true, true, false, true, true, true];
  }

  /** The 5-bit writings of the symbol values of "f" and "fo". */
  lemma GroupBits()
    ensures Bits(12, 5) == [false, true, true, false, false]
    ensures Bits(24, 5) == [true, true, false, false, false]
    ensures Bits(25, 5) == [true, true, false, false, true]
    ensures Bits(23, 5) == [true, false, true, true, true]
    ensures Bits(16, 5) == [true, false, false, false, false]
  {
    assert Bits(0, 1) == [false];
    assert Bits(1, 2) == [false, true];
    assert Bits(3, 3) == [false, true, true];
    assert Bits(6, 4) == [false, true, true, false];
    assert Bits(1, 1) == [true];
    assert Bits(3, 2) == [true, true];
    assert Bits(6, 3) == [true, true, false];
    assert Bits(12, 4) == [true, true, false, false];
    assert Bits(2, 2) == [true, false];
    assert Bits(5, 3) == [true, false, true];
    assert Bits(11, 4) == [true, false, true, true];
    assert Bits(0, 2) == [false, false] && Bits(1, 3) == [false, false, true];
    assert Bits(4, 3) == [true, false, false];
    assert Bits(8, 4) == [true, false, false, false];
  }

  /** 01100 11000: the 5-bit groups of "f", the last one filled with zero bits. */
  lemma SymbolValuesF()
    ensures SymbolValues([0x66]) == [12, 24]
  {
    BitsOfFo();
    GroupBits();
    ConcatOne(0x66, 8);
    ConcatOne(24, 5);
    assert [12, 24][1..] == [24];
    assert Zeros(2) == [false, false];
    SymbolValuesFromBits([0x66], [12, 24]);
  }

  /** The bits of "fo" with four zero bits, regrouped in fives. */
  lemma RegroupFo()
    ensures [false, true, true, false, false, true, true, false] + [false, true, true, false, true, true, true, true]
            + [false, false, false, false]
         == [false, true, true, false, false]
            + ([true, true, false, false, true] + ([true, false, true, true, true] + [true, false, false, false, false]))
  {
  }

  /** 01100 11001 10111 10000: the 5-bit groups of "fo". */
  lemma SymbolValuesFo()
    ensures SymbolValues([0x66, 0x6F]) == [12, 25, 23, 16]
  {
    var f := [false, true, true, false, false, true, true, false];
    var o := [false, true, true, false, true, true, true, true];
    var b12 := [false, true, true, false, false];
    var b25 := [true, true, false, false, true];
    var b23 := [true, false, true, true, true];
    var b16 := [true, false, false, false, false];
    BitsOfFo();
    GroupBits();
    ConcatOne(0x6F, 8);
    assert [0x66, 0x6F][1..] == [0x6F];
    assert Concat([0x66, 0x6F], 8) == f + o;
    ConcatOne(16, 5);
    assert [23, 16][1..] == [16];
    assert Concat([23, 16], 5) == b23 + b16;
    assert [25, 23, 16][1..] == [23, 16];
    assert Concat([25, 23, 16], 5) == b25 + (b23 + b16);
    assert [12, 25, 23, 16][1..] == [25, 23, 16];
    assert Concat([12, 25, 23, 16], 5) == b12 + (b25 + (b23 + b16));
    assert Zeros(4) == [false, false, false, false];
    RegroupFo();
    assert SymbolCount(2) == 4;
    SymbolValuesFromBits([0x66, 0x6F], [12, 25, 23, 16]);
  }

  /** The text of the values `vs` is `s` when `s` spells their symbols one by one. */
  lemma TextSpells(vs: seq<nat>, s: string)
    requires forall i :: 0 <= i < |vs| ==> vs[i] < 32
    requires |s| == |vs| && forall i :: 0 <= i < |vs| ==> s[i] == Symbol(vs[i])
    ensures Text(vs) == s
  {
  }

  /** An encoding is the text of the symbol values followed by the padding. */
  lemma EncodingOf(b: seq<byte>, vs: seq<nat>, s: string)
    requires SymbolValues(b) == vs && Text(vs) == s
    ensures Encode(b) == s + Pads(PadCount(|vs|))
  {
  }

  /** The first test vector of section 10 of RFC 4648: "f" encodes to "MY======". */
  lemma EncodeF()
    ensures Encode([0x66]) == "MY======"
  {
    SymbolValuesF();
    assert Symbol(12) == 'M' && Symbol(24) == 'Y';
    TextSpells([12, 24], "MY");
    EncodingOf([0x66], [12, 24], "MY");
    assert Pads(6) == "======";
  }

  /** The second test vector of section 10 of RFC 4648: "fo" encodes to "MZXQ====". */
  lemma EncodeFo()
    ensures Encode([0x66, 0x6F]) == "MZXQ===="
  {
    SymbolValuesFo();
    assert Symbol(12) == 'M' && Symbol(25) == 'Z' && Symbol(23) == 'X' && Symbol(16) == 'Q';
    TextSpells([12, 25, 23, 16], "MZXQ");
    EncodingOf([0x66, 0x6F], [12, 25, 23, 16], "MZXQ");
    assert Pads(4) == "====";
  }

  /** Decoding an encoding gives the bytes back: the encoding is lossless. */
  lemma DecodeEncode(b: seq<byte>)
    ensures Decode(Encode(b)) == Some(b)
  {
    var vs := SymbolValues(b);
    EncodedSymbols(b);
    ValuesOfSymbols(vs);
    BytesOfSymbols(b);
  }

  /** Every byte count `size` gives at least ⌈8·size/5⌉ symbols before the first '='. */
  lemma SymbolPrefix(b: seq<byte>, l: nat)
    requires 5 * l <= 8 * |b|
    ensures l <= |Encode(b)|
    ensures forall i :: 0 <= i < l ==> Encode(b)[i] in Alphabet && Encode(b)[i] != Padding
  {
  }
}
