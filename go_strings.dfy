/**
 * The parts of Go's `strings`, `strconv`, `unicode` and `unicode/utf8` packages that the core
 * relies on, over Dafny strings (sequences of Unicode scalar values).
 */
module GoStrings {

  import Wrappers

  /** unicode.IsSpace: the Latin-1 spaces plus the other White_Space code points. */
  predicate IsSpace(c: char) {
    var k := c as int;
    k == 0x20 || 0x09 <= k <= 0x0D || k == 0x85 || k == 0xA0 || k == 0x1680
    || 0x2000 <= k <= 0x200A || k == 0x2028 || k == 0x2029 || k == 0x202F
    || k == 0x205F || k == 0x3000
  }

  /** A string with no white space: strings.Fields keeps it as one word. */
  predicate NoSpace(s: string) {
    forall i :: 0 <= i < |s| ==> !IsSpace(s[i])
  }

  // ---------------------------------------------------------------------------------------
  // strings.Fields

  /** Splits `s` around runs of white space; `cur` is the word being collected. */
  function FieldsFrom(s: string, cur: string): seq<string>
    decreases |s|
  {
    if s == [] then
      (if cur == [] then [] else [cur])
    else if IsSpace(s[0]) then
      (if cur == [] then [] else [cur]) + FieldsFrom(s[1..], [])
    else
      FieldsFrom(s[1..], cur + [s[0]])
  }

  /** strings.Fields: the maximal runs of non-space characters, in order. */
  function Fields(s: string): seq<string> {
    FieldsFrom(s, [])
  }

  lemma {:induction false} FieldsFromWord(w: string, cur: string)
    requires NoSpace(w) && cur + w != []
    ensures FieldsFrom(w, cur) == [cur + w]
    decreases |w|
  {
    if w != [] {
      assert !IsSpace(w[0]);
      FieldsFromWord(w[1..], cur + [w[0]]);
      assert cur + [w[0]] + w[1..] == cur + w;
    } else {
      assert cur + w == cur;
    }
  }

  /** A non-empty string without white space is a single field. */
  lemma FieldsOfWord(w: string)
    requires w != [] && NoSpace(w)
    ensures Fields(w) == [w]
  {
    FieldsFromWord(w, []);
    assert [] + w == w;
  }

  lemma {:induction false} FieldsFromSpaceConcat(a: string, b: string, cur: string)
    ensures FieldsFrom(a + " " + b, cur) == FieldsFrom(a, cur) + Fields(b)
    decreases |a|
  {
    var s := a + " " + b;
    if a == [] {
      assert s[1..] == b;
    } else {
      assert s[0] == a[0];
      assert s[1..] == a[1..] + " " + b;
      if IsSpace(a[0]) {
        FieldsFromSpaceConcat(a[1..], b, []);
      } else {
        FieldsFromSpaceConcat(a[1..], b, cur + [a[0]]);
      }
    }
  }

  /** `a` and `b` with one space between them: how a format string's spaces are spelled. */
  function Spaced(a: string, b: string): string {
    a + " " + b
  }

  /** A single space separates the fields of its two sides. */
  lemma FieldsSpaceConcat(a: string, b: string)
    ensures Fields(Spaced(a, b)) == Fields(a) + Fields(b)
  {
    FieldsFromSpaceConcat(a, b, []);
  }

  /** A word followed by a space contributes exactly itself as the first field. */
  lemma FieldsWordThen(w: string, rest: string)
    requires w != [] && NoSpace(w)
    ensures Fields(Spaced(w, rest)) == [w] + Fields(rest)
  {
    FieldsSpaceConcat(w, rest);
    FieldsOfWord(w);
  }

  // ---------------------------------------------------------------------------------------
  // strings.Split and strings.Join with a one-character separator

  function SplitFrom(s: string, sep: char, cur: string): (parts: seq<string>)
    ensures |parts| >= 1
    decreases |s|
  {
    if s == [] then [cur]
    else if s[0] == sep then [cur] + SplitFrom(s[1..], sep, [])
    else SplitFrom(s[1..], sep, cur + [s[0]])
  }

  /** strings.Split(s, sep): the pieces between separators; never empty. */
  function Split(s: string, sep: char): seq<string> {
    SplitFrom(s, sep, [])
  }

  /** strings.Join(parts, sep). */
  function Join(parts: seq<string>, sep: char): string
    decreases |parts|
  {
    if |parts| == 0 then ""
    else if |parts| == 1 then parts[0]
    else parts[0] + [sep] + Join(parts[1..], sep)
  }

  /** The number of occurrences of `c` in `s`. */
  function Count(s: string, c: char): nat
    decreases |s|
  {
    if s == [] then 0 else (if s[0] == c then 1 else 0) + Count(s[1..], c)
  }

  lemma {:induction false} SplitFromCount(s: string, sep: char, cur: string)
    ensures |SplitFrom(s, sep, cur)| == Count(s, sep) + 1
    decreases |s|
  {
    if s != [] {
      if s[0] == sep {
        SplitFromCount(s[1..], sep, []);
      } else {
        SplitFromCount(s[1..], sep, cur + [s[0]]);
      }
    }
  }

  /** Split yields one more piece than there are separators. */
  lemma SplitCount(s: string, sep: char)
    ensures |Split(s, sep)| == Count(s, sep) + 1
  {
    SplitFromCount(s, sep, []);
  }

  lemma {:induction false} SplitFromPiece(w: string, sep: char, cur: string)
    requires sep !in w
    ensures SplitFrom(w, sep, cur) == [cur + w]
    decreases |w|
  {
    if w != [] {
      assert w[0] in w;
      SplitFromPiece(w[1..], sep, cur + [w[0]]);
      assert cur + [w[0]] + w[1..] == cur + w;
    } else {
      assert cur + w == cur;
    }
  }

  lemma {:induction false} SplitFromConcat(a: string, b: string, sep: char, cur: string)
    ensures SplitFrom(a + [sep] + b, sep, cur) == SplitFrom(a, sep, cur) + Split(b, sep)
    decreases |a|
  {
    var s := a + [sep] + b;
    if a == [] {
      assert s[1..] == b;
    } else {
      assert s[0] == a[0];
      assert s[1..] == a[1..] + [sep] + b;
      if a[0] == sep {
        SplitFromConcat(a[1..], b, sep, []);
      } else {
        SplitFromConcat(a[1..], b, sep, cur + [a[0]]);
      }
    }
  }

  /** No piece contains the separator. */
  predicate SeparatorFree(parts: seq<string>, sep: char) {
    forall i :: 0 <= i < |parts| ==> sep !in parts[i]
  }

  lemma {:induction false} SplitFromFree(s: string, sep: char, cur: string)
    requires sep !in cur
    ensures SeparatorFree(SplitFrom(s, sep, cur), sep)
    decreases |s|
  {
    if s != [] {
      if s[0] == sep {
        SplitFromFree(s[1..], sep, []);
      } else {
        SplitFromFree(s[1..], sep, cur + [s[0]]);
      }
    }
  }

  /** No piece of a split contains the separator. */
  lemma SplitFree(s: string, sep: char)
    ensures SeparatorFree(Split(s, sep), sep)
  {
    SplitFromFree(s, sep, []);
  }

  /** Splitting a join gives the parts back when no part contains the separator. */
  lemma {:induction false} SplitJoin(parts: seq<string>, sep: char)
    requires |parts| >= 1 && SeparatorFree(parts, sep)
    ensures Split(Join(parts, sep), sep) == parts
    decreases |parts|
  {
    if |parts| == 1 {
      assert sep !in parts[0];
      SplitFromPiece(parts[0], sep, []);
      assert [] + parts[0] == parts[0];
    } else {
      assert SeparatorFree(parts[1..], sep) by {
        forall i | 0 <= i < |parts| - 1 ensures sep !in parts[1..][i] {
          assert parts[1..][i] == parts[i + 1];
        }
      }
      SplitJoin(parts[1..], sep);
      SplitFromConcat(parts[0], Join(parts[1..], sep), sep, []);
      SplitFromPiece(parts[0], sep, []);
      assert [] + parts[0] == parts[0];
      assert [parts[0]] + parts[1..] == parts;
    }
  }

  /** The length of a join: the parts plus one separator between each neighbouring pair. */
  lemma {:induction false} JoinLength(parts: seq<string>, sep: char, width: nat)
    requires |parts| >= 1
    requires forall i :: 0 <= i < |parts| ==> |parts[i]| == width
    ensures |Join(parts, sep)| == |parts| * (width + 1) - 1
    decreases |parts|
  {
    if |parts| > 1 {
      JoinLength(parts[1..], sep, width);
    }
  }

  // ---------------------------------------------------------------------------------------
  // strings.Index, strings.TrimSpace, strings.ToLower

  /** The index of the first `c` in `s`, if any. */
  function IndexOf(s: string, c: char): (r: int)
    ensures -1 <= r < |s|
    ensures r == -1 <==> c !in s
    ensures r >= 0 ==> s[r] == c && c !in s[..r]
    decreases |s|
  {
    if s == [] then -1
    else if s[0] == c then 0
    else
      var r := IndexOf(s[1..], c);
      assert s[1..][..(if r < 0 then 0 else r)] == s[1..1 + (if r < 0 then 0 else r)];
      if r < 0 then -1 else r + 1
  }

  /** The first `c` in `a + [c] + b` is the one after `a` when `a` has none. */
  lemma {:induction false} IndexOfAfter(a: string, c: char, b: string)
    requires c !in a
    ensures IndexOf(a + [c] + b, c) == |a|
    decreases |a|
  {
    if a != [] {
      assert (a + [c] + b)[1..] == a[1..] + [c] + b;
      IndexOfAfter(a[1..], c, b);
    }
  }

  function TrimLeftSpace(s: string): string
    decreases |s|
  {
    if s != [] && IsSpace(s[0]) then TrimLeftSpace(s[1..]) else s
  }

  function TrimRightSpace(s: string): string
    decreases |s|
  {
    if s != [] && IsSpace(s[|s| - 1]) then TrimRightSpace(s[..|s| - 1]) else s
  }

  /** strings.TrimSpace: drops leading and trailing white space. */
  function TrimSpace(s: string): string {
    TrimRightSpace(TrimLeftSpace(s))
  }

  /**
   * unicode.ToLower on one code point, exact for every code point whose lower case is ASCII:
   * A-Z, KELVIN SIGN U+212A (to 'k') and LATIN CAPITAL LETTER I WITH DOT ABOVE U+0130 (to 'i').
   * Other letters are left as they are.
   */
  function LowerChar(c: char): char {
    if 'A' <= c <= 'Z' then (c as int + 32) as char
    else if c as int == 0x212A then 'k'
    else if c as int == 0x130 then 'i'
    else c
  }

  /** strings.ToLower. */
  function ToLower(s: string): (r: string)
    ensures |r| == |s|
    ensures forall i :: 0 <= i < |s| ==> r[i] == LowerChar(s[i])
  {
    seq(|s|, i requires 0 <= i < |s| => LowerChar(s[i]))
  }

  // ---------------------------------------------------------------------------------------
  // strconv

  function DigitChar(d: nat): char
    requires d < 10
  {
    "0123456789"[d]
  }

  function NatToString(n: nat): (r: string)
    ensures r != [] && NoSpace(r)
    decreases n
  {
    if n < 10 then [DigitChar(n)] else NatToString(n / 10) + [DigitChar(n % 10)]
  }

  /** strconv.Itoa, also what fmt's %d prints for an int. */
  function IntToString(i: int): (r: string)
    ensures r != [] && NoSpace(r)
  {
    if i < 0 then "-" + NatToString(-i) else NatToString(i)
  }

  /** strconv.ParseBool: the six spellings of each truth value; anything else is an error. */
  function ParseBool(s: string): Wrappers.Option<bool> {
    if s in {"1", "t", "T", "TRUE", "true", "True"} then Wrappers.Some(true)
    else if s in {"0", "f", "F", "FALSE", "false", "False"} then Wrappers.Some(false)
    else Wrappers.None
  }

  // ---------------------------------------------------------------------------------------
  // UTF-8 widths (unicode/utf8.RuneLen)

  /** The number of bytes UTF-8 uses for `c`. */
  function Utf8Width(c: char): nat {
    var k := c as int;
    if k < 0x80 then 1 else if k < 0x800 then 2 else if k < 0x10000 then 3 else 4
  }

  /** The byte length of the UTF-8 encoding of `s` (Go's len of the string). */
  function Utf8Len(s: string): nat
    decreases |s|
  {
    if s == [] then 0 else Utf8Width(s[0]) + Utf8Len(s[1..])
  }

  predicate IsAscii(s: string) {
    forall i :: 0 <= i < |s| ==> (s[i] as int) < 0x80
  }
}
