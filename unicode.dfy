/** The two encodings JavaScript strings meet in the core. A Dafny `string`
    is a sequence of Unicode scalar values; a JavaScript string is a
    sequence of UTF-16 code units, in which a scalar above U+FFFF takes two
    units (a surrogate pair). `length` and `substring` count those units.
    Node's `Buffer` converts between strings and bytes with UTF-8, and
    decoding bytes that are not UTF-8 puts U+FFFD in place of each maximal
    ill-formed subpart, as the WHATWG Encoding Standard's UTF-8 decoder
    does. */
module Unicode {

  /** One UTF-16 code unit. */
  type CodeUnit = x: int | 0 <= x < 0x1_0000

  /** One byte. */
  type Byte = x: int | 0 <= x < 0x100

  // ---- UTF-16 ----

  /** A leading (high) surrogate, U+D800 to U+DBFF. */
  predicate IsHighSurrogate(u: CodeUnit)
  {
    0xD800 <= u < 0xDC00
  }

  /** The code units of one scalar value. */
  function Utf16Char(c: char): (us: seq<CodeUnit>)
    // one unit up to U+FFFF, a surrogate pair above
    ensures c as int < 0x1_0000 ==> us == [c as int]
    ensures c as int >= 0x1_0000 ==> |us| == 2 && IsHighSurrogate(us[0]) && 0xDC00 <= us[1] < 0xE000
    // the pair decodes back to the scalar
    ensures c as int >= 0x1_0000 ==> (us[0] as int - 0xD800) * 0x400 + (us[1] as int - 0xDC00) + 0x1_0000 == c as int
  {
    var cp := c as int;
    if cp < 0x1_0000 then [cp]
    else [0xD800 + (cp - 0x1_0000) / 0x400, 0xDC00 + (cp - 0x1_0000) % 0x400]
  }

  /** The JavaScript string holding the scalars of `s`. */
  function Utf16(s: string): seq<CodeUnit>
  {
    if s == [] then [] else Utf16Char(s[0]) + Utf16(s[1..])
  }

  /** The number of scalars of `s` above U+FFFF. */
  function AstralCount(s: string): nat
  {
    if s == [] then 0 else (if s[0] as int >= 0x1_0000 then 1 else 0) + AstralCount(s[1..])
  }

  /** `length` counts one unit per scalar and one more per scalar above
      U+FFFF, so it is never less than the number of scalars. */
  lemma {:induction false} Utf16Length(s: string)
    ensures |Utf16(s)| == |s| + AstralCount(s)
    ensures |s| <= |Utf16(s)| <= 2 * |s|
  {
    if s != [] {
      Utf16Length(s[1..]);
    }
  }

  /** A string of scalars none of which is above U+FFFF is its own code
      units. */
  lemma {:induction false} Utf16Bmp(s: string)
    requires forall i :: 0 <= i < |s| ==> s[i] as int < 0x1_0000
    ensures |Utf16(s)| == |s|
    ensures forall i :: 0 <= i < |s| ==> Utf16(s)[i] == s[i] as int
  {
    if s != [] {
      Utf16Bmp(s[1..]);
    }
  }

  /** A string of scalars all above U+FFFF (emoji, say) is twice as long in
      code units, and every unit at an even index is a leading surrogate. */
  lemma {:induction false} Utf16Astral(s: string)
    requires forall i :: 0 <= i < |s| ==> s[i] as int >= 0x1_0000
    ensures |Utf16(s)| == 2 * |s|
    ensures forall j :: 0 <= j < |Utf16(s)| && j % 2 == 0 ==> IsHighSurrogate(Utf16(s)[j])
  {
    if s != [] {
      Utf16Astral(s[1..]);
      var us := Utf16(s);
      var rest := Utf16(s[1..]);
      assert us == Utf16Char(s[0]) + rest;
      forall j | 0 <= j < |us| && j % 2 == 0
        ensures IsHighSurrogate(us[j])
      {
        if j >= 2 {
          assert us[j] == rest[j - 2];
        }
      }
    }
  }

  // ---- UTF-8 ----

  /** The UTF-8 bytes of one scalar value. */
  function Utf8Char(c: char): (bs: seq<Byte>)
    ensures 1 <= |bs| <= 4
    ensures c as int < 0x80 <==> bs == [c as int]
  {
    var cp := c as int;
    if cp < 0x80 then [cp]
    else if cp < 0x800 then [0xC0 + cp / 0x40, 0x80 + cp % 0x40]
    else if cp < 0x1_0000 then [0xE0 + cp / 0x1000, 0x80 + (cp / 0x40) % 0x40, 0x80 + cp % 0x40]
    else [0xF0 + cp / 0x4_0000, 0x80 + (cp / 0x1000) % 0x40, 0x80 + (cp / 0x40) % 0x40, 0x80 + cp % 0x40]
  }

  /** The UTF-8 bytes of a string: `Buffer.from(s)`, and what `fetch`
      sends for a string body. */
  function Utf8(s: string): seq<Byte>
  {
    if s == [] then [] else Utf8Char(s[0]) + Utf8(s[1..])
  }

  /** Encoding distributes over concatenation. */
  lemma {:induction false} Utf8Append(a: string, b: string)
    ensures Utf8(a + b) == Utf8(a) + Utf8(b)
  {
    if a != [] {
      assert (a + b)[0] == a[0];
      assert (a + b)[1..] == a[1..] + b;
      Utf8Append(a[1..], b);
      assert Utf8(a + b) == Utf8Char(a[0]) + (Utf8(a[1..]) + Utf8(b));
    } else {
      assert a + b == b;
    }
  }

  /** A string of ASCII characters is its own bytes. */
  lemma {:induction false} Utf8Ascii(s: string)
    requires forall i :: 0 <= i < |s| ==> s[i] as int < 0x80
    ensures Utf8(s) == seq(|s|, i requires 0 <= i < |s| => s[i] as int)
  {
    if s != [] {
      Utf8Ascii(s[1..]);
    }
  }

  const REPLACEMENT_CHARACTER: char := '�'

  /** A continuation byte within `lower..upper`. */
  predicate InRange(b: Byte, lower: int, upper: int)
  {
    lower <= b <= upper
  }

  /** How many of the continuation bytes after the lead byte at the front
      of `bs` are acceptable, up to `needed`: the first within
      `lower..upper`, the others within 0x80..0xBF. */
  function Accepted(bs: seq<Byte>, needed: nat, lower: int, upper: int): (k: nat)
    requires |bs| >= 1
    ensures k <= needed && k < |bs|
    ensures forall j :: 1 <= j <= k ==> InRange(bs[j], if j == 1 then lower else 0x80, if j == 1 then upper else 0xBF)
  {
    if needed >= 1 && |bs| >= 2 && InRange(bs[1], lower, upper) then
      if needed >= 2 && |bs| >= 3 && InRange(bs[2], 0x80, 0xBF) then
        if needed >= 3 && |bs| >= 4 && InRange(bs[3], 0x80, 0xBF) then 3 else 2
      else 1
    else 0
  }

  /** One step of the decoder at the front of a non-empty byte sequence:
      the scalar read and the number of bytes consumed. A lead byte that no
      well-formed sequence starts with, or a sequence cut short, gives
      U+FFFD and consumes the lead byte and the acceptable continuation
      bytes after it. */
  function DecodeStep(bs: seq<Byte>): (r: (char, nat))
    requires |bs| >= 1
    ensures 1 <= r.1 <= |bs| && r.1 <= 4
    // a byte that cannot start a sequence is replaced on its own
    ensures (0x80 <= bs[0] < 0xC2 || 0xF5 <= bs[0]) ==> r == (REPLACEMENT_CHARACTER, 1)
    ensures bs[0] < 0x80 ==> r == (bs[0] as char, 1)
  {
    var b0: int := bs[0];
    if b0 < 0x80 then (b0 as char, 1)
    else if 0xC2 <= b0 <= 0xDF then
      var k := Accepted(bs, 1, 0x80, 0xBF);
      if k == 1 then (((b0 - 0xC0) * 0x40 + (bs[1] as int - 0x80)) as char, 2)
      else (REPLACEMENT_CHARACTER, 1 + k)
    else if 0xE0 <= b0 <= 0xEF then
      var lower := if b0 == 0xE0 then 0xA0 else 0x80;
      var upper := if b0 == 0xED then 0x9F else 0xBF;
      var k := Accepted(bs, 2, lower, upper);
      if k == 2 then
        var cp := (b0 - 0xE0) * 0x1000 + (bs[1] as int - 0x80) * 0x40 + (bs[2] as int - 0x80);
        assert cp < 0xD800 || 0xE000 <= cp < 0x1_0000;
        (cp as char, 3)
      else (REPLACEMENT_CHARACTER, 1 + k)
    else if 0xF0 <= b0 <= 0xF4 then
      var lower := if b0 == 0xF0 then 0x90 else 0x80;
      var upper := if b0 == 0xF4 then 0x8F else 0xBF;
      var k := Accepted(bs, 3, lower, upper);
      if k == 3 then
        var cp := (b0 - 0xF0) * 0x4_0000 + (bs[1] as int - 0x80) * 0x1000 + (bs[2] as int - 0x80) * 0x40 + (bs[3] as int - 0x80);
        assert 0x1_0000 <= cp < 0x11_0000;
        (cp as char, 4)
      else (REPLACEMENT_CHARACTER, 1 + k)
    else (REPLACEMENT_CHARACTER, 1)
  }

  /** `buffer.toString()`: the bytes decoded as UTF-8, each ill-formed part
      replaced by U+FFFD. */
  function Utf8Decode(bs: seq<Byte>): string
    decreases |bs|
  {
    if bs == [] then []
    else
      var step := DecodeStep(bs);
      [step.0] + Utf8Decode(bs[step.1..])
  }

  /** ASCII bytes decode to the same characters. */
  lemma {:induction false} DecodeAsciiPrefix(p: seq<Byte>, rest: seq<Byte>)
    requires forall i :: 0 <= i < |p| ==> p[i] < 0x80
    ensures Utf8Decode(p + rest) == seq(|p|, i requires 0 <= i < |p| => p[i] as char) + Utf8Decode(rest)
  {
    if p != [] {
      assert (p + rest)[0] == p[0];
      assert (p + rest)[1..] == p[1..] + rest;
      DecodeAsciiPrefix(p[1..], rest);
      var chars := seq(|p|, i requires 0 <= i < |p| => p[i] as char);
      var later := seq(|p| - 1, i requires 0 <= i < |p| - 1 => p[1..][i] as char);
      assert chars == [p[0] as char] + later;
      assert DecodeStep(p + rest) == (p[0] as char, 1);
      assert Utf8Decode(p + rest) == [p[0] as char] + Utf8Decode(p[1..] + rest);
    } else {
      assert p + rest == rest;
    }
  }

  /** Decoding and re-encoding bytes that are ASCII up to a byte no UTF-8
      sequence starts with does not give the bytes back: U+FFFD is encoded
      as EF BF BD in that byte's place. */
  lemma {:induction false} ReplacedByteChanges(p: seq<Byte>, x: Byte, q: seq<Byte>)
    requires forall i :: 0 <= i < |p| ==> p[i] < 0x80
    requires 0x80 <= x < 0xC2 || 0xF5 <= x
    ensures var roundTrip := Utf8(Utf8Decode(p + [x] + q));
      |p| < |roundTrip| && roundTrip[|p|] == 0xEF != x
      && roundTrip != p + [x] + q
  {
    var prefix := seq(|p|, i requires 0 <= i < |p| => p[i] as char);
    var tail := [x] + q;
    assert p + [x] + q == p + tail;
    DecodeAsciiPrefix(p, tail);
    assert Utf8Decode(tail) == [REPLACEMENT_CHARACTER] + Utf8Decode(q) by {
      assert tail[1..] == q;
    }
    var decoded := prefix + ([REPLACEMENT_CHARACTER] + Utf8Decode(q));
    Utf8Append(prefix, [REPLACEMENT_CHARACTER] + Utf8Decode(q));
    Utf8Append([REPLACEMENT_CHARACTER], Utf8Decode(q));
    Utf8Ascii(prefix);
    assert Utf8([REPLACEMENT_CHARACTER]) == [0xEF, 0xBF, 0xBD];
    var roundTrip := Utf8(decoded);
    assert roundTrip == Utf8(prefix) + [0xEF, 0xBF, 0xBD] + Utf8(Utf8Decode(q));
    assert |Utf8(prefix)| == |p|;
    assert roundTrip[|p|] == 0xEF;
    assert (p + [x] + q)[|p|] == x;
  }
}
