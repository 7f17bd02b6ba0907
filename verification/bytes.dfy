/** Byte-level primitives shared by every decoder: little/big-endian fields,
    Python's clamped `file.read`, Python's `file.write` at a position,
    latin-1 text and the string trimming the archive code relies on. */
module Bytes {

  type byte = b: int | 0 <= b < 256

  function Min(a: int, b: int): int { if a <= b then a else b }
  function Max(a: int, b: int): int { if a >= b then a else b }

  function Zeros(n: nat): (r: seq<byte>)
    ensures |r| == n && forall i :: 0 <= i < n ==> r[i] == 0
  {
    seq(n, _ => 0)
  }

  // ---------------------------------------------------------------------
  // Fixed-width integer fields

  /** `struct.unpack("<H", ...)` at offset `at`. */
  function U16LE(s: seq<byte>, at: nat): (v: nat)
    requires at + 2 <= |s|
    ensures v < 0x1_0000
    ensures v % 256 == s[at] && v / 256 == s[at + 1]
  {
    s[at] as int + 256 * (s[at + 1] as int)
  }

  /** `struct.unpack(">H", ...)` at offset `at`. */
  function U16BE(s: seq<byte>, at: nat): (v: nat)
    requires at + 2 <= |s|
    ensures v < 0x1_0000
    ensures v / 256 == s[at] && v % 256 == s[at + 1]
  {
    256 * (s[at] as int) + s[at + 1] as int
  }

  /** `struct.unpack("<I", ...)` at offset `at`. */
  function U32LE(s: seq<byte>, at: nat): (v: nat)
    requires at + 4 <= |s|
    ensures v < 0x1_0000_0000
    ensures v % 0x1_0000 == U16LE(s, at) && v / 0x1_0000 == U16LE(s, at + 2)
  {
    U16LE(s, at) + 0x1_0000 * U16LE(s, at + 2)
  }

  /** `struct.unpack(">I", ...)` at offset `at`. */
  function U32BE(s: seq<byte>, at: nat): (v: nat)
    requires at + 4 <= |s|
    ensures v < 0x1_0000_0000
    ensures v / 0x1_0000 == U16BE(s, at) && v % 0x1_0000 == U16BE(s, at + 2)
  {
    0x1_0000 * U16BE(s, at) + U16BE(s, at + 2)
  }

  /** `struct.pack("<H", v)`; the caller has ruled out `struct.error`. */
  function EncodeU16LE(v: nat): (r: seq<byte>)
    requires v < 0x1_0000
    ensures |r| == 2 && U16LE(r, 0) == v
  {
    [v % 256, v / 256]
  }

  /** `struct.pack("<I", v)`; the caller has ruled out `struct.error`. */
  function EncodeU32LE(v: nat): (r: seq<byte>)
    requires v < 0x1_0000_0000
    ensures |r| == 4 && U32LE(r, 0) == v
  {
    EncodeU16LE(v % 0x1_0000) + EncodeU16LE(v / 0x1_0000)
  }

  /** `struct.pack("<H", v)`, or `None` for the `struct.error` it raises
      on a value that does not fit. */
  function Pack16(v: nat): (r: Option<seq<byte>>)
    ensures r.Some? <==> v < 0x1_0000
    ensures r.Some? ==> |r.value| == 2 && U16LE(r.value, 0) == v
  {
    if v < 0x1_0000 then Some(EncodeU16LE(v)) else None
  }

  /** `struct.pack("<I", v)`, or `None` for the `struct.error`. */
  function Pack32(v: nat): (r: Option<seq<byte>>)
    ensures r.Some? <==> v < 0x1_0000_0000
    ensures r.Some? ==> |r.value| == 4 && U32LE(r.value, 0) == v
  {
    if v < 0x1_0000_0000 then Some(EncodeU32LE(v)) else None
  }

  // ---------------------------------------------------------------------
  // Python file semantics over an in-memory byte string

  /** `f.seek(pos); f.read(n)`: at most `n` bytes, fewer only at end of file. */
  function Read(s: seq<byte>, pos: nat, n: nat): seq<byte> {
    if pos >= |s| then [] else s[pos..Min(pos + n, |s|)]
  }

  /** At most `n` bytes, exactly the bytes from `pos` on, and fewer than
      `n` only when the end of the file is reached. */
  lemma ReadSpec(s: seq<byte>, pos: nat, n: nat)
    ensures var r := Read(s, pos, n);
            && |r| <= n
            && (pos + |r| <= |s| || r == [])
            && (r == [] || r == s[pos..pos + |r|])
            && (|r| < n ==> pos + |r| >= |s|)
  {
  }

  /** A read that lies inside the data returns exactly the bytes asked for. */
  lemma ReadInside(s: seq<byte>, pos: nat, n: nat)
    requires pos + n <= |s|
    ensures Read(s, pos, n) == s[pos..pos + n]
  {
  }

  /** Writing one byte at `p`: a gap past the end is filled with zeros. */
  function Poke(b: seq<byte>, p: nat, v: byte): (r: seq<byte>)
    ensures |r| == Max(|b|, p + 1)
  {
    if p < |b| then b[p := v] else b + Zeros(p - |b|) + [v]
  }

  /** `f.seek(p); f.write(x)` on a file holding `b`: the bytes of `x` are
      written one after the other, so an empty write leaves the file as it
      is. */
  function Overwrite(b: seq<byte>, p: nat, x: seq<byte>): seq<byte>
    decreases |x|, 1
  {
    if x == [] then b else OverwriteRest(Poke(b, p, x[0]), p + 1, x)
  }

  /** The bytes of `x` after its first, written from `p`. */
  function OverwriteRest(b: seq<byte>, p: nat, x: seq<byte>): seq<byte>
    requires x != []
    decreases |x|, 0
  {
    Overwrite(b, p, x[1..])
  }

  /** A non-empty write reaches at least to its own end. */
  lemma {:induction false} OverwriteLength(b: seq<byte>, p: nat, x: seq<byte>)
    ensures |Overwrite(b, p, x)| == if x == [] then |b| else Max(|b|, p + |x|)
    decreases |x|
  {
    if x != [] {
      OverwriteLength(Poke(b, p, x[0]), p + 1, x[1..]);
    }
  }

  /** The byte at `i` after a non-empty write. */
  function WrittenAt(b: seq<byte>, p: nat, x: seq<byte>, i: nat): byte {
    if p <= i < p + |x| then x[i - p] else if i < |b| then b[i] else 0
  }

  lemma {:induction false} OverwriteIndex(b: seq<byte>, p: nat, x: seq<byte>, i: nat)
    requires x != [] && i < Max(|b|, p + |x|)
    ensures i < |Overwrite(b, p, x)| && Overwrite(b, p, x)[i] == WrittenAt(b, p, x, i)
    decreases |x|
  {
    var c := Poke(b, p, x[0]);
    assert Overwrite(b, p, x) == Overwrite(c, p + 1, x[1..]);
    assert c[p] == x[0];
    assert i < |c| && i != p ==> c[i] == if i < |b| then b[i] else 0 by {
      if p >= |b| && |b| <= i < p {
        assert c[i] == Zeros(p - |b|)[i - |b|];
      }
    }
    if |x| > 1 {
      OverwriteIndex(c, p + 1, x[1..], i);
      assert WrittenAt(c, p + 1, x[1..], i) == WrittenAt(b, p, x, i);
    } else {
      assert x[1..] == [];
    }
  }

  /** Two writes back to back are one write of both. */
  lemma {:induction false} OverwriteAdjacent(b: seq<byte>, p: nat, x: seq<byte>, y: seq<byte>)
    ensures Overwrite(Overwrite(b, p, x), p + |x|, y) == Overwrite(b, p, x + y)
    decreases |x|
  {
    if x == [] {
      assert x + y == y;
    } else {
      assert (x + y)[0] == x[0] && (x + y)[1..] == x[1..] + y;
      OverwriteAdjacent(Poke(b, p, x[0]), p + 1, x[1..], y);
    }
  }

  /** Inside the written range the file holds the written bytes. */
  lemma OverwriteHit(b: seq<byte>, p: nat, x: seq<byte>, i: nat)
    requires p <= i < p + |x|
    ensures i < |Overwrite(b, p, x)| && Overwrite(b, p, x)[i] == x[i - p]
  {
    OverwriteIndex(b, p, x, i);
  }

  /** Outside the written range an existing byte is left alone. */
  lemma OverwriteFrame(b: seq<byte>, p: nat, x: seq<byte>, i: nat)
    requires i < |b| && !(p <= i < p + |x|)
    ensures i < |Overwrite(b, p, x)| && Overwrite(b, p, x)[i] == b[i]
  {
    if x != [] {
      OverwriteIndex(b, p, x, i);
    }
  }

  /** Writing at the end of the file appends. */
  lemma {:induction false} OverwriteAppend(b: seq<byte>, x: seq<byte>)
    ensures Overwrite(b, |b|, x) == b + x
    decreases |x|
  {
    if x != [] {
      var c := Poke(b, |b|, x[0]);
      assert c == b + [x[0]];
      OverwriteAppend(c, x[1..]);
      assert c + x[1..] == b + x;
    }
  }

  /** A write at or after `lo` leaves the first `lo` bytes alone. */
  lemma {:induction false} OverwritePrefix(b: seq<byte>, p: nat, x: seq<byte>, lo: nat)
    requires lo <= p && lo <= |b|
    ensures lo <= |Overwrite(b, p, x)| && Overwrite(b, p, x)[..lo] == b[..lo]
    decreases |x|
  {
    if x != [] {
      var c := Poke(b, p, x[0]);
      assert c[..lo] == b[..lo];
      OverwritePrefix(c, p + 1, x[1..], lo);
    }
  }

  /** A 16-bit field reads back as it was written. */
  lemma OverwriteU16(b: seq<byte>, p: nat, v: nat)
    requires v < 0x1_0000
    ensures p + 2 <= |Overwrite(b, p, EncodeU16LE(v))|
    ensures U16LE(Overwrite(b, p, EncodeU16LE(v)), p) == v
  {
    var x := EncodeU16LE(v);
    OverwriteHit(b, p, x, p);
    OverwriteHit(b, p, x, p + 1);
  }

  /** A 32-bit field reads back as it was written. */
  lemma OverwriteU32(b: seq<byte>, p: nat, v: nat)
    requires v < 0x1_0000_0000
    ensures p + 4 <= |Overwrite(b, p, EncodeU32LE(v))|
    ensures U32LE(Overwrite(b, p, EncodeU32LE(v)), p) == v
  {
    var x := EncodeU32LE(v);
    OverwriteHit(b, p, x, p);
    OverwriteHit(b, p, x, p + 1);
    OverwriteHit(b, p, x, p + 2);
    OverwriteHit(b, p, x, p + 3);
    assert U16LE(x, 0) == v % 0x1_0000 && U16LE(x, 2) == v / 0x1_0000;
  }

  // ---------------------------------------------------------------------
  // Text

  /** `bytes.decode("latin-1")`: every byte is the code point of the same value. */
  function Latin1(bs: seq<byte>): (s: string)
    ensures |s| == |bs| && forall i :: 0 <= i < |bs| ==> s[i] as int == bs[i]
  {
    seq(|bs|, i requires 0 <= i < |bs| => bs[i] as char)
  }

  /** `str.encode("latin-1")`: fails on any code point above U+00FF. */
  function EncodeLatin1(s: string): (r: Option<seq<byte>>)
    ensures r.Some? ==> |r.value| == |s|
  {
    if s == [] then Some([])
    else
      match EncodeLatin1(s[..|s| - 1])
      case None => None
      case Some(init) =>
        if s[|s| - 1] as int < 256 then Some(init + [s[|s| - 1] as int]) else None
  }

  /** Encoding succeeds exactly when every code point is below 256, and then
      decoding gives the string back. */
  lemma {:induction false} EncodeLatin1Spec(s: string)
    ensures var r := EncodeLatin1(s);
            (r.Some? <==> forall i :: 0 <= i < |s| ==> s[i] as int < 256)
            && (r.Some? ==> Latin1(r.value) == s)
  {
    if s != [] {
      var init := s[..|s| - 1];
      EncodeLatin1Spec(init);
      var r := EncodeLatin1(s);
      if r.Some? {
        var v := EncodeLatin1(init).value;
        assert r.value == v + [s[|s| - 1] as int];
        forall i | 0 <= i < |s| ensures Latin1(r.value)[i] == s[i] {
          if i < |s| - 1 {
            assert Latin1(v)[i] == init[i];
          }
        }
      } else if EncodeLatin1(init).Some? {
        assert !(s[|s| - 1] as int < 256);
      } else {
        var j :| 0 <= j < |init| && !(init[j] as int < 256);
        assert s[j] == init[j];
      }
    }
  }

  /** Decoding latin-1 and encoding again gives back the bytes. */
  lemma {:induction false} Latin1RoundTrip(bs: seq<byte>)
    ensures EncodeLatin1(Latin1(bs)) == Some(bs)
  {
    var s := Latin1(bs);
    EncodeLatin1Spec(s);
    var v := EncodeLatin1(s).value;
    assert |v| == |bs|;
    forall i | 0 <= i < |bs| ensures v[i] == bs[i] {
      assert Latin1(v)[i] == s[i];
    }
    assert v == bs;
  }

  /** `bytes.decode("ascii")` succeeds exactly when every byte is below 0x80. */
  predicate IsAscii(bs: seq<byte>) {
    forall i :: 0 <= i < |bs| ==> bs[i] < 0x80
  }

  datatype Option<T> = None | Some(value: T)

  /** `str.isspace()` for one character, as CPython defines it. */
  predicate IsSpace(c: char) {
    var n := c as int;
    (0x09 <= n <= 0x0D) || (0x1C <= n <= 0x20) || n == 0x85 || n == 0xA0
    || n == 0x1680 || (0x2000 <= n <= 0x200A) || n == 0x2028 || n == 0x2029
    || n == 0x202F || n == 0x205F || n == 0x3000
  }

  predicate IsNul(c: char) { c == '\0' }

  predicate IsBlank(c: char) { c == ' ' }

  /** Drops characters satisfying `drop` from the end: `str.rstrip`. */
  function RStrip(s: string, drop: char -> bool): (r: string)
    ensures |r| <= |s|
  {
    if |s| > 0 && drop(s[|s| - 1]) then RStrip(s[..|s| - 1], drop) else s
  }

  /** `RStrip` keeps a prefix, ends on a kept character, and removes only
      dropped ones. */
  lemma {:induction false} RStripSpec(s: string, drop: char -> bool)
    ensures var r := RStrip(s, drop);
            r == s[..|r|] && (r == [] || !drop(r[|r| - 1]))
            && forall i :: |r| <= i < |s| ==> drop(s[i])
  {
    if |s| > 0 && drop(s[|s| - 1]) {
      RStripSpec(s[..|s| - 1], drop);
    }
  }

  /** Drops characters satisfying `drop` from the start: `str.lstrip`. */
  function LStrip(s: string, drop: char -> bool): (r: string)
    ensures |r| <= |s|
  {
    if |s| > 0 && drop(s[0]) then LStrip(s[1..], drop) else s
  }

  /** `LStrip` keeps a suffix, starts on a kept character, and removes only
      dropped ones. */
  lemma {:induction false} LStripSpec(s: string, drop: char -> bool)
    ensures var r := LStrip(s, drop);
            r == s[|s| - |r|..] && (r == [] || !drop(r[0]))
            && forall i :: 0 <= i < |s| - |r| ==> drop(s[i])
  {
    if |s| > 0 && drop(s[0]) {
      LStripSpec(s[1..], drop);
      var r := LStrip(s[1..], drop);
      assert s[1..][|s| - 1 - |r|..] == s[|s| - |r|..];
    }
  }

  /** `str.strip()` with the given character class. */
  function Strip(s: string, drop: char -> bool): string {
    LStrip(RStrip(s, drop), drop)
  }

  /** A string strips to nothing exactly when every character is dropped. */
  lemma StripEmptyIff(s: string, drop: char -> bool)
    ensures Strip(s, drop) == [] <==> forall i :: 0 <= i < |s| ==> drop(s[i])
  {
    var r := RStrip(s, drop);
    RStripSpec(s, drop);
    LStripSpec(r, drop);
    if Strip(s, drop) == [] {
      assert r == [];
    } else {
      assert r == [] || (r[|r| - 1] == s[|r| - 1] && !drop(s[|r| - 1]));
    }
  }

  /** Stripping twice is stripping once. */
  lemma StripIdempotent(s: string, drop: char -> bool)
    ensures Strip(Strip(s, drop), drop) == Strip(s, drop)
  {
    var t := Strip(s, drop);
    var r := RStrip(s, drop);
    RStripSpec(s, drop);
    LStripSpec(r, drop);
    assert RStrip(t, drop) == t by {
      if |t| > 0 {
        assert t == r[|r| - |t|..];
        assert t[|t| - 1] == r[|r| - 1];
      }
    }
  }

  // ---------------------------------------------------------------------
  // Number rendering

  function HexDigit(n: nat): (c: char)
    requires n < 16
    ensures HexDigitValue(c) == n
  {
    if n < 10 then (n + '0' as int) as char else (n - 10 + 'A' as int) as char
  }

  function HexDigitValue(c: char): (n: nat)
    ensures n < 16
  {
    if '0' <= c <= '9' then c as int - '0' as int
    else if 'A' <= c <= 'F' then c as int - 'A' as int + 10
    else 0
  }

  /** `bytes([b]).hex().upper()`: two upper-case hex digits, high nibble first. */
  function HexByte(b: byte): (s: string)
    ensures |s| == 2
    ensures 16 * HexDigitValue(s[0]) + HexDigitValue(s[1]) == b
  {
    [HexDigit(b / 16), HexDigit(b % 16)]
  }

  function DecimalDigit(n: nat): (c: char)
    requires n < 10
    ensures '0' <= c <= '9' && c as int - '0' as int == n
  {
    (n + '0' as int) as char
  }

  /** Value of a string of decimal digits. */
  function DecimalValue(s: string): nat {
    if s == [] then 0
    else 10 * DecimalValue(s[..|s| - 1]) + (if '0' <= s[|s| - 1] <= '9' then s[|s| - 1] as int - '0' as int else 0)
  }

  predicate AllDigits(s: string) {
    forall i :: 0 <= i < |s| ==> '0' <= s[i] <= '9'
  }

  /** `str(n)` for a natural number. */
  function Decimal(n: nat): (s: string)
    ensures |s| >= 1 && AllDigits(s)
    ensures (n == 0) == (s == "0") && (n > 0 ==> s[0] != '0')
  {
    if n < 10 then [DecimalDigit(n)] else Decimal(n / 10) + [DecimalDigit(n % 10)]
  }

  /** `str(n)` reads back as `n`. */
  lemma {:induction false} DecimalRoundTrip(n: nat)
    ensures DecimalValue(Decimal(n)) == n
  {
    if n >= 10 {
      DecimalRoundTrip(n / 10);
      var s := Decimal(n);
      assert s[..|s| - 1] == Decimal(n / 10);
    }
  }

  /** `f"{n:04}"`: decimal, left-padded with zeros to at least four digits. */
  function ZeroPad4(n: nat): string {
    var d := Decimal(n);
    seq(Max(0, 4 - |d|), _ => '0') + d
  }

  /** A run of zeros is worth nothing. */
  lemma {:induction false} ZerosValue(z: string)
    requires forall i :: 0 <= i < |z| ==> z[i] == '0'
    ensures DecimalValue(z) == 0
    decreases |z|
  {
    if z != [] {
      ZerosValue(z[..|z| - 1]);
    }
  }

  /** Leading zeros do not change the value of a digit string. */
  lemma {:induction false} LeadingZeros(z: string, d: string)
    requires forall i :: 0 <= i < |z| ==> z[i] == '0'
    ensures DecimalValue(z + d) == DecimalValue(d)
    decreases |d|
  {
    if d == [] {
      assert z + d == z;
      ZerosValue(z);
    } else {
      LeadingZeros(z, d[..|d| - 1]);
      assert (z + d)[..|z + d| - 1] == z + d[..|d| - 1];
    }
  }

  /** `f"{n:04}"` has at least four characters, all digits, and reads back
      as `n`. */
  lemma ZeroPad4Spec(n: nat)
    ensures var s := ZeroPad4(n);
            |s| == Max(4, |Decimal(n)|) && AllDigits(s) && DecimalValue(s) == n
  {
    var d := Decimal(n);
    var z := seq(Max(0, 4 - |d|), _ => '0');
    LeadingZeros(z, d);
    DecimalRoundTrip(n);
    assert ZeroPad4(n) == z + d;
  }
}
