/**
 * Percent-encoding of one URL path segment, as Go's `url.PathEscape` does it
 * (the `%XX` form of section 2.1 of RFC 3986), and the standard percent-decoder
 * Go's `url.PathUnescape`, used here as its inverse.
 *
 * The bytes kept as they are follow Go's shouldEscape(c, encodePathSegment):
 * ASCII letters and digits, `- _ . ~` and `$ & + : = @`. That is a subset of
 * what section 3.3 of RFC 3986 lets a segment carry unescaped. Every other
 * byte, including `/ ; , ?`, `%`, `#` and space, becomes `%` followed by two
 * upper-case hexadecimal digits.
 */
module UrlPath {
  import opened GoBytes

  const Percent: byte := 37   // '%'

  predicate IsAlnum(c: byte) {
    (Byte('a') <= c <= Byte('z')) || (Byte('A') <= c <= Byte('Z')) || (Byte('0') <= c <= Byte('9'))
  }

  /** The punctuation PathEscape keeps unescaped in a path segment. */
  const SegmentMarks: Bytes := Ascii("-_.~$&+:=@")

  /** True when PathEscape leaves `c` as it is. */
  predicate IsSegmentSafe(c: byte) {
    IsAlnum(c) || c in SegmentMarks
  }

  /** Go's shouldEscape(c, encodePathSegment). */
  predicate ShouldEscape(c: byte) {
    !IsSegmentSafe(c)
  }

  /** The upper-case hexadecimal digit of `n`, as in Go's "0123456789ABCDEF"[n]. */
  function HexDigit(n: int): (d: byte)
    requires 0 <= n < 16
  {
    if n < 10 then (Byte('0') as int + n) as byte else (Byte('A') as int + n - 10) as byte
  }

  /** Go's ishex: a digit, `a`-`f` or `A`-`F`. */
  predicate IsHex(c: byte) {
    (Byte('0') <= c <= Byte('9')) || (Byte('a') <= c <= Byte('f')) || (Byte('A') <= c <= Byte('F'))
  }

  /** Go's unhex: the value of a hexadecimal digit of either case. */
  function Unhex(c: byte): (n: int)
    requires IsHex(c)
    ensures 0 <= n < 16
  {
    if Byte('0') <= c <= Byte('9') then c as int - Byte('0') as int
    else if Byte('a') <= c <= Byte('f') then c as int - Byte('a') as int + 10
    else c as int - Byte('A') as int + 10
  }

  /** The `%XX` triple of one byte. */
  function PercentTriple(c: byte): Bytes {
    [Percent, HexDigit(c as int / 16), HexDigit(c as int % 16)]
  }

  function EscapeByte(c: byte): Bytes {
    if ShouldEscape(c) then PercentTriple(c) else [c]
  }

  /** The number of bytes of `s` that PathEscape rewrites. */
  function EscapeCount(s: Bytes): (n: nat)
    ensures n <= |s|
  {
    if s == [] then 0 else (if ShouldEscape(s[0]) then 1 else 0) + EscapeCount(s[1..])
  }

  /**
   * Go's url.PathEscape(s). Each rewritten byte grows by two, and the result
   * holds only segment-safe bytes and the `%` that starts an escape, so it has
   * no `/`, `?` or `#` that would end the segment or the fragment.
   */
  function PathEscape(s: Bytes): (r: Bytes)
    ensures |r| == |s| + 2 * EscapeCount(s)
    ensures forall i | 0 <= i < |r| :: IsSegmentSafe(r[i]) || r[i] == Percent
  {
    if s == [] then [] else EscapeByte(s[0]) + PathEscape(s[1..])
  }

  /**
   * Go's url.PathUnescape(s): `%` must be followed by two hexadecimal digits
   * (of either case), else the whole call fails (None); every other byte,
   * `+` included, stands for itself.
   */
  function PathUnescape(s: Bytes): (r: Option<Bytes>)
    ensures r.Some? ==> |r.value| <= |s|
    decreases |s|
  {
    if s == [] then Some([])
    else if s[0] == Percent then
      if |s| < 3 || !IsHex(s[1]) || !IsHex(s[2]) then None
      else
        match PathUnescape(s[3..])
        case None => None
        case Some(t) => Some([(Unhex(s[1]) * 16 + Unhex(s[2])) as byte] + t)
    else
      match PathUnescape(s[1..])
      case None => None
      case Some(t) => Some([s[0]] + t)
  }

  lemma PercentIsEscaped()
    ensures ShouldEscape(Percent)
  {
    assert SegmentMarks == [45, 95, 46, 126, 36, 38, 43, 58, 61, 64];
  }

  /** `/`, `?` and `#` are always escaped, so an escaped name cannot end the segment or fragment. */
  lemma SegmentEndersEscaped()
    ensures ShouldEscape(Byte('/')) && ShouldEscape(Byte('?')) && ShouldEscape(Byte('#'))
  {
    assert SegmentMarks == [45, 95, 46, 126, 36, 38, 43, 58, 61, 64];
  }

  lemma HexDigitsDecode(c: byte)
    ensures IsHex(HexDigit(c as int / 16)) && IsHex(HexDigit(c as int % 16))
    ensures Unhex(HexDigit(c as int / 16)) * 16 + Unhex(HexDigit(c as int % 16)) == c as int
  {
  }

  /** Percent-decoding undoes the escaping: every byte string comes back exactly. */
  lemma {:induction false} UnescapeEscape(s: Bytes)
    ensures PathUnescape(PathEscape(s)) == Some(s)
  {
    if s != [] {
      var c, rest := s[0], PathEscape(s[1..]);
      UnescapeEscape(s[1..]);
      var e := EscapeByte(c) + rest;
      assert PathEscape(s) == e;
      if ShouldEscape(c) {
        HexDigitsDecode(c);
        assert e[0] == Percent && e[1] == HexDigit(c as int / 16) && e[2] == HexDigit(c as int % 16);
        assert e[3..] == rest;
      } else {
        PercentIsEscaped();
        assert e[0] == c && e[0] != Percent;
        assert e[1..] == rest;
      }
      assert [c] + s[1..] == s;
    }
  }

  /** Two alarm names never share a link. */
  lemma EscapeInjective(a: Bytes, b: Bytes)
    requires PathEscape(a) == PathEscape(b)
    ensures a == b
  {
    UnescapeEscape(a);
    UnescapeEscape(b);
  }

  lemma {:induction false} EscapeCountZero(s: Bytes)
    ensures EscapeCount(s) == 0 <==> forall i | 0 <= i < |s| :: IsSegmentSafe(s[i])
  {
    if s != [] {
      EscapeCountZero(s[1..]);
      assert forall i | 1 <= i < |s| :: s[i] == s[1..][i - 1];
    }
  }

  /** PathEscape is the identity exactly on strings of segment-safe bytes. */
  lemma {:induction false} EscapeIdentity(s: Bytes)
    ensures PathEscape(s) == s <==> forall i | 0 <= i < |s| :: IsSegmentSafe(s[i])
  {
    EscapeCountZero(s);
    if forall i | 0 <= i < |s| :: IsSegmentSafe(s[i]) {
      if s != [] {
        EscapeIdentity(s[1..]);
        assert forall i | 0 <= i < |s[1..]| :: IsSegmentSafe(s[1..][i]) by {
          forall i | 0 <= i < |s[1..]| ensures IsSegmentSafe(s[1..][i]) {
            assert s[1..][i] == s[i + 1];
          }
        }
        assert [s[0]] + s[1..] == s;
      }
    }
  }

  /** A name of ASCII letters and digits only is carried by the link as it is. */
  lemma AlnumUnchanged(s: Bytes)
    requires forall i | 0 <= i < |s| :: IsAlnum(s[i])
    ensures PathEscape(s) == s
  {
    EscapeIdentity(s);
  }
}
