/** Go strings are byte strings; this module gives them a Dafny shape. */
module GoBytes {

  /** One byte of a Go string. */
  newtype byte = b: int | 0 <= b < 256

  /** A Go `string` (or `[]byte`): a sequence of bytes. */
  type Bytes = seq<byte>

  /** The conventional Some/None datatype; `None` stands for Go's nil. */
  datatype Option<+T> = None | Some(value: T)

  predicate IsAscii(s: string) {
    forall i | 0 <= i < |s| :: s[i] as int < 128
  }

  /** The bytes of a Go string literal written in ASCII. */
  function Ascii(s: string): Bytes
    requires IsAscii(s)
  {
    seq(|s|, i requires 0 <= i < |s| => s[i] as int as byte)
  }

  /** Two ASCII strings join into an ASCII string; long literals are checked piecewise. */
  lemma AsciiConcat(a: string, b: string)
    requires IsAscii(a) && IsAscii(b)
    ensures IsAscii(a + b)
  {
    assert forall i | |a| <= i < |a + b| :: (a + b)[i] == b[i - |a|];
  }

  /** The single byte of an ASCII character. */
  function Byte(c: char): byte
    requires c as int < 128
  {
    c as int as byte
  }
}
