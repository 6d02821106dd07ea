/** Go values as the router sees them: bytes, nil-able values and `error` returns. */
module GoTypes {

  newtype byte = x: int | 0 <= x < 256

  /** A Go `string` or `[]byte`: an immutable sequence of bytes. Converting between
      the two (`[]byte(str)`, `string(b)`) leaves the bytes as they are. */
  type Bytes = seq<byte>

  /** An `error` produced by code outside this model (the network, the JSON codec);
      only its identity matters here. */
  type Error = nat

  /** A value that may be `nil`. */
  datatype Option<+T> = None | Some(value: T)

  /** What a foreign call returns: a value and a nil error, or a non-nil error. */
  datatype Result<+T> = Ok(value: T) | Err(error: Error)

  /** The bytes of an ASCII string literal: each character below 128 is the one byte
      of its code, as in UTF-8. Other characters are not encoded as UTF-8 would. */
  function Ascii(s: string): (b: Bytes)
    ensures |b| == |s|
    ensures forall i :: 0 <= i < |s| && s[i] as int < 128 ==> b[i] as int == s[i] as int
  {
    seq(|s|, i requires 0 <= i < |s| => (s[i] as int % 256) as byte)
  }
}
