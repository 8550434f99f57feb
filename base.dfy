/** Small shared vocabulary: optional values, results, bytes and the prefix and
    suffix tests of Go's `strings` package. */
module Base {

  datatype Option<+T> = None | Some(value: T)

  /** A value or an error, for the Go idiom `(value, err)`. */
  datatype Result<+T, +E> = Ok(value: T) | Err(error: E)

  newtype byte = x: int | 0 <= x < 256

  type Bytes = seq<byte>

  /** `strings.HasPrefix(s, p)`. */
  predicate HasPrefix(s: string, p: string)
  {
    |p| <= |s| && s[..|p|] == p
  }

  /** `strings.HasSuffix(s, p)`. */
  predicate HasSuffix(s: string, p: string)
  {
    |p| <= |s| && s[|s| - |p|..] == p
  }

  /** The message of `errors.Wrap(cause, msg)`: the new text, a colon, then the cause. */
  function Wrap(msg: string, cause: string): (r: string)
    ensures HasPrefix(r, msg + ": ") && HasSuffix(r, cause)
  {
    msg + ": " + cause
  }
}
