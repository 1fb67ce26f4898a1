/**
 Shared vocabulary: optional and failing results, and JavaScript text as the
 sequence of its UTF-16 code units, measured in UTF-8 bytes the way
 `TextEncoder` writes it.
 */
module Basics {

  datatype Option<+T> = None | Some(value: T)

  datatype Result<+T, +E> = Ok(value: T) | Err(error: E)

  /** Largest integer that `Number.isSafeInteger` admits. */
  const MAX_SAFE_INTEGER: int := 0x1F_FFFF_FFFF_FFFF

  newtype CodeUnit = x: int | 0 <= x < 0x1_0000

  type Text = seq<CodeUnit>

  predicate HighSurrogate(u: CodeUnit) { 0xD800 <= u < 0xDC00 }

  predicate LowSurrogate(u: CodeUnit) { 0xDC00 <= u < 0xE000 }

  /**
   UTF-8 size of a string. A surrogate pair takes four bytes; a lone surrogate
   is written as U+FFFD, three bytes.
   */
  function ByteLength(t: Text): (n: nat)
    ensures |t| <= n <= 3 * |t|
  {
    if t == [] then 0
    else if t[0] < 0x80 then 1 + ByteLength(t[1..])
    else if t[0] < 0x800 then 2 + ByteLength(t[1..])
    else if HighSurrogate(t[0]) && |t| > 1 && LowSurrogate(t[1]) then 4 + ByteLength(t[2..])
    else 3 + ByteLength(t[1..])
  }
}
