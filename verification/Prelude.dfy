/** Shared value types: optional values, results, bytes and digests. */
module Prelude {

  datatype Option<+T> = None | Some(value: T)

  datatype Result<+T, +E> = Ok(value: T) | Err(error: E)

  newtype Byte = x: int | 0 <= x < 256

  type Bytes = seq<Byte>

  /** A SHA-256 digest: always 32 bytes. */
  type Digest = d: Bytes | |d| == 32 witness seq(32, _ => 0)

  /** Two different inputs with one digest. */
  ghost predicate Collision(sha: Bytes -> Digest, x: Bytes, y: Bytes) {
    x != y && sha(x) == sha(y)
  }
}
