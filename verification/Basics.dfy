/** Small value types that every other module uses. */
module Basics {

  datatype Option<+T> = None | Some(value: T)

  newtype byte = b: int | 0 <= b < 256

  type Bytes = seq<byte>

  /** A SHA-256 digest, abstracted to an injective function of the bytes: two files have the
      same digest exactly when they have the same content. */
  datatype Digest = Sha256(of: Bytes)

  function Hash(content: Bytes): Digest {
    Sha256(content)
  }
}
