/** The two failure-carrying datatypes the other modules share. */
module Wrappers {
  datatype Option<+T> = None | Some(value: T)

  datatype Result<+T, +E> = Ok(value: T) | Err(error: E)
}

/** Octets, for the parts of the system that work below text. */
module Bytes {
  newtype byte = x: int | 0 <= x < 0x100

  type Bytes = seq<byte>
}

/** A fact about sequences that several modules lean on. */
module Seqs {
  lemma Assoc<T>(a: seq<T>, b: seq<T>, c: seq<T>)
    ensures a + (b + c) == (a + b) + c
  {
  }
}
