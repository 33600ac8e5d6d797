/** The hash the audit chain and the key derivation are built on. */
module Hashing {
  import opened Utf8

  type Digest = d: Bytes | |d| == 32 witness seq(32, _ => 0)

  /** SHA-256 stands here as an arbitrary total function. Nothing is assumed of it, so a
      result that rests on it names the two inputs that would collide. */
  type Hash = Bytes -> Digest
}
