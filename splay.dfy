/**
 * The start-up delay ("splay") of the scheduled run (recipes/cron.rb, the block
 * that sets sleep_time). Each node sleeps a fixed number of seconds below the
 * configured splay before the client starts, so that a fleet does not wake at
 * once; the number is derived from the node, not drawn at random.
 */
module Splay {
  import opened Options
  import opened Text

  /** An MD5 digest (RFC 1321) is 128 bits, written as 32 hexadecimal digits. */
  const DigestHexDigits: nat := 32

  /**
   * The seed: the node's shard_seed when it is set, otherwise the node name's
   * hexadecimal MD5 digest read by String#hex. The digest itself is a parameter.
   */
  function Seed(shardSeed: Option<int>, nodeName: string, hexdigest: string -> string): int {
    match shardSeed
    case Some(s) => s
    case None => Hex(hexdigest(nodeName))
  }

  /**
   * sleep_time: `seed % splay` when the configured splay (as an integer) is
   * positive, nil otherwise. Ruby's `%` with a positive divisor is floored, which
   * agrees with Dafny's Euclidean `%`, so the offset is never negative, even for
   * a negative shard_seed.
   */
  function SleepTime(splay: int, shardSeed: Option<int>, nodeName: string, hexdigest: string -> string): (r: Option<nat>)
    ensures r.Some? <==> splay > 0
    ensures r.Some? ==> r.value < splay
  {
    if splay > 0 then Some(Seed(shardSeed, nodeName, hexdigest) % splay) else None
  }

  /** A set shard_seed decides the offset: neither the node name nor the digest matters then. */
  lemma ShardSeedTakesPrecedence(splay: int, seed: int, name1: string, name2: string,
                                 digest1: string -> string, digest2: string -> string)
    ensures SleepTime(splay, Some(seed), name1, digest1) == SleepTime(splay, Some(seed), name2, digest2)
    ensures splay > 0 ==> SleepTime(splay, Some(seed), name1, digest1) == Some(seed % splay)
  {
  }

  /**
   * Without a shard_seed, a node whose digest is the 128-bit number `d` sleeps
   * `d % splay` seconds: reading the 32-digit hex text back gives `d` itself.
   */
  lemma DigestSeed(splay: int, nodeName: string, hexdigest: string -> string, d: nat)
    requires splay > 0
    requires d < Pow16(DigestHexDigits)
    requires hexdigest(nodeName) == ToHex(d, DigestHexDigits)
    ensures SleepTime(splay, None, nodeName, hexdigest) == Some(d % splay)
  {
    HexRoundTrip(d, DigestHexDigits);
  }

  /** Nodes with the same name (and no shard_seed) get the same offset on every run. */
  lemma SameNodeSameOffset(splay: int, nodeName: string, hexdigest: string -> string, other: string)
    requires hexdigest(nodeName) == hexdigest(other)
    ensures SleepTime(splay, None, nodeName, hexdigest) == SleepTime(splay, None, other, hexdigest)
  {
  }
}
