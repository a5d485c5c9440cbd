/**
 * The commitment the pallet stores when a player joins a game. The player
 * submits a move and a secret; the pallet keeps only the 64-bit hash of the
 * move's tag followed by the eight bytes of the secret.
 *
 * The hash (`twox_64`, xxHash64) is code this model cannot see, so it is a
 * parameter of type `Hasher`: any function from byte strings to eight bytes.
 * Nothing is assumed about it, so what can be proved is that verifying is
 * recomputing and comparing, and that accepting a different (move, secret)
 * for the same commitment needs a collision of the hash.
 */
module Commitment {
  import opened Bytes
  import opened Movement

  type Secret = u64

  /** `[u8; 8]`, the output of `twox_64`. */
  type Digest = s: seq<u8> | |s| == 8 witness [0, 0, 0, 0, 0, 0, 0, 0]

  /** The 64-bit hash function, supplied by the runtime. */
  type Hasher = seq<u8> -> Digest

  /** `SecretGameMovement`: a committed move. */
  datatype SecretGameMovement = SecretGameMovement(digest: Digest)

  /** The bytes that are hashed: the move's tag, then the secret's eight bytes. */
  function CommitmentInput(movement: GameMovement, secret: Secret): (bs: seq<u8>)
    ensures |bs| == 9
    ensures bs[..1] == ToBytes(movement)
    ensures FromLeBytes(bs[1..]) == secret
  {
    var bs := ToBytes(movement) + ToNeBytes(secret);
    assert bs[1..] == ToNeBytes(secret);
    bs
  }

  /** The input to the hash determines the move and the secret. */
  lemma CommitmentInputInjective(m1: GameMovement, s1: Secret, m2: GameMovement, s2: Secret)
    requires CommitmentInput(m1, s1) == CommitmentInput(m2, s2)
    ensures m1 == m2 && s1 == s2
  {
  }

  /** `SecretGameMovement::new`. */
  function New(h: Hasher, movement: GameMovement, secret: Secret): SecretGameMovement {
    SecretGameMovement(h(CommitmentInput(movement, secret)))
  }

  /** `SecretGameMovement::is_equal`: recompute the commitment and compare. */
  function IsEqual(h: Hasher, c: SecretGameMovement, movement: GameMovement, secret: Secret): bool {
    New(h, movement, secret) == c
  }

  /** Two distinct byte strings with the same hash. */
  ghost predicate Collision(h: Hasher, x: seq<u8>, y: seq<u8>) {
    x != y && h(x) == h(y)
  }

  /** A commitment always verifies against the move and secret it was made from. */
  lemma CommitThenVerify(h: Hasher, movement: GameMovement, secret: Secret)
    ensures IsEqual(h, New(h, movement, secret), movement, secret)
  {
  }

  /** The commitment depends on the move and the secret only, and on both. */
  lemma IsEqualIffSameCommitment(h: Hasher, c: SecretGameMovement, movement: GameMovement, secret: Secret)
    ensures IsEqual(h, c, movement, secret) <==> c.digest == h(CommitmentInput(movement, secret))
  {
  }

  /**
   * Binding: if one commitment verifies against two different (move, secret)
   * pairs, their hash inputs are a collision of the hash.
   */
  lemma SubstitutionNeedsCollision(
    h: Hasher, c: SecretGameMovement,
    m1: GameMovement, s1: Secret, m2: GameMovement, s2: Secret)
    requires IsEqual(h, c, m1, s1) && IsEqual(h, c, m2, s2)
    requires m1 != m2 || s1 != s2
    ensures Collision(h, CommitmentInput(m1, s1), CommitmentInput(m2, s2))
  {
  }
}
