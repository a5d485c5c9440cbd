/**
 * The moves of the game, how two moves are resolved against each other,
 * and the one-byte tag each move is hashed under.
 */
module Movement {
  import opened Bytes

  datatype GameMovement = Rock | Paper | Scissors

  /**
   * Outcome of a game. `Win` and `Lose` are from the point of view of the
   * first move passed to `Play`; `NotPlayed` is the state of a game that has
   * not been resolved yet.
   */
  datatype GameResult = NotPlayed | Win | Lose | Draw

  /** Cyclic dominance: Rock beats Scissors, Scissors beats Paper, Paper beats Rock. */
  predicate Beats(a: GameMovement, b: GameMovement) {
    match a
    case Rock => b == Scissors
    case Scissors => b == Paper
    case Paper => b == Rock
  }

  /** `self.play(other)`: the outcome for `self` of playing against `other`. */
  function Play(self: GameMovement, other: GameMovement): (r: GameResult)
    ensures r != NotPlayed
    ensures r == Draw <==> self == other
    ensures r == Win <==> Beats(self, other)
    ensures r == Lose <==> Beats(other, self)
  {
    match self
    case Rock => (
      match other
      case Rock => Draw
      case Paper => Lose
      case Scissors => Win)
    case Paper => (
      match other
      case Rock => Win
      case Paper => Draw
      case Scissors => Lose)
    case Scissors => (
      match other
      case Rock => Lose
      case Paper => Win
      case Scissors => Draw)
  }

  /** The outcome seen from the other side: `Win` and `Lose` swap, the rest stay. */
  function Swapped(r: GameResult): GameResult {
    match r
    case Win => Lose
    case Lose => Win
    case _ => r
  }

  /** Exchanging the two moves exchanges `Win` and `Lose` and keeps `Draw`. */
  lemma PlayAntisymmetric(a: GameMovement, b: GameMovement)
    ensures Play(b, a) == Swapped(Play(a, b))
    ensures Play(a, b) == Win <==> Play(b, a) == Lose
  {
  }

  /** Every move beats exactly one move and is beaten by exactly one move. */
  lemma {:induction false} BeatsIsCyclic(a: GameMovement)
    ensures exists b :: Beats(a, b) && forall c :: Beats(a, c) ==> c == b
    ensures exists b :: Beats(b, a) && forall c :: Beats(c, a) ==> c == b
  {
    match a
    case Rock =>
      assert Beats(Rock, Scissors) && Beats(Paper, Rock);
    case Paper =>
      assert Beats(Paper, Rock) && Beats(Scissors, Paper);
    case Scissors =>
      assert Beats(Scissors, Paper) && Beats(Rock, Scissors);
  }

  /** `to_bytes`: the move's one-byte tag. */
  function ToBytes(m: GameMovement): (b: seq<u8>)
    ensures |b| == 1 && 1 <= b[0] <= 3
  {
    match m
    case Rock => [1]
    case Paper => [2]
    case Scissors => [3]
  }

  /** The tags are 1, 2 and 3 for Rock, Paper and Scissors. */
  lemma ToBytesTags()
    ensures ToBytes(Rock) == [1] && ToBytes(Paper) == [2] && ToBytes(Scissors) == [3]
  {
  }

  /** Different moves have different tags. */
  lemma ToBytesInjective(a: GameMovement, b: GameMovement)
    requires ToBytes(a) == ToBytes(b)
    ensures a == b
  {
  }
}
