/**
 * The state of one game: two player slots, the result and the winner.
 *
 * `GameState` is a plain (copyable) value: the store keeps it by value, and a
 * dispatchable reads a copy, changes that copy and writes it back. So it is a
 * datatype here, and `add_player`, which changes the copy it is called on,
 * is a method that takes the old value and returns the new one.
 */
module GameStates {
  import opened Movement
  import opened Commitment

  datatype Option<T> = None | Some(value: T)

  /** A filled slot: who joined, and the commitment to their move. */
  datatype PlayerMovement<A> = PlayerMovement(player: A, movement: SecretGameMovement)

  datatype GameState<A> = GameState(
    player1: Option<PlayerMovement<A>>,
    player2: Option<PlayerMovement<A>>,
    gameResult: GameResult,
    winner: Option<A>)

  /** The players holding a slot. */
  ghost function Players<A>(g: GameState<A>): set<A> {
    (if g.player1.Some? then {g.player1.value.player} else {}) +
    (if g.player2.Some? then {g.player2.value.player} else {})
  }

  /** How many of the two slots are filled. */
  function FilledSlots<A>(g: GameState<A>): nat {
    (if g.player1.Some? then 1 else 0) + (if g.player2.Some? then 1 else 0)
  }

  /**
   * The invariant every stored game keeps: slot 1 fills before slot 2, the
   * two slots hold different players, a resolved game has both slots filled,
   * and there is a winner exactly when the result is `Win` or `Lose`, and
   * then the winner holds a slot.
   */
  ghost predicate WellFormed<A>(g: GameState<A>) {
    (g.player2.Some? ==> g.player1.Some?) &&
    (g.player1.Some? && g.player2.Some? ==> g.player1.value.player != g.player2.value.player) &&
    (g.gameResult != NotPlayed ==> g.player1.Some? && g.player2.Some?) &&
    (g.winner.Some? <==> g.gameResult == Win || g.gameResult == Lose) &&
    (g.winner.Some? ==> g.winner.value in Players(g))
  }

  /** `GameState::default`: a fresh game. */
  function Default<A>(): (g: GameState<A>)
    ensures FilledSlots(g) == 0 && Players(g) == {}
    ensures g.gameResult == NotPlayed && g.winner == None
    ensures WellFormed(g)
  {
    GameState(None, None, NotPlayed, None)
  }

  /** `has_free_slots`: at least one slot is empty. */
  function HasFreeSlots<A>(g: GameState<A>): (r: bool)
    ensures r <==> FilledSlots(g) < 2
  {
    g.player1.None? || g.player2.None?
  }

  /** `has_player`: whether `player` holds one of the slots. */
  method HasPlayer<A(==)>(g: GameState<A>, player: A) returns (found: bool)
    ensures found <==> player in Players(g)
  {
    found := false;
    match g.player1 {
      case Some(val) =>
        if val.player == player {
          found := true;
        }
      case None =>
    }
    match g.player2 {
      case Some(val) =>
        if val.player == player {
          found := true;
        }
      case None =>
    }
  }

  /** `g` with `pm` placed in its first empty slot. */
  ghost function Seated<A>(g: GameState<A>, pm: PlayerMovement<A>): GameState<A>
    requires HasFreeSlots(g)
  {
    if g.player1.None? then g.(player1 := Some(pm)) else g.(player2 := Some(pm))
  }

  /**
   * Seating fills one more slot with the new player and changes nothing else;
   * a well-formed game stays well formed when the new player was not in it.
   */
  lemma SeatedFillsOneSlot<A>(g: GameState<A>, pm: PlayerMovement<A>)
    requires HasFreeSlots(g)
    ensures FilledSlots(Seated(g, pm)) == FilledSlots(g) + 1
    ensures Players(Seated(g, pm)) == Players(g) + {pm.player}
    ensures Seated(g, pm).gameResult == g.gameResult && Seated(g, pm).winner == g.winner
    ensures WellFormed(g) && pm.player !in Players(g) ==> WellFormed(Seated(g, pm))
  {
  }

  /**
   * `add_player`: put the player and the commitment to their move in the
   * first empty slot and answer true, or answer false when both are taken.
   */
  method AddPlayer<A>(h: Hasher, g: GameState<A>, player: A, movement: GameMovement, secret: Secret)
    returns (g': GameState<A>, added: bool)
    ensures added <==> HasFreeSlots(g)
    ensures added ==> g' == Seated(g, PlayerMovement(player, New(h, movement, secret)))
    ensures !added ==> g' == g
  {
    var playerMovement := Some(PlayerMovement(player, New(h, movement, secret)));
    g' := g;
    if g'.player1.None? {
      g' := g'.(player1 := playerMovement);
    } else if g'.player2.None? {
      g' := g'.(player2 := playerMovement);
    } else {
      return g', false;
    }
    added := true;
  }

  /** Both slots are filled and each verifies against the revealed pair given for it. */
  predicate CommitmentsMatch<A>(
    h: Hasher, g: GameState<A>,
    m1: GameMovement, s1: Secret, m2: GameMovement, s2: Secret)
  {
    g.player1.Some? && g.player2.Some? &&
    IsEqual(h, g.player1.value.movement, m1, s1) &&
    IsEqual(h, g.player2.value.movement, m2, s2)
  }
}
