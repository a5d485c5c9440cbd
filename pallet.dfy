/**
 * The pallet's storage and its three dispatchable calls.
 *
 * The storage is the `NextGameId` counter and the `Games` map; the events the
 * calls deposit are appended to a log. The signed origin is a plain `caller`
 * parameter. A call that fails returns before it changes anything, which is
 * what the runtime's rollback guarantees for a failed dispatchable.
 */
module RockPaperScissors {
  import opened Movement
  import opened Commitment
  import opened GameStates

  type GameId = nat

  /** The pallet's errors that a call can return. */
  datatype Error = GameNotFound | GameIsFull | PlayerAlreadyInGame | PlayerNotInGame | InvalidHash

  /**
   * How a call ends: `Ok(())`, one of the pallet's errors, or a panic of
   * an `unwrap` (the whole call is then discarded).
   */
  datatype CallOutcome = Ok | Err(error: Error) | Panic

  datatype Event<A> =
    | GameCreated(gameId: GameId)
    | PlayerMadeMovement(player: A)
    | GameFinished(gameId: GameId, result: GameResult, winner: Option<A>)

  /** Who wins a resolved game: the caller on `Win`, the named second player on `Lose`, nobody otherwise. */
  function WinnerOf<A>(result: GameResult, caller: A, player2: A): (w: Option<A>)
    ensures w.Some? <==> result == Win || result == Lose
    ensures result == Win ==> w == Some(caller)
    ensures result == Lose ==> w == Some(player2)
  {
    match result
    case Win => Some(caller)
    case Lose => Some(player2)
    case _ => None
  }

  /** Every stored game has an id already handed out and is well formed. */
  ghost predicate StoreInvariant<A>(nextGameId: GameId, games: map<GameId, GameState<A>>) {
    forall id :: id in games ==> 1 <= id <= nextGameId && WellFormed(games[id])
  }

  /** Storing a well-formed game under an id already handed out keeps the invariant. */
  lemma StoreInvariantAfterInsert<A>(
    nextGameId: GameId, games: map<GameId, GameState<A>>, gameId: GameId, g: GameState<A>)
    requires StoreInvariant(nextGameId, games)
    requires 1 <= gameId <= nextGameId && WellFormed(g)
    ensures StoreInvariant(nextGameId, games[gameId := g])
  {
  }

  /**
   * The checks `reveal_winner` makes on a stored game, in its order: both
   * named players hold a slot, both slots can be unwrapped, and both revealed
   * pairs verify against the commitment in their slot.
   */
  ghost function RevealGate<A>(
    h: Hasher, g: GameState<A>, caller: A, player2: A,
    m1: GameMovement, s1: Secret, m2: GameMovement, s2: Secret): (r: CallOutcome)
    ensures r == Ok ==> CommitmentsMatch(h, g, m1, s1, m2, s2)
    ensures r.Err? ==> r.error == PlayerNotInGame || r.error == InvalidHash
    ensures r == Err(PlayerNotInGame) <==> caller !in Players(g) || player2 !in Players(g)
  {
    if caller !in Players(g) || player2 !in Players(g) then Err(PlayerNotInGame)
    else if g.player1.None? || g.player2.None? then Panic
    else if !CommitmentsMatch(h, g, m1, s1, m2, s2) then Err(InvalidHash)
    else Ok
  }

  /**
   * In a well-formed game the `unwrap`s panic exactly when the player alone
   * in the game names themself as the second player.
   */
  lemma RevealPanicsOnlyOnSelfNaming<A>(
    h: Hasher, g: GameState<A>, caller: A, player2: A,
    m1: GameMovement, s1: Secret, m2: GameMovement, s2: Secret)
    requires WellFormed(g)
    ensures RevealGate(h, g, caller, player2, m1, s1, m2, s2) == Panic <==>
      g.player1.Some? && g.player2.None? && caller == player2 == g.player1.value.player
  {
  }

  /** A reveal passes the checks only on a full game whose two commitments verify. */
  lemma RevealGateOk<A>(
    h: Hasher, g: GameState<A>, caller: A, player2: A,
    m1: GameMovement, s1: Secret, m2: GameMovement, s2: Secret)
    ensures RevealGate(h, g, caller, player2, m1, s1, m2, s2) == Ok <==>
      FilledSlots(g) == 2 && caller in Players(g) && player2 in Players(g) &&
      New(h, m1, s1) == g.player1.value.movement && New(h, m2, s2) == g.player2.value.movement
  {
  }

  /**
   * The game after a reveal that passed the checks: a resolved game is kept
   * as it is; an unresolved one takes `result` and the winner it implies.
   */
  function Resolved<A>(g: GameState<A>, result: GameResult, caller: A, player2: A): (r: GameState<A>)
    ensures r.player1 == g.player1 && r.player2 == g.player2
    ensures g.gameResult != NotPlayed ==> r == g
    ensures g.gameResult == NotPlayed ==>
      r.gameResult == result &&
      (result == Win ==> r.winner == Some(caller)) &&
      (result == Lose ==> r.winner == Some(player2)) &&
      (result == Draw ==> r.winner == None)
  {
    if g.gameResult != NotPlayed then g
    else g.(gameResult := result, winner := WinnerOf(result, caller, player2))
  }

  /** Once resolved, a game is not changed by any later reveal. */
  lemma ResolvedIsIdempotent<A>(
    g: GameState<A>, r1: GameResult, c1: A, p1: A, r2: GameResult, c2: A, p2: A)
    requires r1 != NotPlayed
    ensures Resolved(Resolved(g, r1, c1, p1), r2, c2, p2) == Resolved(g, r1, c1, p1)
    ensures Resolved(g, r1, c1, p1).gameResult != NotPlayed
  {
  }

  /**
   * Resolving a well-formed game that passed the checks gives a well-formed
   * game.
   */
  lemma ResolvedIsWellFormed<A>(
    h: Hasher, g: GameState<A>, caller: A, player2: A,
    m1: GameMovement, s1: Secret, m2: GameMovement, s2: Secret)
    requires WellFormed(g)
    requires RevealGate(h, g, caller, player2, m1, s1, m2, s2) == Ok
    ensures WellFormed(Resolved(g, Play(m1, m2), caller, player2))
  {
  }

  /**
   * In a full, unresolved game, a participant who reveals first and names
   * themself as the second player passes the checks and is recorded as the
   * winner of every game that is not a draw, whichever move won; no later
   * reveal changes that.
   */
  lemma SelfNamingClaimsEveryDecidedGame<A>(
    h: Hasher, g: GameState<A>, caller: A,
    m1: GameMovement, s1: Secret, m2: GameMovement, s2: Secret,
    laterResult: GameResult, laterCaller: A, laterPlayer2: A)
    requires g.gameResult == NotPlayed && caller in Players(g)
    requires CommitmentsMatch(h, g, m1, s1, m2, s2)
    requires m1 != m2
    ensures RevealGate(h, g, caller, caller, m1, s1, m2, s2) == Ok
    ensures Resolved(g, Play(m1, m2), caller, caller).winner == Some(caller)
    ensures Resolved(Resolved(g, Play(m1, m2), caller, caller), laterResult, laterCaller, laterPlayer2).winner
      == Some(caller)
  {
  }

  /**
   * The checks of `reveal_winner` on the game it read: the caller and
   * `player2` must hold slots, the two slots are unwrapped, and each revealed
   * pair must verify against its slot's commitment.
   */
  method CheckReveal<A(==)>(
    h: Hasher, gameState: GameState<A>, caller: A, player2: A,
    player1Movement: GameMovement, player1Secret: Secret,
    player2Movement: GameMovement, player2Secret: Secret)
    returns (r: CallOutcome)
    ensures r == RevealGate(h, gameState, caller, player2,
      player1Movement, player1Secret, player2Movement, player2Secret)
  {
    var hasPlayer1 := HasPlayer(gameState, caller);
    if !hasPlayer1 {
      return Err(PlayerNotInGame);
    }
    var hasPlayer2 := HasPlayer(gameState, player2);
    if !hasPlayer2 {
      return Err(PlayerNotInGame);
    }
    if gameState.player1.None? || gameState.player2.None? {
      return Panic;
    }
    var p1 := gameState.player1.value;
    var p2 := gameState.player2.value;
    if !IsEqual(h, p1.movement, player1Movement, player1Secret) {
      return Err(InvalidHash);
    }
    if !IsEqual(h, p2.movement, player2Movement, player2Secret) {
      return Err(InvalidHash);
    }
    r := Ok;
  }

  class Pallet<A(==)> {
    /** `sp_io::hashing::twox_64`. */
    const hash: Hasher
    /** `NextGameId`: the id of the last game created, 0 before the first. */
    var nextGameId: GameId
    /** `Games`. */
    var games: map<GameId, GameState<A>>
    /** The events deposited so far, oldest first. */
    var events: seq<Event<A>>

    ghost predicate Valid()
      reads this
    {
      StoreInvariant(nextGameId, games)
    }

    /** Genesis: no game yet. */
    constructor (hash: Hasher)
      ensures Valid()
      ensures this.hash == hash && nextGameId == 0 && games == map[] && events == []
    {
      this.hash := hash;
      nextGameId := 0;
      games := map[];
      events := [];
    }

    /** `create_game`: allocate the next id and store an empty game under it. */
    method CreateGame(caller: A)
      requires Valid()
      modifies this
      ensures Valid()
      ensures nextGameId == old(nextGameId) + 1
      ensures nextGameId !in old(games)
      ensures games == old(games)[nextGameId := Default()]
      ensures events == old(events) + [GameCreated(nextGameId)]
    {
      nextGameId := nextGameId + 1;
      var gameId := nextGameId;
      games := games[gameId := Default()];
      events := events + [GameCreated(gameId)];
    }

    /** `play_game`: join a game with a move and a secret, of which only the commitment is stored. */
    method PlayGame(caller: A, gameId: GameId, movement: GameMovement, secret: Secret)
      returns (r: CallOutcome)
      requires Valid()
      modifies this
      ensures Valid() && nextGameId == old(nextGameId)
      ensures r == Err(GameNotFound) <==> gameId !in old(games)
      ensures r == Err(GameIsFull) <==>
        gameId in old(games) && !HasFreeSlots(old(games)[gameId])
      ensures r == Err(PlayerAlreadyInGame) <==>
        gameId in old(games) && HasFreeSlots(old(games)[gameId]) && caller in Players(old(games)[gameId])
      ensures r == Ok <==>
        gameId in old(games) && HasFreeSlots(old(games)[gameId]) && caller !in Players(old(games)[gameId])
      ensures r != Ok ==> games == old(games) && events == old(events)
      ensures r == Ok ==>
        games == old(games)[gameId := Seated(old(games)[gameId], PlayerMovement(caller, New(hash, movement, secret)))] &&
        events == old(events) + [PlayerMadeMovement(caller)]
    {
      if gameId !in games {
        return Err(GameNotFound);
      }
      var gameState := games[gameId];
      if !HasFreeSlots(gameState) {
        return Err(GameIsFull);
      }
      var present := HasPlayer(gameState, caller);
      if present {
        return Err(PlayerAlreadyInGame);
      }
      var added;
      gameState, added := AddPlayer(hash, gameState, caller, movement, secret);
      SeatedFillsOneSlot(games[gameId], PlayerMovement(caller, New(hash, movement, secret)));
      StoreInvariantAfterInsert(nextGameId, games, gameId, gameState);
      games := games[gameId := gameState];
      events := events + [PlayerMadeMovement(caller)];
      r := Ok;
    }

    /**
     * `reveal_winner`: the caller reveals the move and secret behind slot 1
     * and, for the player named `player2`, those behind slot 2; the first
     * reveal of a game resolves it and later ones report the stored outcome.
     */
    method RevealWinner(
      caller: A, gameId: GameId,
      player1Movement: GameMovement, player1Secret: Secret,
      player2: A,
      player2Movement: GameMovement, player2Secret: Secret)
      returns (r: CallOutcome)
      requires Valid()
      modifies this
      ensures Valid() && nextGameId == old(nextGameId)
      ensures r == if gameId !in old(games) then Err(GameNotFound) else
        RevealGate(hash, old(games)[gameId], caller, player2,
          player1Movement, player1Secret, player2Movement, player2Secret)
      ensures r != Ok ==> games == old(games) && events == old(events)
      ensures r == Ok ==>
        games == old(games)[gameId := Resolved(old(games)[gameId], Play(player1Movement, player2Movement), caller, player2)]
      ensures r == Ok && old(games)[gameId].gameResult != NotPlayed ==> games == old(games)
      ensures r == Ok ==>
        gameId in games && games[gameId].gameResult != NotPlayed &&
        events == old(events) + [GameFinished(gameId, games[gameId].gameResult, games[gameId].winner)]
    {
      if gameId !in games {
        return Err(GameNotFound);
      }
      var gameState := games[gameId];
      assert WellFormed(gameState);
      r := CheckReveal(hash, gameState, caller, player2,
        player1Movement, player1Secret, player2Movement, player2Secret);
      if r != Ok {
        return;
      }

      if gameState.gameResult != NotPlayed {
        events := events + [GameFinished(gameId, gameState.gameResult, gameState.winner)];
        return Ok;
      }

      var gameResult := Play(player1Movement, player2Movement);
      match gameResult {
        case Win =>
          gameState := gameState.(winner := Some(caller));
        case Lose =>
          gameState := gameState.(winner := Some(player2));
        case Draw =>
          gameState := gameState.(gameResult := Draw);
        case NotPlayed =>
      }
      var winner := gameState.winner;
      gameState := gameState.(gameResult := gameResult);
      ResolvedIsWellFormed(hash, games[gameId], caller, player2,
        player1Movement, player1Secret, player2Movement, player2Secret);
      assert gameState == Resolved(games[gameId], gameResult, caller, player2);
      StoreInvariantAfterInsert(nextGameId, games, gameId, gameState);
      games := games[gameId := gameState];
      events := events + [GameFinished(gameId, gameResult, winner)];
      r := Ok;
    }
  }
}
