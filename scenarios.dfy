/**
 * Call sequences from genesis, with what the contracts of the calls
 * imply about their results. Accounts are numbers; the hash is left open,
 * except where a sequence needs two commitments to differ.
 */
module Scenarios {
  import opened Movement
  import opened Commitment
  import opened GameStates
  import opened RockPaperScissors

  const ALICE: int := 1
  const BOB: int := 2
  const DAVE: int := 3
  const A_SECRET: Secret := 1
  const ANOTHER_SECRET: Secret := 2

  /** The first game created gets id 1 and is stored empty. */
  method FirstGameHasIdOne(h: Hasher) returns (gameId: GameId, game: GameState<int>, last: Event<int>)
    ensures gameId == 1 && game == Default() && last == GameCreated(1)
  {
    var pallet := new Pallet<int>(h);
    pallet.CreateGame(ALICE);
    gameId := pallet.nextGameId;
    game := pallet.games[gameId];
    last := pallet.events[|pallet.events| - 1];
  }

  /** A game with Alice in slot 1 and Bob in slot 2, and no reveal yet. */
  method TwoPlayerGame(h: Hasher, aliceMove: GameMovement, aliceSecret: Secret, bobMove: GameMovement, bobSecret: Secret)
    returns (pallet: Pallet<int>)
    ensures fresh(pallet) && pallet.Valid() && pallet.hash == h && 1 in pallet.games
    ensures pallet.games[1] == GameState(
      Some(PlayerMovement(ALICE, New(h, aliceMove, aliceSecret))),
      Some(PlayerMovement(BOB, New(h, bobMove, bobSecret))),
      NotPlayed, None)
  {
    pallet := new Pallet<int>(h);
    pallet.CreateGame(ALICE);
    var r1 := pallet.PlayGame(ALICE, 1, aliceMove, aliceSecret);
    var r2 := pallet.PlayGame(BOB, 1, bobMove, bobSecret);
  }

  /** Joining a game that was never created gets `GameNotFound`; nothing changes. */
  method JoinMissingGame(h: Hasher) returns (r: CallOutcome, untouched: bool)
    ensures r == Err(GameNotFound) && untouched
  {
    var pallet := new Pallet<int>(h);
    r := pallet.PlayGame(ALICE, 12, Rock, A_SECRET);
    untouched := pallet.games == map[] && pallet.events == [];
  }

  /** A third player cannot join a game whose two slots are taken; nothing changes. */
  method ThirdPlayerIsRejected(h: Hasher) returns (r: CallOutcome, untouched: bool)
    ensures r == Err(GameIsFull) && untouched
  {
    var pallet := TwoPlayerGame(h, Rock, A_SECRET, Rock, A_SECRET);
    var before, logged := pallet.games, pallet.events;
    r := pallet.PlayGame(DAVE, 1, Rock, A_SECRET);
    untouched := pallet.games == before && pallet.events == logged;
  }

  /** A player cannot take both slots of a game. */
  method NoSelfJoin(h: Hasher) returns (r: CallOutcome)
    ensures r == Err(PlayerAlreadyInGame)
  {
    var pallet := new Pallet<int>(h);
    pallet.CreateGame(ALICE);
    var first := pallet.PlayGame(ALICE, 1, Rock, A_SECRET);
    r := pallet.PlayGame(ALICE, 1, Rock, A_SECRET);
  }

  /** Each join is announced with the joining player. */
  method JoinsAreAnnounced(h: Hasher) returns (afterAlice: Event<int>, afterBob: Event<int>)
    ensures afterAlice == PlayerMadeMovement(ALICE) && afterBob == PlayerMadeMovement(BOB)
  {
    var pallet := new Pallet<int>(h);
    pallet.CreateGame(ALICE);
    var r1 := pallet.PlayGame(ALICE, 1, Rock, A_SECRET);
    afterAlice := pallet.events[|pallet.events| - 1];
    var r2 := pallet.PlayGame(BOB, 1, Paper, A_SECRET);
    afterBob := pallet.events[|pallet.events| - 1];
  }

  /** Revealing in a game that was never created gets `GameNotFound`; nothing changes. */
  method RevealMissingGame(h: Hasher) returns (r: CallOutcome, untouched: bool)
    ensures r == Err(GameNotFound) && untouched
  {
    var pallet := new Pallet<int>(h);
    r := pallet.RevealWinner(ALICE, 1, Rock, A_SECRET, BOB, Paper, A_SECRET);
    untouched := pallet.games == map[] && pallet.events == [];
  }

  /** Someone who holds no slot cannot reveal; nothing changes. */
  method OutsiderCannotReveal(h: Hasher) returns (r: CallOutcome, untouched: bool)
    ensures r == Err(PlayerNotInGame) && untouched
  {
    var pallet := TwoPlayerGame(h, Rock, A_SECRET, Rock, A_SECRET);
    var before, logged := pallet.games, pallet.events;
    r := pallet.RevealWinner(DAVE, 1, Rock, A_SECRET, BOB, Paper, A_SECRET);
    untouched := pallet.games == before && pallet.events == logged;
  }

  /** Rock against Paper: the named second player, Bob, wins. */
  method PaperBeatsRock(h: Hasher) returns (r: CallOutcome, result: GameResult, winner: Option<int>)
    ensures r == Ok && result == Lose && winner == Some(BOB)
  {
    var pallet := TwoPlayerGame(h, Rock, A_SECRET, Paper, ANOTHER_SECRET);
    r := pallet.RevealWinner(ALICE, 1, Rock, A_SECRET, BOB, Paper, ANOTHER_SECRET);
    result, winner := pallet.games[1].gameResult, pallet.games[1].winner;
  }

  /** Rock against Rock: a draw and no winner. */
  method RockDrawsRock(h: Hasher) returns (r: CallOutcome, result: GameResult, winner: Option<int>)
    ensures r == Ok && result == Draw && winner == None
  {
    var pallet := TwoPlayerGame(h, Rock, A_SECRET, Rock, ANOTHER_SECRET);
    r := pallet.RevealWinner(ALICE, 1, Rock, A_SECRET, BOB, Rock, ANOTHER_SECRET);
    result, winner := pallet.games[1].gameResult, pallet.games[1].winner;
  }

  /**
   * A wrong secret for slot 2, and then one for slot 1, are each refused;
   * nothing changes and the game stays unresolved.
   */
  method WrongSecretIsRefused(h: Hasher)
    returns (first: CallOutcome, second: CallOutcome, result: GameResult, untouched: bool)
    requires h(CommitmentInput(Paper, A_SECRET)) != h(CommitmentInput(Paper, ANOTHER_SECRET))
    requires h(CommitmentInput(Rock, ANOTHER_SECRET)) != h(CommitmentInput(Rock, A_SECRET))
    ensures first == Err(InvalidHash) && second == Err(InvalidHash)
    ensures result == NotPlayed && untouched
  {
    var pallet := TwoPlayerGame(h, Rock, A_SECRET, Paper, ANOTHER_SECRET);
    var before, logged := pallet.games, pallet.events;
    first := pallet.RevealWinner(ALICE, 1, Rock, A_SECRET, BOB, Paper, A_SECRET);
    second := pallet.RevealWinner(ALICE, 1, Rock, ANOTHER_SECRET, BOB, Paper, ANOTHER_SECRET);
    result := pallet.games[1].gameResult;
    untouched := pallet.games == before && pallet.events == logged;
  }

  /** Revealing twice reports the same outcome twice and changes the game only once. */
  method RevealIsIdempotent(h: Hasher) returns (first: Event<int>, second: Event<int>, untouched: bool)
    ensures first == second == GameFinished(1, Lose, Some(BOB)) && untouched
  {
    var pallet := TwoPlayerGame(h, Rock, A_SECRET, Paper, ANOTHER_SECRET);
    var r1 := pallet.RevealWinner(ALICE, 1, Rock, A_SECRET, BOB, Paper, ANOTHER_SECRET);
    first := pallet.events[|pallet.events| - 1];
    var resolved := pallet.games;
    var r2 := pallet.RevealWinner(ALICE, 1, Rock, A_SECRET, BOB, Paper, ANOTHER_SECRET);
    second := pallet.events[|pallet.events| - 1];
    untouched := pallet.games == resolved;
  }

  /**
   * The winner is taken from who calls, the result from the slots: when Bob,
   * who holds slot 2, reveals and names Alice, `Win` (slot 1's Rock beats
   * slot 2's Scissors) makes Bob the winner although his Scissors lost.
   */
  method WinnerFollowsCallerNotSlot(h: Hasher) returns (r: CallOutcome, result: GameResult, winner: Option<int>)
    ensures r == Ok && result == Win && winner == Some(BOB)
    ensures Play(Scissors, Rock) == Lose
  {
    var pallet := TwoPlayerGame(h, Rock, A_SECRET, Scissors, ANOTHER_SECRET);
    r := pallet.RevealWinner(BOB, 1, Rock, A_SECRET, ALICE, Scissors, ANOTHER_SECRET);
    result, winner := pallet.games[1].gameResult, pallet.games[1].winner;
  }

  /**
   * Naming oneself as the second player in a full game: the caller passes
   * both identity checks, and on `Lose` (slot 2's Paper beats slot 1's Rock)
   * the named second player, the caller again, is the winner although the
   * caller's own Rock lost.
   */
  method SelfNamedCallerWinsOnLose(h: Hasher) returns (r: CallOutcome, result: GameResult, winner: Option<int>)
    ensures r == Ok && result == Lose && winner == Some(ALICE)
    ensures Play(Rock, Paper) == Lose
  {
    var pallet := TwoPlayerGame(h, Rock, A_SECRET, Paper, ANOTHER_SECRET);
    r := pallet.RevealWinner(ALICE, 1, Rock, A_SECRET, ALICE, Paper, ANOTHER_SECRET);
    result, winner := pallet.games[1].gameResult, pallet.games[1].winner;
  }

  /** Naming oneself as the second player while slot 2 is empty panics on slot 2. */
  method SelfNamedRevealPanics(h: Hasher) returns (r: CallOutcome)
    ensures r == Panic
  {
    var pallet := new Pallet<int>(h);
    pallet.CreateGame(ALICE);
    var joined := pallet.PlayGame(ALICE, 1, Rock, A_SECRET);
    r := pallet.RevealWinner(ALICE, 1, Rock, A_SECRET, ALICE, Rock, A_SECRET);
  }
}
