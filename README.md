# Rock-paper-scissors pallet: a verified model

This project models the rock-paper-scissors pallet of a Substrate runtime.
The game uses commit-reveal. A player joins a game by submitting their move
and a secret; the pallet stores only the hash of the two. The move itself is
therefore an argument of the joining call. Once both slots are filled, either player reveals
both (move, secret) pairs. The pallet checks them against the stored
commitments and resolves the game once. Later reveals report the stored
outcome.

The model has three parts, in the order the source builds them.

- **Moves** (`movement.dfy`, module `Movement`).
  - `Play` is the 3×3 resolution table.
  - It is characterised by an independent cyclic-dominance relation, `Beats`.
  - `ToBytes` is the one-byte tag of a move.
- **Commitments** (`bytes.dfy`, `commitment.dfy`, modules `Bytes` and `Commitment`).
  - The hash input is the move's tag followed by the secret's eight
    little-endian bytes.
  - The 64-bit hash is a parameter `h: Hasher` that stays uninterpreted.
  - Verifying a reveal means recomputing the commitment and comparing it.
  - It is proved that the hash input determines the (move, secret) pair. So
    accepting a substituted move requires a collision of the hash.
- **Game state and the pallet** (`game_state.dfy`, `pallet.dfy`, modules
  `GameStates` and `RockPaperScissors`).
  - `GameState` is a value, as it is in the source: a copyable struct that the
    store holds by value.
  - `has_player` is a method that raises a flag step by step.
  - `add_player` is a method that takes the old state and returns the new one.
  - The store is the class `Pallet`. Its fields are the `NextGameId` counter,
    the `Games` map and a log of deposited events.
  - Each dispatchable is a method. Its contract states the error it returns
    and that a failing call changes nothing. For a successful call, it states
    the whole new state.
  - The class invariant `Valid` holds of every stored game:
    - slot 1 fills before slot 2;
    - the two slots hold different players;
    - a resolved game has both slots filled;
    - there is a winner exactly when the result is `Win` or `Lose`, and the
      winner holds a slot.

`scenarios.dfy` (module `Scenarios`) states call sequences from genesis:
each call sequence of `tests.rs`, and the quirks listed below. The two tests
in `tests.rs` that make no call, the movement table and the move tags, are
stated by `Movement.Play` and `Movement.ToBytesTags`. The postcondition of
each sequence is proved from the call contracts alone.

Behaviour kept exactly as the source has it:

- **Game ids start at 1.** `create_game` increments the counter before it
  reads the counter.
- **Reveal mixes identities and slots.**
  - `reveal_winner` checks by identity that the caller and the named
    `player2` hold slots.
  - It checks the revealed pairs against slot 1 and slot 2, in that order.
  - The result is the slot-1 move played against the slot-2 move.
  - The winner is the caller on `Win` and the named `player2` on `Lose`.
  - So when the slot-2 holder calls, the winner can be the player whose move
    lost. `Scenarios.WinnerFollowsCallerNotSlot` exhibits this.
  - Nothing stops the caller from naming themself as `player2` in a full
    game. Both identity checks then pass, and on `Lose` the caller is the
    winner although their own move lost. `Scenarios.SelfNamedCallerWinsOnLose`
    exhibits this.
  - Together with the first successful reveal being final, this lets the
    first participant to reveal in a full, unresolved game claim every game
    that is not a draw: naming themself as `player2`, they are recorded as
    the winner whichever move won, and later reveals change nothing
    (`RockPaperScissors.SelfNamingClaimsEveryDecidedGame`).
- **The slot-2 `unwrap` can panic.** A caller who holds slot 1 and names
  themself as `player2` while slot 2 is empty reaches it. This is the
  distinct outcome `Panic`, and the store is left unchanged.
  - In a well-formed game the `unwrap`s panic exactly in that case
    (`RockPaperScissors.RevealPanicsOnlyOnSelfNaming`). So the slot-1
    `unwrap` never panics in a valid store.
- **The hash checks come before the "already resolved" check.** A replay
  short-circuits only when the revealed pairs verify.

## Model

| member | source | states |
|---|---|---|
| `Bytes.FromLeBytes` | pallets/rock_paper_scissors/src/lib.rs:28 | decoding n little-endian bytes gives a number below 256^n |
| `Bytes.LeRoundTrip` | pallets/rock_paper_scissors/src/lib.rs:28 | decoding the n-byte little-endian encoding of a number below 256^n gives the number back |
| `Bytes.LeBytesOfFromLeBytes` | pallets/rock_paper_scissors/src/lib.rs:28 | encoding a decoded byte string gives the byte string back, so the encoding is a bijection |
| `Bytes.ToNeBytes` | pallets/rock_paper_scissors/src/lib.rs:28 | `secret.to_ne_bytes()` is 8 bytes that decode, little-endian, to the secret |
| `Movement.Play` | pallets/rock_paper_scissors/src/lib.rs:117-135 | the table is total and never `NotPlayed`; it gives `Draw` iff the moves are equal, `Win` iff the first beats the second, `Lose` iff the second beats the first |
| `Movement.PlayAntisymmetric` | pallets/rock_paper_scissors/src/lib.rs:117-135 | swapping the moves swaps `Win` and `Lose` and keeps `Draw` |
| `Movement.BeatsIsCyclic` | pallets/rock_paper_scissors/src/lib.rs:117-135 | each move beats exactly one move and is beaten by exactly one |
| `Movement.ToBytes` | pallets/rock_paper_scissors/src/lib.rs:136-142 | a move's tag is a single byte in 1..3 |
| `Movement.ToBytesTags` | pallets/rock_paper_scissors/src/tests.rs:42-47 | Rock, Paper and Scissors have tags 1, 2 and 3 |
| `Movement.ToBytesInjective` | pallets/rock_paper_scissors/src/lib.rs:136-142 | different moves have different tags |
| `Commitment.CommitmentInput` | pallets/rock_paper_scissors/src/lib.rs:25-29 | the hash input is 9 bytes: the move's tag first, then 8 bytes that decode to the secret |
| `Commitment.CommitmentInputInjective` | pallets/rock_paper_scissors/src/lib.rs:25-29 | equal hash inputs come from equal moves and equal secrets |
| `Commitment.New` | pallets/rock_paper_scissors/src/lib.rs:25-30 | no contract of its own; `CommitmentInput` fixes the hashed bytes, and `CommitThenVerify` and `SubstitutionNeedsCollision` state what is proved about it |
| `Commitment.IsEqual` | pallets/rock_paper_scissors/src/lib.rs:33-35 | no contract of its own; `CommitThenVerify`, `IsEqualIffSameCommitment` and `SubstitutionNeedsCollision` state what is proved about it |
| `Commitment.CommitThenVerify` | pallets/rock_paper_scissors/src/lib.rs:25-35 | a commitment verifies against the move and secret it was made from |
| `Commitment.IsEqualIffSameCommitment` | pallets/rock_paper_scissors/src/lib.rs:33-35 | `is_equal` holds exactly when the stored digest equals the hash of the recomputed input |
| `Commitment.SubstitutionNeedsCollision` | pallets/rock_paper_scissors/src/lib.rs:25-35 | if one commitment verifies against two different (move, secret) pairs, their hash inputs differ and hash alike |
| `GameStates.Default` | pallets/rock_paper_scissors/src/lib.rs:52-55 | a new game has no filled slot and no player, is `NotPlayed`, has no winner, and is well formed |
| `GameStates.HasFreeSlots` | pallets/rock_paper_scissors/src/lib.rs:75-77 | true iff fewer than two slots are filled |
| `GameStates.HasPlayer` | pallets/rock_paper_scissors/src/lib.rs:59-72 | true iff the player holds one of the filled slots |
| `GameStates.AddPlayer` | pallets/rock_paper_scissors/src/lib.rs:80-96 | returns true iff a slot was free; then the first empty slot holds (player, commitment) and nothing else changes; otherwise the state is unchanged |
| `GameStates.SeatedFillsOneSlot` | pallets/rock_paper_scissors/src/lib.rs:86-95 | seating fills one more slot and adds exactly the new player; result and winner are kept; a well-formed game stays well formed when the player was not already in it |
| `RockPaperScissors.WinnerOf` | pallets/rock_paper_scissors/src/lib.rs:259-273 | there is a winner iff the result is `Win` or `Lose`; it is the caller on `Win` and the named `player2` on `Lose` |
| `RockPaperScissors.RevealGate` | pallets/rock_paper_scissors/src/lib.rs:243-250 | the checks fail with `PlayerNotInGame` iff the caller or `player2` holds no slot; the only errors are `PlayerNotInGame` and `InvalidHash`; passing implies both slots are filled and both revealed pairs verify |
| `RockPaperScissors.Resolved` | pallets/rock_paper_scissors/src/lib.rs:252-276 | resolution never changes the slots; a resolved game is returned as it is; an unresolved one takes the result, with the caller as winner on `Win`, `player2` on `Lose`, and no winner on `Draw` |
| `RockPaperScissors.CheckReveal` | pallets/rock_paper_scissors/src/lib.rs:243-250 | the checks on the game read by `reveal_winner` give, in order, `PlayerNotInGame`, `Panic` on an empty slot, `InvalidHash`, else pass (the outcome `RevealGate` defines) |
| `RockPaperScissors.RevealPanicsOnlyOnSelfNaming` | pallets/rock_paper_scissors/src/lib.rs:243-247 | in a well-formed game the checks panic iff slot 2 is empty and the slot-1 player is both the caller and the named `player2` |
| `RockPaperScissors.RevealGateOk` | pallets/rock_paper_scissors/src/lib.rs:242-250 | the checks pass iff both slots are filled, the caller and `player2` hold slots, and the two revealed pairs recompute the two stored commitments |
| `RockPaperScissors.ResolvedIsIdempotent` | pallets/rock_paper_scissors/src/lib.rs:252-255 | once a game is resolved, any later reveal leaves it as it is |
| `RockPaperScissors.SelfNamingClaimsEveryDecidedGame` | pallets/rock_paper_scissors/src/lib.rs:243-276 | in a full, unresolved game, a participant who names themself as `player2` and reveals the two committed pairs with different moves passes the checks, is recorded as the winner, and stays the winner after any later reveal |
| `RockPaperScissors.ResolvedIsWellFormed` | pallets/rock_paper_scissors/src/lib.rs:252-276 | resolving a well-formed game that passed the checks keeps it well formed |
| `RockPaperScissors.Pallet.constructor` | pallets/rock_paper_scissors/src/lib.rs:158-164 | at genesis the counter is 0 and there are no games |
| `RockPaperScissors.Pallet.CreateGame` | pallets/rock_paper_scissors/src/lib.rs:198-207 | the counter grows by exactly 1; the new id was unused and becomes the new counter value; the default game is stored under it; no other entry changes; `GameCreated(id)` is emitted |
| `RockPaperScissors.Pallet.PlayGame` | pallets/rock_paper_scissors/src/lib.rs:210-228 | errors in order: `GameNotFound` iff the id is absent, `GameIsFull` iff no slot is free, `PlayerAlreadyInGame` iff the caller holds a slot; an error changes nothing; success seats (caller, new(m, s)) in the first empty slot, changes nothing else and emits `PlayerMadeMovement`; the invariant is kept |
| `RockPaperScissors.Pallet.RevealWinner` | pallets/rock_paper_scissors/src/lib.rs:231-280 | `GameNotFound` iff the id is absent, else the outcome of the checks; an error or panic changes nothing; success stores `Resolved(game, Play(m1, m2), caller, player2)`: an already resolved game is not changed, an unresolved one gets the result and `WinnerOf` it; every success emits the stored (result, winner), which is never `NotPlayed`; the invariant is kept |
| `Scenarios.FirstGameHasIdOne` | pallets/rock_paper_scissors/src/tests.rs:15-22 | the first game gets id 1, is stored as the default, and `GameCreated(1)` is the last event |
| `Scenarios.JoinMissingGame` | pallets/rock_paper_scissors/src/tests.rs:49-57 | joining a game that was never created gets `GameNotFound`, and the games and events are unchanged |
| `Scenarios.ThirdPlayerIsRejected` | pallets/rock_paper_scissors/src/tests.rs:59-70 | a third player joining a full game gets `GameIsFull`, and the games and events are unchanged |
| `Scenarios.NoSelfJoin` | pallets/rock_paper_scissors/src/tests.rs:72-82 | joining the same game twice gets `PlayerAlreadyInGame` |
| `Scenarios.JoinsAreAnnounced` | pallets/rock_paper_scissors/src/tests.rs:84-93 | after Alice joins the last event is `PlayerMadeMovement(Alice)`, and after Bob joins it is `PlayerMadeMovement(Bob)` |
| `Scenarios.RevealMissingGame` | pallets/rock_paper_scissors/src/tests.rs:95-112 | revealing in a game that was never created gets `GameNotFound`, and the games and events are unchanged |
| `Scenarios.OutsiderCannotReveal` | pallets/rock_paper_scissors/src/tests.rs:114-136 | a caller who holds no slot of a full game gets `PlayerNotInGame`, and the games and events are unchanged |
| `Scenarios.PaperBeatsRock` | pallets/rock_paper_scissors/src/tests.rs:175-195 | Alice's Rock against Bob's Paper resolves to `Lose`, and Bob is the winner |
| `Scenarios.RockDrawsRock` | pallets/rock_paper_scissors/src/lib.rs:268-275 | Rock against Rock resolves to `Draw` with no winner |
| `Scenarios.WrongSecretIsRefused` | pallets/rock_paper_scissors/src/tests.rs:138-172 | a wrong secret for slot 2, and then one for slot 1, each get `InvalidHash`; the games and events are unchanged and the game stays `NotPlayed`, whenever the right and wrong commitments of each slot differ |
| `Scenarios.RevealIsIdempotent` | pallets/rock_paper_scissors/src/tests.rs:197-229 | two reveals emit the same `GameFinished(1, Lose, Some(Bob))`; the second leaves the games unchanged |
| `Scenarios.WinnerFollowsCallerNotSlot` | pallets/rock_paper_scissors/src/lib.rs:246-266 | when the slot-2 holder reveals and names the slot-1 holder, `Win` makes the caller the winner, although the caller's move lost |
| `Scenarios.SelfNamedCallerWinsOnLose` | pallets/rock_paper_scissors/src/lib.rs:243-266 | in a full game, a caller who names themself as `player2` passes both identity checks, and on `Lose` is recorded as the winner although their own move lost |
| `Scenarios.SelfNamedRevealPanics` | pallets/rock_paper_scissors/src/lib.rs:243-247 | a lone player who names themself as `player2` reaches the slot-2 `unwrap`, which panics |

## Left out

- The internals of `sp_io::hashing::twox_64` (xxHash64) are code outside this model. The hash is an arbitrary function parameter. Nothing about one-wayness or collision resistance is assumed or proved.
- `to_ne_bytes` uses native byte order. The model fixes little-endian, which is the byte order of every target the runtime is built for.
- FRAME machinery is not modelled: the pallet macros, `Config`, weights, storage hashers and SCALE `Encode`/`Decode`.
- `ensure_signed` is not modelled. The signed origin is a plain `caller` parameter, so the bad-origin error is out of scope.
- Storage rollback is not modelled. A failing or panicking call returns before it writes, which has the same effect.
- The runtime's event system is not modelled. `deposit_event` appends to the `events` log.
- `NextGameId` is a `u64` in the source. The model uses an unbounded `nat`, so overflow of `+= 1` after 2^64 games is not modelled.
- The error variants `NoneValue` and `StorageOverflow` are never returned, so the model leaves them out.
- The `mock` and `benchmarking` modules are left out. Staking and escrow are left out because the pallet does not implement them.
- `add_player` changes the caller's local copy of a `GameState` in place. The model returns the new value instead. The store holds games by value, so no aliasing is lost.
