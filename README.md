# Ludo turn engine, in Dafny

This project models the turn-resolution engine of a small Ludo game (`game.py`). The game takes a list of player identifiers ("A".."D") and a list of turns. Each turn is a player identifier and a die roll. The engine returns the board label of every player's two tokens, P and Q, in registration order.

The model has these parts:

- **`Board`** (`board.dfy`) holds the four 59-entry player tracks.
  - Each track runs: release square `R`, fifty squares of the shared ring (rotated by 14 per player), the player's private squares `A1`..`A6`, the end square `E`, and the yard label `H`.
  - Labels are derived from that structure.
  - `LabelsMatchTables` proves the derivation equals the source's four literal tables, entry by entry.
  - Further lemmas show that label equality, which the source uses to detect captures, is equality of squares.
- **`Players`** (`player.dfy`) holds the `Player` class: two step counters (yard = -1), the `stacked` and `completed` flags, and the source's in-place setters.
  - Setters *add* to a counter.
  - A bounce clears a counter only below 51.
  - Completion is one-way.
  - `TrackSpaceName` is the label lookup, including Python's negative indexing (counter -1 reads `H`) and "nothing" from 58 on.
- **`Rules`** (`rules.dfy`) holds one turn as a function on values, `TurnSpec`. It applies the source's cascade in order:
  1. completion;
  2. release on a six;
  3. moving a co-located pair together and stacking it;
  4. exact entry to the end square;
  5. the capture scan over all opponents (`ScanFrom`);
  6. the fallback when the scan missed any opponent.
- **`RuleFacts`** (`rule_facts.dfy`) holds what the rules guarantee:
  - a closed form of the capture scan: each opponent is judged against its start-of-turn state, and the mover advances once per capture;
  - each rule as a lemma;
  - the invariant every turn preserves (`Consistent`);
  - the quirks of the code: Q can pass the end square, a stacked pair can split, and a capture plus a miss still runs the fallback.
- **`Game`** (`game.dfy`) holds the game as specification functions (`Register`, `LookupSpec`, `RunTurns`, `Output`, `PlayFrom`, `PlayGameSpec`) and as the imperative class `LudoGame`.
  - `LudoGame` holds a sequence of `Player` objects. Its methods update them in place, following the source loop by loop.
  - Each method is proved against the corresponding function; `PlayGame` is proved equal to `PlayGameSpec`.
- **`Scenarios`** (`scenarios.dfy`) contains small concrete games and turns.

The model follows the code in these places:

- **Fallback overshoot.** An overshooting P ends on counter `58 - roll`, not below the yard (`OvershootReturns`).
- **Counter bound.** Counters are not bounded by 57: Q can pass the end square (`QPassesEnd`).
- **Duplicate identifiers.** A repeated identifier is registered again rather than rejected, because the duplicate test compares a string with player objects (`Scenarios.Registration`).
- **Unknown turn identifier.** A turn naming an unknown identifier ends the game as `Crashed(k)`, where the source raises. It does not signal an error and continue.

## Model

| member | source | states |
|---|---|---|
| Board.ParseId | game.py:206 | a string names a player exactly when it is one of "A".."D", and then it is that player's letter |
| Board.RingNumber | game.py:16-31 | the ring square at a track index is between 1 and 56 |
| Board.RingNumberRotation | game.py:16-31 | ring index i of player k is ring square ((14k + i - 1) mod 56) + 1 |
| Board.TrackShape | game.py:16-31 | every track has "R" at 0, ring names at 1..50, the owner's letter with 1..6 at 51..56, "E" at 57 and "H" at 58 |
| Board.LabelsMatchTables | game.py:16-31 | each derived track has 59 entries and equals the literal table of its player, entry by entry |
| Board.TrackLabelsDistinct | game.py:16-31 | no label occurs twice on one track |
| Board.NameInjective | game.py:262-293 | two board squares have the same printed name exactly when they are the same square |
| Board.LabelsMatchSquares | game.py:262-293 | two tracks' labels are equal exactly when the two indices denote the same square |
| Board.SameRingSquare | game.py:262-293 | two ring indices of two players carry the same label exactly when their rotated positions agree modulo 56 |
| Players.TrackSpaceName | game.py:139-144 | a counter 0..57 reads its track label, -1 reads "H" (negative indexing), and 58 or more reads nothing |
| Players.Player.SpaceName | game.py:139-144 | the player's label lookup is TrackSpaceName on its own track |
| Players.Fresh | game.py:59-64 | a new player has both tokens in the yard, each reading "H", and neither flag set |
| Players.BouncedP | game.py:156-161 | P below 51 goes to -1 and the pair is unstacked; at 51 or more nothing changes; Q is never touched |
| Players.BouncedQ | game.py:163-168 | Q below 51 goes to -1 and the pair is unstacked; at 51 or more nothing changes; P is never touched |
| Players.Player.constructor | game.py:55-64 | a new player has both counters at -1 and neither flag set |
| Players.Player.AdvanceP | game.py:87-89 | P's counter grows by the given steps and nothing else changes |
| Players.Player.AdvanceQ | game.py:95-97 | Q's counter grows by the given steps and nothing else changes |
| Players.Player.ClearP | game.py:111-115 | P's counter ends at exactly -1 whatever it was; nothing else changes |
| Players.Player.ClearQ | game.py:117-121 | Q's counter ends at exactly -1 whatever it was; nothing else changes |
| Players.Player.SetStacked | game.py:127-129 | only the stacked flag changes, to the given value |
| Players.Player.SetCompleted | game.py:135-137 | the completed flag is true afterwards, whatever it was, and nothing else changes |
| Players.Player.BounceP | game.py:156-161 | P below 51 goes to -1 and the pair is unstacked; P at 51 or more leaves the player unchanged |
| Players.Player.BounceQ | game.py:163-168 | Q below 51 goes to -1 and the pair is unstacked; Q at 51 or more leaves the player unchanged |
| Rules.KickOf | game.py:262-295 | a capture names a capturing mover token and a captured opponent token, both on the ring, and the first lands on the very square of the second |
| Rules.KickOfMatches | game.py:262-295 | an opponent is captured exactly when a mover token on the ring projects onto the label of an opponent token on the ring, and the capture named is the first label match in the order P on P, P on Q, Q on P, Q on Q |
| Rules.LandsOn | game.py:262-293 | for two tokens on the ring, the projected label equals the other token's label exactly when they are the same square |
| Rules.Kicked | game.py:265-293 | the token landed on goes to the yard and the pair is unstacked when it is below 51; a stacked opponent loses every token below 51; an unstacked one keeps its other token; tokens at 51 or more and a miss change nothing |
| Rules.Striker | game.py:264-288 | the capturing token, P for a capture by P and Q for one by Q, advances by the roll; nothing else of the mover changes |
| Rules.CanStack | game.py:248-250 | for counters from the yard on, the pair moves together exactly when both tokens share one counter past the release square and the roll keeps them at or before the end square |
| Rules.Fallback | game.py:297-314 | the fallback moves at most one token, forward by the roll, except an overshooting P, which moves back from the end |
| RuleFacts.FallbackRule | game.py:297-314 | which token the fallback moves, case by case: Q when only P would overshoot, P when only Q would, an overshooting P back by the excess, otherwise the trailing token unless it is in the yard, and nothing when no test picks one |
| Rules.ScanFrom | game.py:260-295 | the capture scan keeps the number of players |
| Rules.TurnSpec | game.py:229-314 | a turn keeps the number of players (its rules are stated in RuleFacts) |
| RuleFacts.Gain | game.py:263-288 | a token off the ring at the start of the turn gains nothing from the scan |
| RuleFacts.Hits | game.py:263-288 | a token off the ring at the start of the turn captures nobody |
| RuleFacts.GainCountsHits | game.py:264-288 | during the scan a token advances by the roll times the number of opponents it captures |
| RuleFacts.ScanOpponents | game.py:260-295 | after the scan, each opponent is as the capture test against its start-of-turn state says, and players sharing the mover's identifier are untouched |
| RuleFacts.ScanMover | game.py:260-295 | after the scan, the mover's P and Q have advanced by the roll once per capture each made |
| RuleFacts.ScanMoverCounter | game.py:264-288 | through the scan, each of the mover's counters grows by exactly the gain of the captures that token makes |
| RuleFacts.GainStep | game.py:264-288 | one opponent's visit moves the roll it earns from the gain still to come into the mover's counter, keeping their sum |
| RuleFacts.ScanMoverKeeps | game.py:260-295 | the scan never changes the mover's identifier, stacked flag or completed flag |
| RuleFacts.ScanStepKeepsCounters | game.py:260-295 | one opponent's visit keeps every counter at least -1 |
| RuleFacts.ScanFlag | game.py:238-295 | the scan reports success exactly when no opponent was missed |
| RuleFacts.ScanTurn | game.py:258-314 | a turn that reaches the scan is the scan followed, when some opponent was missed, by the fallback |
| RuleFacts.CaptureRule | game.py:260-314 | in a scanning turn every opponent ends bounced or unchanged as its capture test says, the mover advances once per capture, and the fallback runs exactly when some opponent was missed |
| RuleFacts.TurnKeepsPlayers | game.py:229-314 | a turn keeps every player's identifier and the registration order |
| RuleFacts.KickedOk | game.py:156-168 | a capture keeps an opponent well formed (counters at least -1, completed only on 57/57, stacked only past the release square) |
| RuleFacts.FallbackOk | game.py:297-314 | the fallback keeps the mover well formed |
| RuleFacts.ScanKeepsConsistent | game.py:260-314 | the scan and fallback keep every player well formed |
| RuleFacts.TurnKeepsConsistent | game.py:229-314 | every turn keeps every player well formed |
| RuleFacts.ReleaseRule | game.py:243-247 | a six with a token in the yard moves exactly one token from -1 to 0 (P if P is in the yard, else Q), and nothing else changes |
| RuleFacts.StackRule | game.py:248-253 | a co-located pair past the release square that stays below 58 moves together by the roll and becomes stacked, and nothing else changes |
| RuleFacts.EndEntryRule | game.py:254-257 | a roll that lands P exactly on 57 moves only P there, else one that lands Q there moves only Q |
| RuleFacts.CompletionRule | game.py:240-242 | both counters at 57 mark the player completed and move nothing; a completed player's turn changes no player; completion is never undone |
| RuleFacts.OffRingTokensSafe | game.py:262-293 | an opponent token on the release square or at 51 or more keeps its counter through another player's turn |
| RuleFacts.ScanOffRing | game.py:263-295 | with neither mover token on the ring the scan changes nobody and succeeds exactly when there is no opponent |
| RuleFacts.BothOnReleaseStuck | game.py:297-314 | a player with both tokens on the release square never moves |
| RuleFacts.OvershootReturns | game.py:302-304 | a P carried past the end square, with Q unable to take the roll, ends on 58 - roll when some opponent exists; with no opponent nothing moves |
| RuleFacts.QPassesEnd | game.py:310-314 | with P in the yard and no six, a Q carried past the end square goes beyond 57 |
| RuleFacts.StackedPairSplits | game.py:297-304 | a stacked pair carried past the end square splits: P returns to 58 - roll, Q stays, and the flag stays set |
| Game.Register | game.py:203-219 | registration succeeds exactly when every identifier is "A".."D", and then gives one fresh player per identifier, in order, duplicates included |
| Game.FindFrom | game.py:332-334 | the result is the first player with the identifier, or none when no player has it |
| Game.LookupSpec | game.py:327-334 | a non-identifier gives the "not found" message; otherwise the first registered player with it, or nothing |
| Game.RunTurns | game.py:225-314 | a run keeps the number of players, and a failure names a turn of the list |
| Game.RunKeepsConsistent | game.py:225-314 | every state a run reaches from a well-formed one is well formed |
| Game.PlayGameSpec | game.py:194-323 | a game is rejected exactly when some identifier is not "A".."D"; a failure names a turn of the list; the positions are two labels per identifier |
| Game.PlayFrom | game.py:221-323 | after registration a game is never rejected; it fails exactly when the run of turns fails, at a turn of the list; otherwise it reports two labels per player |
| Game.RunStep | game.py:225-228 | a run continues from the state after the found mover's turn, or stops at a turn whose mover is not found |
| Game.Output | game.py:317-323 | the output has two labels per player, P's then Q's, in registration order |
| Game.RegisterExtends | game.py:203-219 | registering one more valid identifier appends one fresh player |
| Game.RegisterStops | game.py:206-207 | an invalid identifier anywhere rejects the registration |
| Game.Projected | game.py:233-236 | a projected counter on the track reads its label |
| Game.Strike | game.py:260-295 | a capture moves the capturing token on by the roll |
| Game.Knock | game.py:265-293 | the captured player ends as Kicked says, never below the yard |
| Game.LudoGame.constructor | game.py:174-180 | a new game has no players |
| Game.LudoGame.GetPlayerByPosition | game.py:327-334 | the scan over the players returns what LookupSpec specifies |
| Game.LudoGame.KickTest | game.py:262-295 | the four label comparisons, in the source's order, decide the capture as KickOf does |
| Game.LudoGame.VisitOpponent | game.py:261-295 | one opponent's test, advance and bounce is one step of ScanFrom |
| Game.LudoGame.CaptureScan | game.py:260-295 | the in-place loop over all players leaves the players and the flag that ScanFrom specifies |
| Game.LudoGame.ScanAt | game.py:261-295 | visiting player j is one step of ScanFrom: an opponent is tested, and bounced with the mover advanced on a capture; the mover's own identifier is passed over |
| Game.LudoGame.ScanThenFallback | game.py:260-314 | the scan followed, only after a miss, by the fallback leaves the players as the last case of TurnSpec specifies |
| Game.LudoGame.MoveAfterMiss | game.py:297-314 | the in-place fallback leaves the mover as Fallback specifies and nobody else changed |
| Game.LudoGame.MoveOwnTokens | game.py:240-257 | the rules before the scan act as TurnSpec does, and report exactly when the scan is due |
| Game.LudoGame.PlayTurn | game.py:229-314 | the in-place turn leaves the players as TurnSpec specifies and keeps them well formed |
| Game.LudoGame.FinalPositions | game.py:317-323 | the collected labels are Output of the players |
| Game.LudoGame.AddPlayer | game.py:209-218 | a registration appends one new player object, in its starting state with that identifier, to the registered players |
| Game.LudoGame.RegisterPlayers | game.py:203-219 | the in-place registration succeeds exactly when Register does and then holds its players |
| Game.LudoGame.TakeTurn | game.py:225-314 | one turn in place: the mover is looked up and plays as RunTurns's step says, or the run fails at that turn |
| Game.LudoGame.PlayTurns | game.py:225-314 | the in-place turn loop ends as RunTurns does, at the same failing turn if any |
| Game.LudoGame.PlayRegistered | game.py:221-323 | after registration, the in-place game gives PlayFrom: the failing turn, or every token's label once all turns ran |
| Game.LudoGame.PlayGame | game.py:194-323 | a whole game on a new object gives PlayGameSpec: positions, rejection, or the turn where the source fails |
| Scenarios.ReleaseGame | game.py:243-247 | players A and B, A rolls 6: the output is R, H, H, H |
| Scenarios.StackTurn | game.py:248-253 | A's pair on 5 rolled 3 ends on 8 and 8, stacked |
| Scenarios.CaptureTurn | game.py:270-277 | A's P from 49 lands on ring square 50, where B's Q stands: B's Q goes to the yard and A's P advances |
| Scenarios.DoubleCapture | game.py:260-295 | landing on two opponents captures both and advances the mover twice |
| Scenarios.CaptureThenMiss | game.py:294-314 | a capture followed by a missed opponent still runs the fallback |
| Scenarios.UnknownMover | game.py:327-334 | a turn naming a non-identifier or an unregistered player is where the game fails |
| Scenarios.Registration | game.py:203-219 | an identifier outside "A".."D" rejects the game; a repeated identifier is registered twice |

## Left out

- The die roll is required to be 1..6; the source does not check it.
- Python's failures are modelled as outcomes, not exceptions.
  - An invalid identifier in the player list gives `Rejected`; the source returns `None` there.
  - A turn whose mover is not "A".."D", or is not registered, gives `Crashed(k)`. In the source, `get_player_by_position` returns its message string or `None`, and the next attribute access raises.
  - `str(turn[0])` is not modelled: a turn's player is already a string.
- Reusing one `LudoGame` object across several `play_game` calls is not modelled. `PlayGame` requires a new game; in the source, players would accumulate.
- The players registered before an invalid identifier stay on the object in the source. The model's outcome is `Rejected` either way.
- The projected labels are modelled per turn: a projection off the track reads as nothing. The source keeps the previous turn's value in that case. Every capture test also requires the mover's token to be on the ring, so the value is never decisive.
- A counter below -59 would make the source's label lookup fail. The preserved invariant (counters at least -1) excludes it.
- Each player's track comes from its identifier, not from a board object passed to `set_board`. The `Board` getters, `_board_state`, `get_board`, the pass-through getters, `set_player_ID`, `get_p_position` and `get_q_position` are not modelled as members.
- The lookup of "X" for an empty turn list is kept in `PlayRegistered`; it has no effect.
- Rules.ScanFrom: its own contract states only the length. Its meaning is stated by `ScanOpponents`, `ScanMover` and `ScanFlag`.
- Rules.TurnSpec: its own contract states only the length. Its rules are stated by the `RuleFacts` lemmas (`ReleaseRule`, `StackRule`, `EndEntryRule`, `CompletionRule`, `CaptureRule`, `FallbackRule`).
