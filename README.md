# Rock-paper-scissors server core, modelled in Dafny

This project models the server-side core of a two-player rock-paper-scissors
service. It has three parts:

- **One match** (`backend/src/models/Game.js`, module `Match` in `game.dfy`).
  - A `Game` object waits for a second player, then collects one move per seat.
  - It resolves each round by the cyclic rule: rock beats scissors, paper beats rock, scissors beats paper.
  - It scores the round winner and logs the round in `moveHistory`.
  - It ends the match once the round limit (3) is reached or a score passes half of it, and names the leader as winner (`finished`).
  - It can move to the next round or be reset.
  - Per-viewer snapshots hide the opponent's move while a round is open.
- **The registry** (`backend/src/controllers/gameController.js`, module `Registry` in `controller.dfy`).
  - A `GameController` keeps three maps:
    - matches by id;
    - the index from a player to their match;
    - player profiles.
  - It creates and joins matches and finds the first waiting one.
  - It routes a move through the index.
  - It detaches a player: a waiting match is deleted, any other is marked `abandoned`.
  - It resets a match and lists all matches.
  - It sweeps finished or abandoned matches older than 30 minutes. Before deleting a finished one, it records it in both players' profiles.
  - The quick-join policy of `server/src/socket/socketHandler.js` (join the first waiting match, else create one) is one more method of the controller.
- **Player profiles** (`server/src/models/Player.js`, module `Profile` in `player.dfy`).
  - Win, tie and loss counters and round totals.
  - An integer win-rate percentage.
  - The 20 most recent match summaries, newest first.

`wrappers.dfy` holds the `Option`, `Result` and `Outcome` types.

The classes update their fields in place, as the source does. Every object has a value view:
- `Game.Data()` is a `GameData`.
- `Player.Data()` is a `PlayerData`.
- `GameController.State()` is a `Tables` (the `games` map, its insertion order and the player index).
- `GameController.ProfileMap()` is the map of profile values.

Every method is proved to move its view exactly as a transition function does. Those functions are `WithSecond`, `AfterMove`, `Resolved`, `Decided`, `Advanced`, `Restarted`, `AddResult`, `Create`, `Join`, `Move`, `Remove`, `ResetIn`, `Listings`, `Sweep`, `SaveGame`, `Enrolled`, `Reavatared` and `Quick`. Lemmas state what the transitions promise.

Two invariants hold throughout:
- `Consistent` for a match: the second seat is empty exactly while waiting; a winner exists only after the end and names the leader; no match being played has a decisive score.
- `WellFormed` for the registry: every match sits under its own id; the insertion order lists each id once; every indexed player is seated in the match the index names.

JavaScript `Map`s iterate in insertion order, and the controller depends on that in three places:
- the first waiting match;
- the order of the games list;
- the order in which expired matches reach the profiles.

So the model keeps the order as a sequence beside the map.

The model follows the code as written, including these points:
- `makeMove` overwrites an earlier move of the same round.
- Once both seats hold a move, every further accepted move resolves the round again. It logs another round and scores it again.
- The cleanup drops the index entries of both seats of an expired match, even if one of those players has since been indexed to another match.
- `saveGameToHistory` credits a profile twice when the same id sits in both seats.
- `reset` assigns to the empty second seat without a null check. `Game.Reset` therefore requires a second player. The controller's `ResetGame` reports that crash as the error `NoSecondPlayer`.

## Model

| member | source | states |
|---|---|---|
| Match.ParseChoice | backend/src/models/Game.js:42-45 | only "rock", "paper" and "scissors" are accepted; an accepted string is the name of the move returned, a refused one names no move |
| Match.ParseChoiceName | backend/src/models/Game.js:42-45 | every move name is accepted as the move it names |
| Match.RoundOutcome | backend/src/models/Game.js:73-85 | the three winning pairs listed in the source agree with the cyclic rule: a tie exactly on equal moves, player 1 wins exactly when its move beats the other, player 2 exactly when the reverse holds |
| Match.OutcomeSwap | backend/src/models/Game.js:73-85 | swapping the two moves swaps player 1 and player 2 in the outcome |
| Match.StateView | backend/src/models/Game.js:128-151 | the view copies the match's id, both seats (with their moves and scores), status, round, round limit, winner and round winner unchanged |
| Match.PlayerView | backend/src/models/Game.js:180-193 | while a round is open, a seated viewer sees their own move and not the opponent's; otherwise every move is shown; every other field is the match's own |
| Match.PlayerViewOfState | backend/src/models/Game.js:180-193 | the per-viewer state equals the full state unless a round is open and the viewer is seated; then it differs from the full state only in the opponent's move, which is cleared |
| Match.Summary | backend/src/models/Game.js:153-178 | the summary copies the match's id, winner, move log, start and end times, and each seat's id, name, avatar and score; it has a second seat exactly when the match has one, and a duration exactly when it has finished; the duration is the elapsed time in whole seconds, rounded down |
| Match.InitialStep | backend/src/models/Game.js:2-20 | a new match is consistent and waiting, at round 1 of 3, with no second player, no move, score 0 and no winner |
| Match.WithSecondStep | backend/src/models/Game.js:22-35 | adding a second player fails with "Game is already full" exactly when the seat is taken; otherwise the seat gets score 0 and no move, the match is playing, player 1 is untouched and the match stays consistent |
| Match.Moved | backend/src/models/Game.js:47-51 | the mover's seat gets the move (set or replaced); the other seat and every other field of the match stay as they were |
| Match.AfterMoveStep | backend/src/models/Game.js:37-58 | a move is refused exactly when the match is not playing, the move is not a move name or the mover holds no seat; an accepted move sets or replaces the mover's move, leaves the other seat's move, logs one round exactly when both seats then hold a move, and keeps the match consistent; when both seats then hold a move the result is the round resolved on the match with the mover's move set (`Resolved` of `Moved`), otherwise only the mover's move differs from the match before, so scores, status, round, round winner and winner stay |
| Match.ResolvedStep | backend/src/models/Game.js:61-108 | resolution appends one log entry for the current round, sets the round winner by the round rule, gives exactly one point to the winner and none otherwise, and finishes the match exactly when round >= 3 or a score exceeds 3/2, naming the higher scorer or a tie and stamping the finishing time; otherwise the match stays playing |
| Match.AdvancedStep | backend/src/models/Game.js:110-115 | the next round raises the round by one and clears both moves and the round winner; scores, status, winner and log stay; the match stays consistent |
| Match.RestartedStep | backend/src/models/Game.js:117-126 | reset with a second player sets round 1, both scores 0, both moves, the winner and the round winner cleared, status playing; it keeps the log and the finishing time |
| Match.Game.constructor | backend/src/models/Game.js:2-20 | the new object holds the initial match state and is consistent |
| Match.Game.AddPlayer2 | backend/src/models/Game.js:22-35 | the object moves as `WithSecond` says: on failure nothing changes and the error is reported; the object stays consistent |
| Match.Game.MakeMove | backend/src/models/Game.js:37-59 | the object moves as `AfterMove` says, error cases leaving it unchanged; it stays consistent |
| Match.Game.DetermineRoundWinner | backend/src/models/Game.js:61-96 | the object moves as `Resolved` says (the properties are those of `ResolvedStep`) |
| Match.Game.DetermineGameWinner | backend/src/models/Game.js:98-108 | the winner is the higher scorer or a tie, the status finished, the finishing time stamped, nothing else changed |
| Match.Game.NextRound | backend/src/models/Game.js:110-115 | the object moves as `Advanced` says and stays consistent |
| Match.Game.Reset | backend/src/models/Game.js:117-126 | the object moves as `Restarted` says and stays consistent |
| Profile.Recorded | server/src/models/Player.js:24-31 | the new history has the new summary first, the earlier summaries after it in order, and length min(old length + 1, 20) |
| Profile.WinRate | server/src/models/Player.js:51-55 | the rate is 0 when no match was decisive; otherwise it is 100·wins/(wins+losses) rounded to the nearest integer with halves up, and always within 0..100 |
| Profile.RoundedShare | server/src/models/Player.js:53-55 | the integer form of the rounding lies within half a percent of the exact share and within 0..100 |
| Profile.NewcomerStep | server/src/models/Player.js:2-18 | a new profile has every counter 0, an empty history, and satisfies the profile invariant |
| Profile.AddResultStep | server/src/models/Player.js:24-58 | recording a match adds one match played and exactly one win (winner tag names this player's own seat), tie ('tie') or loss (anything else); round totals grow by this player's and the opponent's scores; the summary heads the history followed by the earlier ones; the invariant played = wins + ties + losses, history length and win rate is kept |
| Profile.SliceEnd | server/src/models/Player.js:71-73 | the end of `slice(0, limit)`, including a negative limit, never passes the length |
| Profile.Player.constructor | server/src/models/Player.js:2-18 | the new object holds the newcomer profile and satisfies the invariant |
| Profile.Player.UpdateAvatar | server/src/models/Player.js:20-22 | only the avatar changes |
| Profile.Player.AddGameResult | server/src/models/Player.js:24-58 | the object moves as `AddResult` says (the properties are those of `AddResultStep`) and stays tallied |
| Profile.Player.GetProfile | server/src/models/Player.js:60-69 | the view reports the profile's own id, name, avatar, counters, creation time and last activity, whose counters satisfy played = wins + ties + losses and a rate within 0..100 |
| Profile.Player.GetGameHistory | server/src/models/Player.js:71-73 | the result is a prefix of the history of length min(limit, length) for a non-negative limit, and length minus |limit| (at least 0) for a negative one |
| Registry.Without | backend/src/controllers/gameController.js:82 | deleting an id from the insertion order leaves exactly the other ids, still each once |
| Registry.Seats | backend/src/controllers/gameController.js:132-133 | the seated ids are exactly the players who participate in the match |
| Registry.FirstOpen | backend/src/controllers/gameController.js:38-45 | the position found has no waiting match before it and a waiting one at it, or is the end when none waits |
| Registry.FirstOpenAt | backend/src/controllers/gameController.js:38-45 | that position is unique: any position with no waiting match before it and a waiting one at it (or the end) is the one found |
| Registry.NoneOpen | backend/src/controllers/gameController.js:38-45 | when the search reaches the end, no stored match is waiting |
| Registry.CreateStep | backend/src/controllers/gameController.js:11-19 | a match created under a fresh id is stored waiting with the creator in the first seat; the insertion order is the old one with the new id appended; the creator is indexed to it; no other match or index entry changes; the registry stays well formed |
| Registry.JoinStep | backend/src/controllers/gameController.js:21-36 | joining fails with "Game not found" on an unknown id and "Game is not available for joining" on a match not waiting, and only then; a successful join seats the joiner second in a now playing match, indexes the joiner to it and changes no other match |
| Registry.MoveStep | backend/src/controllers/gameController.js:47-60 | the move fails with "Player not in any game" exactly for an unindexed player; "Game not found" cannot occur in a well-formed registry; otherwise the result is that of the match's own move, and only that match changes |
| Registry.AfterMoveKeeps | backend/src/controllers/gameController.js:58 | an accepted move keeps the match consistent, under its id, with the same players seated |
| Registry.RemoveStep | backend/src/controllers/gameController.js:74-89 | the player's index entry is deleted; their waiting match is deleted together with its insertion-order entry; any other match of theirs is marked abandoned, order unchanged; an unindexed player changes nothing; the registry stays well formed |
| Registry.UnindexKeeps | backend/src/controllers/gameController.js:77 | dropping an index entry keeps the registry well formed |
| Registry.DroppedKeeps | backend/src/controllers/gameController.js:81-82 | a waiting match has no other indexed player, so deleting it keeps the registry well formed |
| Registry.DesertedKeeps | backend/src/controllers/gameController.js:85 | marking a started match abandoned keeps the registry well formed |
| Registry.ResetStep | backend/src/controllers/gameController.js:91-98 | reset fails with "Game not found" exactly on an unknown id and crashes exactly on a waiting match; otherwise that match restarts at round 1 with both scores 0 and its log kept, and nothing else changes |
| Registry.Listings | backend/src/controllers/gameController.js:104-116 | the list has one entry per listed id |
| Registry.ListingsStep | backend/src/controllers/gameController.js:104-116 | entry i carries the i-th id with that match's status, round and creation time, and counts 2 players exactly when the second seat is taken, 1 otherwise |
| Registry.SweptBy | backend/src/controllers/gameController.js:122-124 | the swept ids are exactly the listed ids of expired matches |
| Registry.FreedByMeaning | backend/src/controllers/gameController.js:132-133 | the freed players are exactly those seated in an expired match among the visited ids |
| Registry.SweepKeyStep | backend/src/controllers/gameController.js:122-135 | one cleanup iteration deletes an expired match, its order entry and both seats' index entries, leaves everything as it was otherwise, and keeps the registry well formed |
| Registry.SweptStep | backend/src/controllers/gameController.js:122-136 | after the iterations over some ids, exactly the expired matches among them are gone, the order is purged of them, and exactly their players are unindexed |
| Registry.SweepTurn | backend/src/controllers/gameController.js:122-136 | the id each iteration visits is still stored, unchanged, and the iteration is one `SweepKey` step |
| Registry.SaveTurn | backend/src/controllers/gameController.js:126-128 | each iteration saves its match to the profiles exactly when it is expired |
| Registry.SweepStep | backend/src/controllers/gameController.js:118-137 | the cleanup deletes exactly the finished or abandoned matches older than 30 minutes and keeps every other match (all waiting and playing ones) unchanged and in order; the index loses exactly the players seated in a deleted match; the registry stays well formed |
| Registry.Credit | backend/src/controllers/gameController.js:177-185 | the named profile, when there is one, becomes that profile with the result added (`AddResult`); an unknown id changes nothing; every profile stays tallied and no other profile changes |
| Registry.SaveGame | backend/src/controllers/gameController.js:172-187 | profiles change only for a finished match with both seats taken, and then only those of its players: with two different ids each records the match summary once; when the same id sits in both seats, that profile records the summary twice; all stay tallied |
| Registry.SaveGameVerdict | backend/src/controllers/gameController.js:172-187 | saving a finished match between two different profiled players adds one played match to each, a win to the winner and a loss to the other, or a tie to both |
| Registry.SaveAll | backend/src/controllers/gameController.js:126-128 | saving during the cleanup changes only profiles of players seated in an expired match, and keeps every profile tallied |
| Registry.EnrolledStep | backend/src/controllers/gameController.js:140-146 | a profile is created only for an unknown id, with zero counters, the given name and the given or default avatar; existing profiles are kept; asking again with any name and avatar changes nothing |
| Registry.ReavataredStep | backend/src/controllers/gameController.js:148-160 | after an avatar update the reported avatar is the new one for a known player and the default otherwise; counters, history and other profiles stay |
| Registry.QuickStep | server/src/socket/socketHandler.js:97-119 | quick-join always leaves the player seated and indexed: in the first waiting match in insertion order, which starts playing, or else in a new waiting match under the fresh id; the registry stays well formed |
| Registry.GameController.constructor | backend/src/controllers/gameController.js:5-9 | a new controller holds no match, no index entry and no profile |
| Registry.GameController.GetPlayerAvatar | backend/src/controllers/gameController.js:157-160 | the stored avatar of a known player, the default avatar otherwise |
| Registry.GameController.CreateGame | backend/src/controllers/gameController.js:11-19 | the registry moves as `Create` says with the given avatar or, when empty, the player's avatar; the returned object is new and stored under the fresh id; profiles unchanged |
| Registry.GameController.JoinGame | backend/src/controllers/gameController.js:21-36 | the registry moves as `Join` says; on failure the error is reported and nothing changes; on success the stored match is returned |
| Registry.GameController.FindAvailableGame | backend/src/controllers/gameController.js:38-45 | the result is the first waiting match in insertion order; it is absent exactly when no stored match is waiting |
| Registry.GameController.MakeMove | backend/src/controllers/gameController.js:47-60 | the registry moves as `Move` says; on failure the error is reported and nothing changes; on success the mover's match is returned |
| Registry.GameController.GetGame | backend/src/controllers/gameController.js:62-64 | a match is returned exactly for a stored id, and it sits under that id |
| Registry.GameController.GetPlayerGame | backend/src/controllers/gameController.js:66-72 | a match is returned exactly for an indexed player, and it is the indexed match, which seats that player |
| Registry.GameController.RemovePlayerFromGame | backend/src/controllers/gameController.js:74-89 | the registry moves as `Remove` says (properties in `RemoveStep`); profiles unchanged |
| Registry.GameController.ResetGame | backend/src/controllers/gameController.js:91-98 | the registry moves as `ResetIn` says; on failure the error is reported and nothing changes |
| Registry.GameController.GetGamesList | backend/src/controllers/gameController.js:104-116 | the loop builds exactly `Listings` over the insertion order (properties in `ListingsStep`) |
| Registry.GameController.SaveGameToHistory | backend/src/controllers/gameController.js:172-187 | the profiles move as `SaveGame` says; the registry is unchanged |
| Registry.GameController.CleanupFinishedGames | backend/src/controllers/gameController.js:118-137 | the loop leaves the registry as `Sweep` says (properties in `SweepStep`) and the profiles as `SaveAll` says, each expired finished match saved in insertion order before its deletion |
| Registry.GameController.GetOrCreatePlayer | backend/src/controllers/gameController.js:140-146 | the profiles move as `Enrolled` says; an existing profile object is returned unchanged |
| Registry.GameController.UpdatePlayerAvatar | backend/src/controllers/gameController.js:148-155 | the profiles move as `Reavatared` says; a profile is returned exactly for a known player |
| Registry.GameController.GetPlayerProfile | backend/src/controllers/gameController.js:162-165 | a profile view is returned exactly for a known player; it carries that player's id, name, avatar, counters, creation time and last activity, with consistent counters |
| Registry.GameController.GetPlayerHistory | backend/src/controllers/gameController.js:167-170 | nothing for an unknown player; otherwise a prefix of the player's history with min(limit, length) entries for a non-negative limit and max(length + limit, 0) for a negative one |
| Registry.GameController.QuickJoin | server/src/socket/socketHandler.js:97-119 | the registry moves as `Quick` says (properties in `QuickStep`); the result says joined exactly when some match was waiting; the player ends indexed to the returned match |

## Left out

- The socket layer of `server/src/socket/socketHandler.js` is not part of this model. Quick-join is kept as `QuickJoin`. Left out:
  - event handlers and room broadcasts;
  - the `setTimeout` delays;
  - the five-minute `setInterval` that runs the cleanup;
  - the handler's defaults for name and avatar.
- The three-second timer in `determineRoundWinner` that calls `nextRound` is not modelled. `NextRound` is an explicit step the environment may take.
- `generateGameId` draws a random id. Methods that create a match instead take the id as a parameter `freshId`. It must be non-empty and unused, so a collision of random ids is not modelled.
- Clocks: `new Date()` becomes an integer parameter `now` in milliseconds.
- Profile.WinRate: `Math.round` over a floating-point ratio becomes the exact integer form. It rounds the exact share half up, so floating-point error in the source's ratio is not modelled.
- Aliasing between values is not modelled:
  - `getGameHistory` hands out the match's own `moveHistory` array, and `getProfile` hands out the profile's own `stats` object. In the model, summaries and views are copies taken when they are made.
  - Later changes to the match or profile therefore do not show through them.
- Thrown errors become `Result`/`Outcome` values. The messages are in `Message` and `RegistryMessage`.
- `reset` assigns to the empty second seat and crashes. `Match.Game.Reset` requires a second player, and `ResetGame` reports the crash as `NoSecondPlayer`.
- JavaScript falsiness:
  - An empty avatar or an empty index entry counts as absent.
  - Other values (`undefined`, non-string moves) are outside the typed model.
- Default parameters:
  - `getOrCreatePlayer`'s avatar is an `Option` that falls back to the default.
  - The `limit` of `getPlayerHistory` (10 by default) is an explicit argument.
  - The controller always passes an avatar to the `Game` constructor and to `addPlayer2`, so their defaults are not modelled.
- `console.log` calls are left out.
- Registry.GameController.GetGame: requires the registry invariant so it can state that the match sits under its own id. The source's lookup has no precondition.
