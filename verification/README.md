# Turn-based board game server: room controller, question selection, matchmaker

This project models, in Dafny, the sequential game logic of a two-player
board game server. Players roll a die, move along a linear field of tiles,
and resolve special tiles (jump, question) until one of them finishes.

- `controller.dfy` (module `Controller`): one game room. The `Room` class
  holds the player list, the turn cursor `currentI`, the game (category and
  field of tiles) and the sequence of messages sent to players. Its methods
  are the login handler, the ready gate, the dice-roll guard, move and tile
  resolution, and the score rule of a question tile.
- `question.dfy` (module `Questions`): the `Question` class. It holds the list
  of question ids already served in a game and the retry counter. Its
  `GetQuestionWithAnswers` draws candidates from the store until one is new,
  with a bounded number of retries. The module also holds the difficulty and
  language lookup tables.
- `app.dfy` (module `App`): the `Matchmaker` class. It keeps the FIFO queue
  of waiting connections and the registry of live rooms.
- `common.dfy` (module `Common`): `Result`, `Option`, and `Value`. A `Value`
  is a number or a string sent by a client.

Messages sent to players (`emit`) are modelled as `Emit` records appended
to `Room.events`. Errors the code throws are modelled as `Err` results
carrying the thrown message.

Where the code does not do what its names and comments suggest, the model
follows the code:

- The turn cursor does not wrap. From the last player, `next()` returns the
  first player but leaves `currentI` where it is. `Controller.CursorClosedForm`
  shows that the cursor climbs to the last player and stays there.
- The finish test is `field length > position - 1`. `Controller.Room.Process`
  proves what this means. Every roll either ends the game, for any new
  position up to the field length (a first roll of 3 on a ten-tile board
  included), or lands past the end of the field. In that case the tile read
  is missing and the turn fails. So `process` never resolves a tile.
  `Controller.Room.ResolveMove` models the tile dispatch that follows the
  test, as it would run if the test let a move through; see "## Left out"
  for how its errors differ from the code's promise.
- Because of this, a player at 8 on a ten-tile board who rolls 3 does not
  finish. The move fails instead (`Controller.RollPastTheEndFails`).
- The positions map (class/controller.js:194-197) is a JavaScript array
  indexed by string ids. Serialised to JSON, such an array carries none of
  those entries, so clients would most likely receive an empty list. This
  is an observation about the code, not executed. The model records the
  map as it is passed to `emit`.
- Any player's login overwrites the game category, so the last login wins.
  The player name is not validated.
- The controller sends difficulties 1, 3 and 5. The difficulty table only
  knows "easy", "medium" and "hard". `getDifficultyId` runs before the
  promise chain is built, so such a request throws to its caller instead of
  returning the error as a value (`Questions.NumericDifficultyThrows`).

## Model

| member | source | states |
|---|---|---|
| `Controller.Room.constructor` | class/controller.js:8-38 | a room gets one fresh player per connection, in order; the cursor starts at 0, so the current player is the first; every player is sent the login prompt |
| `Controller.Room.Next` | class/controller.js:13-17 | below the last place, the cursor moves one place and the new current player is returned; from the last place the first player is returned and the cursor does not move; the cursor stays in range |
| `Controller.Room.Current` | class/controller.js:18-20 | the current player is `players[currentI]`, always one of the room's players |
| `Controller.CursorClosedForm` | class/controller.js:13-17 | after k calls of `next()` from 0 on n players, the cursor is at min(k, n-1): it never wraps |
| `Controller.CursorNeverReturnsToFirst` | class/controller.js:13-17 | with two or more players, after n calls (or any positive number) the turn is never back at the first player |
| `Controller.Joined` | class/controller.js:55-66 | after a valid login the player's language and name are the submitted ones; colour and readiness change only when the colour was free; id and position are kept |
| `Controller.Room.TakeColor` | class/controller.js:61-68 | the player takes the colour and becomes ready, everyone is sent the free colours, then the ready gate's messages follow |
| `Controller.Room.Broadcast` | class/controller.js:21-24 | a message goes to every player exactly once, in list order |
| `Controller.ToEachSpec` | class/controller.js:21-24 | the per-player copies of a message: the i-th is addressed to the i-th player's id |
| `Controller.Room.EveryoneReady` | class/controller.js:72-75 | the ready loop answers true exactly when every player is ready |
| `Controller.Room.CheckReady` | class/controller.js:71-83 | if any player is not ready, nothing is sent and false is returned; otherwise the field goes to every player and the current player is prompted to roll |
| `Controller.Room.GameRound` | class/controller.js:85-87 | a round prompts the current player, and only that player, to roll |
| `Controller.Room.HandleLogin` | class/controller.js:48-69 | invalid colour, language or category is rejected and nothing changes; otherwise the player's language and name are set and the game category is overwritten; only an available colour is assigned, broadcast and makes the player ready, and then the ready gate runs; no other player changes |
| `Controller.Room.HandleRoll` | class/controller.js:89-96 | a roll from a player whose id is not the current player's changes no position, cursor, game or message; the current player's roll sends it the dice value and processes the move |
| `Controller.Room.Process` | class/controller.js:161-174 | the dice are added to the current player's position; when length > pos - 1 everyone gets game-over naming the current player and nothing else changes; otherwise the tile read fails; in neither case is a tile resolved or the turn advanced |
| `Controller.Room.ResolveMove` | class/controller.js:168-203 | a negative position is reset to 0; outside the field the tile read fails; a default tile keeps the position, a jump tile moves the player to its destination, and both end the turn; a question tile waits; any other type fails with "unknown field type"; a failed or waiting move changes no cursor or message |
| `Controller.Room.FinishTurn` | class/controller.js:193-203 | a resolved turn sends every player the positions map, calls `next()` exactly once and prompts the new current player to roll |
| `Controller.Room.PositionMap` | class/controller.js:194-197 | the loop builds the positions map of all players |
| `Controller.PositionsOfSpec` | class/controller.js:194-197 | the positions map has exactly the players' ids as keys; each player's entry is its position unless a later player has the same id |
| `Controller.PositionsOfDistinct` | class/controller.js:194-200 | with distinct ids, the map has one entry per player, equal to that player's position |
| `Controller.AnswerDelta` | class/controller.js:112-138 | the difficulty must be the number 1, 3 or 5 or it is rejected; the change is plus the difficulty exactly when the answer is strictly equal to the correct id, minus it otherwise |
| `Controller.Room.HandleAnswer` | class/controller.js:110-141 | a rejected difficulty changes nothing; otherwise the current player's position changes by the score rule and the turn ends as a resolved move does |
| `Controller.FirstRollEndsGame` | class/controller.js:161-167 | on a ten-tile board the first roll of 3 ends the game for the first player |
| `Controller.RollPastTheEndFails` | class/controller.js:161-174 | a player at 8 on a ten-tile board rolling 3 is left at 11 and the move fails |
| `Controller.RollOutOfTurnIgnored` | class/controller.js:89-96 | a roll from the player not on turn is ignored and no position moves |
| `Questions.GetDifficultyId` | class/question.js:129-140 | exactly "easy", "medium" and "hard" have ids, all within 1..3; every other value, and every number, throws "Unable to get difficultyId." |
| `Questions.DifficultyRoundTrip` | class/question.js:129-140 | the difficulty table and its inverse agree in both directions |
| `Questions.GetLanguageId` | class/question.js:143-154 | exactly "German", "Czech" and "English" have ids, all within 1..3; every other name throws "Unable to get languageId." |
| `Questions.LanguageRoundTrip` | class/question.js:143-154 | the language table and its inverse agree in both directions |
| `Questions.LanguageIdInjective` | class/question.js:143-154 | two languages with the same id are the same language |
| `Questions.Retrieve` | class/question.js:21-48 | a request never draws more candidates than the store returns, and inside the chain it delivers a question or hands back the error as its value |
| `Questions.RetrieveBounded` | class/question.js:36-44 | a request draws at most 52 - counter candidates (52 from a counter of 0), and the counter stays within 0..51 |
| `Questions.RetrieveDelivers` | class/question.js:25-44 | every candidate skipped was already used; a delivered question is the last candidate drawn, was new, is now recorded, and the counter is back at 0 |
| `Questions.RetrieveGrowsWithoutDuplicates` | class/question.js:25-44 | the used list keeps its prefix and gains at most the one new id drawn; a duplicate-free list stays duplicate-free |
| `Questions.RetrieveExhausts` | class/question.js:36-38 | when the next 52 - counter candidates are all repeats, exactly that many are drawn, the used list is unchanged, the counter is left at 51 and "No appropriate questions left." is the result |
| `Questions.RetrieveFindsFirstNew` | class/question.js:25-44 | when the first j candidates are repeats, j is below 52 - counter and candidate j is new, exactly j + 1 are drawn, candidate j is recorded as used, and it is delivered (counter back at 0) exactly when its texts exist, otherwise the missing translation is the result |
| `Questions.RetrieveTakesNewAtAnyCount` | class/question.js:25-33 | a new id is taken at the first draw whatever the counter; the counter is reset only if its texts are found |
| `Questions.Question.constructor` | class/question.js:9-13 | a new object has no used ids and a counter of 0 |
| `Questions.Question.SaveQuestionIdToRam` | class/question.js:65-67 | the id is appended to the used list |
| `Questions.Question.IsNewQuestion` | class/question.js:52-62 | an absent id is appended and reported new; a present id is reported old and the list is unchanged; no duplicate is ever introduced |
| `Questions.Question.GetQuestionWithAnswers` | class/question.js:21-48 | an unknown difficulty is thrown before anything is drawn; otherwise the reply, the number drawn, the used list and the counter are those of `Retrieve` from the old state |
| `Questions.NumericDifficultyThrows` | class/question.js:129-140 | a request with difficulty 1, 3 or 5, as the controller sends, is always thrown and draws nothing |
| `Questions.NoRepeatAcrossRequests` | class/question.js:25-35 | a question served once in a game is skipped by a later request, which serves the next new one |
| `App.PairsInArrivalOrder` | app.js:28-31 | the k-th room pairs arrivals 2k and 2k+1; at most the last arrival waits |
| `App.OneMoreArrival` | app.js:28-31 | a new arrival either waits alone or is paired with the one connection already waiting |
| `App.Matchmaker.constructor` | app.js:23-24 | the queue and the registry start empty |
| `App.Matchmaker.Connect` | app.js:26-33 | the connection is queued; when two wait, the two oldest form a room registered under its id, and no other entry changes; afterwards at most one waits, and all pairs so far are in arrival order |
| `App.Matchmaker.Disconnect` | app.js:34-39 | the room's entry is deleted when its player count is 0; otherwise the registry is unchanged |
| `App.Matchmaker.Done` | app.js:40-45 | every player connection of the room is closed and the room's entry is deleted whatever its player count |
| `App.ArrivalOrderScenario` | app.js:28-32 | arrivals A, B, C make a room of A and B while C waits; a fourth arrival D makes a room of C and D |
| `App.DisconnectScenario` | app.js:34-39 | a room is retired only after its player count reaches 0 |

## Left out

- Connection wiring (`this.on`, `socket.join`, `io.on`) and the transport
  are left out: each handler is a method called with the index of the
  player whose connection raised the event. Logging (`console.log`, `log`)
  is left out too.
- The 20-second timeout of a question (class/controller.js:144-147) is timer
  behaviour and is left out. The code never cancels the timer after an
  answer, so the model does not claim the position changes exactly once.
- The question fetch between the difficulty and the answer
  (class/controller.js:120-128 and `getQuestion`, 151-159) is not modelled.
  It calls a `question` object that the controller never creates.
  `HandleAnswer` takes the correct answer id as an input.
- Database queries and SQL (`determineQuestion`, `getTranslatedQuestion`,
  `getTranslatedAnswers`, `setLanguageId`) are not modelled. The rows they
  return are inputs: the candidate rows of successive random-question
  queries, and the translation tables. Running out of candidates stands for
  a query that returns no rows.
- Answer shuffling is not modelled: the shuffle module is not part of this
  model, so answers keep their stored order.
- Dice generation is not modelled: the dice value is an input.
- The input validators are given as sets of accepted values.
- Game and Player are not part of this model. The colours the game reports
  as free are an input of `HandleLogin`. `addPosition`, `subPosition` and
  `setPosition` are taken to add, subtract and set, with `addPosition`
  returning the new position. A new player starts at position 0, not
  ready. `getId()` and `.id` are taken to be the same id. `isNumber` on a
  client value is taken to mean that the value is a number.
- A room built from no connections is not modelled, because its handlers
  could never fire. The room constructor requires at least one connection.
- What happens after a thrown error or a rejected promise is not modelled:
  whether the handler crashes the process, or whether the turn stalls.
  The model only returns the error.
- `App.Matchmaker.Disconnect`: the player count is an input, because app.js
  reads it through `players.size()`, which the controller does not define.
  The controller's own player removal is not part of this model.
- `App.Matchmaker.Done`: closes the connections paired into the room rather
  than the controller's current players, because app.js reads those through
  `players.each`, which the controller does not define.
- `Controller.Room.Process` and `Controller.Room.ResolveMove`: the tile
  errors are returned as `Err` from the call. In the code, the `switch`
  (class/controller.js:176-191) runs inside a `new Promise` executor, so
  "unknown field type" and the missing-tile read reject that promise
  rather than throw from `process`. The model also assumes a promise
  library that provides `.error`. A native Promise has none, so line 204
  would throw a TypeError after the continuation is attached. That
  TypeError is not modelled. On the path the code can reach (a roll that
  fails the finish test), the state effects agree: the position is
  stored, nothing is sent and the cursor does not move.
- `App.Matchmaker.Connect`: the model follows the controller interface
  that app.js expects (a room made from two connections, with an id), not
  the controller in class/controller.js. As written, `new Controller(io,
  guid())` (app.js:30) passes a string where the constructor expects a
  list of connections, so `sockets.forEach` (class/controller.js:31)
  throws before either `clients.shift()` runs. Then no pair is ever formed
  and the queue only grows. `addPlayer` and `getId` (app.js:31-32) do not
  exist on that controller. `this.on` (class/controller.js:40-46) returns
  nothing, so the chained `.on('done', ...)` (app.js:40) would throw and
  the done handler is never attached. `Done` models the handler app.js
  intends to attach.
- `App.Matchmaker.Connect`: the room id (the `guid()` value) is an input and
  is not assumed fresh. Room names and the room counter are not modelled.
- Express and CORS setup, `server.listen` and the database bootstrap are not
  modelled.
