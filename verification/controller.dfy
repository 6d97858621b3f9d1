/** One game room: the turn cursor over its players, the login/ready
    handshake, the dice-roll guard, move and tile resolution, and the score
    rule of a question tile. Everything a room sends to its players is
    recorded, in order, in `events`. */
module Controller {
  import opened Common

  type Id = string

  /** A player of the room; its fields are updated in place by the handlers. */
  datatype Player = Player(id: Id, position: int, isReady: bool, color: string, lang: string, name: string)

  /** The player created for a newly paired connection. */
  function NewPlayer(id: Id): Player {
    Player(id, 0, false, "", "", "")
  }

  /** Tile types; any other type name found on the board is kept as `Other`. */
  datatype TileType = Default | Question | Jump | Other(name: string)

  datatype Tile = Tile(kind: TileType, jumpDestinationId: int)

  /** The game's shared state that the room touches: its category and the board. */
  datatype Game = Game(category: string, field: seq<Tile>)

  datatype Message =
    | Login
    | AvailableColors(colors: set<string>)
    | FieldMap(field: seq<Tile>)
    | RollTheDice
    | DiceResult(value: int)
    | PlayerPosition(positions: map<Id, int>)
    | GameOver(winner: Id)

  /** A message sent to the player with the given id. */
  datatype Emit = Emit(to: Id, message: Message)

  datatype LoginData = LoginData(color: string, category: string, name: string, lang: string)

  /** The external input checks, given by the sets of values they accept. */
  datatype Validator = Validator(colors: set<string>, languages: set<string>, categories: set<string>)

  predicate IsValidLogin(v: Validator, data: LoginData) {
    data.color in v.colors && data.lang in v.languages && data.category in v.categories
  }

  /** How far a move got. */
  datatype Move = Ignored | Finished | AwaitingQuestion | Resolved

  const InvalidLoginData := "Invalid data (color, category or language) from client."
  const InvalidDifficulty := "Invalid difficulty value from client."
  const UnknownFieldType := "unknown field type"
  /** Reading `type` of the missing tile found past either end of the field. */
  const UndefinedStep := "TypeError: cannot read property 'type' of undefined"

  // ---------------------------------------------------------------------
  // Turn cursor

  /** The cursor after one call of `next()` on a list of `n` players: it
      moves one place forward, except from the last place, where it stays. */
  function NextIndex(i: nat, n: nat): nat {
    if i + 1 == n then i else i + 1
  }

  /** The cursor after `k` calls of `next()`, starting from 0. */
  function Cursor(n: nat, k: nat): nat {
    if k == 0 then 0 else NextIndex(Cursor(n, k - 1), n)
  }

  /** The cursor climbs to the last player and stays there: it never wraps. */
  lemma {:induction false} CursorClosedForm(n: nat, k: nat)
    requires n >= 1
    ensures Cursor(n, k) == if k < n then k else n - 1
  {
    if k > 0 {
      CursorClosedForm(n, k - 1);
    }
  }

  /** With two or more players, after any positive number of turns the
      cursor is never back at the first player. */
  lemma CursorNeverReturnsToFirst(n: nat, k: nat)
    requires n >= 2 && k >= 1
    ensures Cursor(n, k) != 0
    ensures Cursor(n, n) == n - 1
  {
    CursorClosedForm(n, k);
    CursorClosedForm(n, n);
  }

  // ---------------------------------------------------------------------
  // What the room emits

  /** One copy of message `m` for every player, in list order. */
  function ToEach(ps: seq<Player>, m: Message): (r: seq<Emit>)
    ensures |r| == |ps|
  {
    if ps == [] then [] else [Emit(ps[0].id, m)] + ToEach(ps[1..], m)
  }

  /** The i-th copy is addressed to the i-th player. */
  lemma {:induction false} ToEachSpec(ps: seq<Player>, m: Message)
    ensures forall i :: 0 <= i < |ps| ==> ToEach(ps, m)[i] == Emit(ps[i].id, m)
  {
    if ps != [] {
      ToEachSpec(ps[1..], m);
    }
  }

  /** Sending to one more player appends one message. */
  lemma ToEachSnoc(ps: seq<Player>, i: nat, m: Message)
    requires i < |ps|
    ensures ToEach(ps[..i + 1], m) == ToEach(ps[..i], m) + [Emit(ps[i].id, m)]
  {
    var a, b := ToEach(ps[..i + 1], m), ToEach(ps[..i], m) + [Emit(ps[i].id, m)];
    ToEachSpec(ps[..i + 1], m);
    ToEachSpec(ps[..i], m);
    assert |a| == |b|;
    forall k | 0 <= k < |a| ensures a[k] == b[k] {
      if k < i {
        assert b[k] == ToEach(ps[..i], m)[k];
      }
    }
  }

  /** Only the ids of the recipients matter. */
  lemma ToEachSameIds(ps: seq<Player>, qs: seq<Player>, m: Message)
    requires |ps| == |qs| && forall i :: 0 <= i < |ps| ==> ps[i].id == qs[i].id
    ensures ToEach(ps, m) == ToEach(qs, m)
  {
    var a, b := ToEach(ps, m), ToEach(qs, m);
    ToEachSpec(ps, m);
    ToEachSpec(qs, m);
    forall k | 0 <= k < |a| ensures a[k] == b[k] {
    }
  }

  /** The positions map built by visiting the players in order: one key per
      player id, a later player overwriting an earlier one with the same id. */
  function PositionsOf(ps: seq<Player>): map<Id, int> {
    if ps == [] then map[] else PositionsOf(ps[..|ps| - 1])[ps[|ps| - 1].id := ps[|ps| - 1].position]
  }

  /** The positions map has exactly the players' ids as keys, and each
      player whose id no later player shares is mapped to its position. */
  lemma {:induction false} PositionsOfSpec(ps: seq<Player>)
    ensures PositionsOf(ps).Keys == set i | 0 <= i < |ps| :: ps[i].id
    ensures forall i :: 0 <= i < |ps| && (forall j :: i < j < |ps| ==> ps[j].id != ps[i].id) ==>
              PositionsOf(ps)[ps[i].id] == ps[i].position
  {
    if ps != [] {
      var init := ps[..|ps| - 1];
      PositionsOfSpec(init);
      assert forall i :: 0 <= i < |init| ==> init[i] == ps[i];
      assert (set i | 0 <= i < |ps| :: ps[i].id) == (set i | 0 <= i < |init| :: init[i].id) + {ps[|ps| - 1].id};
    }
  }

  /** With distinct ids, every player's entry is its own position. */
  lemma PositionsOfDistinct(ps: seq<Player>)
    requires forall i, j :: 0 <= i < j < |ps| ==> ps[i].id != ps[j].id
    ensures |PositionsOf(ps)| == |ps|
    ensures forall i :: 0 <= i < |ps| ==> ps[i].id in PositionsOf(ps) && PositionsOf(ps)[ps[i].id] == ps[i].position
  {
    PositionsOfSpec(ps);
    IdsCardinality(ps);
  }

  lemma {:induction false} IdsCardinality(ps: seq<Player>)
    requires forall i, j :: 0 <= i < j < |ps| ==> ps[i].id != ps[j].id
    ensures |set i | 0 <= i < |ps| :: ps[i].id| == |ps|
  {
    if ps != [] {
      var init := ps[..|ps| - 1];
      IdsCardinality(init);
      assert forall i :: 0 <= i < |init| ==> init[i] == ps[i];
      assert (set i | 0 <= i < |ps| :: ps[i].id) == (set i | 0 <= i < |init| :: init[i].id) + {ps[|ps| - 1].id};
    }
  }

  /** What ends a resolved turn: every player is sent the positions map,
      the cursor moves once, and the new current player is asked to roll. */
  function EndOfTurn(ps: seq<Player>, cur: nat): seq<Emit>
    requires cur < |ps|
  {
    ToEach(ps, PlayerPosition(PositionsOf(ps))) + [Emit(ps[NextIndex(cur, |ps|)].id, RollTheDice)]
  }

  /** A player after a valid login: language and name are set; colour and
      readiness only when the colour was free. Id and position are kept. */
  function Joined(p: Player, data: LoginData, colorFree: bool): (q: Player)
    ensures q.id == p.id && q.position == p.position
    ensures q.lang == data.lang && q.name == data.name
    ensures colorFree ==> q.color == data.color && q.isReady
    ensures !colorFree ==> q.color == p.color && q.isReady == p.isReady
  {
    if colorFree then p.(lang := data.lang, name := data.name, color := data.color, isReady := true)
    else p.(lang := data.lang, name := data.name)
  }

  predicate AllReady(ps: seq<Player>) {
    forall i :: 0 <= i < |ps| ==> ps[i].isReady
  }

  // ---------------------------------------------------------------------
  // Question tile score rule

  /** The position change a question yields: the difficulty must be the
      number 1, 3 or 5; a strictly equal answer id gains that many fields,
      anything else loses as many. */
  function AnswerDelta(difficulty: Value, answer: Value, correctAnswer: int): (r: Result<int>)
    ensures r.Ok? <==> difficulty.Num? && difficulty.n in {1, 3, 5}
    ensures r.Err? ==> r.error == InvalidDifficulty
    ensures r.Ok? ==> r.value in {1, 3, 5, -1, -3, -5}
    ensures r.Ok? ==> (r.value > 0 <==> answer == Num(correctAnswer))
    ensures r.Ok? ==> r.value == difficulty.n || r.value == -difficulty.n
  {
    if IsNumber(difficulty) && (difficulty.n == 1 || difficulty.n == 3 || difficulty.n == 5) then
      if IsNumber(answer) && answer == Num(correctAnswer) then Ok(difficulty.n) else Ok(-difficulty.n)
    else
      Err(InvalidDifficulty)
  }

  // ---------------------------------------------------------------------
  // The room

  class Room {
    var players: seq<Player>
    var currentI: nat
    var game: Game
    var events: seq<Emit>

    predicate Valid()
      reads this
    {
      currentI < |players|
    }

    /** The player whose turn it is. */
    function Current(): (p: Player)
      reads this
      requires Valid()
      ensures p in players
    {
      players[currentI]
    }

    /** The messages that follow when every player is ready: the board to
        everyone, then the roll prompt to the current player. */
    function ReadyEvents(): seq<Emit>
      reads this
      requires Valid()
    {
      if AllReady(players) then ToEach(players, FieldMap(game.field)) + [Emit(Current().id, RollTheDice)] else []
    }

    /** A room for the given connections: one fresh player per connection,
        the cursor on the first, and a login prompt to everyone. */
    constructor (sockets: seq<Id>, game: Game)
      requires |sockets| > 0
      ensures Valid() && currentI == 0 && this.game == game
      ensures |players| == |sockets|
      ensures forall i :: 0 <= i < |sockets| ==> players[i] == NewPlayer(sockets[i])
      ensures events == ToEach(players, Login)
    {
      var ps: seq<Player> := [];
      var i := 0;
      while i < |sockets|
        invariant 0 <= i <= |sockets| && |ps| == i
        invariant forall j :: 0 <= j < i ==> ps[j] == NewPlayer(sockets[j])
      {
        ps := ps + [NewPlayer(sockets[i])];
        i := i + 1;
      }
      players := ps;
      currentI := 0;
      this.game := game;
      events := ToEach(ps, Login);
    }

    /** `players.next()`: advance the cursor unless it is on the last
        player, in which case the first player is returned but the cursor
        stays where it is. */
    method Next() returns (p: Player)
      requires Valid()
      modifies this`currentI
      ensures Valid()
      ensures currentI == NextIndex(old(currentI), |players|)
      ensures old(currentI) + 1 == |players| ==> p == players[0] && currentI == old(currentI)
      ensures old(currentI) + 1 < |players| ==> currentI == old(currentI) + 1 && p == Current()
    {
      if currentI + 1 == |players| {
        p := players[0];
      } else {
        currentI := currentI + 1;
        p := players[currentI];
      }
    }

    /** Send `m` to every player, in list order. */
    method Broadcast(m: Message)
      modifies this`events
      ensures events == old(events) + ToEach(players, m)
    {
      var i := 0;
      while i < |players|
        invariant 0 <= i <= |players|
        invariant events == old(events) + ToEach(players[..i], m)
      {
        ToEachSnoc(players, i, m);
        events := events + [Emit(players[i].id, m)];
        i := i + 1;
      }
      assert players[..i] == players;
    }

    /** The loop of `checkReady`: is every player ready? */
    method EveryoneReady() returns (ready: bool)
      ensures ready <==> AllReady(players)
    {
      var i := 0;
      while i < |players|
        invariant 0 <= i <= |players|
        invariant forall j :: 0 <= j < i ==> players[j].isReady
      {
        if !players[i].isReady {
          return false;
        }
        i := i + 1;
      }
      return true;
    }

    /** `gameRound`: prompt the current player, and only that player, to roll. */
    method GameRound()
      requires Valid()
      modifies this`events
      ensures events == old(events) + [Emit(Current().id, RollTheDice)]
    {
      events := events + [Emit(players[currentI].id, RollTheDice)];
    }

    /** `checkReady`: nothing happens unless every player is ready; then the
        board goes to everyone and the first round starts. */
    method CheckReady() returns (started: bool)
      requires Valid()
      modifies this`events
      ensures started <==> AllReady(players)
      ensures events == old(events) + ReadyEvents()
    {
      started := EveryoneReady();
      if !started {
        return;
      }
      Broadcast(FieldMap(game.field));
      GameRound();
    }

    /** The login handler for the player at index `who`. Invalid colour,
        language or category is rejected before anything changes. Otherwise
        language and name are stored and the game category is overwritten
        (the last login wins); only when the colour is available does the
        player get it, everyone get the available colours, and the player
        become ready, after which the ready gate is checked. `available` is
        what the game reports as the colours still free. */
    method HandleLogin(who: nat, data: LoginData, validator: Validator, available: set<string>) returns (r: Result<bool>)
      requires Valid() && who < |players|
      modifies this
      ensures Valid() && currentI == old(currentI) && |players| == |old(players)|
      ensures !IsValidLogin(validator, data) ==>
        r == Err(InvalidLoginData) && players == old(players) && game == old(game) && events == old(events)
      ensures IsValidLogin(validator, data) ==>
        && r == Ok(data.color in available)
        && game == old(game).(category := data.category)
        && players == old(players)[who := Joined(old(players[who]), data, data.color in available)]
        && events == old(events) +
             (if data.color in available then ToEach(players, AvailableColors(available)) + ReadyEvents() else [])
    {
      if !IsValidLogin(validator, data) {
        r := Err(InvalidLoginData);
      } else {
        var p := players[who].(lang := data.lang, name := data.name);
        game := game.(category := data.category);
        if data.color in available {
          TakeColor(who, p.(color := data.color), available);
        } else {
          players := players[who := p];
        }
        r := Ok(data.color in available);
      }
    }

    /** The available-colour branch of the login handler: the player takes
        the colour, everyone is sent the free colours, the player becomes
        ready and the ready gate runs. */
    method TakeColor(who: nat, p: Player, available: set<string>)
      requires Valid() && who < |players| && p.id == players[who].id
      modifies this`players, this`events
      ensures Valid() && players == old(players)[who := p.(isReady := true)]
      ensures events == old(events) + ToEach(players, AvailableColors(available)) + ReadyEvents()
    {
      players := players[who := p];
      Broadcast(AvailableColors(available));
      players := players[who := p.(isReady := true)];
      ToEachSameIds(players, old(players)[who := p], AvailableColors(available));
      var _ := CheckReady();
    }

    /** The roll handler for the player at index `who`: a roll from anyone
        but the current player is ignored and changes nothing; the current
        player is sent the dice value and the move is processed. */
    method HandleRoll(who: nat, dice: int) returns (r: Result<Move>)
      requires Valid() && who < |players|
      modifies this
      ensures Valid() && game == old(game) && currentI == old(currentI) && |players| == |old(players)|
      ensures old(players[who].id) != old(Current().id) ==>
        r == Ok(Ignored) && players == old(players) && events == old(events)
      ensures old(players[who].id) == old(Current().id) ==>
        var pos := old(Current().position) + dice;
        && players == old(players)[old(currentI) := old(Current()).(position := pos)]
        && (|game.field| > pos - 1 ==>
              r == Ok(Finished) &&
              events == old(events) + [Emit(old(players[who].id), DiceResult(dice))] + ToEach(players, GameOver(Current().id)))
        && (|game.field| <= pos - 1 ==>
              r == Err(UndefinedStep) && events == old(events) + [Emit(old(players[who].id), DiceResult(dice))])
    {
      if players[who].id != players[currentI].id {
        return Ok(Ignored);
      }
      events := events + [Emit(players[who].id, DiceResult(dice))];
      r := Process(dice);
    }

    /** `process(dice)` with the finish test as written: when the field
        length exceeds the new position minus one the game is over for the
        current player and nothing else happens; otherwise the new position
        lies past the end of the field, so the tile read is missing and the
        turn fails. Either way no tile is resolved and the turn does not
        advance. */
    method Process(dice: int) returns (r: Result<Move>)
      requires Valid()
      modifies this
      ensures Valid() && game == old(game) && currentI == old(currentI) && |players| == |old(players)|
      ensures var pos := old(Current().position) + dice;
        && players == old(players)[old(currentI) := old(Current()).(position := pos)]
        && (|game.field| > pos - 1 ==>
              r == Ok(Finished) && events == old(events) + ToEach(players, GameOver(Current().id)))
        && (|game.field| <= pos - 1 ==> r == Err(UndefinedStep) && events == old(events))
    {
      var pos := players[currentI].position + dice;
      players := players[currentI := players[currentI].(position := pos)];
      if |game.field| > pos - 1 {
        Broadcast(GameOver(players[currentI].id));
        return Ok(Finished);
      }
      r := ResolveMove(pos);
    }

    /** The rest of `process` once the new position `pos` is stored: a
        position behind the start is reset to 0; the tile at `pos` is read
        (missing outside the field); a default tile resolves at once, a jump
        tile first moves the player to its destination, a question tile
        waits for the answer and any other tile type fails. A resolved turn
        sends everyone the positions, advances the cursor once and starts
        the next round. */
    method ResolveMove(pos: int) returns (r: Result<Move>)
      requires Valid() && Current().position == pos
      modifies this
      ensures Valid() && game == old(game) && |players| == |old(players)|
      ensures !(0 <= pos < |game.field|) ==>
        && r == Err(UndefinedStep) && currentI == old(currentI) && events == old(events)
        && players == old(players)[old(currentI) := old(Current()).(position := if pos < 0 then 0 else pos)]
      ensures 0 <= pos < |game.field| && game.field[pos].kind.Question? ==>
        r == Ok(AwaitingQuestion) && players == old(players) && currentI == old(currentI) && events == old(events)
      ensures 0 <= pos < |game.field| && game.field[pos].kind.Other? ==>
        r == Err(UnknownFieldType) && players == old(players) && currentI == old(currentI) && events == old(events)
      ensures 0 <= pos < |game.field| && game.field[pos].kind.Default? ==>
        && r == Ok(Resolved) && players == old(players)
        && currentI == NextIndex(old(currentI), |players|) && events == old(events) + EndOfTurn(players, old(currentI))
      ensures 0 <= pos < |game.field| && game.field[pos].kind.Jump? ==>
        && r == Ok(Resolved)
        && players == old(players)[old(currentI) := old(Current()).(position := game.field[pos].jumpDestinationId)]
        && currentI == NextIndex(old(currentI), |players|) && events == old(events) + EndOfTurn(players, old(currentI))
    {
      if pos < 0 {
        players := players[currentI := players[currentI].(position := 0)];
      }
      if !(0 <= pos < |game.field|) {
        return Err(UndefinedStep);
      }
      var step := game.field[pos];
      match step.kind {
        case Default =>
        case Question =>
          return Ok(AwaitingQuestion);
        case Jump =>
          players := players[currentI := players[currentI].(position := step.jumpDestinationId)];
        case Other(_) =>
          return Err(UnknownFieldType);
      }
      FinishTurn();
      r := Ok(Resolved);
    }

    /** The continuation of a resolved move: the positions map to everyone,
        one call of `next()`, and the next round. */
    method FinishTurn()
      requires Valid()
      modifies this`events, this`currentI
      ensures Valid()
      ensures currentI == NextIndex(old(currentI), |players|)
      ensures events == old(events) + EndOfTurn(players, old(currentI))
    {
      var positions := PositionMap();
      Broadcast(PlayerPosition(positions));
      var _ := Next();
      GameRound();
    }

    /** The loop that builds the positions map sent after a move. */
    method PositionMap() returns (positions: map<Id, int>)
      ensures positions == PositionsOf(players)
    {
      positions := map[];
      var i := 0;
      while i < |players|
        invariant 0 <= i <= |players|
        invariant positions == PositionsOf(players[..i])
      {
        assert players[..i + 1][..i] == players[..i];
        positions := positions[players[i].id := players[i].position];
        i := i + 1;
      }
      assert players[..i] == players;
    }

    /** The answer to a question tile, given the difficulty the current
        player chose, the answer id it sent and the question's correct
        answer id. A difficulty other than 1, 3 or 5 is rejected and changes
        nothing; otherwise the current player gains or loses the difficulty
        and the suspended turn is resolved. */
    method HandleAnswer(difficulty: Value, answer: Value, correctAnswer: int) returns (r: Result<Move>)
      requires Valid()
      modifies this
      ensures Valid() && game == old(game) && |players| == |old(players)|
      ensures AnswerDelta(difficulty, answer, correctAnswer).Err? ==>
        r == Err(InvalidDifficulty) && players == old(players) && currentI == old(currentI) && events == old(events)
      ensures AnswerDelta(difficulty, answer, correctAnswer).Ok? ==>
        && r == Ok(Resolved)
        && players == old(players)[old(currentI) :=
             old(Current()).(position := old(Current().position) + AnswerDelta(difficulty, answer, correctAnswer).value)]
        && currentI == NextIndex(old(currentI), |players|)
        && events == old(events) + EndOfTurn(players, old(currentI))
    {
      var delta := AnswerDelta(difficulty, answer, correctAnswer);
      if delta.Err? {
        return Err(InvalidDifficulty);
      }
      players := players[currentI := players[currentI].(position := players[currentI].position + delta.value)];
      FinishTurn();
      r := Ok(Resolved);
    }
  }

  // ---------------------------------------------------------------------
  // Scenarios

  /** On a ten-tile board, the very first roll of 3 from position 0 ends the
      game: the finish test holds for every position up to the field length. */
  method FirstRollEndsGame(a: Id, b: Id, board: seq<Tile>) returns (r: Result<Move>, winner: Id)
    requires |board| == 10 && a != b
    ensures r == Ok(Finished) && winner == a
  {
    var room := new Room([a, b], Game("", board));
    r := room.HandleRoll(0, 3);
    winner := room.events[|room.events| - 1].message.winner;
  }

  /** A player at position 8 on a ten-tile board who rolls 3 reaches 11:
      the finish test fails and the tile read past the end is missing. */
  method RollPastTheEndFails(a: Id, b: Id, board: seq<Tile>) returns (r: Result<Move>, position: int)
    requires |board| == 10 && a != b
    ensures r == Err(UndefinedStep) && position == 11
  {
    var room := new Room([a, b], Game("", board));
    room.players := room.players[0 := room.players[0].(position := 8)];
    r := room.HandleRoll(0, 3);
    position := room.players[0].position;
  }

  /** A roll from the player who is not on turn is ignored. */
  method RollOutOfTurnIgnored(a: Id, b: Id, board: seq<Tile>) returns (r: Result<Move>, positions: seq<int>)
    requires a != b
    ensures r == Ok(Ignored) && positions == [0, 0]
  {
    var room := new Room([a, b], Game("", board));
    r := room.HandleRoll(1, 4);
    positions := [room.players[0].position, room.players[1].position];
  }
}
