/** The Player, GameRoom and GameServer objects of example/game.cc. */
module GameServers {
  import opened GameSpec
  import opened MatchSpec

  class Player {
    const name: string
    var hp: int
    var mp: int
    var hpPotion: int
    var mpPotion: int
    /** the weak pointer to the room */
    var room: GameRoom?

    constructor (name: string)
      ensures this.name == name && Stats() == FRESH && room == null
    {
      this.name := name;
      hp, mp, hpPotion, mpPotion, room := 200, 100, 1, 1, null;
    }

    function Stats(): Fighter
      reads this
    {
      Fighter(hp, mp, hpPotion, mpPotion)
    }
  }

  class GameRoom {
    ghost const id: nat
    const p1: Player
    const p2: Player
    var currentTurn: int
    var finished: bool
    ghost var moves: seq<Move>

    ghost predicate Valid()
      reads this
    {
      p1 != p2 && (currentTurn == 0 || currentTurn == 1)
    }

    constructor (ghost id: nat, player1: Player, player2: Player)
      requires player1 != player2
      ensures Valid() && this.id == id && p1 == player1 && p2 == player2
      ensures currentTurn == 0 && !finished && moves == []
    {
      this.id, p1, p2 := id, player1, player2;
      currentTurn, finished, moves := 0, false, [];
    }

    ghost function View(): Game
      reads this, p1, p2
    {
      Game(p1.Stats(), p2.Stats(), currentTurn, finished)
    }

    ghost function RoomView(): Room
      reads this, p1, p2
    {
      Room(id, p1.name, p2.name, View(), moves)
    }

    function CurrentPlayer(): Player
      reads this
    {
      if currentTurn == 0 then p1 else p2
    }

    function OpponentPlayer(): Player
      reads this
    {
      if currentTurn == 0 then p2 else p1
    }

    ghost function SenderOf(player: Player): Sender {
      if player == p1 then Seat(0) else if player == p2 then Seat(1) else Stranger
    }

    method HandleCommand(player: Player, cmd: char, roll: int) returns (drop: bool)
      requires Valid() && Fair(cmd, roll)
      modifies this`currentTurn, this`finished, this`moves
      modifies p1`hp, p1`mp, p1`hpPotion, p1`mpPotion, p2`hp, p2`mp, p2`hpPotion, p2`mpPotion
      ensures Valid() && moves == old(moves) + [Move(SenderOf(player), cmd, roll)]
      ensures var (verdict, game) := GameSpec.HandleCommand(old(View()), SenderOf(player), cmd, roll);
              View() == game && drop == RoomOver(verdict)
    {
      moves := moves + [Move(SenderOf(player), cmd, roll)];
      if finished {
        return true;
      }
      var self := CurrentPlayer();
      var enemy := OpponentPlayer();
      if player != self {
        return false;
      }
      if cmd == 'a' {
        enemy.hp := Max(0, enemy.hp - roll);
      } else if cmd == 'b' {
        if self.mp < 50 {
          return false;
        }
        self.mp := self.mp - 50;
        enemy.hp := Max(0, enemy.hp - roll);
      } else if cmd == 'h' {
        if self.hpPotion <= 0 {
          return false;
        }
        self.hpPotion := self.hpPotion - 1;
        self.hp := Min(200, self.hp + HP_POTION_EFFECT);
      } else if cmd == 'm' {
        if self.mpPotion <= 0 {
          return false;
        }
        self.mpPotion := self.mpPotion - 1;
        self.mp := Min(100, self.mp + MP_POTION_EFFECT);
      } else {
        return false;
      }
      drop := CheckGameOver();
      if !drop {
        SwitchTurn();
      }
    }

    method CheckGameOver() returns (over: bool)
      modifies this`finished
      ensures over == (p1.hp <= 0 || p2.hp <= 0) && finished == (over || old(finished))
    {
      over := p1.hp <= 0 || p2.hp <= 0;
      if over {
        finished := true;
      }
    }

    method SwitchTurn()
      requires Valid()
      modifies this`currentTurn
      ensures Valid() && currentTurn == 1 - old(currentTurn)
    {
      currentTurn := 1 - currentTurn;
    }
  }

  class GameServer {
    var players: map<string, Player>
    var waitingPlayer: Player?
    var rooms: seq<GameRoom>
    /** the server as a value, and every room ever made, by id */
    ghost var model: Server
    ghost var made: seq<GameRoom>

    /** A player of this server under his own connection name. */
    ghost predicate Known(p: Player)
      reads this
    {
      p.name in players && players[p.name] == p
    }

    ghost predicate Made(r: GameRoom)
      reads this
    {
      r.id < |made| && made[r.id] == r
    }

    ghost predicate PlayerOk(p: Player)
      reads this, p
    {
      && Known(p) && p.name in model.players
      && (p.room == null ==> model.players[p.name] == None)
      && (p.room != null ==> Made(p.room) && model.players[p.name] == Some(p.room.id))
    }

    ghost predicate WaitingOk()
      reads this, waitingPlayer
    {
      if waitingPlayer == null then model.waiting == None else
      && Known(waitingPlayer) && model.waiting == Some(waitingPlayer.name)
      && waitingPlayer.room == null && waitingPlayer.Stats() == FRESH
    }

    /** A room is as the model has it and is the room of both its players. */
    ghost predicate RoomOk(r: GameRoom, room: Room)
      reads this, r, r.p1, r.p2
    {
      && Made(r) && Known(r.p1) && Known(r.p2) && r.p1.room == r && r.p2.room == r
      && r.Valid() && r.RoomView() == room
    }

    ghost predicate PlayersValid()
      reads this, players.Values
    {
      && players.Keys == model.players.Keys
      && (forall n <- players :: players[n].name == n && PlayerOk(players[n]))
    }

    ghost predicate RoomsValid()
      reads this, rooms, (set r <- rooms :: r.p1), (set r <- rooms :: r.p2)
    {
      && |rooms| == |model.rooms|
      && (forall i | 0 <= i < |rooms| :: RoomOk(rooms[i], model.rooms[i]))
      && (forall i, j | 0 <= i < j < |rooms| :: rooms[i] != rooms[j])
    }

    ghost predicate Valid()
      reads this, waitingPlayer, players.Values, rooms, (set r <- rooms :: r.p1), (set r <- rooms :: r.p2)
    {
      |made| == model.created && WaitingOk() && PlayersValid() && RoomsValid()
    }

    constructor ()
      ensures Valid() && model == EMPTY_SERVER
    {
      players, waitingPlayer, rooms, model, made := map[], null, [], EMPTY_SERVER, [];
    }

    /** Rooms stay in order while they and their players are left alone. */
    twostate lemma RoomsStay()
      requires old(RoomsValid()) && rooms == old(rooms) && made == old(made) && model.rooms == old(model.rooms)
      requires forall n <- old(players) :: n in players && players[n] == old(players)[n]
      requires forall r <- rooms :: unchanged(r, r.p1, r.p2)
      ensures RoomsValid()
    {
      forall i | 0 <= i < |rooms| ensures RoomOk(rooms[i], model.rooms[i]) {
        assert old(RoomOk(rooms[i], model.rooms[i]));
        assert rooms[i] in rooms;
      }
    }

    /** A new player under a name not yet in use. */
    method Register(name: string) returns (player: Player)
      requires Valid() && name !in players
      modifies this`players, this`model
      ensures Valid() && fresh(player) && player.name == name && player.room == null && Known(player)
      ensures player.Stats() == FRESH && players == old(players)[name := player]
      ensures model == old(model).(players := old(model).players[name := None])
    {
      player := new Player(name);
      players := players[name := player];
      model := model.(players := model.players[name := None]);
      RoomsStay();
    }

    method Wait(player: Player)
      requires Valid() && Known(player) && waitingPlayer == null && player.room == null && player.Stats() == FRESH
      modifies this`waitingPlayer, this`model
      ensures Valid() && model == old(model).(waiting := Some(player.name))
    {
      waitingPlayer := player;
      model := model.(waiting := Some(player.name));
    }

    /** The two players who are to meet are in no room yet. */
    lemma Unattached(p: Player)
      requires RoomsValid() && p.room == null
      ensures forall r <- rooms :: r.p1 != p && r.p2 != p
    {
      forall r <- rooms ensures r.p1 != p && r.p2 != p {
        var i :| 0 <= i < |rooms| && rooms[i] == r;
        assert RoomOk(rooms[i], model.rooms[i]);
      }
    }

    /** Rooms and players left alone stay in order when a room is made. */
    twostate lemma RoomsGrow(new gameRoom: GameRoom, room: Room)
      requires old(RoomsValid()) && |old(made)| == old(model.created)
      requires players == old(players) && rooms == old(rooms) + [gameRoom] && made == old(made) + [gameRoom]
      requires model.rooms == old(model.rooms) + [room] && RoomOk(gameRoom, room) && gameRoom !in old(rooms)
      requires forall r <- old(rooms) ::
                 unchanged(r, r.p1, r.p2)
      ensures RoomsValid()
    {
      forall i | 0 <= i < |rooms| ensures RoomOk(rooms[i], model.rooms[i]) {
        if i < |rooms| - 1 {
          assert old(RoomOk(rooms[i], model.rooms[i]));
          assert rooms[i] in old(rooms);
        }
      }
    }

    twostate lemma PlayersMove(new first: Player, new second: Player, new gameRoom: GameRoom)
      requires old(PlayersValid()) && |old(made)| == old(model.created) && gameRoom.id == |old(made)|
      requires players == old(players) && made == old(made) + [gameRoom] && Known(first) && Known(second)
      requires model.players ==
               old(model.players)[second.name := Some(gameRoom.id)][first.name := Some(gameRoom.id)]
      requires first.room == gameRoom && second.room == gameRoom
      requires forall n <- players :: players[n] != first && players[n] != second ==> unchanged(players[n])
      ensures PlayersValid()
    {
      forall n <- players ensures PlayerOk(players[n]) {
        assert old(PlayerOk(players[n]));
      }
    }

    /** A new room for the waiting player and a newcomer. */
    method OpenRoom(second: Player)
      requires Valid() && waitingPlayer != null && waitingPlayer != second
      requires Known(second) && second.room == null && second.Stats() == FRESH
      modifies this`rooms, this`model, this`made, this`waitingPlayer, waitingPlayer`room, second`room
      ensures Valid()
      ensures var s := old(model);
              model == Server(
                s.players[second.name := Some(s.created)][old(waitingPlayer.name) := Some(s.created)], None,
                s.rooms + [Room(s.created, old(waitingPlayer.name), second.name, NEW_GAME, [])], s.created + 1)
    {
      hide PlayersValid, RoomsValid;
      var first := waitingPlayer;
      Unattached(first);
      Unattached(second);
      var gameRoom := new GameRoom(model.created, first, second);
      ghost var room := Room(gameRoom.id, first.name, second.name, NEW_GAME, []);
      rooms := rooms + [gameRoom];
      second.room := gameRoom;
      first.room := gameRoom;
      waitingPlayer := null;
      made := made + [gameRoom];
      model := Server(model.players[second.name := Some(room.id)][first.name := Some(room.id)], None,
                      model.rooms + [room], room.id + 1);
      RoomsGrow(gameRoom, room);
      PlayersMove(first, second, gameRoom);
    }

    /** The room has moved on, the others have not. */
    twostate lemma RoomPlayed(new room: GameRoom, i: nat)
      requires old(RoomsValid()) && rooms == old(rooms) && made == old(made) && players == old(players)
      requires i < |rooms| && rooms[i] == room && room.Valid()
      requires model.rooms == old(model.rooms)[i := room.RoomView()]
      requires room.p1.room == room && room.p2.room == room
      requires forall r <- rooms | r != room :: unchanged(r, r.p1, r.p2)
      ensures RoomsValid()
    {
      forall k | 0 <= k < |rooms| ensures RoomOk(rooms[k], model.rooms[k]) {
        assert old(RoomOk(rooms[k], model.rooms[k]));
        assert rooms[k] in rooms;
      }
    }

    /** No two rooms share a player. */
    lemma RoomsApart(room: GameRoom)
      requires RoomsValid() && room in rooms
      ensures forall r <- rooms | r != room ::
                r.p1 != room.p1 && r.p1 != room.p2 && r.p2 != room.p1 && r.p2 != room.p2
      ensures RoomOk(room, model.rooms[IndexOf(rooms, room)])
    {
      hide GameRoom.RoomView;
      forall r <- rooms ensures r.p1.room == r && r.p2.room == r {
        var i := IndexOf(rooms, r);
        assert RoomOk(rooms[i], model.rooms[i]);
      }
    }

    static function IndexOf(rooms: seq<GameRoom>, room: GameRoom): (i: nat)
      ensures i <= |rooms| && (i < |rooms| <==> room in rooms)
      ensures i < |rooms| ==> rooms[i] == room
    {
      if rooms == [] || rooms[0] == room then 0 else 1 + IndexOf(rooms[1..], room)
    }

    /** Searching by id in the model is searching by object here. */
    lemma FindAgrees(room: GameRoom)
      requires RoomsValid() && Made(room)
      ensures Find(model.rooms, room.id) == IndexOf(rooms, room)
    {
      forall k | 0 <= k < |rooms| ensures model.rooms[k].id == room.id <==> rooms[k] == room {
        assert RoomOk(rooms[k], model.rooms[k]);
      }
    }

    /** The command in the room, before the room may be dropped. */
    method Rule(room: GameRoom, player: Player, cmd: char, roll: int) returns (over: bool)
      requires Valid() && room in rooms && Known(player) && Fair(cmd, roll)
      modifies this`model, room, room.p1, room.p2
      ensures Valid()
      ensures var i := IndexOf(rooms, room);
              var was := old(model).rooms[i];
              var sender := was.SenderOf(player.name);
              var (verdict, game) := GameSpec.HandleCommand(was.game, sender, cmd, roll);
              && over == RoomOver(verdict)
              && model == old(model).(rooms := old(model).rooms[
                   i := was.(game := game, moves := was.moves + [Move(sender, cmd, roll)])])
    {
      hide PlayersValid, RoomsValid, GameSpec.HandleCommand;
      var i := IndexOf(rooms, room);
      SameLength();
      RoomsApart(room);
      over := room.HandleCommand(player, cmd, roll);
      model := model.(rooms := model.rooms[i := room.RoomView()]);
      RoomPlayed(room, i);
      PlayersStay();
    }

    method Erase(room: GameRoom)
      requires Valid() && room in rooms
      modifies this`rooms, this`model
      ensures Valid() && model == old(model).(rooms := Without(old(model).rooms, IndexOf(old(rooms), room)))
    {
      hide PlayersValid, RoomsValid;
      var i := IndexOf(rooms, room);
      SameLength();
      rooms := rooms[..i] + rooms[i + 1..];
      model := model.(rooms := Without(model.rooms, i));
      RoomDropped(i);
      PlayersStay();
    }

    lemma SameLength()
      requires RoomsValid()
      ensures |rooms| == |model.rooms|
    {
    }

    /** Ownership of a room ends with its place in `rooms`, so the player's weak pointer locks while it is there. */
    method OnMessage(name: string, msg: string, roll: int) returns (consumed: bool)
      requires Valid() && Fair(Command(msg), roll)
      modifies this`rooms, this`model, rooms, players.Values
      ensures Valid() && model == MatchSpec.OnMessage(old(model), name, msg, roll).1
      ensures consumed == MatchSpec.OnMessage(old(model), name, msg, roll).0.Ruled?
    {
      hide RoomsValid, GameSpec.HandleCommand;
      if name !in players {
        return false;
      }
      var player := players[name];
      assert PlayerOk(player) && player.name == name;
      var room := player.room;
      if room == null {
        return false;
      }
      FindAgrees(room);
      SameLength();
      if room !in rooms {
        return false;
      }
      hide PlayersValid;
      RoomsApart(room);
      var over := Rule(room, player, Command(msg), roll);
      if over {
        Erase(room);
      }
      return true;
    }

    twostate lemma PlayersStay()
      requires old(PlayersValid()) && players == old(players) && made == old(made)
      requires model.players == old(model.players)
      requires forall n <- players :: players[n].room == old(players[n].room)
      ensures PlayersValid()
    {
      forall n <- players ensures PlayerOk(players[n]) {
        assert old(PlayerOk(players[n]));
      }
    }

    twostate lemma RoomDropped(i: nat)
      requires old(RoomsValid()) && i < |old(rooms)| && made == old(made) && players == old(players)
      requires rooms == old(rooms)[..i] + old(rooms)[i + 1..] && model.rooms == Without(old(model.rooms), i)
      requires forall r <- old(rooms) :: unchanged(r, r.p1, r.p2)
      ensures RoomsValid()
    {
      forall k | 0 <= k < |rooms| ensures RoomOk(rooms[k], model.rooms[k]) {
        var j := if k < i then k else k + 1;
        assert old(RoomOk(rooms[j], model.rooms[j]));
        assert old(rooms)[j] in old(rooms) && rooms[k] == old(rooms)[j];
      }
    }

    method OnConnection(name: string, connected: bool)
      requires Valid() && (connected ==> name !in players)
      modifies this, players.Values
      ensures Valid() && model == MatchSpec.OnConnection(old(model), name, connected)
    {
      if connected {
        var player := Register(name);
        hide PlayersValid, RoomsValid;
        if waitingPlayer == null {
          Wait(player);
        } else {
          OpenRoom(player);
        }
      }
    }
  }
}
