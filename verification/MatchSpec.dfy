/** Matchmaking: GameServer of example/game.cc as a machine over connections and messages. */
module MatchSpec {
  import opened GameSpec

  datatype Option<+T> = None | Some(value: T)

  /** A room in rooms_, its players by connection name, and the moves it has been given. */
  datatype Room = Room(id: nat, first: string, second: string, game: Game, moves: seq<Move>) {
    predicate Has(name: string) { name == first || name == second }

    function SenderOf(name: string): Sender {
      if name == first then Seat(0) else if name == second then Seat(1) else Stranger
    }
  }

  /** `players` is players_ with each player's weak room pointer; rooms are numbered as they are made. */
  datatype Server = Server(
    players: map<string, Option<nat>>, waiting: Option<string>, rooms: seq<Room>, created: nat)

  const EMPTY_SERVER: Server := Server(map[], None, [], 0)

  /** What onMessage makes of a message; only a message to a room is taken out of the input buffer. */
  datatype Reply = NoPlayer | NoRoom | Ruled(verdict: Verdict)

  /** The up branch of onConnection. */
  function Join(s: Server, name: string): Server {
    var players := s.players[name := None];
    match s.waiting
    case None => s.(players := players, waiting := Some(name))
    case Some(other) =>
      Server(players[name := Some(s.created)][other := Some(s.created)], None,
             s.rooms + [Room(s.created, other, name, NEW_GAME, [])], s.created + 1)
  }

  function OnConnection(s: Server, name: string, connected: bool): Server {
    if connected then Join(s, name) else s
  }

  /** Position of a room in rooms_, or the length. */
  function Find(rooms: seq<Room>, id: nat): (i: nat)
    ensures i <= |rooms|
    ensures i < |rooms| ==> rooms[i].id == id
    ensures forall k | 0 <= k < i :: rooms[k].id != id
  {
    if rooms == [] then 0 else if rooms[0].id == id then 0 else 1 + Find(rooms[1..], id)
  }

  /** weak_ptr::lock on the player's room: it lives as long as rooms_ holds it. */
  predicate Locks(s: Server, name: string)
    requires name in s.players
  {
    s.players[name].Some? && Find(s.rooms, s.players[name].value) < |s.rooms|
  }

  function Command(msg: string): char {
    if msg == "" then '\0' else msg[0]
  }

  function Without(rooms: seq<Room>, i: nat): seq<Room>
    requires i < |rooms|
  {
    rooms[..i] + rooms[i + 1..]
  }

  function OnMessage(s: Server, name: string, msg: string, roll: int): (Reply, Server) {
    if name !in s.players then (NoPlayer, s)
    else if !Locks(s, name) then (NoRoom, s)
    else
      var i := Find(s.rooms, s.players[name].value);
      var room := s.rooms[i];
      var (verdict, game) := HandleCommand(room.game, room.SenderOf(name), Command(msg), roll);
      var moved := room.(game := game, moves := room.moves + [Move(room.SenderOf(name), Command(msg), roll)]);
      (Ruled(verdict), s.(rooms := if RoomOver(verdict) then Without(s.rooms, i) else s.rooms[i := moved]))
  }

  // ---------------------------------------------------------------- the invariant

  ghost predicate Played(room: Room) {
    && (forall m <- room.moves :: Fair(m.cmd, m.roll))
    && room.game == PlayAll(OPENING, room.moves).game
  }

  ghost predicate RoomInv(s: Server, room: Room) {
    && room.id < s.created && room.first != room.second
    && room.first in s.players && s.players[room.first] == Some(room.id)
    && room.second in s.players && s.players[room.second] == Some(room.id)
    && Played(room) && !room.game.finished
  }

  ghost predicate MatchInv(s: Server) {
    && (forall i, j | 0 <= i < j < |s.rooms| :: s.rooms[i].id != s.rooms[j].id)
    && (forall room <- s.rooms :: RoomInv(s, room))
    && (forall n <- s.players, room <- s.rooms :: s.players[n] == Some(room.id) ==> room.Has(n))
    && (forall n <- s.players :: s.players[n].Some? ==> s.players[n].value < s.created)
    && (forall n <- s.players :: s.players[n] == None <==> s.waiting == Some(n))
    && (s.waiting.Some? ==> s.waiting.value in s.players)
    && |s.players| == 2 * s.created + if s.waiting.Some? then 1 else 0
  }

  lemma JoinCount(s: Server, name: string)
    requires MatchInv(s) && name !in s.players
    ensures |Join(s, name).players| == |s.players| + 1
  {
    var s' := Join(s, name);
    assert s'.players.Keys == s.players.Keys + {name};
    assert |s'.players| == |s'.players.Keys| && |s.players| == |s.players.Keys|;
  }

  lemma JoinKeeps(s: Server, name: string)
    requires MatchInv(s) && name !in s.players
    ensures MatchInv(Join(s, name))
  {
    hide MatchInv;
    if s.waiting.Some? {
      PairKeeps(s, name);
    } else {
      WaitKeeps(s, name);
    }
  }

  lemma WaitKeeps(s: Server, name: string)
    requires MatchInv(s) && name !in s.players && s.waiting.None?
    ensures MatchInv(Join(s, name))
  {
    hide Played;
    JoinCount(s, name);
    var s' := Join(s, name);
    forall r <- s'.rooms ensures RoomInv(s', r) {
      assert RoomInv(s, r);
    }
  }

  lemma PairKeeps(s: Server, name: string)
    requires MatchInv(s) && name !in s.players && s.waiting.Some?
    ensures MatchInv(Join(s, name))
  {
    hide Played;
    JoinCount(s, name);
    var s' := Join(s, name);
    var room := Room(s.created, s.waiting.value, name, NEW_GAME, []);
    NewPlayed(room);
    var other := s.waiting.value;
    assert s'.players == s.players[name := Some(s.created)][other := Some(s.created)];
    assert forall i | 0 <= i < |s.rooms| :: s'.rooms[i] == s.rooms[i] && s.rooms[i].id < s.created by {
      assert forall i | 0 <= i < |s.rooms| :: RoomInv(s, s.rooms[i]);
    }
    forall r <- s'.rooms
      ensures RoomInv(s', r) && forall n <- s'.players :: s'.players[n] == Some(r.id) ==> r.Has(n)
    {
      if r != room {
        assert r in s.rooms && RoomInv(s, r);
      }
    }
  }

  lemma NewPlayed(room: Room)
    requires room.game == NEW_GAME && room.moves == []
    ensures Played(room)
  {
    PlayNothing();
  }

  lemma PlayNothing()
    ensures PlayAll(OPENING, []).game == NEW_GAME
  {
  }

  lemma PlayedMove(room: Room, m: Move)
    requires Played(room) && Fair(m.cmd, m.roll)
    ensures Played(room.(game := HandleCommand(room.game, m.sender, m.cmd, m.roll).1, moves := room.moves + [m]))
  {
    assert (room.moves + [m])[..|room.moves|] == room.moves;
  }

  /** Only acceptance with the game over finishes a game, and that drops the room. */
  lemma OverIffFinished(g: Game, sender: Sender, cmd: char, roll: int)
    requires !g.finished
    ensures var (verdict, g') := HandleCommand(g, sender, cmd, roll);
            !verdict.AlreadyFinished? && (RoomOver(verdict) <==> g'.finished)
  {
  }

  /** The room has been ruled over and is dropped. */
  lemma WithoutKeeps(s: Server, i: nat)
    requires MatchInv(s) && i < |s.rooms|
    ensures MatchInv(s.(rooms := Without(s.rooms, i)))
  {
    hide Played;
    var rooms := Without(s.rooms, i);
    assert forall k | 0 <= k < |rooms| :: rooms[k] == s.rooms[if k < i then k else k + 1];
    forall r <- rooms ensures r in s.rooms && RoomInv(s.(rooms := rooms), r) {
      assert RoomInv(s, r);
    }
  }

  /** The room has moved on. */
  lemma ReplaceKeeps(s: Server, i: nat, moved: Room)
    requires MatchInv(s) && i < |s.rooms| && Played(moved) && !moved.game.finished
    requires moved == s.rooms[i].(game := moved.game, moves := moved.moves)
    ensures MatchInv(s.(rooms := s.rooms[i := moved]))
  {
    hide Played;
    var s' := s.(rooms := s.rooms[i := moved]);
    assert RoomInv(s, s.rooms[i]);
    assert forall k | 0 <= k < |s.rooms| :: s'.rooms[k].id == s.rooms[k].id && s'.rooms[k].first == s.rooms[k].first
                                            && s'.rooms[k].second == s.rooms[k].second;
    forall r <- s'.rooms ensures RoomInv(s', r) {
      if r != moved {
        assert r in s.rooms;
      }
    }
    forall n <- s'.players, r <- s'.rooms ensures s'.players[n] == Some(r.id) ==> r.Has(n) {
      if r == moved {
        assert s.rooms[i] in s.rooms;
      }
    }
  }

  lemma MessageKeeps(s: Server, name: string, msg: string, roll: int)
    requires MatchInv(s) && Fair(Command(msg), roll)
    ensures MatchInv(OnMessage(s, name, msg, roll).1)
  {
    if name in s.players && Locks(s, name) {
      var i := Find(s.rooms, s.players[name].value);
      var room := s.rooms[i];
      assert RoomInv(s, room);
      var m := Move(room.SenderOf(name), Command(msg), roll);
      OverIffFinished(room.game, m.sender, m.cmd, roll);
      hide MatchInv, HandleCommand, PlayAll;
      PlayedMove(room, m);
      if RoomOver(HandleCommand(room.game, m.sender, m.cmd, roll).0) {
        WithoutKeeps(s, i);
      } else {
        ReplaceKeeps(s, i, room.(game := HandleCommand(room.game, m.sender, m.cmd, roll).1, moves := room.moves + [m]));
      }
    }
  }

  // ---------------------------------------------------------------- runs

  datatype Label = Up(name: string) | Down(name: string) | Message(name: string, msg: string, roll: int)

  /** Connection names are never reused; damage is drawn from the stated ranges. */
  predicate Possible(s: Server, a: Label) {
    match a
    case Up(name) => name !in s.players
    case Down(_) => true
    case Message(_, msg, roll) => Fair(Command(msg), roll)
  }

  function Step(s: Server, a: Label): Server {
    match a
    case Up(name) => OnConnection(s, name, true)
    case Down(name) => OnConnection(s, name, false)
    case Message(name, msg, roll) => OnMessage(s, name, msg, roll).1
  }

  function Run(s: Server, run: seq<Label>): Server
    decreases |run|
  {
    if run == [] then s else Run(Step(s, run[0]), run[1..])
  }

  ghost predicate PossibleRun(s: Server, run: seq<Label>)
    decreases |run|
  {
    run == [] || (Possible(s, run[0]) && PossibleRun(Step(s, run[0]), run[1..]))
  }

  lemma {:induction false} RunKeeps(s: Server, run: seq<Label>)
    requires MatchInv(s) && PossibleRun(s, run)
    ensures MatchInv(Run(s, run))
    decreases |run|
  {
    if run != [] {
      hide MatchInv;
      var a := run[0];
      match a {
        case Up(name) => JoinKeeps(s, name);
        case Down(_) =>
        case Message(name, msg, roll) => MessageKeeps(s, name, msg, roll);
      }
      RunKeeps(Step(s, a), run[1..]);
    }
  }

  /** A player's room lock succeeds exactly when one, and only one, room in rooms_ has him. */
  lemma LockIffInOneRoom(run: seq<Label>, name: string)
    requires PossibleRun(EMPTY_SERVER, run) && name in Run(EMPTY_SERVER, run).players
    ensures var s := Run(EMPTY_SERVER, run);
            Locks(s, name) <==>
              exists i | 0 <= i < |s.rooms| ::
                s.rooms[i].Has(name) && forall j | 0 <= j < |s.rooms| && s.rooms[j].Has(name) :: j == i
  {
    RunKeeps(EMPTY_SERVER, run);
    var s := Run(EMPTY_SERVER, run);
    forall j | 0 <= j < |s.rooms| ensures s.rooms[j].Has(name) <==> s.players[name] == Some(s.rooms[j].id) {
      assert RoomInv(s, s.rooms[j]);
    }
    if s.players[name].Some? {
      var i := Find(s.rooms, s.players[name].value);
      if i < |s.rooms| {
        assert s.rooms[i].Has(name);
      }
    }
  }

  /** Everybody who ever joined is in a pair, but for the one who waits. */
  lemma PlayersPaired(run: seq<Label>)
    requires PossibleRun(EMPTY_SERVER, run)
    ensures var s := Run(EMPTY_SERVER, run);
            |s.players| == 2 * s.created + if s.waiting.Some? then 1 else 0
  {
    RunKeeps(EMPTY_SERVER, run);
  }

  /** No finished room stays in rooms_, and no room that does has taken more than 32 commands. */
  lemma RoomsAreRunning(run: seq<Label>, room: Room)
    requires PossibleRun(EMPTY_SERVER, run) && room in Run(EMPTY_SERVER, run).rooms
    ensures !room.game.finished && GameInv(room.game)
    ensures PlayAll(OPENING, room.moves).accepted <= 32 && room.game == PlayAll(OPENING, room.moves).game
  {
    hide PlayAll, HandleCommand;
    RunKeeps(EMPTY_SERVER, run);
    assert RoomInv(Run(EMPTY_SERVER, run), room);
    PlayAllKeeps(room.moves);
    UnfinishedBound(PlayAll(OPENING, room.moves));
  }

  lemma UnfinishedBound(r: Record)
    requires RecordInv(r) && !r.game.finished
    ensures r.accepted <= 32 && GameInv(r.game)
  {
  }

  /** The "already finished" answer is never given, and a ruled message always comes from one of the two players. */
  lemma NeverAlreadyFinished(run: seq<Label>, name: string, msg: string, roll: int)
    requires PossibleRun(EMPTY_SERVER, run)
    ensures var s := Run(EMPTY_SERVER, run);
            var reply := OnMessage(s, name, msg, roll).0;
            && reply != Ruled(AlreadyFinished)
            && (reply.Ruled? ==> s.rooms[Find(s.rooms, s.players[name].value)].Has(name))
  {
    RunKeeps(EMPTY_SERVER, run);
    var s := Run(EMPTY_SERVER, run);
    if name in s.players && Locks(s, name) {
      var room := s.rooms[Find(s.rooms, s.players[name].value)];
      assert room in s.rooms && RoomInv(s, room);
    }
  }
}
