/**
 * Matchmaking told from the outside: a log of all rooms ever made that never drops one, written from
 * the connects and messages alone. The server's rooms are the unfinished ones of the log.
 */
module MatchLog {
  import opened GameSpec
  import opened MatchSpec

  /** A game between the player who waited, in seat 0, and the one who joined him. */
  datatype Match = Match(waited: string, joined: string, game: Game) {
    predicate Of(name: string) { name == waited || name == joined }
  }

  datatype Log = Log(waiting: Option<string>, matches: seq<Match>)

  const EMPTY_LOG: Log := Log(None, [])

  /** The first character, or NUL of an empty message. */
  function FirstChar(msg: string): char {
    if |msg| > 0 then msg[0] else '\0'
  }

  /** The match somebody plays in, or the number of matches. */
  function MatchOf(matches: seq<Match>, name: string): (i: nat)
    ensures i <= |matches|
    ensures i < |matches| ==> matches[i].Of(name)
    ensures forall k | 0 <= k < i :: !matches[k].Of(name)
  {
    if matches == [] || matches[0].Of(name) then 0
    else 1 + MatchOf(matches[1..], name)
  }

  function LogStep(log: Log, a: Label): Log {
    match a
    case Up(name) =>
      (match log.waiting
       case None => log.(waiting := Some(name))
       case Some(other) =>
         var game := Game(Fighter(200, 100, 1, 1), Fighter(200, 100, 1, 1), 0, false);
         Log(None, log.matches + [Match(other, name, game)]))
    case Down(_) => log
    case Message(name, msg, roll) =>
      var i := MatchOf(log.matches, name);
      if i == |log.matches| || log.matches[i].game.finished then log else
      var m := log.matches[i];
      var seat := if name == m.waited then 0 else 1;
      log.(matches := log.matches[i := m.(game := HandleCommand(m.game, Seat(seat), FirstChar(msg), roll).1)])
  }

  function LogRun(log: Log, run: seq<Label>): Log
    decreases |run|
  {
    if run == [] then log else LogRun(LogStep(log, run[0]), run[1..])
  }

  // ---------------------------------------------------------------- the rooms that are left

  /** The numbers, in order, of the matches from `from` on that are not finished. */
  function Unfinished(matches: seq<Match>, from: nat): seq<nat>
    requires from <= |matches|
    decreases |matches| - from
  {
    if from == |matches| then []
    else (if matches[from].game.finished then [] else [from]) + Unfinished(matches, from + 1)
  }

  lemma {:induction false} UnfinishedFacts(matches: seq<Match>, from: nat)
    requires from <= |matches|
    ensures var u := Unfinished(matches, from);
            && (forall k: nat :: k in u <==> from <= k < |matches| && !matches[k].game.finished)
            && (forall i, j | 0 <= i < j < |u| :: u[i] < u[j])
    decreases |matches| - from
  {
    hide Unfinished;
    if from == |matches| {
      UnfinishedEnd(matches);
    } else {
      UnfinishedStep(matches, from);
      UnfinishedFacts(matches, from + 1);
      var here, rest := if matches[from].game.finished then [] else [from], Unfinished(matches, from + 1);
      assert forall i | 0 <= i < |rest| :: rest[i] in rest;
      assert forall k: nat :: k in here + rest <==> k in here || k in rest;
    }
  }

  lemma UnfinishedEnd(matches: seq<Match>)
    ensures Unfinished(matches, |matches|) == []
  {
  }

  /** The room is the match of its number. */
  predicate Shows(room: Room, matches: seq<Match>, k: nat) {
    && k < |matches| && room.id == k
    && room.first == matches[k].waited && room.second == matches[k].joined && room.game == matches[k].game
  }

  /** Both players of match `k` point to its room. */
  predicate Seated(players: map<string, Option<nat>>, matches: seq<Match>, k: nat)
    requires k < |matches|
  {
    && matches[k].waited in players && players[matches[k].waited] == Some(k)
    && matches[k].joined in players && players[matches[k].joined] == Some(k)
  }

  ghost predicate PointersAgree(players: map<string, Option<nat>>, matches: seq<Match>) {
    && (forall k | 0 <= k < |matches| :: Seated(players, matches, k))
    && (forall n <- players :: players[n].Some? ==> players[n].value < |matches| && matches[players[n].value].Of(n))
  }

  /** The server's rooms are the unfinished matches, in order, and it waits for whom the log waits for. */
  ghost predicate Agrees(s: Server, log: Log) {
    && s.waiting == log.waiting && s.created == |log.matches|
    && PointersAgree(s.players, log.matches) && RoomsAgree(s.rooms, log.matches)
  }

  ghost predicate RoomsAgree(rooms: seq<Room>, matches: seq<Match>) {
    var u := Unfinished(matches, 0);
    |rooms| == |u| && forall i | 0 <= i < |rooms| :: Shows(rooms[i], matches, u[i])
  }

  lemma {:induction false} AppendUnfinished(matches: seq<Match>, m: Match, from: nat)
    requires from <= |matches| && !m.game.finished
    ensures Unfinished(matches + [m], from) == Unfinished(matches, from) + [|matches|]
    decreases |matches| - from
  {
    if from < |matches| {
      AppendUnfinished(matches, m, from + 1);
      assert (matches + [m])[from] == matches[from];
    } else {
      assert Unfinished(matches + [m], from + 1) == [];
    }
  }

  lemma RoomJoins(rooms: seq<Room>, matches: seq<Match>, room: Room, m: Match)
    requires RoomsAgree(rooms, matches) && !m.game.finished
    requires Shows(room, matches + [m], |matches|)
    ensures RoomsAgree(rooms + [room], matches + [m])
  {
    hide Unfinished;
    AppendUnfinished(matches, m, 0);
    UnfinishedFacts(matches, 0);
    var u := Unfinished(matches, 0);
    forall i | 0 <= i < |rooms| ensures Shows(rooms[i], matches + [m], u[i]) {
      assert Shows(rooms[i], matches, u[i]);
    }
  }

  lemma PairPoints(players: map<string, Option<nat>>, matches: seq<Match>, other: string, name: string, m: Match)
    requires PointersAgree(players, matches) && m.waited == other && m.joined == name
    requires name !in players && other in players && players[other] == None
    ensures PointersAgree(players[name := Some(|matches|)][other := Some(|matches|)], matches + [m])
  {
    var after := players[name := Some(|matches|)][other := Some(|matches|)];
    forall k | 0 <= k < |matches + [m]| ensures Seated(after, matches + [m], k) {
      if k < |matches| {
        assert Seated(players, matches, k);
      }
    }
  }

  lemma JoinAgrees(s: Server, log: Log, name: string)
    requires MatchInv(s) && Agrees(s, log) && name !in s.players
    ensures Agrees(Join(s, name), LogStep(log, Up(name)))
  {
    hide RoomsAgree, PointersAgree, RoomInv;
    match s.waiting
    case None => WaitPoints(s.players, log.matches, name);
    case Some(other) =>
      var game := Game(Fighter(200, 100, 1, 1), Fighter(200, 100, 1, 1), 0, false);
      var m := Match(other, name, game);
      var room := Room(s.created, other, name, NEW_GAME, []);
      RoomJoins(s.rooms, log.matches, room, m);
      PairPoints(s.players, log.matches, other, name, m);
      assert s.players[name := None][name := Some(s.created)] == s.players[name := Some(s.created)];
  }

  lemma WaitPoints(players: map<string, Option<nat>>, matches: seq<Match>, name: string)
    requires PointersAgree(players, matches) && name !in players
    ensures PointersAgree(players[name := None], matches)
  {
    var after := players[name := None];
    forall k | 0 <= k < |matches| ensures Seated(after, matches, k) {
      assert Seated(players, matches, k);
    }
  }

  /** Finishing a match takes its number out of the list, and nothing else does. */
  lemma {:induction false} UpdateUnfinished(matches: seq<Match>, k: nat, m: Match, from: nat, i: nat)
    requires from <= k < |matches| && !matches[k].game.finished
    requires i < |Unfinished(matches, from)| && Unfinished(matches, from)[i] == k
    ensures var u := Unfinished(matches, from);
            Unfinished(matches[k := m], from) == if m.game.finished then u[..i] + u[i + 1..] else u
    decreases |matches| - from
  {
    hide Unfinished;
    var after := matches[k := m];
    UnfinishedStep(matches, from);
    UnfinishedStep(after, from);
    var here := if matches[from].game.finished then [] else [from];
    var rest := Unfinished(matches, from + 1);
    UnfinishedFacts(matches, from + 1);
    if from == k {
      LaterUnfinished(matches, after, k + 1);
      HeadOnly(k, rest, i);
    } else {
      InRest(here, rest, from, k, i);
      UpdateUnfinished(matches, k, m, from + 1, i - |here|);
      SpliceRest(here, rest, i);
    }
  }

  lemma InRest(here: seq<nat>, rest: seq<nat>, from: nat, k: nat, i: nat)
    requires (here == [] || here == [from]) && from != k && i < |here + rest| && (here + rest)[i] == k
    ensures i >= |here| && i - |here| < |rest| && rest[i - |here|] == k
  {
  }

  lemma SpliceRest(here: seq<nat>, rest: seq<nat>, i: nat)
    requires |here| <= i < |here + rest|
    ensures (here + rest)[..i] + (here + rest)[i + 1..] == here + (rest[..i - |here|] + rest[i - |here| + 1..])
  {
  }

  /** A number that is nowhere in the rest can only be the head. */
  lemma HeadOnly(k: nat, rest: seq<nat>, i: nat)
    requires k !in rest && i < |[k] + rest| && ([k] + rest)[i] == k
    ensures i == 0 && ([k] + rest)[..i] + ([k] + rest)[i + 1..] == rest
  {
    var all := [k] + rest;
    assert forall j | 0 < j < |all| :: all[j] == rest[j - 1] && rest[j - 1] in rest;
  }

  lemma UnfinishedStep(matches: seq<Match>, from: nat)
    requires from < |matches|
    ensures Unfinished(matches, from)
            == (if matches[from].game.finished then [] else [from]) + Unfinished(matches, from + 1)
  {
  }

  lemma {:induction false} LaterUnfinished(matches: seq<Match>, after: seq<Match>, from: nat)
    requires |after| == |matches| && from <= |matches| && forall k | from <= k < |matches| :: after[k] == matches[k]
    ensures Unfinished(after, from) == Unfinished(matches, from)
    decreases |matches| - from
  {
    hide Unfinished;
    if from == |matches| {
      UnfinishedEnd(matches);
      UnfinishedEnd(after);
    } else {
      UnfinishedStep(matches, from);
      UnfinishedStep(after, from);
      LaterUnfinished(matches, after, from + 1);
    }
  }

  /** The position of an unfinished match among the rooms, and none for a finished one. */
  lemma FindShows(rooms: seq<Room>, matches: seq<Match>, k: nat)
    requires RoomsAgree(rooms, matches) && k < |matches|
    ensures |rooms| == |Unfinished(matches, 0)|
    ensures var i := Find(rooms, k);
            && (i < |rooms| <==> !matches[k].game.finished)
            && (i < |rooms| ==> Unfinished(matches, 0)[i] == k && Shows(rooms[i], matches, k))
  {
    hide Unfinished;
    var u := Unfinished(matches, 0);
    UnfinishedFacts(matches, 0);
    var i := Find(rooms, k);
    if !matches[k].game.finished {
      assert k in u;
      var j :| 0 <= j < |u| && u[j] == k;
      assert Shows(rooms[j], matches, u[j]);
    }
    if i < |rooms| {
      assert Shows(rooms[i], matches, u[i]) && u[i] in u;
    }
  }

  /** Everybody plays in one match at most, the one his room pointer names. */
  lemma MatchFound(s: Server, log: Log, name: string)
    requires Agrees(s, log)
    ensures var i := MatchOf(log.matches, name);
            (name in s.players && s.players[name].Some? <==> i < |log.matches|)
            && (i < |log.matches| ==> s.players[name] == Some(i))
  {
    hide RoomsAgree;
    var i := MatchOf(log.matches, name);
    if i < |log.matches| {
      assert Seated(s.players, log.matches, i);
    }
  }

  lemma OthersShow(rooms: seq<Room>, matches: seq<Match>, k: nat, i: nat, m: Match)
    requires RoomsAgree(rooms, matches) && k < |matches|
    requires i < |rooms| == |Unfinished(matches, 0)| && Unfinished(matches, 0)[i] == k
    ensures forall j | 0 <= j < |rooms| && j != i :: Shows(rooms[j], matches[k := m], Unfinished(matches, 0)[j])
  {
    hide Unfinished;
    var u := Unfinished(matches, 0);
    UnfinishedFacts(matches, 0);
    forall j | 0 <= j < |rooms| && j != i ensures Shows(rooms[j], matches[k := m], u[j]) {
      assert Shows(rooms[j], matches, u[j]) && u[j] != k;
    }
  }

  lemma RoomsMove(rooms: seq<Room>, matches: seq<Match>, k: nat, i: nat, moved: Room, m: Match)
    requires RoomsAgree(rooms, matches) && k < |matches| && !matches[k].game.finished
    requires i < |rooms| == |Unfinished(matches, 0)| && Unfinished(matches, 0)[i] == k
    requires Shows(moved, matches[k := m], k)
    ensures RoomsAgree(if m.game.finished then rooms[..i] + rooms[i + 1..] else rooms[i := moved], matches[k := m])
  {
    hide Unfinished, Shows;
    OthersShow(rooms, matches, k, i, m);
    UpdateUnfinished(matches, k, m, 0, i);
    if m.game.finished {
      var u := Unfinished(matches, 0);
      var after, left := rooms[..i] + rooms[i + 1..], u[..i] + u[i + 1..];
      forall j | 0 <= j < |after| ensures Shows(after[j], matches[k := m], left[j]) {
        var n := if j < i then j else j + 1;
        assert after[j] == rooms[n] && left[j] == u[n];
      }
    }
  }

  lemma PointsStay(players: map<string, Option<nat>>, matches: seq<Match>, k: nat, m: Match)
    requires PointersAgree(players, matches) && k < |matches|
    requires m.waited == matches[k].waited && m.joined == matches[k].joined
    ensures PointersAgree(players, matches[k := m])
  {
    var after := matches[k := m];
    forall j | 0 <= j < |matches| ensures Seated(players, after, j) {
      assert Seated(players, matches, j);
    }
  }

  lemma MessageAgrees(s: Server, log: Log, name: string, msg: string, roll: int)
    requires MatchInv(s) && Agrees(s, log)
    ensures Agrees(OnMessage(s, name, msg, roll).1, LogStep(log, Message(name, msg, roll)))
  {
    hide HandleCommand, Unfinished, MatchInv, RoomsAgree, PointersAgree;
    MatchFound(s, log, name);
    var k := MatchOf(log.matches, name);
    if k < |log.matches| {
      FindShows(s.rooms, log.matches, k);
      if !log.matches[k].game.finished {
        var i := Find(s.rooms, k);
        var room := s.rooms[i];
        var m := log.matches[k];
        var seat := if name == m.waited then 0 else 1;
        assert room.SenderOf(name) == Seat(seat) && Command(msg) == FirstChar(msg);
        OverIffFinished(room.game, Seat(seat), FirstChar(msg), roll);
        var game := HandleCommand(m.game, Seat(seat), FirstChar(msg), roll).1;
        var moved := room.(game := game, moves := room.moves + [Move(Seat(seat), FirstChar(msg), roll)]);
        RoomsMove(s.rooms, log.matches, k, i, moved, m.(game := game));
        PointsStay(s.players, log.matches, k, m.(game := game));
      }
    }
  }

  lemma {:induction false} AgreesFrom(s: Server, log: Log, run: seq<Label>)
    requires MatchInv(s) && Agrees(s, log) && PossibleRun(s, run)
    ensures Agrees(Run(s, run), LogRun(log, run))
    decreases |run|
  {
    hide MatchInv, Agrees, OnMessage, OnConnection, LogStep, Fair;
    if run != [] {
      var a := run[0];
      match a {
        case Up(name) =>
          JoinKeeps(s, name);
          JoinAgrees(s, log, name);
          UpIsJoin(s, name);
        case Down(name) => DownIsNothing(s, log, name);
        case Message(name, msg, roll) =>
          MessageKeeps(s, name, msg, roll);
          MessageAgrees(s, log, name, msg, roll);
      }
      AgreesFrom(Step(s, a), LogStep(log, a), run[1..]);
    }
  }

  lemma UpIsJoin(s: Server, name: string)
    ensures Step(s, Up(name)) == Join(s, name)
  {
  }

  /** A connection that goes down changes nothing. */
  lemma DownIsNothing(s: Server, log: Log, name: string)
    ensures Step(s, Down(name)) == s && LogStep(log, Down(name)) == log
  {
  }

  lemma RunAgrees(run: seq<Label>)
    requires PossibleRun(EMPTY_SERVER, run)
    ensures MatchInv(Run(EMPTY_SERVER, run)) && Agrees(Run(EMPTY_SERVER, run), LogRun(EMPTY_LOG, run))
  {
    RunKeeps(EMPTY_SERVER, run);
    AgreesFrom(EMPTY_SERVER, EMPTY_LOG, run);
  }

  /**
   * After every run the server keeps exactly the rooms whose games are not finished, in the order in
   * which they were made, with the players and the game the log has for them.
   */
  lemma RoomsAreUnfinished(run: seq<Label>)
    requires PossibleRun(EMPTY_SERVER, run)
    ensures var s := Run(EMPTY_SERVER, run);
            var log := LogRun(EMPTY_LOG, run);
            && s.waiting == log.waiting && s.created == |log.matches|
            && |s.rooms| == |Unfinished(log.matches, 0)|
            && (forall i | 0 <= i < |s.rooms| :: Shows(s.rooms[i], log.matches, Unfinished(log.matches, 0)[i]))
            && (forall i, j | 0 <= i < j < |s.rooms| :: s.rooms[i].id < s.rooms[j].id)
  {
    RunAgrees(run);
    UnfinishedFacts(LogRun(EMPTY_LOG, run).matches, 0);
  }

  /** The server still has room `k`. */
  ghost predicate Holds(s: Server, k: nat) {
    exists room <- s.rooms :: room.id == k
  }

  lemma FoundIff(s: Server, k: nat)
    ensures Holds(s, k) <==> Find(s.rooms, k) < |s.rooms|
  {
    var i := Find(s.rooms, k);
    assert i < |s.rooms| ==> s.rooms[i] in s.rooms;
    assert forall j | 0 <= j < |s.rooms| :: s.rooms[j].id == k ==> i <= j;
  }

  /** A room ever made is missing from rooms_ exactly if its own game has finished. */
  lemma MissingIffFinished(run: seq<Label>, k: nat)
    requires PossibleRun(EMPTY_SERVER, run) && k < |LogRun(EMPTY_LOG, run).matches|
    ensures Holds(Run(EMPTY_SERVER, run), k) <==> !LogRun(EMPTY_LOG, run).matches[k].game.finished
  {
    hide MatchInv, PossibleRun, Run, LogRun, PointersAgree, Shows, Unfinished, Holds;
    RunAgrees(run);
    FindShows(Run(EMPTY_SERVER, run).rooms, LogRun(EMPTY_LOG, run).matches, k);
    FoundIff(Run(EMPTY_SERVER, run), k);
  }

  /** The players known are those whose connections have ever come up, and no other. */
  lemma {:induction false} KnownFrom(s: Server, run: seq<Label>, name: string)
    requires s.waiting.Some? ==> s.waiting.value in s.players
    ensures name in Run(s, run).players <==> name in s.players || Up(name) in run
    decreases |run|
  {
    hide OnMessage;
    if run != [] {
      KnownStep(s, run[0], name);
      KnownFrom(Step(s, run[0]), run[1..], name);
      assert run == [run[0]] + run[1..];
    }
  }

  lemma KnownStep(s: Server, a: Label, name: string)
    requires s.waiting.Some? ==> s.waiting.value in s.players
    ensures name in Step(s, a).players <==> name in s.players || a == Up(name)
    ensures Step(s, a).waiting.Some? ==> Step(s, a).waiting.value in Step(s, a).players
  {
    hide HandleCommand;
  }

  lemma KnownIffJoined(run: seq<Label>, name: string)
    ensures name in Run(EMPTY_SERVER, run).players <==> Up(name) in run
  {
    KnownFrom(EMPTY_SERVER, run, name);
  }

  // ---------------------------------------------------------------- one message

  predicate Plays(room: Room, name: string) {
    room.first == name || room.second == name
  }

  /**
   * What a message of somebody in a room does on any reachable server. That room alone takes the first
   * character of the message, from the seat he sits in, and goes exactly if its game is over then.
   */
  lemma MessageEffect(run: seq<Label>, name: string, msg: string, roll: int, i: nat)
    requires PossibleRun(EMPTY_SERVER, run) && i < |Run(EMPTY_SERVER, run).rooms|
    requires Plays(Run(EMPTY_SERVER, run).rooms[i], name)
    ensures var s := Run(EMPTY_SERVER, run);
            var (reply, r) := OnMessage(s, name, msg, roll);
            var room := s.rooms[i];
            var seat := if name == room.first then 0 else 1;
            var cmd := if |msg| > 0 then msg[0] else '\0';
            var (verdict, game) := HandleCommand(room.game, Seat(seat), cmd, roll);
            && reply == Ruled(verdict)
            && r.players == s.players && r.waiting == s.waiting && r.created == s.created
            && (if game.finished then r.rooms == s.rooms[..i] + s.rooms[i + 1..] else
                && |r.rooms| == |s.rooms| && (forall j | 0 <= j < |s.rooms| && j != i :: r.rooms[j] == s.rooms[j])
                && r.rooms[i].id == room.id && r.rooms[i].first == room.first && r.rooms[i].second == room.second
                && r.rooms[i].game == game)
  {
    hide HandleCommand, MatchInv, PossibleRun, Run, OnMessage;
    RunInv(run);
    var s := Run(EMPTY_SERVER, run);
    OwnRoom(s, name, i);
    var seat := if name == s.rooms[i].first then 0 else 1;
    OverIffFinished(s.rooms[i].game, Seat(seat), FirstChar(msg), roll);
    RuledEffect(s, name, msg, roll, i);
  }

  lemma RunInv(run: seq<Label>)
    requires PossibleRun(EMPTY_SERVER, run)
    ensures MatchInv(Run(EMPTY_SERVER, run))
  {
    RunKeeps(EMPTY_SERVER, run);
  }

  lemma RuledEffect(s: Server, name: string, msg: string, roll: int, i: nat)
    requires i < |s.rooms| && Plays(s.rooms[i], name) && name in s.players
    requires s.players[name] == Some(s.rooms[i].id) && Find(s.rooms, s.rooms[i].id) == i
    ensures var (reply, r) := OnMessage(s, name, msg, roll);
            var room := s.rooms[i];
            var cmd := if |msg| > 0 then msg[0] else '\0';
            var (verdict, game) := HandleCommand(room.game, Seat(if name == room.first then 0 else 1), cmd, roll);
            && reply == Ruled(verdict)
            && r == s.(rooms := r.rooms)
            && (if RoomOver(verdict) then r.rooms == s.rooms[..i] + s.rooms[i + 1..]
                else r.rooms == s.rooms[i := room.(game := game, moves := r.rooms[i].moves)])
  {
    hide HandleCommand;
  }

  lemma OwnRoom(s: Server, name: string, i: nat)
    requires MatchInv(s) && i < |s.rooms| && Plays(s.rooms[i], name)
    ensures name in s.players && s.players[name] == Some(s.rooms[i].id) && Find(s.rooms, s.rooms[i].id) == i
    ensures !s.rooms[i].game.finished && s.rooms[i].first != s.rooms[i].second
  {
    hide Played;
    assert RoomInv(s, s.rooms[i]);
    var k := Find(s.rooms, s.rooms[i].id);
    assert k <= i;
  }

  /** Without a room of his the sender gets no ruling, and nothing changes. */
  lemma MessageIgnored(run: seq<Label>, name: string, msg: string, roll: int)
    requires PossibleRun(EMPTY_SERVER, run)
    requires forall room <- Run(EMPTY_SERVER, run).rooms :: !Plays(room, name)
    ensures var s := Run(EMPTY_SERVER, run);
            OnMessage(s, name, msg, roll) == (if name in s.players then NoRoom else NoPlayer, s)
  {
    hide HandleCommand, MatchInv, PossibleRun, Run;
    RunInv(run);
    NoLock(Run(EMPTY_SERVER, run), name);
  }

  lemma NoLock(s: Server, name: string)
    requires MatchInv(s) && forall room <- s.rooms :: !Plays(room, name)
    ensures name in s.players ==> !Locks(s, name)
  {
    hide RoomInv;
    assert forall i | 0 <= i < |s.rooms| :: s.rooms[i] in s.rooms;
  }
}
