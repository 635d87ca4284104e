/** The turn-based game of example/game.cc as values. */
module GameSpec {

  const MAX_HP := 200
  const MAX_MP := 100
  const MAGIC_COST := 50
  const HP_POTION_EFFECT := 100
  const MP_POTION_EFFECT := 100

  datatype Fighter = Fighter(hp: int, mp: int, hpPotion: int, mpPotion: int)

  const FRESH := Fighter(MAX_HP, MAX_MP, 1, 1)

  /** `turn` is 0 while p1 is to move. */
  datatype Game = Game(p1: Fighter, p2: Fighter, turn: int, finished: bool) {
    function Self(): Fighter { if turn == 0 then p1 else p2 }
    function Enemy(): Fighter { if turn == 0 then p2 else p1 }
    function With(self: Fighter, enemy: Fighter): Game {
      if turn == 0 then this.(p1 := self, p2 := enemy) else this.(p1 := enemy, p2 := self)
    }
  }

  const NEW_GAME := Game(FRESH, FRESH, 0, false)

  /** Who sends a command: the player in seat 0 or 1, or somebody else. */
  datatype Sender = Seat(i: int) | Stranger

  datatype Verdict =
    | AlreadyFinished | NotYourTurn | NotEnoughMp | NoHpPotion | NoMpPotion | Invalid
    | Accepted(over: bool)

  function Max(a: int, b: int): int { if a < b then b else a }
  function Min(a: int, b: int): int { if a < b then a else b }

  /** randomNum(20, 50) for a normal attack, randomNum(40, 70) for magic. */
  predicate Fair(cmd: char, roll: int) {
    (cmd == 'a' ==> 20 <= roll <= 50) && (cmd == 'b' ==> 40 <= roll <= 70)
  }

  function Wound(f: Fighter, damage: int): Fighter {
    f.(hp := Max(0, f.hp - damage))
  }

  /** The effect of a legal command on the two fighters, or why it is refused. */
  function Act(self: Fighter, enemy: Fighter, cmd: char, roll: int): (Verdict, Fighter, Fighter) {
    if cmd == 'a' then (Accepted(false), self, Wound(enemy, roll))
    else if cmd == 'b' then
      if self.mp < MAGIC_COST then (NotEnoughMp, self, enemy)
      else (Accepted(false), self.(mp := self.mp - MAGIC_COST), Wound(enemy, roll))
    else if cmd == 'h' then
      if self.hpPotion <= 0 then (NoHpPotion, self, enemy)
      else (Accepted(false), self.(hpPotion := self.hpPotion - 1, hp := Min(MAX_HP, self.hp + HP_POTION_EFFECT)), enemy)
    else if cmd == 'm' then
      if self.mpPotion <= 0 then (NoMpPotion, self, enemy)
      else (Accepted(false), self.(mpPotion := self.mpPotion - 1, mp := Min(MAX_MP, self.mp + MP_POTION_EFFECT)), enemy)
    else (Invalid, self, enemy)
  }

  /** GameRoom::handleCommand with the game-over check and the change of turn. */
  function HandleCommand(g: Game, sender: Sender, cmd: char, roll: int): (Verdict, Game) {
    if g.finished then (AlreadyFinished, g)
    else if sender != Seat(g.turn) then (NotYourTurn, g)
    else
      var (verdict, self, enemy) := Act(g.Self(), g.Enemy(), cmd, roll);
      if !verdict.Accepted? then (verdict, g) else
      var g1 := g.With(self, enemy);
      if g1.p1.hp <= 0 || g1.p2.hp <= 0
      then (Accepted(true), g1.(finished := true))
      else (Accepted(false), g1.(turn := 1 - g.turn))
  }

  /** What handleCommand returns: the room is to be dropped. */
  predicate RoomOver(v: Verdict) {
    v.AlreadyFinished? || (v.Accepted? && v.over)
  }

  // ---------------------------------------------------------------- invariants of play

  predicate FighterInv(f: Fighter) {
    && 0 <= f.hp <= MAX_HP && f.mp in {0, 50, 100}
    && 0 <= f.hpPotion <= 1 && 0 <= f.mpPotion <= 1
  }

  /** Exactly one player is at zero when the game is over, none before. */
  predicate GameInv(g: Game) {
    && FighterInv(g.p1) && FighterInv(g.p2) && (g.turn == 0 || g.turn == 1)
    && (g.finished <==> g.p1.hp == 0 || g.p2.hp == 0)
    && (g.finished ==> (g.p1.hp == 0) != (g.p2.hp == 0))
  }

  /** Wounds of at least 20 that `f` can still take, if it drinks its potion at the best moment. */
  function Endurance(f: Fighter): int {
    (f.hp + 19) / 20 + 5 * f.hpPotion
  }

  /** Every accepted command uses up some of this. */
  function Potential(g: Game): int {
    Endurance(g.p1) + Endurance(g.p2)
    + g.p1.hpPotion + g.p2.hpPotion + g.p1.mpPotion + g.p2.mpPotion
  }

  /** A sent command with the damage drawn for it. */
  datatype Move = Move(sender: Sender, cmd: char, roll: int)

  /** A game with its record: accepted commands, and wounds taken by each player. */
  datatype Record = Record(game: Game, accepted: nat, hits1: nat, hits2: nat)

  const OPENING := Record(NEW_GAME, 0, 0, 0)

  predicate Attack(cmd: char) { cmd == 'a' || cmd == 'b' }

  function Play(r: Record, m: Move): Record {
    var (verdict, game) := HandleCommand(r.game, m.sender, m.cmd, m.roll);
    if !verdict.Accepted? then r.(game := game) else
    Record(game, r.accepted + 1,
           r.hits1 + if Attack(m.cmd) && r.game.turn == 1 then 1 else 0,
           r.hits2 + if Attack(m.cmd) && r.game.turn == 0 then 1 else 0)
  }

  function PlayAll(r: Record, moves: seq<Move>): Record {
    if moves == [] then r else Play(PlayAll(r, moves[..|moves| - 1]), moves[|moves| - 1])
  }

  /** Every wound costs at least 20 hit points, which only the potion gives back. */
  predicate Ledger(f: Fighter, hits: nat) {
    20 * hits + f.hp <= MAX_HP + HP_POTION_EFFECT * (1 - f.hpPotion)
  }

  function PotionsUsed(g: Game): int {
    4 - g.p1.hpPotion - g.p2.hpPotion - g.p1.mpPotion - g.p2.mpPotion
  }

  predicate RecordInv(r: Record) {
    && GameInv(r.game)
    && Ledger(r.game.p1, r.hits1) && Ledger(r.game.p2, r.hits2)
    && r.accepted == r.hits1 + r.hits2 + PotionsUsed(r.game)
    && r.accepted + Potential(r.game) <= 34
    && (!r.game.finished ==> r.game.turn == r.accepted % 2)
    && (r.game.finished ==> r.accepted > 0 && r.game.turn == (r.accepted - 1) % 2 && r.game.Enemy().hp == 0)
  }

  lemma WoundFacts(f: Fighter, damage: int, hits: nat)
    requires FighterInv(f) && f.hp > 0 && damage >= 20 && Ledger(f, hits)
    ensures var w := Wound(f, damage);
            FighterInv(w) && Ledger(w, hits + 1) && Endurance(w) < Endurance(f)
  {
  }

  lemma ActFacts(self: Fighter, enemy: Fighter, cmd: char, roll: int, hitsSelf: nat, hitsEnemy: nat)
    requires FighterInv(self) && FighterInv(enemy) && self.hp > 0 && enemy.hp > 0 && Fair(cmd, roll)
    requires Ledger(self, hitsSelf) && Ledger(enemy, hitsEnemy)
    ensures var (verdict, s, e) := Act(self, enemy, cmd, roll);
            && FighterInv(s) && FighterInv(e) && s.hp > 0
            && (!verdict.Accepted? ==> s == self && e == enemy)
            && (verdict.Accepted? ==>
                  && Ledger(s, hitsSelf) && Ledger(e, hitsEnemy + if Attack(cmd) then 1 else 0)
                  && Endurance(s) + Endurance(e) + s.hpPotion + s.mpPotion
                     < Endurance(self) + Endurance(enemy) + self.hpPotion + self.mpPotion
                  && e.hpPotion == enemy.hpPotion && e.mpPotion == enemy.mpPotion
                  && (self.hpPotion - s.hpPotion) + (self.mpPotion - s.mpPotion) == if Attack(cmd) then 0 else 1)
  {
    if Attack(cmd) {
      WoundFacts(enemy, roll, hitsEnemy);
    }
  }

  lemma FirstPlays(r: Record, cmd: char, roll: int)
    requires RecordInv(r) && Fair(cmd, roll) && !r.game.finished && r.game.turn == 0
    ensures RecordInv(Play(r, Move(Seat(0), cmd, roll)))
  {
    hide Endurance, Act, Attack, Ledger;
    ActFacts(r.game.p1, r.game.p2, cmd, roll, r.hits1, r.hits2);
  }

  lemma SecondPlays(r: Record, cmd: char, roll: int)
    requires RecordInv(r) && Fair(cmd, roll) && !r.game.finished && r.game.turn == 1
    ensures RecordInv(Play(r, Move(Seat(1), cmd, roll)))
  {
    hide Endurance, Act, Attack, Ledger;
    ActFacts(r.game.p2, r.game.p1, cmd, roll, r.hits2, r.hits1);
  }

  lemma PlayKeeps(r: Record, m: Move)
    requires RecordInv(r) && Fair(m.cmd, m.roll)
    ensures RecordInv(Play(r, m))
  {
    hide Act, Potential, Ledger, Attack;
    if !r.game.finished && m.sender == Seat(r.game.turn) {
      if r.game.turn == 0 {
        FirstPlays(r, m.cmd, m.roll);
      } else {
        SecondPlays(r, m.cmd, m.roll);
      }
    }
  }

  lemma {:induction false} PlayAllKeeps(moves: seq<Move>)
    requires forall m <- moves :: Fair(m.cmd, m.roll)
    ensures RecordInv(PlayAll(OPENING, moves))
  {
    if moves != [] {
      PlayAllKeeps(moves[..|moves| - 1]);
      assert moves[|moves| - 1] in moves;
      PlayKeeps(PlayAll(OPENING, moves[..|moves| - 1]), moves[|moves| - 1]);
    }
  }

  /**
   * Whatever both players send and whatever is rolled, at most 33 commands are accepted, and the
   * game is over when the last of them has been.
   */
  lemma GameLengthBound(moves: seq<Move>)
    requires forall m <- moves :: Fair(m.cmd, m.roll)
    ensures var r := PlayAll(OPENING, moves);
            r.accepted <= 33 && (r.accepted == 33 ==> r.game.finished)
  {
    PlayAllKeeps(moves);
  }

  /** Play stays inside the rules, and a finished game has exactly one player at zero: not the one who moved last. */
  lemma GameStaysLegal(moves: seq<Move>)
    requires forall m <- moves :: Fair(m.cmd, m.roll)
    ensures var r := PlayAll(OPENING, moves);
            && GameInv(r.game)
            && Ledger(r.game.p1, r.hits1) && Ledger(r.game.p2, r.hits2)
            && (r.game.finished ==> r.game.Enemy().hp == 0 && r.game.Self().hp > 0)
            && (!r.game.finished ==> r.game.turn == r.accepted % 2)
  {
    PlayAllKeeps(moves);
  }

  /** A command is accepted exactly when it is the sender's turn in a running game and he can pay for it. */
  lemma AcceptedIff(g: Game, sender: Sender, cmd: char, roll: int)
    ensures var (verdict, g') := HandleCommand(g, sender, cmd, roll);
            && (verdict.Accepted? <==>
                  && !g.finished && sender == Seat(g.turn)
                  && (cmd == 'a' || (cmd == 'b' && g.Self().mp >= MAGIC_COST)
                      || (cmd == 'h' && g.Self().hpPotion > 0) || (cmd == 'm' && g.Self().mpPotion > 0)))
            && (!verdict.Accepted? ==> g' == g)
  {
  }

  // ---------------------------------------------------------------- what a command does, figure by figure

  /** The opening: full health and magic, one potion of each kind, and p1 to move. */
  lemma OpeningFigures()
    ensures OPENING.game.p1 == Fighter(200, 100, 1, 1) && OPENING.game.p2 == Fighter(200, 100, 1, 1)
    ensures OPENING.game.turn == 0 && !OPENING.game.finished && OPENING.accepted == 0
  {
  }

  /** The hit points left of `hp` after a wound of `roll`. */
  function Left(hp: int, roll: int): int {
    if roll >= hp then 0 else hp - roll
  }

  /** `mover` and `other` have become `mover'` and `other'` by an accepted `cmd`. */
  predicate Effect(mover: Fighter, other: Fighter, cmd: char, roll: int, mover': Fighter, other': Fighter) {
    if cmd == 'a' then
      mover' == mover && other' == Fighter(Left(other.hp, roll), other.mp, other.hpPotion, other.mpPotion)
    else if cmd == 'b' then
      && mover' == Fighter(mover.hp, mover.mp - 50, mover.hpPotion, mover.mpPotion)
      && other' == Fighter(Left(other.hp, roll), other.mp, other.hpPotion, other.mpPotion)
    else if cmd == 'h' then
      && mover' == Fighter(if mover.hp + 100 > 200 then 200 else mover.hp + 100,
                           mover.mp, mover.hpPotion - 1, mover.mpPotion)
      && other' == other
    else
      && cmd == 'm'
      && mover' == Fighter(mover.hp, if mover.mp + 100 > 100 then 100 else mover.mp + 100,
                           mover.hpPotion, mover.mpPotion - 1)
      && other' == other
  }

  /**
   * An accepted command does to both fighters what its letter says, with the damage rolled; then the
   * turn passes, or the game is over because somebody is at zero. Any other command changes nothing.
   */
  lemma CommandEffect(g: Game, sender: Sender, cmd: char, roll: int)
    requires g.turn == 0 || g.turn == 1
    ensures var (verdict, r) := HandleCommand(g, sender, cmd, roll);
            if !verdict.Accepted? then r == g else
            && (if g.turn == 0 then Effect(g.p1, g.p2, cmd, roll, r.p1, r.p2)
                else Effect(g.p2, g.p1, cmd, roll, r.p2, r.p1))
            && verdict.over == (r.p1.hp <= 0 || r.p2.hp <= 0) && r.finished == verdict.over
            && r.turn == if verdict.over then g.turn else 1 - g.turn
  {
  }

  /** Why a command is refused: the reasons exclude each other in this order. */
  lemma RefusedBecause(g: Game, sender: Sender, cmd: char, roll: int)
    requires g.turn == 0 || g.turn == 1
    ensures var verdict := HandleCommand(g, sender, cmd, roll).0;
            var mover := if g.turn == 0 then g.p1 else g.p2;
            var mine := !g.finished && sender == Seat(g.turn);
            && (verdict == AlreadyFinished <==> g.finished)
            && (verdict == NotYourTurn <==> !g.finished && sender != Seat(g.turn))
            && (verdict == NotEnoughMp <==> mine && cmd == 'b' && mover.mp < 50)
            && (verdict == NoHpPotion <==> mine && cmd == 'h' && mover.hpPotion <= 0)
            && (verdict == NoMpPotion <==> mine && cmd == 'm' && mover.mpPotion <= 0)
            && (verdict == Invalid <==> mine && cmd != 'a' && cmd != 'b' && cmd != 'h' && cmd != 'm')
  {
  }

  /** The move is an accepted attack on seat `i`. */
  predicate Hits(r: Record, m: Move, i: int) {
    && (m.cmd == 'a' || m.cmd == 'b') && m.sender == Seat(1 - i) && r.game.turn == 1 - i && !r.game.finished
    && (m.cmd == 'b' ==> (if i == 0 then r.game.p2 else r.game.p1).mp >= 50)
  }

  /** The sum of all rolls of accepted attacks on seat `i`. */
  function DamageTo(moves: seq<Move>, i: int): int {
    if moves == [] then 0 else
    var front, m := moves[..|moves| - 1], moves[|moves| - 1];
    DamageTo(front, i) + if Hits(PlayAll(OPENING, front), m, i) then m.roll else 0
  }

  function Sat(g: Game, i: int): Fighter {
    if i == 0 then g.p1 else g.p2
  }

  lemma DamageStep(r: Record, m: Move, i: int, damage: int)
    requires RecordInv(r) && Fair(m.cmd, m.roll) && (i == 0 || i == 1)
    requires Sat(r.game, i).hpPotion == 1 ==> Sat(r.game, i).hp == Left(200, damage)
    requires damage >= 0
    ensures var r' := Play(r, m);
            var damage' := damage + if Hits(r, m, i) then m.roll else 0;
            && damage' >= 0 && Sat(r'.game, i).hpPotion <= Sat(r.game, i).hpPotion
            && (Sat(r'.game, i).hpPotion == 1 ==> Sat(r'.game, i).hp == Left(200, damage'))
  {
    hide HandleCommand, Endurance, Ledger, Potential;
    CommandEffect(r.game, m.sender, m.cmd, m.roll);
    AcceptedIff(r.game, m.sender, m.cmd, m.roll);
  }

  lemma {:induction false} DamageRun(moves: seq<Move>, i: int)
    requires (forall m <- moves :: Fair(m.cmd, m.roll)) && (i == 0 || i == 1)
    ensures var f := Sat(PlayAll(OPENING, moves).game, i);
            DamageTo(moves, i) >= 0 && (f.hpPotion == 1 ==> f.hp == Left(200, DamageTo(moves, i)))
  {
    hide RecordInv, Play, Hits;
    if moves != [] {
      var front, m := moves[..|moves| - 1], moves[|moves| - 1];
      assert m in moves;
      DamageRun(front, i);
      PlayAllKeeps(front);
      DamageStep(PlayAll(OPENING, front), m, i, DamageTo(front, i));
    }
  }

  /** A player who has not drunk has lost exactly what was rolled against him, down to zero. */
  lemma DamageIsRolled(moves: seq<Move>, i: int)
    requires (forall m <- moves :: Fair(m.cmd, m.roll)) && (i == 0 || i == 1)
    ensures var f := Sat(PlayAll(OPENING, moves).game, i);
            f.hpPotion == 1 ==> f.hp == if DamageTo(moves, i) >= 200 then 0 else 200 - DamageTo(moves, i)
  {
    DamageRun(moves, i);
  }

  /** Every roll from 20 to 50, and from 40 to 70 with magic, can open a game and costs just that. */
  lemma FirstWound(cmd: char, roll: int)
    requires (cmd == 'a' && 20 <= roll <= 50) || (cmd == 'b' && 40 <= roll <= 70)
    ensures Fair(cmd, roll)
    ensures PlayAll(OPENING, [Move(Seat(0), cmd, roll)]).game
            == Game(Fighter(200, if cmd == 'a' then 100 else 50, 1, 1), Fighter(200 - roll, 100, 1, 1), 1, false)
  {
    PlayOne(OPENING, Move(Seat(0), cmd, roll));
  }

  // ---------------------------------------------------------------- the bound is reached

  /** One attack each, at the smallest damage. */
  function Exchange(n: nat): seq<Move> {
    if n == 0 then [] else Exchange(n - 1) + [Move(Seat(0), 'a', 20)] + [Move(Seat(1), 'a', 20)]
  }

  lemma {:induction false} PlayAllConcat(r: Record, a: seq<Move>, b: seq<Move>)
    ensures PlayAll(r, a + b) == PlayAll(PlayAll(r, a), b)
  {
    if b == [] {
      assert a + b == a;
    } else {
      PlayAllConcat(r, a, b[..|b| - 1]);
      assert (a + b)[..|a + b| - 1] == a + b[..|b| - 1];
    }
  }

  lemma PlayOne(r: Record, m: Move)
    ensures PlayAll(r, [m]) == Play(r, m)
  {
    assert [m][..0] == [];
  }

  lemma PlayNone(r: Record)
    ensures PlayAll(r, []) == r
  {
  }

  lemma OneExchange(r: Record)
    requires !r.game.finished && r.game.turn == 0 && r.game.p1.hp > 20 && r.game.p2.hp > 20
    ensures Play(Play(r, Move(Seat(0), 'a', 20)), Move(Seat(1), 'a', 20)) == Record(
              r.game.(p1 := r.game.p1.(hp := r.game.p1.hp - 20), p2 := r.game.p2.(hp := r.game.p2.hp - 20)),
              r.accepted + 2, r.hits1 + 1, r.hits2 + 1)
  {
  }

  lemma {:induction false} ExchangeEffect(r: Record, n: nat)
    requires !r.game.finished && r.game.turn == 0 && r.game.p1.hp > 20 * n && r.game.p2.hp > 20 * n
    ensures PlayAll(r, Exchange(n)) == Record(
              r.game.(p1 := r.game.p1.(hp := r.game.p1.hp - 20 * n), p2 := r.game.p2.(hp := r.game.p2.hp - 20 * n)),
              r.accepted + 2 * n, r.hits1 + n, r.hits2 + n)
  {
    hide PlayAll, Play, HandleCommand;
    if n == 0 {
      PlayNone(r);
    } else {
      ExchangeEffect(r, n - 1);
      OneExchange(PlayAll(r, Exchange(n - 1)));
      var front := Exchange(n - 1);
      PlayAllConcat(r, front, [Move(Seat(0), 'a', 20)]);
      PlayAllConcat(r, front + [Move(Seat(0), 'a', 20)], [Move(Seat(1), 'a', 20)]);
      PlayOne(PlayAll(r, front), Move(Seat(0), 'a', 20));
      PlayOne(PlayAll(r, front + [Move(Seat(0), 'a', 20)]), Move(Seat(1), 'a', 20));
    }
  }

  const DRINKS := [Move(Seat(0), 'h', 0), Move(Seat(1), 'h', 0), Move(Seat(0), 'm', 0), Move(Seat(1), 'm', 0)]

  lemma DrinksEffect(r: Record)
    requires r == Record(Game(Fighter(100, 100, 1, 1), Fighter(100, 100, 1, 1), 0, false), 10, 5, 5)
    ensures PlayAll(r, DRINKS) == Record(Game(Fighter(200, 100, 0, 0), Fighter(200, 100, 0, 0), 0, false), 14, 5, 5)
  {
    var r1 := Play(r, DRINKS[0]);
    var r2 := Play(r1, DRINKS[1]);
    var r3 := Play(r2, DRINKS[2]);
    PlayOne(r, DRINKS[0]);
    PlayOne(r1, DRINKS[1]);
    PlayOne(r2, DRINKS[2]);
    PlayOne(r3, DRINKS[3]);
    PlayAllConcat(r, [DRINKS[0]], [DRINKS[1]]);
    PlayAllConcat(r, [DRINKS[0]] + [DRINKS[1]], [DRINKS[2]]);
    PlayAllConcat(r, [DRINKS[0]] + [DRINKS[1]] + [DRINKS[2]], [DRINKS[3]]);
    assert DRINKS == [DRINKS[0]] + [DRINKS[1]] + [DRINKS[2]] + [DRINKS[3]];
  }

  /** Two cautious players: 33 accepted commands, no fewer. */
  const LONGEST: seq<Move> := Exchange(5) + DRINKS + Exchange(9) + [Move(Seat(0), 'a', 20)]

  lemma {:induction false} ExchangeFair(n: nat)
    ensures forall m <- Exchange(n) :: Fair(m.cmd, m.roll)
  {
    if n > 0 {
      ExchangeFair(n - 1);
    }
  }

  lemma GameLengthAttained()
    ensures forall m <- LONGEST :: Fair(m.cmd, m.roll)
    ensures PlayAll(OPENING, LONGEST).accepted == 33 && PlayAll(OPENING, LONGEST).game.finished
  {
    hide PlayAll, HandleCommand;
    ExchangeFair(5);
    ExchangeFair(9);
    ExchangeEffect(OPENING, 5);
    var r1 := PlayAll(OPENING, Exchange(5));
    DrinksEffect(r1);
    PlayAllConcat(OPENING, Exchange(5), DRINKS);
    var r2 := PlayAll(r1, DRINKS);
    ExchangeEffect(r2, 9);
    PlayAllConcat(OPENING, Exchange(5) + DRINKS, Exchange(9));
    var r3 := PlayAll(r2, Exchange(9));
    PlayOne(r3, Move(Seat(0), 'a', 20));
    LastWound(r3);
    PlayAllConcat(OPENING, Exchange(5) + DRINKS + Exchange(9), [Move(Seat(0), 'a', 20)]);
  }

  lemma LastWound(r: Record)
    requires !r.game.finished && r.game.turn == 0 && r.game.p2.hp == 20
    ensures var r' := Play(r, Move(Seat(0), 'a', 20)); r'.accepted == r.accepted + 1 && r'.game.finished
  {
  }
}
