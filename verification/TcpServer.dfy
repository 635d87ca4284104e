/** The TcpServer object; `world` is the rest of the program as the life-cycle machine has it. */
module TcpServers {
  import opened Registry
  import opened Naming
  import opened Lifecycle
  import opened LifecycleInv
  import opened LifecycleSteps

  lemma {:induction false} RunSnoc(w: World, run: seq<Label>, a: Label)
    requires Sound(w) && Executes(w, run) && Enabled(Final(w, run), a)
    ensures Executes(w, run + [a]) && Final(w, run + [a]) == Apply(Final(w, run), a)
    decreases |run|
  {
    hide Sound, Enabled, Apply;
    if run == [] {
      assert [] + [a] == [a] && [a][1..] == [];
    } else {
      RunSnoc(Apply(w, run[0]), run[1..], a);
      assert (run + [a])[1..] == run[1..] + [a];
    }
  }

  lemma DropKeeps(w: World, c: nat)
    requires Sound(w) && NamesInv(w) && c < |w.conns|
    ensures var r := Drop(w, c);
            && NamesInv(r) && r.gone == w.gone && |r.conns| == |w.conns|
            && r.server == w.server && r.addr == w.addr && r.names == w.names - {Name(w, c)}
  {
    hide ConnName, LoopSound;
    assert forall n <- Drop(w, c).names :: n == Name(Drop(w, c), w.names[n]);
  }

  lemma DestroyStep(w: World)
    requires Sound(w) && Enabled(w, DestroyServer)
    ensures Executes(w, [DestroyServer]) && Final(w, [DestroyServer]) == w.(gone := true)
  {
    RunSnoc(w, [], DestroyServer);
    assert [] + [DestroyServer] == [DestroyServer];
  }

  lemma DropStep(w: World, run: seq<Label>, n: string, c: nat)
    requires Sound(w) && Executes(w, run) && Final(w, run).gone && NamesInv(Final(w, run))
    requires n in Final(w, run).names && c == Final(w, run).names[n]
    ensures c < |Final(w, run).conns| && n == Name(Final(w, run), c)
    ensures Executes(w, run + [DropConnection(c)])
    ensures Final(w, run + [DropConnection(c)]) == Drop(Final(w, run), c)
  {
    hide ConnName, LoopSound, Executes, Final;
    RunSnoc(w, run, DropConnection(c));
  }

  /** `w` is `before` at the point where handleClose of the live connection `c` makes its close callback. */
  ghost predicate Closing(before: World, c: nat, w: World) {
    && Inv(before) && Sound(before) && !before.gone && c < |before.conns|
    && before.conns[c].established == 1 && before.conns[c].destroyed == 0
    && w == Closed(before, c)
  }

  lemma ClosingEnds(before: World, c: nat, w: World)
    requires Closing(before, c, w)
    ensures Sound(w) && |w.conns| == |before.conns| && w.conns[c].loop == before.conns[c].loop && NamesInv(w)
    ensures HandleClose(before, c)
            == if before.conns[c].loop == 0 then RemoveInLoop(w, c) else Post(w, 0, Remove(c))
  {
    hide Agreement, Views, OpenFdsDistinct, TasksPlaced, DispatchInv, GoneInv, ConnName, LoopSound;
  }

  class TcpServer {
    const name: string
    const addr: InetAddress
    var nextConnId: nat
    /** connectionMap_, its shared pointers as creation numbers */
    var connectionMap: map<string, nat>
    ghost var world: World

    ghost predicate Valid()
      reads this
    {
      && Sound(world) && world.server == name && world.addr == addr
      && world.names == connectionMap && nextConnId == |world.conns| + 1
    }

    constructor (name: string, addr: InetAddress, ghost world: World)
      requires Init(world) && world.server == name && world.addr == addr
      ensures Valid() && this.world == world && connectionMap == map[] && nextConnId == 1
    {
      this.name, this.addr, this.world := name, addr, world;
      nextConnId, connectionMap := 1, map[];
    }

    /** While the id fits, the new entry overwrites none. */
    method NewConnection(fd: nat, io: nat) returns (connName: string)
      requires Valid() && io < |world.loops|
      modifies this
      ensures Valid() && world == Lifecycle.NewConnection(old(world), fd, io)
      ensures connectionMap == old(connectionMap)[connName := old(nextConnId) - 1]
      ensures old(NamesInv(world)) && old(nextConnId) <= INT_MAX ==> connName !in old(connectionMap)
    {
      hide ConnName, LoopSound;
      ghost var w := world;
      connName := ConnName(name, addr, nextConnId);
      if NamesInv(w) && nextConnId <= INT_MAX && connName in connectionMap {
        FreshName(w, connectionMap[connName]);
      }
      connectionMap := connectionMap[connName := nextConnId - 1];
      nextConnId := nextConnId + 1;
      world := Lifecycle.NewConnection(w, fd, io);
    }

    /**
     * The close callback, made on the connection's own loop as the last act of handleClose: it completes
     * that handler, and with it the life-cycle invariant. On the main loop no entry leads to the
     * connection any more; from another loop the entry stays until the main loop gets to it.
     */
    method RemoveConnection(c: nat, connLoop: nat, ghost before: World)
      requires Valid() && c < |world.conns| && connLoop == world.conns[c].loop
      modifies this
      ensures Valid()
      ensures world == if connLoop == 0 then RemoveInLoop(old(world), c) else Post(old(world), 0, Remove(c))
      ensures Closing(before, c, old(world)) ==>
                && world == HandleClose(before, c) && Inv(world)
                && (connLoop == 0 ==> forall n <- connectionMap :: connectionMap[n] != c)
                && (connLoop != 0 ==> connectionMap == old(connectionMap))
    {
      hide ConnName, LoopSound, Inv, HandleClose, Closed;
      if Closing(before, c, world) {
        HandleCloseKeeps(before, c);
        ClosingEnds(before, c, world);
      }
      if connLoop == 0 {
        RemoveConnectionInLoop(c);
      } else {
        world := Post(world, 0, Remove(c));
      }
    }

    /** Of a listed connection exactly its own entry goes. */
    method RemoveConnectionInLoop(c: nat)
      requires Valid() && c < |world.conns|
      modifies this
      ensures Valid() && world == RemoveInLoop(old(world), c)
      ensures old(NamesInv(world)) ==>
                connectionMap == map n | n in old(connectionMap) && old(connectionMap)[n] != c :: old(connectionMap)[n]
    {
      hide LoopSound, ConnName;
      ghost var w := world;
      connectionMap := connectionMap - {ConnName(name, addr, c + 1)};
      world := RemoveInLoop(w, c);
      if NamesInv(w) {
        EntryOf(w, c);
      }
    }

    /**
     * ~TcpServer, in whatever order the hash map yields its entries: what it does is a run of the
     * life-cycle machine that drops each listed connection once.
     */
    method Destroy() returns (ghost run: seq<Label>)
      requires Valid() && NamesInv(world) && Enabled(world, DestroyServer)
      modifies this
      ensures Valid() && connectionMap == map[]
      ensures Executes(old(world), run) && world == Final(old(world), run)
      ensures |run| == 1 + |old(connectionMap)| && run[0] == DestroyServer
      ensures forall i | 1 <= i < |run| :: run[i].DropConnection?
    {
      hide ConnName, LoopSound, Executes, Final, Drop, NamesInv, Enabled;
      ghost var w := world;
      DestroyStep(w);
      run := [DestroyServer];
      NamesStay(w);
      world := w.(gone := true);
      while connectionMap != map[]
        invariant Valid() && NamesInv(world) && world.gone
        invariant Executes(w, run) && world == Final(w, run)
        invariant |run| + |connectionMap| == 1 + |old(connectionMap)| && run[0] == DestroyServer
        invariant forall i | 1 <= i < |run| :: run[i].DropConnection?
        decreases |connectionMap|
      {
        var n :| n in connectionMap;
        var c := connectionMap[n];
        DropStep(w, run, n, c);
        DropKeeps(world, c);
        run := run + [DropConnection(c)];
        MapMinus(connectionMap, n);
        connectionMap := connectionMap - {n};
        world := Drop(world, c);
      }
    }
  }

  /** Only a connection's own name leads to it. */
  lemma EntryOf(w: World, c: nat)
    requires Sound(w) && NamesInv(w) && c < |w.conns|
    ensures forall n <- w.names :: w.names[n] == c <==> n == Name(w, c)
  {
    hide ConnName;
    forall n <- w.names ensures w.names[n] == c <==> n == Name(w, c) {
      if w.names[n] != c {
        NamesDistinct(w.server, w.addr, w.names[n] + 1, c + 1);
      }
    }
  }

  lemma NamesStay(w: World)
    requires Sound(w) && NamesInv(w)
    ensures Sound(w.(gone := true)) && NamesInv(w.(gone := true))
  {
    assert forall c: nat :: Name(w.(gone := true), c) == Name(w, c);
  }

  lemma MapMinus(m: map<string, nat>, n: string)
    requires n in m
    ensures |m - {n}| == |m| - 1
  {
    assert (m - {n}).Keys == m.Keys - {n};
    assert |m| == |m.Keys| && |m - {n}| == |(m - {n}).Keys|;
  }
}
