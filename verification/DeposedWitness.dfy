/**
 * A client is really misled: a driver run from the start in which a leader is
 * deposed by the very append that commits another command at its client's index.
 */
module DeposedWitness {
  import opened Basics
  import opened Messages
  import opened Logs
  import opened Nodes
  import opened Stores
  import opened Drivers
  import opened Waiting
  import opened Misleading
  import opened Witnesses

  /** A round whose drain has nothing to apply. */
  lemma IdleRound(codec: CommandCodec, d: Driver, r: Request)
    requires Quiet(Handle(codec, d, r).driver.node)
    ensures var h := Handle(codec, d, r).driver;
            Iterate(codec, d, r, []).driver ==
              Driver(h.node.(outgoing := []), h.store, if h.node.role.Leader? then h.waiters else map[])
  {
    hide Handle, TakeReady, Quiet, FillAll, Pending;
    Sends(Handle(codec, d, r).driver.node);
  }

  const START := NewDriver("a", ["b", "c"], CONFIG, 1)

  /** "a" stands and is elected. */
  lemma Leading(codec: CommandCodec)
    ensures Drive(codec, START, [Round(Ticked(1), []), Round(Peer("b", RequestVoteReply(1, "b", true), 1), [])]) ==
              Driver(A4, map[], map[])
  {
    hide Iterate, Tick, Step, AppendFor;
    var first, second := Round(Ticked(1), []), Round(Peer("b", RequestVoteReply(1, "b", true), 1), []);
    Names();
    Stands(A0);
    IdleRound(codec, START, first.request);
    assert [first][..0] == [] && Drive(codec, START, [first]) == Driver(A2, map[], map[]);
    Wins(A2, "b");
    IdleRound(codec, Driver(A2, map[], map[]), second.request);
    assert [first, second][..1] == [first];
  }

  /** A client proposes, and waits at index 1. */
  lemma Waits(codec: CommandCodec, c: WriteCommand)
    ensures var w := Waiter(0, codec.encode(c));
            Iterate(codec, Driver(A4, map[], map[]), Write(c, 0), []).driver ==
              Driver(Proposed(A4, w.command, 0).(outgoing := []), map[], map[1 := [w]])
  {
    hide Iterate, Propose, AppendFor;
    var w := Waiter(0, codec.encode(c));
    ProposesFirst(A4, w.command);
    ProposedIndex(A4, w.command);
    IdleRound(codec, Driver(A4, map[], map[]), Write(c, 0));
    assert [] + [w] == [w];
  }

  lemma ProposedIndex(n: Node, command: Command)
    requires n.role.Leader?
    ensures Propose(n, command).1 == Accepted(n.log.LastIndex() + 1)
  {
    hide CommitPoint, Appends;
  }

  lemma DifferentCommands(codec: CommandCodec, a: WriteCommand, b: WriteCommand)
    requires Faithful(codec) && a != b
    ensures codec.encode(a) != codec.encode(b) && codec.encode(b) != []
  {
    assert codec.decode(codec.encode(a)) == Some(a) && codec.decode(codec.encode(b)) == Some(b);
  }

  /** The append of the leader of term 2 takes over index 1. */
  lemma Overtakes(x: Command, y: Command)
    requires x != y && y != []
    ensures Overtaken(Proposed(A4, x, 0).(outgoing := []), AppendEntries(2, "b", 0, 0, [LogEntry(2, y)], 1), 1)
  {
    hide AppendFor;
    var n := Proposed(A4, x, 0).(outgoing := []);
    var m := AppendEntries(2, "b", 0, 0, [LogEntry(2, y)], 1);
    assert n.log == Plain([LogEntry(1, x)]);
    assert Conflict(n.log, m, 0);
  }

  /** The three rounds: election timeout, a vote, a write. */
  function Rounds(c: WriteCommand): seq<Round> {
    [Round(Ticked(1), []), Round(Peer("b", RequestVoteReply(1, "b", true), 1), []), Round(Write(c, 0), [])]
  }

  lemma AfterRounds(codec: CommandCodec, c: WriteCommand)
    ensures var w := Waiter(0, codec.encode(c));
            Drive(codec, START, Rounds(c)) ==
              Driver(Proposed(A4, w.command, 0).(outgoing := []), map[], map[1 := [w]])
  {
    hide Iterate, Proposed;
    Leading(codec);
    Waits(codec, c);
    assert Rounds(c)[..2] == [Round(Ticked(1), []), Round(Peer("b", RequestVoteReply(1, "b", true), 1), [])];
  }

  /** Whatever write the client proposes and whatever other command the new leader has: the driver starts
      fresh, wins an election, takes the write and is then deposed, and the client is told that its write
      is committed although the other command took its place. */
  lemma DeposedLeaderMisleads(codec: CommandCodec, mine: WriteCommand, theirs: WriteCommand)
    requires Faithful(codec) && mine != theirs
    ensures Misled(codec, Drive(codec, START, Rounds(mine)),
                   Peer("b", AppendEntries(2, "b", 0, 0, [LogEntry(2, codec.encode(theirs))], 1), 1),
                   1, Waiter(0, codec.encode(mine)))
  {
    hide Misled, Drive, Overtaken, Faithful, Proposed, Rounds, Settled;
    var d, w := Drive(codec, START, Rounds(mine)), Waiter(0, codec.encode(mine));
    var m := AppendEntries(2, "b", 0, 0, [LogEntry(2, codec.encode(theirs))], 1);
    AfterRounds(codec, mine);
    StartSettled();
    RunSettles(codec, START, Rounds(mine));
    DifferentCommands(codec, mine, theirs);
    Overtakes(codec.encode(mine), codec.encode(theirs));
    MisledExactly(codec, d, Peer("b", m, 1), 1, w);
  }

  lemma StartSettled()
    ensures Settled(START)
  {
  }
}
