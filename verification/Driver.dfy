/**
 * The single-owner driver of src/server.rs: one event, then drain. Waiters are
 * clients blocked on a proposal. The order in which independent clients are
 * answered does not matter, so the answers of one round are two bags of waiters:
 * those told their write is committed and those sent to the leader.
 */
module Drivers {
  import opened Basics
  import opened Messages
  import opened Nodes
  import opened Stores

  /** How write commands are stored in the log; the byte format itself is not modelled. */
  datatype CommandCodec = CommandCodec(encode: WriteCommand -> Command, decode: Command -> Option<WriteCommand>)

  /** Decoding inverts encoding, and no encoding is empty. */
  ghost predicate Faithful(codec: CommandCodec) {
    forall c :: codec.decode(codec.encode(c)) == Some(c) && codec.encode(c) != []
  }

  /** A blocked client; `command` records what it proposed. */
  datatype Waiter = Waiter(id: nat, command: Command)

  type Waiters = map<nat, seq<Waiter>>

  datatype Driver = Driver(node: Node, store: Store, waiters: Waiters)

  datatype Request =
    | Ticked(draw: nat)
    | Peer(from: NodeId, message: Message, draw: nat)
    | Write(command: WriteCommand, id: nat)
    | Status

  function WaitersAt(waiters: Waiters, index: nat): seq<Waiter> {
    if index in waiters then waiters[index] else []
  }

  /** The state after the event, the clients refused at once because this node does not lead, and the
      leader they are told to turn to. */
  datatype Handled = Handled(driver: Driver, refused: multiset<Waiter>, hint: Option<NodeId>)

  function Handle(codec: CommandCodec, d: Driver, r: Request): Handled {
    match r
    case Ticked(draw) => Handled(d.(node := Tick(d.node, draw)), multiset{}, None)
    case Peer(from, m, draw) => Handled(d.(node := Step(d.node, from, m, draw)), multiset{}, None)
    case Write(c, id) =>
      var w := Waiter(id, codec.encode(c));
      (match Propose(d.node, w.command)
       case (n, Accepted(i)) =>
         Handled(d.(node := n, waiters := d.waiters[i := WaitersAt(d.waiters, i) + [w]]), multiset{}, None)
       case (n, NotLeader(leader)) => Handled(d.(node := n), multiset{w}, leader))
    case Status => Handled(d, multiset{}, None)
  }

  // ---- Draining ------------------------------------------------------------

  /** The store and the waiters after some committed items, and the waiters told so far that their
      write is committed. */
  datatype Delivery = Delivery(store: Store, waiters: Waiters, served: multiset<Waiter>)

  /** Apply one committed item and answer whoever waits for its index. */
  function DeliverOne(codec: CommandCodec, v: Delivery, c: Committed): Delivery {
    match c
    case Command(index, command) =>
      Delivery(Effect(codec.decode(command), v.store), v.waiters - {index},
               v.served + multiset(WaitersAt(v.waiters, index)))
    case Snapshot(data) => v.(store := FromPairs(data))
  }

  function DeliverAll(codec: CommandCodec, s: Store, waiters: Waiters, items: seq<Committed>): Delivery {
    if items == [] then Delivery(s, waiters, multiset{})
    else
      var last := |items| - 1;
      DeliverOne(codec, DeliverAll(codec, s, waiters, items[..last]), items[last])
  }

  function FillAll(out: seq<Envelope>, data: seq<KeyValue>): seq<Envelope> {
    seq(|out|, i requires 0 <= i < |out| => Envelope(out[i].to, Filled(out[i].message, data)))
  }

  /** All waiters, with multiplicity. */
  ghost function Pending(waiters: Waiters): multiset<Waiter> {
    if waiters == map[] then multiset{}
    else
      var i :| i in waiters;
      multiset(waiters[i]) + Pending(waiters - {i})
  }

  /** The outcome of one round: everything sent to peers, who was told "committed", who was sent
      elsewhere, and where. */
  datatype Processed = Processed(driver: Driver, sent: seq<Envelope>,
                                 served: multiset<Waiter>, redirected: multiset<Waiter>, hint: Option<NodeId>)

  /** Messages leave before the committed items are applied, so a snapshot is filled with the store as
      it was; `data` lists that store. */
  ghost function ProcessReady(codec: CommandCodec, d: Driver, data: seq<KeyValue>): Processed {
    var (n, ready) := TakeReady(d.node);
    var v := DeliverAll(codec, d.store, d.waiters, ready.committed);
    var sent := FillAll(ready.messages, data);
    if n.role.Leader? then Processed(Driver(n, v.store, v.waiters), sent, v.served, multiset{}, None)
    else Processed(Driver(n, v.store, map[]), sent, v.served, Pending(v.waiters), n.leaderId)
  }

  /** One round of the driver's loop. */
  ghost function Iterate(codec: CommandCodec, d: Driver, r: Request, data: seq<KeyValue>): Processed {
    var h := Handle(codec, d, r);
    var p := ProcessReady(codec, h.driver, data);
    p.(redirected := h.refused + p.redirected, hint := if h.refused == multiset{} then p.hint else h.hint)
  }

  /** One event and the store listing a snapshot would be filled with. */
  datatype Round = Round(request: Request, data: seq<KeyValue>)

  ghost function Drive(codec: CommandCodec, d: Driver, rounds: seq<Round>): Driver {
    if rounds == [] then d
    else
      var last := |rounds| - 1;
      Iterate(codec, Drive(codec, d, rounds[..last]), rounds[last].request, rounds[last].data).driver
  }

  function NewDriver(id: NodeId, peers: seq<NodeId>, config: Config, draw: nat): Driver {
    Driver(NewNode(id, peers, config, draw), map[], map[])
  }

  // ---- Conservation of waiters ---------------------------------------------

  lemma MapShrinks<V>(m: map<nat, V>, i: nat)
    requires i in m
    ensures |m - {i}| < |m|
  {
    assert (m - {i}).Keys == m.Keys - {i};
    assert m.Keys == (m.Keys - {i}) + {i};
  }

  /** The order in which the map is visited does not matter. */
  lemma {:induction false} PendingRemove(waiters: Waiters, i: nat)
    requires i in waiters
    ensures Pending(waiters) == multiset(waiters[i]) + Pending(waiters - {i})
    decreases |waiters|
  {
    var j :| j in waiters && Pending(waiters) == multiset(waiters[j]) + Pending(waiters - {j});
    if i != j {
      MapShrinks(waiters, j);
      MapShrinks(waiters, i);
      PendingRemove(waiters - {j}, i);
      PendingRemove(waiters - {i}, j);
      assert waiters - {j} - {i} == waiters - {i} - {j};
    }
  }

  lemma PendingTake(waiters: Waiters, i: nat)
    ensures Pending(waiters) == multiset(WaitersAt(waiters, i)) + Pending(waiters - {i})
  {
    if i in waiters {
      PendingRemove(waiters, i);
    } else {
      assert waiters - {i} == waiters;
    }
  }

  lemma PendingAdd(waiters: Waiters, i: nat, w: Waiter)
    ensures Pending(waiters[i := WaitersAt(waiters, i) + [w]]) == Pending(waiters) + multiset{w}
  {
    hide Pending;
    var more := waiters[i := WaitersAt(waiters, i) + [w]];
    PendingTake(waiters, i);
    PendingRemove(more, i);
    assert more - {i} == waiters - {i};
  }

  lemma {:induction false} DeliveryConserves(codec: CommandCodec, s: Store, waiters: Waiters, items: seq<Committed>)
    ensures var v := DeliverAll(codec, s, waiters, items); v.served + Pending(v.waiters) == Pending(waiters)
    decreases |items|
  {
    hide Pending;
    if items != [] {
      var last := |items| - 1;
      var v := DeliverAll(codec, s, waiters, items[..last]);
      DeliveryConserves(codec, s, waiters, items[..last]);
      if items[last].Command? {
        PendingTake(v.waiters, items[last].index);
      }
    }
  }

  /** The client a request brings along, if any. */
  function Newcomer(codec: CommandCodec, r: Request): multiset<Waiter> {
    match r
    case Write(c, id) => multiset{Waiter(id, codec.encode(c))}
    case _ => multiset{}
  }

  lemma HandleConserves(codec: CommandCodec, d: Driver, r: Request)
    ensures var h := Handle(codec, d, r);
            h.refused + Pending(h.driver.waiters) == Pending(d.waiters) + Newcomer(codec, r)
  {
    hide Tick, Step, Propose, Pending;
    match r
    case Write(c, id) =>
      var w := Waiter(id, codec.encode(c));
      var p := Propose(d.node, w.command).1;
      if p.Accepted? {
        PendingAdd(d.waiters, p.index, w);
      }
    case _ =>
  }

  lemma ProcessConserves(codec: CommandCodec, d: Driver, data: seq<KeyValue>)
    ensures var p := ProcessReady(codec, d, data);
            && p.served + p.redirected + Pending(p.driver.waiters) == Pending(d.waiters)
            && (!p.driver.node.role.Leader? ==> p.driver.waiters == map[])
  {
    hide TakeReady, DeliverAll, FillAll;
    DeliveryConserves(codec, d.store, d.waiters, TakeReady(d.node).1.committed);
  }

  /** Waiter conservation: in every round each client, old or new, is answered exactly once or keeps
      waiting, and nobody waits on a node that does not lead. */
  lemma WaitersConserved(codec: CommandCodec, d: Driver, r: Request, data: seq<KeyValue>)
    ensures var p := Iterate(codec, d, r, data);
            && p.served + p.redirected + Pending(p.driver.waiters) == Pending(d.waiters) + Newcomer(codec, r)
            && (!p.driver.node.role.Leader? ==> p.driver.waiters == map[])
  {
    hide Handle, ProcessReady, Pending, Newcomer;
    var h := Handle(codec, d, r);
    HandleConserves(codec, d, r);
    ProcessConserves(codec, h.driver, data);
    var p := ProcessReady(codec, h.driver, data);
    Regrouped(p.served, h.refused, p.redirected, Pending(p.driver.waiters));
  }

  lemma Regrouped<T>(a: multiset<T>, b: multiset<T>, c: multiset<T>, d: multiset<T>)
    ensures a + (b + c) + d == b + (a + c + d)
  {
  }

  lemma RefusedTold(codec: CommandCodec, d: Driver, r: Request)
    ensures var h := Handle(codec, d, r);
            h.refused != multiset{} ==> h.driver == d && !d.node.role.Leader? && h.hint == d.node.leaderId
  {
    hide Tick, Step;
  }

  lemma ProcessTold(codec: CommandCodec, d: Driver, data: seq<KeyValue>)
    ensures var p := ProcessReady(codec, d, data);
            && p.driver.node.role == d.node.role && p.driver.node.leaderId == d.node.leaderId
            && (p.redirected != multiset{} ==> !d.node.role.Leader? && p.hint == d.node.leaderId)
  {
    hide DeliverAll, FillAll, Pending, CommandsIn;
  }

  /** Whoever is sent elsewhere in a round, at once or after waiting, is sent to the leader the node names
      when the round is over, and never by a node that leads. */
  lemma RedirectedTo(codec: CommandCodec, d: Driver, r: Request, data: seq<KeyValue>)
    requires Iterate(codec, d, r, data).redirected != multiset{}
    ensures var p := Iterate(codec, d, r, data); !p.driver.node.role.Leader? && p.hint == p.driver.node.leaderId
  {
    hide Handle, ProcessReady;
    var h := Handle(codec, d, r);
    ProcessTold(codec, h.driver, data);
    RefusedTold(codec, d, r);
  }

  // ---- Whole runs ----------------------------------------------------------

  /** Everybody who was answered during the rounds, either way. */
  ghost function AnsweredIn(codec: CommandCodec, d: Driver, rounds: seq<Round>): multiset<Waiter> {
    if rounds == [] then multiset{}
    else
      var last := |rounds| - 1;
      var p := Iterate(codec, Drive(codec, d, rounds[..last]), rounds[last].request, rounds[last].data);
      AnsweredIn(codec, d, rounds[..last]) + p.served + p.redirected
  }

  /** Everybody who came with a proposal. */
  function NewcomersIn(codec: CommandCodec, rounds: seq<Round>): multiset<Waiter> {
    if rounds == [] then multiset{}
    else NewcomersIn(codec, rounds[..|rounds| - 1]) + Newcomer(codec, rounds[|rounds| - 1].request)
  }

  /** Over every run, each proposal is answered exactly once or still pending. */
  lemma {:induction false} RunConserves(codec: CommandCodec, d: Driver, rounds: seq<Round>)
    ensures AnsweredIn(codec, d, rounds) + Pending(Drive(codec, d, rounds).waiters) ==
              Pending(d.waiters) + NewcomersIn(codec, rounds)
    decreases |rounds|
  {
    hide Iterate, Pending, Newcomer;
    if rounds != [] {
      var last := |rounds| - 1;
      var e := Drive(codec, d, rounds[..last]);
      var p := Iterate(codec, e, rounds[last].request, rounds[last].data);
      RunConserves(codec, d, rounds[..last]);
      WaitersConserved(codec, e, rounds[last].request, rounds[last].data);
      Carried(AnsweredIn(codec, d, rounds[..last]), p.served, p.redirected, Pending(e.waiters),
              Pending(p.driver.waiters), Pending(d.waiters),
              NewcomersIn(codec, rounds[..last]), Newcomer(codec, rounds[last].request));
    }
  }

  lemma Carried<T>(answered: multiset<T>, served: multiset<T>, redirected: multiset<T>, before: multiset<T>,
                   after: multiset<T>, start: multiset<T>, came: multiset<T>, comes: multiset<T>)
    requires answered + before == start + came && served + redirected + after == before + comes
    ensures answered + served + redirected + after == start + (came + comes)
  {
    assert answered + served + redirected + after == answered + (served + redirected + after);
    assert answered + (before + comes) == (answered + before) + comes;
    assert start + came + comes == start + (came + comes);
  }
}
