/**
 * A whole fleet of drivers over one committed ledger, exchanging snapshots that
 * may be newer than they claim.
 */
module Fleets {
  import opened Basics
  import opened Messages
  import opened Nodes
  import opened Stores
  import opened Drivers
  import opened Shipping

  /** A snapshot on its way, and how far its sender's store reached. */
  datatype Shipment = Shipment(message: Message, reach: nat)

  /** All drivers, how far the store of each reaches, and every snapshot ever shipped. A store reaches as
      far as the entries it applied, or as far as the store it was restored from. */
  datatype Fleet = Fleet(drivers: map<NodeId, Driver>, reach: map<NodeId, nat>, shipped: set<Shipment>)

  /** Driver `node` handles `request`; `data` lists its store, and `carried` is the reach of the snapshot
      the request brings, if it brings one. */
  datatype Turn = Turn(node: NodeId, request: Request, data: seq<KeyValue>, carried: nat)

  ghost function Shipped(sent: seq<Envelope>, reach: nat): set<Shipment> {
    set e | e in sent && e.message.InstallSnapshot? :: Shipment(e.message, reach)
  }

  ghost function AfterTurn(codec: CommandCodec, f: Fleet, t: Turn): Fleet
    requires t.node in f.drivers && t.node in f.reach
  {
    var d := f.drivers[t.node];
    var p := Iterate(codec, d, t.request, t.data);
    var reach := if InstallRequest(d, t.request) then t.carried else Max(f.reach[t.node], p.driver.node.lastApplied);
    Fleet(f.drivers[t.node := p.driver], f.reach[t.node := reach], f.shipped + Shipped(p.sent, f.reach[t.node]))
  }

  /** The turn is possible over ledger `l`: what the node is about to apply is what the ledger says, and
      a snapshot it installs was shipped by some driver. */
  ghost predicate Lawful(codec: CommandCodec, f: Fleet, t: Turn, l: Ledger) {
    && t.node in f.drivers && t.node in f.reach && Lists(t.data, f.drivers[t.node].store)
    && var d := f.drivers[t.node];
       && FollowsLedger(codec, Handle(codec, d, t.request).driver.node, l)
       && (InstallRequest(d, t.request) ==> Shipment(t.request.message, t.carried) in f.shipped)
  }

  ghost predicate Fresh(f: Fleet) {
    && f.shipped == {} && f.reach.Keys == f.drivers.Keys
    && forall v :: v in f.drivers ==>
         var d := f.drivers[v];
         f.reach[v] == 0 && d == NewDriver(d.node.id, d.node.peers, d.node.config, d.node.electionTimeout)
  }

  ghost predicate LawfulRun(codec: CommandCodec, states: seq<Fleet>, turns: seq<Turn>, l: Ledger) {
    && |states| == |turns| + 1 && Fresh(states[0])
    && forall i :: 0 <= i < |turns| ==>
         Lawful(codec, states[i], turns[i], l) && states[i + 1] == AfterTurn(codec, states[i], turns[i])
  }

  // ---- Every store has an origin -------------------------------------------

  ghost predicate DriverOk(d: Driver, reach: nat, l: Ledger) {
    exists o :: At(d, o, l) && Horizon(o) == reach
  }

  ghost predicate ShipmentOk(s: Shipment, l: Ledger) {
    && s.message.InstallSnapshot?
    && exists o :: && Plausible(o, l) && Horizon(o) == s.reach
                   && s.message.lastIncludedIndex <= Position(o) && Lists(s.message.data, StoreOf(o, l))
  }

  ghost predicate FleetOk(f: Fleet, l: Ledger) {
    && f.reach.Keys == f.drivers.Keys
    && (forall v :: v in f.drivers ==> DriverOk(f.drivers[v], f.reach[v], l))
    && forall s :: s in f.shipped ==> ShipmentOk(s, l)
  }

  lemma TurnMoves(codec: CommandCodec, f: Fleet, t: Turn, l: Ledger)
    requires FleetOk(f, l) && Lawful(codec, f, t, l)
    ensures var g := AfterTurn(codec, f, t); DriverOk(g.drivers[t.node], g.reach[t.node], l)
  {
    hide Iterate, Plausible, Lists, FollowsLedger, StoreOf;
    var d := f.drivers[t.node];
    var p := Iterate(codec, d, t.request, t.data);
    assert DriverOk(d, f.reach[t.node], l);
    var o :| At(d, o, l) && Horizon(o) == f.reach[t.node];
    if InstallRequest(d, t.request) {
      var s := Shipment(t.request.message, t.carried);
      assert ShipmentOk(s, l);
      var sender :| && Plausible(sender, l) && Horizon(sender) == s.reach
                    && s.message.lastIncludedIndex <= Position(sender) && Lists(s.message.data, StoreOf(sender, l));
      RoundRestores(codec, d, t.request, t.data, sender, l);
      assert At(p.driver, Restored(sender, s.message.lastIncludedIndex), l);
    } else {
      RoundTracks(codec, d, t.request, t.data, o, l);
      var k := Max(d.node.lastApplied, Handle(codec, d, t.request).driver.node.commitIndex);
      assert At(p.driver, Applied(o, k), l) && k == p.driver.node.lastApplied;
    }
  }

  lemma TurnShips(codec: CommandCodec, f: Fleet, t: Turn, l: Ledger, s: Shipment)
    requires FleetOk(f, l) && Lawful(codec, f, t, l)
    requires s in Shipped(Iterate(codec, f.drivers[t.node], t.request, t.data).sent, f.reach[t.node])
    ensures ShipmentOk(s, l)
  {
    hide Iterate, Lists, StoreOf, Plausible;
    var d := f.drivers[t.node];
    var e :| && e in Iterate(codec, d, t.request, t.data).sent && e.message.InstallSnapshot?
             && Shipment(e.message, f.reach[t.node]) == s;
    assert DriverOk(d, f.reach[t.node], l);
    var o :| At(d, o, l) && Horizon(o) == f.reach[t.node];
    ShippedClaims(codec, d, t.request, t.data, e);
  }

  lemma TurnKeeps(codec: CommandCodec, f: Fleet, t: Turn, l: Ledger)
    requires FleetOk(f, l) && Lawful(codec, f, t, l)
    ensures t.node in f.drivers && FleetOk(AfterTurn(codec, f, t), l)
  {
    hide Iterate, DriverOk, ShipmentOk, Lawful, Shipped;
    LawfulNode(codec, f, t, l);
    TurnMoves(codec, f, t, l);
    var p := Iterate(codec, f.drivers[t.node], t.request, t.data);
    forall s | s in Shipped(p.sent, f.reach[t.node]) ensures ShipmentOk(s, l) {
      TurnShips(codec, f, t, l, s);
    }
  }

  lemma LawfulNode(codec: CommandCodec, f: Fleet, t: Turn, l: Ledger)
    requires Lawful(codec, f, t, l)
    ensures t.node in f.drivers && t.node in f.reach
  {
  }

  lemma FreshOk(f: Fleet, l: Ledger)
    requires Fresh(f)
    ensures FleetOk(f, l)
  {
    forall v | v in f.drivers ensures DriverOk(f.drivers[v], f.reach[v], l) {
      assert At(f.drivers[v], Origin.Fresh, l);
    }
  }

  lemma {:induction false} RunOk(codec: CommandCodec, states: seq<Fleet>, turns: seq<Turn>, l: Ledger, i: nat)
    requires LawfulRun(codec, states, turns, l) && i <= |turns|
    ensures FleetOk(states[i], l)
    decreases i
  {
    hide FleetOk, Lawful, AfterTurn, Fresh;
    if i == 0 {
      FreshOk(states[0], l);
    } else {
      RunOk(codec, states, turns, l, i - 1);
      LawfulNode(codec, states[i - 1], turns[i - 1], l);
      TurnKeeps(codec, states[i - 1], turns[i - 1], l);
    }
  }

  /** Convergence: in every run, a driver that has applied as far as its store reaches holds exactly the
      plain fold of the committed ledger, through whatever chain of snapshots it got there. */
  lemma FleetConverges(codec: CommandCodec, states: seq<Fleet>, turns: seq<Turn>, l: Ledger, i: nat, v: NodeId)
    requires LawfulRun(codec, states, turns, l) && i <= |turns| && v in states[i].drivers
    ensures v in states[i].reach && states[i].drivers[v].node.lastApplied <= |l|
    ensures var d := states[i].drivers[v];
            d.node.lastApplied >= states[i].reach[v] ==> d.store == StateAt(l, d.node.lastApplied)
  {
    hide StoreOf, Plausible, AfterTurn, Lawful, Fresh;
    RunOk(codec, states, turns, l, i);
    var d := states[i].drivers[v];
    assert DriverOk(d, states[i].reach[v], l);
    var o :| At(d, o, l) && Horizon(o) == states[i].reach[v];
    PositionBound(o, l);
    if d.node.lastApplied >= states[i].reach[v] {
      SnapshotsConverge(o, l);
    }
  }

  // ---- How far a store reaches ---------------------------------------------

  /** Driver `v` has not installed a snapshot in the first `i` turns. */
  ghost predicate NeverRestored(states: seq<Fleet>, turns: seq<Turn>, i: nat, v: NodeId)
    requires i <= |turns| < |states|
  {
    forall k :: 0 <= k < i && turns[k].node == v && v in states[k].drivers ==>
      !InstallRequest(states[k].drivers[v], turns[k].request)
  }

  lemma AppliedGrows(codec: CommandCodec, d: Driver, r: Request, data: seq<KeyValue>)
    requires !InstallRequest(d, r) && d.node.log.snapshotIndex <= d.node.lastApplied
    ensures Iterate(codec, d, r, data).driver.node.lastApplied >= d.node.lastApplied
  {
    hide Handle, TakeReady, DeliverAll, FillAll, Pending;
    HandleSteady(codec, d, r);
    DrainEnds(Handle(codec, d, r).driver.node);
  }

  lemma ReachKeepsUp(codec: CommandCodec, f: Fleet, t: Turn, l: Ledger, v: NodeId)
    requires FleetOk(f, l) && v in f.drivers && f.reach[v] == f.drivers[v].node.lastApplied
    requires t.node in f.drivers && (t.node == v ==> !InstallRequest(f.drivers[v], t.request))
    ensures var g := AfterTurn(codec, f, t); g.reach[v] == g.drivers[v].node.lastApplied
  {
    hide Iterate, InstallRequest, DriverOk, ShipmentOk, Shipped;
    if t.node == v {
      SnapshotBelow(f, l, v);
      AppliedGrows(codec, f.drivers[v], t.request, t.data);
    }
  }

  lemma {:induction false} ReachIsApplied(codec: CommandCodec, states: seq<Fleet>, turns: seq<Turn>, l: Ledger,
                                          i: nat, v: NodeId)
    requires LawfulRun(codec, states, turns, l) && i <= |turns| && v in states[i].drivers
    requires NeverRestored(states, turns, i, v)
    ensures v in states[i].reach && states[i].reach[v] == states[i].drivers[v].node.lastApplied
    decreases i
  {
    hide Lawful, InstallRequest, DriverOk, ShipmentOk, NewDriver, Iterate;
    RunOk(codec, states, turns, l, i);
    if i > 0 {
      var f, t := states[i - 1], turns[i - 1];
      LawfulNode(codec, f, t, l);
      RunOk(codec, states, turns, l, i - 1);
      ReachIsApplied(codec, states, turns, l, i - 1, v);
      ReachKeepsUp(codec, f, t, l, v);
    } else {
      FreshReach(states[0], v);
    }
  }

  lemma FreshReach(f: Fleet, v: NodeId)
    requires Fresh(f) && v in f.drivers
    ensures f.reach[v] == f.drivers[v].node.lastApplied
  {
  }

  lemma SnapshotBelow(f: Fleet, l: Ledger, v: NodeId)
    requires FleetOk(f, l) && v in f.drivers
    ensures f.drivers[v].node.log.snapshotIndex <= f.drivers[v].node.lastApplied
  {
    assert DriverOk(f.drivers[v], f.reach[v], l);
  }

  /** A driver that never installed a snapshot holds the plain fold at all times. */
  lemma NeverRestoredIsExact(codec: CommandCodec, states: seq<Fleet>, turns: seq<Turn>, l: Ledger, i: nat, v: NodeId)
    requires LawfulRun(codec, states, turns, l) && i <= |turns| && v in states[i].drivers
    requires NeverRestored(states, turns, i, v)
    ensures states[i].drivers[v].node.lastApplied <= |l|
    ensures states[i].drivers[v].store == StateAt(l, states[i].drivers[v].node.lastApplied)
  {
    hide LawfulRun, NeverRestored, StateAt;
    FleetConverges(codec, states, turns, l, i, v);
    ReachIsApplied(codec, states, turns, l, i, v);
  }
}
