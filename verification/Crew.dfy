/**
 * Whole drivers instead of bare nodes: each takes a request, drains, and hands
 * what it sends to the network. Every run of such a crew is a run of the cluster,
 * so the safety theorems hold of the drivers and of their stores.
 */
module Crews {
  import opened Basics
  import opened Messages
  import opened Nodes
  import opened Stores
  import opened Drivers
  import opened Clusters
  import opened Replicas
  import Shipping
  import Theorems
  import Voting

  /** The drivers, everything ever sent, and what each node has handed to its driver so far. */
  datatype Crew = Crew(drivers: map<NodeId, Driver>, net: set<Packet>, delivered: map<NodeId, seq<Committed>>)

  /** Driver `node` handles `request`; `data` lists its store. */
  datatype Turn = Turn(node: NodeId, request: Request, data: seq<KeyValue>)

  /** What a driver hands to the network: each envelope goes to the peer it is addressed to. */
  function Mailed(v: NodeId, sent: seq<Envelope>): set<Packet> {
    set e | e in sent :: Packet(v, e.to, e.message)
  }

  /** A request from a peer comes out of the network, addressed to this driver. */
  predicate Able(f: Crew, t: Turn) {
    && t.node in f.drivers && t.node in f.delivered
    && (t.request.Ticked? || t.request.Peer? ==> DrawOk(f.drivers[t.node].node, t.request.draw))
    && (t.request.Peer? ==> Packet(t.request.from, t.node, t.request.message) in f.net)
  }

  ghost function AfterTurn(codec: CommandCodec, f: Crew, t: Turn): Crew
    requires Able(f, t)
  {
    var d := f.drivers[t.node];
    var p := Iterate(codec, d, t.request, t.data);
    var items := TakeReady(Handle(codec, d, t.request).driver.node).1.committed;
    Crew(f.drivers[t.node := p.driver], f.net + Mailed(t.node, p.sent),
         f.delivered[t.node := f.delivered[t.node] + items])
  }

  predicate Assembled(f: Crew) {
    && f.net == {} && f.delivered.Keys == f.drivers.Keys
    && forall v :: v in f.drivers ==>
         var d := f.drivers[v];
         && f.delivered[v] == [] && d == NewDriver(v, d.node.peers, d.node.config, d.node.electionTimeout)
         && Elements(d.node.peers) == f.drivers.Keys - {v} && Distinct(d.node.peers)
  }

  ghost predicate CrewRun(codec: CommandCodec, states: seq<Crew>, turns: seq<Turn>) {
    && |states| == |turns| + 1 && Assembled(states[0])
    && forall i :: 0 <= i < |turns| ==>
         Able(states[i], turns[i]) && states[i + 1] == AfterTurn(codec, states[i], turns[i])
  }

  // ---- What a round sends, and to whom -------------------------------------

  /** A round sends what its node queued, message by message in queue order, each to its own addressee
      and unchanged but for the store that goes into a snapshot. */
  lemma SentInOrder(codec: CommandCodec, d: Driver, r: Request, data: seq<KeyValue>)
    ensures var sent, queued := Iterate(codec, d, r, data).sent, Handle(codec, d, r).driver.node.outgoing;
            && |sent| == |queued|
            && forall k :: 0 <= k < |sent| ==>
                 var was, now := queued[k].message, sent[k].message;
                 && sent[k].to == queued[k].to
                 && (if was.InstallSnapshot? then
                       && now.InstallSnapshot? && now.data == data && now.(data := was.data) == was
                     else now == was)
  {
    hide Handle, TakeReady, DeliverAll, Pending;
    var h := Handle(codec, d, r).driver;
    DrainSends(h.node);
    assert Iterate(codec, d, r, data).sent == FillAll(h.node.outgoing, data);
  }

  /** The packets of a round are exactly those the cluster posts. */
  lemma MailedIsPosted(v: NodeId, out: seq<Envelope>, data: seq<KeyValue>)
    ensures Mailed(v, FillAll(out, data)) == Posted(v, out, data)
  {
    var sent := FillAll(out, data);
    forall p | p in Posted(v, out, data) ensures p in Mailed(v, sent) {
      var e :| e in out && p == Packet(v, e.to, Filled(e.message, data));
      var k :| 0 <= k < |out| && out[k] == e;
      assert sent[k] == Envelope(e.to, Filled(e.message, data));
    }
    forall p | p in Mailed(v, sent) ensures p in Posted(v, out, data) {
      var e :| e in sent && p == Packet(v, e.to, e.message);
      var k :| 0 <= k < |sent| && sent[k] == e;
      assert out[k] in out;
    }
  }

  // ---- A turn is one event and a drain -------------------------------------

  /** The cluster the drivers make up. */
  function View(f: Crew): Cluster {
    Cluster(map v | v in f.drivers :: f.drivers[v].node, f.net, f.delivered)
  }

  /** What the request is to the cluster; a question about the status is nothing. */
  function Deed(codec: CommandCodec, t: Turn): Option<Event> {
    match t.request
    case Ticked(draw) => Some(Ticks(t.node, draw))
    case Peer(from, m, draw) => Some(Delivers(Packet(from, t.node, m), draw))
    case Write(c, _) => Some(Proposes(t.node, codec.encode(c)))
    case Status => None
  }

  /** The crew between the event and the drain. */
  function Halfway(codec: CommandCodec, f: Crew, t: Turn): Crew
    requires Able(f, t)
  {
    f.(drivers := f.drivers[t.node := Handle(codec, f.drivers[t.node], t.request).driver])
  }

  lemma ViewSet(f: Crew, v: NodeId, d: Driver)
    ensures View(f.(drivers := f.drivers[v := d])).nodes == View(f).nodes[v := d.node]
  {
  }

  lemma HandleActs(codec: CommandCodec, d: Driver, t: Turn)
    ensures var h, e := Handle(codec, d, t.request).driver, Deed(codec, t);
            h.node == (if e.Some? then Acted(d.node, e.value) else d.node) && h.store == d.store
  {
    hide Tick, Step, Propose;
  }

  lemma DeedEnabled(codec: CommandCodec, f: Crew, t: Turn)
    requires Able(f, t) && Deed(codec, t).Some?
    ensures var e := Deed(codec, t).value; Enabled(View(f), e) && Actor(e) == t.node && !e.Drains?
  {
  }

  /** The request acts on the cluster as its event does. */
  lemma RequestIsEvent(codec: CommandCodec, f: Crew, t: Turn)
    requires Able(f, t)
    ensures var e, g := Deed(codec, t), View(Halfway(codec, f, t));
            if e.Some? then Enabled(View(f), e.value) && g == After(View(f), e.value) else g == View(f)
  {
    hide Handle, Acted, Deed;
    var d := f.drivers[t.node];
    ViewSet(f, t.node, Handle(codec, d, t.request).driver);
    HandleActs(codec, d, t);
    if Deed(codec, t).Some? {
      DeedEnabled(codec, f, t);
    } else {
      assert View(f).nodes[t.node := d.node] == View(f).nodes;
    }
  }

  lemma ProcessDrains(codec: CommandCodec, h: Driver, data: seq<KeyValue>)
    ensures var p := ProcessReady(codec, h, data);
            && p.driver.node == TakeReady(h.node).0
            && p.sent == FillAll(TakeReady(h.node).1.messages, data)
            && p.driver.store == DeliverAll(codec, h.store, h.waiters, TakeReady(h.node).1.committed).store
  {
    hide TakeReady, DeliverAll, FillAll, Pending;
  }

  /** The rest of the turn is a drain. */
  lemma RestIsDrain(codec: CommandCodec, f: Crew, t: Turn)
    requires Able(f, t)
    ensures var g, e := View(Halfway(codec, f, t)), Drains(t.node, t.data);
            Enabled(g, e) && View(AfterTurn(codec, f, t)) == After(g, e)
  {
    hide Handle, TakeReady, ProcessReady, FillAll, Posted, Mailed;
    var d := f.drivers[t.node];
    var h := Handle(codec, d, t.request).driver;
    ProcessDrains(codec, h, t.data);
    var p := Iterate(codec, d, t.request, t.data);
    ViewSet(f, t.node, h);
    ViewSet(f, t.node, p.driver);
    MailedIsPosted(t.node, TakeReady(h.node).1.messages, t.data);
    var g := View(Halfway(codec, f, t));
    assert g.nodes[t.node] == h.node;
    assert View(f).nodes[t.node := p.driver.node] == g.nodes[t.node := p.driver.node];
  }

  // ---- The run of the cluster ----------------------------------------------

  /** The cluster states a turn passes through, and the events that lead there. */
  ghost function Passed(codec: CommandCodec, f: Crew, t: Turn): Run
    requires Able(f, t)
  {
    var end, drain := View(AfterTurn(codec, f, t)), Drains(t.node, t.data);
    match Deed(codec, t)
    case Some(e) => Run([View(Halfway(codec, f, t)), end], [e, drain])
    case None => Run([end], [drain])
  }

  /** The cluster's account of the first `i` turns. */
  ghost function Account(codec: CommandCodec, states: seq<Crew>, turns: seq<Turn>, i: nat): Run
    requires CrewRun(codec, states, turns) && i <= |turns|
  {
    if i == 0 then Run([View(states[0])], [])
    else
      var r, p := Account(codec, states, turns, i - 1), Passed(codec, states[i - 1], turns[i - 1]);
      Run(r.states + p.states, r.events + p.events)
  }

  /** `r` is a run of the cluster that ends in `c`. */
  predicate EndsIn(r: Run, c: Cluster) {
    IsRun(r) && r.states[|r.events|] == c
  }

  lemma OneMore(r: Run, c: Cluster, e: Event)
    requires EndsIn(r, c) && Enabled(c, e)
    ensures EndsIn(Run(r.states + [After(c, e)], r.events + [e]), After(c, e))
  {
    hide Enabled, After, Initial;
    var q := Run(r.states + [After(c, e)], r.events + [e]);
    forall i | 0 <= i < |q.events|
      ensures Enabled(q.states[i], q.events[i]) && q.states[i + 1] == After(q.states[i], q.events[i])
    {
      if i < |r.events| {
        assert q.states[i] == r.states[i] && q.events[i] == r.events[i] && q.states[i + 1] == r.states[i + 1];
      }
    }
  }

  lemma TurnExtends(codec: CommandCodec, f: Crew, t: Turn, r: Run)
    requires Able(f, t) && EndsIn(r, View(f))
    ensures var p := Passed(codec, f, t);
            EndsIn(Run(r.states + p.states, r.events + p.events), View(AfterTurn(codec, f, t)))
  {
    hide Able, AfterTurn, View, Halfway, Deed, Enabled, After, EndsIn;
    var end, drain, g := View(AfterTurn(codec, f, t)), Drains(t.node, t.data), View(Halfway(codec, f, t));
    RequestIsEvent(codec, f, t);
    RestIsDrain(codec, f, t);
    match Deed(codec, t)
    case Some(e) =>
      OneMore(r, View(f), e);
      OneMore(Run(r.states + [g], r.events + [e]), g, drain);
      assert r.states + [g] + [end] == r.states + [g, end] && r.events + [e] + [drain] == r.events + [e, drain];
    case None =>
      OneMore(r, View(f), drain);
  }

  lemma AssembledInitial(f: Crew)
    requires Assembled(f)
    ensures Initial(View(f))
  {
    assert View(f).nodes.Keys == f.drivers.Keys;
  }

  lemma {:induction false} AccountIsRun(codec: CommandCodec, states: seq<Crew>, turns: seq<Turn>, i: nat)
    requires CrewRun(codec, states, turns) && i <= |turns|
    ensures EndsIn(Account(codec, states, turns, i), View(states[i]))
  {
    hide Assembled, Initial, Able, AfterTurn, View, Passed, Enabled, After;
    if i == 0 {
      AssembledInitial(states[0]);
    } else {
      hide EndsIn;
      AccountIsRun(codec, states, turns, i - 1);
      TurnExtends(codec, states[i - 1], turns[i - 1], Account(codec, states, turns, i - 1));
    }
  }

  lemma {:induction false} AccountGrows(codec: CommandCodec, states: seq<Crew>, turns: seq<Turn>, i: nat, j: nat)
    requires CrewRun(codec, states, turns) && i <= j <= |turns|
    ensures Account(codec, states, turns, i).states <= Account(codec, states, turns, j).states
    ensures Account(codec, states, turns, i).events <= Account(codec, states, turns, j).events
    decreases j
  {
    hide CrewRun, Passed;
    if i < j {
      AccountGrows(codec, states, turns, i, j - 1);
    }
  }

  /** When, in events of the cluster, the first `i` turns are over. */
  ghost function Moment(codec: CommandCodec, states: seq<Crew>, turns: seq<Turn>, i: nat): nat
    requires CrewRun(codec, states, turns) && i <= |turns|
  {
    |Account(codec, states, turns, i).events|
  }

  /** The drivers are a cluster: the account of every run of a crew is a run of the cluster, in which the
      moments between turns appear, in order, as exactly the nodes and packets of the drivers. */
  lemma CrewIsCluster(codec: CommandCodec, states: seq<Crew>, turns: seq<Turn>, i: nat, j: nat)
    requires CrewRun(codec, states, turns) && i <= j <= |turns|
    ensures var r, m, n := Account(codec, states, turns, |turns|), Moment(codec, states, turns, i),
                           Moment(codec, states, turns, j);
            IsRun(r) && m <= n < |r.states| && r.states[m] == View(states[i]) && r.states[n] == View(states[j])
  {
    hide CrewRun, Account, View, Initial, Enabled, After;
    AccountIsRun(codec, states, turns, i);
    AccountIsRun(codec, states, turns, j);
    AccountIsRun(codec, states, turns, |turns|);
    AccountGrows(codec, states, turns, i, j);
    AccountGrows(codec, states, turns, i, |turns|);
    AccountGrows(codec, states, turns, j, |turns|);
  }

  // ---- Sound runs ----------------------------------------------------------

  /** A message a driver is handed meets what the safety theorems ask. */
  predicate SoundTurn(f: Crew, t: Turn) {
    && Able(f, t)
    && (t.request.Peer? ==>
          SoundStep(View(f), Delivers(Packet(t.request.from, t.node, t.request.message), t.request.draw)))
  }

  ghost predicate SoundCrewRun(codec: CommandCodec, states: seq<Crew>, turns: seq<Turn>) {
    CrewRun(codec, states, turns) && forall i :: 0 <= i < |turns| ==> SoundTurn(states[i], turns[i])
  }

  lemma QuietStep(c: Cluster, e: Event)
    requires Enabled(c, e) && !e.Delivers?
    ensures SoundStep(c, e)
  {
  }

  lemma DeedSound(codec: CommandCodec, f: Crew, t: Turn)
    requires SoundTurn(f, t) && Deed(codec, t).Some?
    ensures SoundStep(View(f), Deed(codec, t).value)
  {
    hide View, SoundStep, After;
    DeedEnabled(codec, f, t);
    if !t.request.Peer? {
      QuietStep(View(f), Deed(codec, t).value);
    }
  }

  /** `r` is a sound run of the cluster that ends in `c`. */
  predicate SoundlyIn(r: Run, c: Cluster) {
    SoundRun(r) && r.states[|r.events|] == c
  }

  lemma OneMoreSound(r: Run, c: Cluster, e: Event)
    requires SoundlyIn(r, c) && SoundStep(c, e) && Enabled(c, e)
    ensures SoundlyIn(Run(r.states + [After(c, e)], r.events + [e]), After(c, e))
  {
    hide Enabled, After, Initial, SoundStep;
    OneMore(r, c, e);
    var q := Run(r.states + [After(c, e)], r.events + [e]);
    forall i | 0 <= i < |q.events| ensures SoundStep(q.states[i], q.events[i]) {
      if i < |r.events| {
        assert q.states[i] == r.states[i] && q.events[i] == r.events[i];
      }
    }
  }

  lemma SoundTurnExtends(codec: CommandCodec, f: Crew, t: Turn, r: Run)
    requires SoundTurn(f, t) && SoundlyIn(r, View(f))
    ensures var p := Passed(codec, f, t);
            SoundlyIn(Run(r.states + p.states, r.events + p.events), View(AfterTurn(codec, f, t)))
  {
    hide Able, AfterTurn, View, Halfway, Deed, Enabled, After, SoundlyIn, SoundStep;
    var end, drain, g := View(AfterTurn(codec, f, t)), Drains(t.node, t.data), View(Halfway(codec, f, t));
    RequestIsEvent(codec, f, t);
    RestIsDrain(codec, f, t);
    QuietStep(g, drain);
    match Deed(codec, t)
    case Some(e) =>
      DeedSound(codec, f, t);
      OneMoreSound(r, View(f), e);
      OneMoreSound(Run(r.states + [g], r.events + [e]), g, drain);
      assert r.states + [g] + [end] == r.states + [g, end] && r.events + [e] + [drain] == r.events + [e, drain];
    case None =>
      OneMoreSound(r, View(f), drain);
  }

  lemma {:induction false} AccountIsSound(codec: CommandCodec, states: seq<Crew>, turns: seq<Turn>, i: nat)
    requires SoundCrewRun(codec, states, turns) && i <= |turns|
    ensures SoundlyIn(Account(codec, states, turns, i), View(states[i]))
  {
    hide Assembled, Initial, SoundTurn, AfterTurn, View, Passed, SoundStep, Enabled, After;
    if i == 0 {
      AssembledInitial(states[0]);
    } else {
      hide SoundlyIn;
      AccountIsSound(codec, states, turns, i - 1);
      TurnIsAble(states[i - 1], turns[i - 1]);
      SoundTurnExtends(codec, states[i - 1], turns[i - 1], Account(codec, states, turns, i - 1));
    }
  }

  lemma TurnIsAble(f: Crew, t: Turn)
    requires SoundTurn(f, t)
    ensures Able(f, t)
  {
  }

  // ---- Safety of the drivers -----------------------------------------------

  /** In every sound run of a crew, what one driver has been handed to apply is a prefix of what another
      has, or the other way round, at whatever moments. */
  lemma CrewSafety(codec: CommandCodec, states: seq<Crew>, turns: seq<Turn>, i: nat, j: nat, u: NodeId, v: NodeId)
    requires SoundCrewRun(codec, states, turns) && i <= j <= |turns|
    requires u in states[i].drivers && v in states[j].drivers
    ensures u in states[i].delivered && v in states[j].delivered
    ensures var a, b := states[i].delivered[u], states[j].delivered[v]; a <= b || b <= a
  {
    hide CrewRun, SoundTurn, Account, SoundRun;
    AccountIsSound(codec, states, turns, |turns|);
    CrewIsCluster(codec, states, turns, i, j);
    Theorems.StateMachineSafety(Account(codec, states, turns, |turns|), Moment(codec, states, turns, i),
                                Moment(codec, states, turns, j), u, v);
  }

  /** Two drivers that lead in one term, at whatever moments of a sound run, are the same driver. */
  lemma CrewElectsOne(codec: CommandCodec, states: seq<Crew>, turns: seq<Turn>, i: nat, j: nat, u: NodeId, v: NodeId)
    requires SoundCrewRun(codec, states, turns) && i <= j <= |turns|
    requires u in states[i].drivers && v in states[j].drivers
    requires states[i].drivers[u].node.role.Leader? && states[j].drivers[v].node.role.Leader?
    requires states[i].drivers[u].node.currentTerm == states[j].drivers[v].node.currentTerm
    ensures u == v
  {
    hide CrewRun, SoundTurn, Account, IsRun, VoteStable, AckSound, SnapshotFree;
    AccountIsSound(codec, states, turns, |turns|);
    CrewIsCluster(codec, states, turns, i, j);
    Voting.ElectionSafety(Account(codec, states, turns, |turns|), Moment(codec, states, turns, i),
                          Moment(codec, states, turns, j), u, v);
  }

  // ---- The stores ----------------------------------------------------------

  /** Every driver's store is the fold of what it was handed. */
  predicate StoresOk(codec: CommandCodec, f: Crew) {
    && f.delivered.Keys == f.drivers.Keys
    && forall v :: v in f.drivers ==> f.drivers[v].store == StoreAfter(codec, f.delivered[v])
  }

  /** Who waits has no influence on the store. */
  lemma {:induction false} WaitersDoNotMatter(codec: CommandCodec, s: Store, a: Waiters, b: Waiters,
                                              items: seq<Committed>)
    ensures DeliverAll(codec, s, a, items).store == DeliverAll(codec, s, b, items).store
    decreases |items|
  {
    if items != [] {
      WaitersDoNotMatter(codec, s, a, b, items[..|items| - 1]);
    }
  }

  lemma TurnStores(codec: CommandCodec, f: Crew, t: Turn)
    requires Able(f, t) && StoresOk(codec, f)
    ensures StoresOk(codec, AfterTurn(codec, f, t))
  {
    hide Handle, TakeReady, ProcessReady, DeliverAll, Mailed;
    var d := f.drivers[t.node];
    var h := Handle(codec, d, t.request).driver;
    var items := TakeReady(h.node).1.committed;
    HandleActs(codec, d, t);
    ProcessDrains(codec, h, t.data);
    Shipping.DeliverSplit(codec, map[], map[], f.delivered[t.node], items);
    WaitersDoNotMatter(codec, d.store, map[], h.waiters, items);
  }

  lemma AssembledStores(codec: CommandCodec, f: Crew)
    requires Assembled(f)
    ensures StoresOk(codec, f)
  {
    hide NewNode;
  }

  lemma {:induction false} CrewStores(codec: CommandCodec, states: seq<Crew>, turns: seq<Turn>, i: nat)
    requires CrewRun(codec, states, turns) && i <= |turns|
    ensures StoresOk(codec, states[i])
  {
    hide Assembled, StoresOk, Able, AfterTurn;
    if i == 0 {
      AssembledStores(codec, states[0]);
    } else {
      CrewStores(codec, states, turns, i - 1);
      TurnStores(codec, states[i - 1], turns[i - 1]);
    }
  }

  /** Drivers that have applied equally far hold the same store, at whatever moments of a sound run. */
  lemma CrewAgrees(codec: CommandCodec, states: seq<Crew>, turns: seq<Turn>, i: nat, j: nat, u: NodeId, v: NodeId)
    requires SoundCrewRun(codec, states, turns) && i <= j <= |turns|
    requires u in states[i].drivers && v in states[j].drivers
    requires states[i].drivers[u].node.lastApplied == states[j].drivers[v].node.lastApplied
    ensures states[i].drivers[u].store == states[j].drivers[v].store
  {
    hide CrewRun, SoundTurn, Account, SoundRun, StoreAfter;
    AccountIsSound(codec, states, turns, |turns|);
    CrewIsCluster(codec, states, turns, i, j);
    CrewStores(codec, states, turns, i);
    CrewStores(codec, states, turns, j);
    ReplicasAgree(codec, Account(codec, states, turns, |turns|), Moment(codec, states, turns, i),
                  Moment(codec, states, turns, j), u, v);
  }
}
