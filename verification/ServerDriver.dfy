/** The driver of src/server.rs as an object that owns a node, an engine and the waiting clients. */
module ServerDrivers {
  import opened Basics
  import opened Messages
  import opened RaftNodes
  import opened Stores
  import opened Drivers

  /** The request with the election timeout the node actually drew. */
  function Drawn(r: Request, draw: nat): Request {
    if r.Ticked? || r.Peer? then r.(draw := draw) else r
  }

  class ServerDriver {
    const codec: CommandCodec
    const node: RaftNode
    const storage: MemoryEngine
    var waiters: Waiters
    /** What went out so far: messages to peers, and answers to clients. */
    var sent: seq<Envelope>
    var served: multiset<Waiter>
    var redirected: multiset<Waiter>
    /** Where the latest of the redirected was sent. */
    var hint: Option<NodeId>

    function State(): Driver
      reads this, node, node.log, node.progress, node.votes, storage
    {
      Driver(node.State(), storage.contents, waiters)
    }

    constructor (c: CommandCodec, n: RaftNode, s: MemoryEngine)
      ensures codec == c && node == n && storage == s
      ensures waiters == map[] && sent == [] && served == multiset{} && redirected == multiset{} && hint == None
    {
      codec, node, storage := c, n, s;
      waiters, sent, served, redirected, hint := map[], [], multiset{}, multiset{}, None;
    }

    method HandleRequest(r: Request)
      requires node.Valid()
      modifies this, node, node.log, node.progress, node.votes
      ensures var h := Handle(codec, old(State()), Drawn(r, node.electionTimeout));
              && State() == h.driver && redirected == old(redirected) + h.refused
              && hint == if h.refused == multiset{} then old(hint) else h.hint
      ensures sent == old(sent) && served == old(served)
    {
      hide Nodes.Tick, Nodes.Step, Nodes.Propose;
      match r {
        case Ticked(_) => node.Tick();
        case Peer(from, message, _) => node.Step(from, message);
        case Write(command, id) =>
          var w := Waiter(id, codec.encode(command));
          var p := node.Propose(w.command);
          match p {
            case Accepted(index) => waiters := waiters[index := WaitersAt(waiters, index) + [w]];
            case NotLeader(leader) => redirected, hint := redirected + multiset{w}, leader;
          }
        case Status =>
      }
    }

    /** Tell everybody who waits for `index` that the write is committed. */
    method Resolve(index: nat)
      modifies this
      ensures waiters == old(waiters) - {index}
      ensures served == old(served) + multiset(WaitersAt(old(waiters), index))
      ensures sent == old(sent) && redirected == old(redirected) && hint == old(hint)
    {
      if index in waiters {
        var clients := waiters[index];
        waiters := waiters - {index};
        ghost var before := served;
        var k := 0;
        while k < |clients|
          invariant k <= |clients| && served == before + multiset(clients[..k])
          invariant waiters == old(waiters) - {index} && sent == old(sent)
          invariant redirected == old(redirected) && hint == old(hint)
        {
          served := served + multiset{clients[k]};
          k := k + 1;
          assert clients[..k] == clients[..k - 1] + [clients[k - 1]];
        }
        assert clients[..k] == clients;
      }
    }

    /** Send the messages, with the current store in every snapshot. The engine lists an unchanged store
        in an unchanged order, so it is listed once. */
    method SendAll(messages: seq<Envelope>) returns (data: seq<KeyValue>)
      modifies this
      ensures Lists(data, storage.contents) && sent == old(sent) + FillAll(messages, data)
      ensures waiters == old(waiters) && served == old(served) && redirected == old(redirected) && hint == old(hint)
    {
      data := storage.Snapshot();
      var k := 0;
      while k < |messages|
        invariant k <= |messages| && sent == old(sent) + FillAll(messages, data)[..k]
        invariant waiters == old(waiters) && served == old(served) && redirected == old(redirected) && hint == old(hint)
      {
        sent := sent + [Envelope(messages[k].to, Filled(messages[k].message, data))];
        k := k + 1;
        assert FillAll(messages, data)[..k] == FillAll(messages, data)[..k - 1] + [FillAll(messages, data)[k - 1]];
      }
      assert FillAll(messages, data)[..k] == FillAll(messages, data);
    }

    /** Apply one committed item and answer whoever waits for it. */
    method Deliver(item: Committed)
      modifies this, storage
      ensures var v := DeliverOne(codec, Delivery(old(storage.contents), old(waiters), old(served)), item);
              storage.contents == v.store && waiters == v.waiters && served == v.served
      ensures sent == old(sent) && redirected == old(redirected) && hint == old(hint)
    {
      hide Apply, FromPairs;
      match item {
        case Command(index, command) =>
          var c := codec.decode(command);
          if c.Some? {
            var reply := storage.ApplyCommand(c.value);
          }
          Resolve(index);
        case Snapshot(data) => storage.Restore(data);
      }
    }

    /** Apply the committed items in order. */
    method ApplyAll(items: seq<Committed>)
      modifies this, storage
      ensures var v := DeliverAll(codec, old(storage.contents), old(waiters), items);
              storage.contents == v.store && waiters == v.waiters && served == old(served) + v.served
      ensures sent == old(sent) && redirected == old(redirected) && hint == old(hint)
    {
      hide Effect, FromPairs;
      ghost var s, ws := storage.contents, waiters;
      var k := 0;
      while k < |items|
        invariant k <= |items|
        invariant var v := DeliverAll(codec, s, ws, items[..k]);
                  storage.contents == v.store && waiters == v.waiters && served == old(served) + v.served
        invariant sent == old(sent) && redirected == old(redirected) && hint == old(hint)
      {
        Deliver(items[k]);
        k := k + 1;
        assert items[..k][..k - 1] == items[..k - 1];
      }
      assert items[..k] == items;
    }

    /** Nobody may wait on a node that does not lead: all are sent to the leader it names. */
    method Dismiss()
      modifies this
      ensures waiters == map[] && redirected == old(redirected) + Pending(old(waiters))
      ensures hint == if Pending(old(waiters)) == multiset{} then old(hint) else node.leaderId
      ensures sent == old(sent) && served == old(served)
    {
      hide Pending;
      NobodyPending();
      var leader := node.leaderId;
      ghost var gone: multiset<Waiter> := multiset{};
      while waiters != map[]
        invariant redirected == old(redirected) + gone && gone + Pending(waiters) == Pending(old(waiters))
        invariant hint == if gone == multiset{} then old(hint) else leader
        invariant sent == old(sent) && served == old(served)
        decreases |waiters|
      {
        var i :| i in waiters;
        PendingRemove(waiters, i);
        MapShrinks(waiters, i);
        OneGone(old(redirected), gone, waiters[i], Pending(waiters - {i}));
        gone := gone + multiset(waiters[i]);
        redirected := redirected + multiset(waiters[i]);
        hint := if waiters[i] == [] then hint else leader;
        waiters := waiters - {i};
      }
    }

    method ProcessReady() returns (ghost data: seq<KeyValue>)
      modifies this, node, node.log, storage
      ensures Lists(data, old(storage.contents))
      ensures var p := Drivers.ProcessReady(codec, old(State()), data);
              && State() == p.driver && sent == old(sent) + p.sent
              && served == old(served) + p.served && redirected == old(redirected) + p.redirected
              && hint == if p.redirected == multiset{} then old(hint) else p.hint
      ensures node.electionTimeout == old(node.electionTimeout)
    {
      hide Nodes.TakeReady, DeliverAll, FillAll, Lists, Pending;
      var ready := node.TakeReady();
      data := SendAll(ready.messages);
      ApplyAll(ready.committed);
      if !node.role.Leader? {
        Dismiss();
      }
    }

    /** One event, then drain. */
    method Iterate(r: Request) returns (ghost data: seq<KeyValue>)
      requires node.Valid()
      modifies this, node, node.log, node.progress, node.votes, storage
      ensures Lists(data, old(storage.contents))
      ensures var p := Drivers.Iterate(codec, old(State()), Drawn(r, node.electionTimeout), data);
              && State() == p.driver && sent == old(sent) + p.sent
              && served == old(served) + p.served && redirected == old(redirected) + p.redirected
              && hint == if p.redirected == multiset{} then old(hint) else p.hint
    {
      hide Handle, Drivers.ProcessReady, Lists, Drawn;
      HandleRequest(r);
      assert storage.contents == old(storage.contents);
      ghost var h := State();
      data := ProcessReady();
      ProcessTold(codec, h, data);
      RefusedTold(codec, old(State()), Drawn(r, node.electionTimeout));
    }
  }

  lemma OneGone(before: multiset<Waiter>, gone: multiset<Waiter>, clients: seq<Waiter>, rest: multiset<Waiter>)
    ensures before + gone + multiset(clients) == before + (gone + multiset(clients))
    ensures gone + (multiset(clients) + rest) == (gone + multiset(clients)) + rest
    ensures gone + multiset(clients) == multiset{} <==> gone == multiset{} && clients == []
  {
    if clients != [] {
      assert clients[0] in multiset(clients);
    }
  }

  lemma NobodyPending()
    ensures Pending(map[]) == multiset{}
  {
  }
}
