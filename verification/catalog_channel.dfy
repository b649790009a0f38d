/** The bounded channel that carries handshakes to the registry's single consumer (registry.rs).
  * Producers never wait: a message that meets a full channel is dropped. */
module CatalogChannel {
  import opened AgentAvailability
  import opened Registry
  import opened RegistryTheorems
  import opened Wrappers

  const CAPACITY: nat := 256

  datatype Message = Message(id: string, handshake: Handshake)

  datatype Event =
    | Offer(message: Message)   // send_partial
    | Consume                   // the consumer receives one message, if there is one, and applies it
    | Other(op: Op)             // any other operation on the registry

  datatype Pipeline = Pipeline(queue: seq<Message>, registry: State)

  function ApplyMessage(message: Message): Op {
    ApplyHandshake(message.id, message.handshake)
  }

  function Next(catalog: Catalog, st: Pipeline, event: Event): Pipeline {
    match event
    case Offer(message) => if |st.queue| < CAPACITY then st.(queue := st.queue + [message]) else st
    case Consume =>
      if st.queue == [] then st
      else Pipeline(st.queue[1..], Step(catalog, st.registry, ApplyMessage(st.queue[0])))
    case Other(op) => st.(registry := Step(catalog, st.registry, op))
  }

  function After(catalog: Catalog, stored: map<string, Row>, events: seq<Event>): Pipeline {
    if events == [] then Pipeline([], Booted(stored))
    else Next(catalog, After(catalog, stored, events[..|events| - 1]), events[|events| - 1])
  }

  /** The registry with its channel and consumer. */
  class CatalogSync {
    const registry: AgentRegistry
    var queue: seq<Message>

    ghost predicate Valid()
      reads this, registry
    {
      registry.Valid() && |queue| <= CAPACITY
    }

    ghost function View(): Pipeline
      reads this, registry
    {
      Pipeline(queue, registry.View())
    }

    constructor (stored: map<string, Row>, catalog: Catalog)
      ensures Valid() && fresh(registry) && registry.catalog == catalog && View() == After(catalog, stored, [])
    {
      registry := new AgentRegistry(stored, catalog);
      queue := [];
    }

    method SendPartial(message: Message)
      requires Valid()
      modifies this`queue
      ensures Valid() && View() == Next(registry.catalog, old(View()), Offer(message))
      ensures queue == if |old(queue)| < 256 then old(queue) + [message] else old(queue)
    {
      if |queue| < CAPACITY {
        queue := queue + [message];
      }
    }

    /** The consumer's loop, run until the channel is empty. */
    method Drain()
      requires Valid()
      modifies this`queue, registry
      ensures Valid() && View() == Drained(registry.catalog, old(View()))
      ensures queue == []
    {
      while queue != []
        invariant Valid()
        invariant Drained(registry.catalog, View()) == Drained(registry.catalog, old(View()))
        decreases |queue|
      {
        var message := queue[0];
        queue := queue[1..];
        registry.ApplyHandshakeInner(message.id, message.handshake);
      }
    }
  }

  function Drained(catalog: Catalog, st: Pipeline): Pipeline
    decreases |st.queue|
  {
    if st.queue == [] then st else Drained(catalog, Next(catalog, st, Consume))
  }

  // ---- Which messages are processed, told from the events alone ----

  /** Messages waiting, counted without looking at any queue. */
  function Backlog(events: seq<Event>): nat {
    if events == [] then 0
    else
      var backlog := Backlog(events[..|events| - 1]);
      match events[|events| - 1]
      case Offer(_) => if backlog < CAPACITY then backlog + 1 else backlog
      case Consume => if backlog == 0 then 0 else backlog - 1
      case Other(_) => backlog
  }

  /** The offered messages, less those offered at a backlog of 256. */
  function Accepted(events: seq<Event>): seq<Message> {
    if events == [] then []
    else
      var before, event := events[..|events| - 1], events[|events| - 1];
      Accepted(before) + if event.Offer? && Backlog(before) < CAPACITY then [event.message] else []
  }

  function Offered(events: seq<Event>): seq<Message> {
    if events == [] then []
    else
      var event := events[|events| - 1];
      Offered(events[..|events| - 1]) + if event.Offer? then [event.message] else []
  }

  function Processed(events: seq<Event>): nat {
    if events == [] then 0
    else
      var before, event := events[..|events| - 1], events[|events| - 1];
      Processed(before) + if event.Consume? && Backlog(before) > 0 then 1 else 0
  }

  /** The registry operations the events amount to. */
  function Ops(events: seq<Event>): seq<Op> {
    if events == [] then []
    else
      var before, event := events[..|events| - 1], events[|events| - 1];
      Ops(before) + match event
                    case Offer(_) => []
                    case Consume =>
                      if Processed(before) < |Accepted(before)|
                      then [ApplyMessage(Accepted(before)[Processed(before)])]
                      else []
                    case Other(op) => [op]
  }

  lemma {:induction false} AcceptedAreProcessedOrWaiting(events: seq<Event>)
    ensures |Accepted(events)| == Processed(events) + Backlog(events)
    ensures Backlog(events) <= 256
  {
    if events == [] {
    } else {
      AcceptedAreProcessedOrWaiting(events[..|events| - 1]);
    }
  }

  /** The accepted messages are processed in the order they were offered: some prefix has been, the
    * rest waits, and the registry is where that prefix and the other operations take it. */
  lemma {:induction false} ChannelIsFifo(catalog: Catalog, stored: map<string, Row>, events: seq<Event>)
    ensures Processed(events) <= |Accepted(events)|
    ensures After(catalog, stored, events).queue == Accepted(events)[Processed(events)..]
    ensures After(catalog, stored, events).registry == Run(catalog, stored, Ops(events))
  {
    AcceptedAreProcessedOrWaiting(events);
    if events == [] {
    } else {
      var before, event := events[..|events| - 1], events[|events| - 1];
      AcceptedAreProcessedOrWaiting(before);
      ChannelIsFifo(catalog, stored, before);
      var ops := Ops(before);
      match event {
        case Offer(_) =>
          assert Ops(events) == ops;
        case Consume =>
          if Backlog(before) > 0 {
            assert (ops + [ApplyMessage(Accepted(before)[Processed(before)])])[..|ops|] == ops;
          } else {
            assert Ops(events) == ops;
          }
        case Other(op) =>
          assert (ops + [op])[..|ops|] == ops;
      }
    }
  }

  /** No message is offered to a full channel. */
  predicate NeverFull(events: seq<Event>) {
    forall k: nat | k < |events| && events[k].Offer? :: Backlog(events[..k]) < 256
  }

  lemma NeverFullStep(events: seq<Event>)
    requires events != []
    ensures var before, event := events[..|events| - 1], events[|events| - 1];
            NeverFull(events) <==> NeverFull(before) && (event.Offer? ==> Backlog(before) < CAPACITY)
  {
    var n := |events| - 1;
    var before := events[..n];
    forall k: nat | k < n ensures events[..k] == before[..k] && events[k] == before[k] {}
    if !NeverFull(before) {
      var k: nat :| k < n && before[k].Offer? && Backlog(before[..k]) >= CAPACITY;
      assert events[k] == before[k];
    }
  }

  /** Only a full channel loses messages. */
  lemma {:induction false} NothingLostBelowCapacity(events: seq<Event>)
    ensures |Accepted(events)| <= |Offered(events)|
    ensures Accepted(events) == Offered(events) <==> NeverFull(events)
  {
    if events == [] {
    } else {
      var before, event := events[..|events| - 1], events[|events| - 1];
      NothingLostBelowCapacity(before);
      NeverFullStep(events);
      if event.Offer? && Backlog(before) < CAPACITY {
        assert Accepted(events)[..|Accepted(before)|] == Accepted(before);
        assert Offered(events)[..|Offered(before)|] == Offered(before);
        if Accepted(events) == Offered(events) {
          assert |Accepted(before)| == |Offered(before)|;
          assert Accepted(before) == Accepted(events)[..|Accepted(before)|] == Offered(before);
        }
      } else if event.Offer? {
        assert |Accepted(events)| < |Offered(events)|;
      } else {
        assert Accepted(events) == Accepted(before) && Offered(events) == Offered(before);
      }
    }
  }

  // ---- What the catalogue shows ----

  /** The last message for a row that carries the field. */
  function LatestSent(messages: seq<Message>, id: string, field: Field, initial: Option<Json>): Option<Json> {
    if messages == [] then initial
    else
      var message := messages[|messages| - 1];
      if message.id == id && Get(message.handshake, field).Some? then Get(message.handshake, field)
      else LatestSent(messages[..|messages| - 1], id, field, initial)
  }

  predicate OnlyChannelWrites(events: seq<Event>) {
    forall k | 0 <= k < |events| && events[k].Other? :: !events[k].op.ApplyHandshake? && !events[k].op.Save?
  }

  lemma LatestAppend(stored: map<string, Row>, ops: seq<Op>, op: Op, id: string, field: Field)
    requires !op.Save?
    ensures Latest(stored, ops + [op], id, field) ==
              if op.ApplyHandshake? && op.id == id && Get(op.snapshot, field).Some? then Get(op.snapshot, field)
              else Latest(stored, ops, id, field)
  {
    assert (ops + [op])[..|ops|] == ops;
  }

  lemma LatestSentAppend(messages: seq<Message>, n: nat, id: string, field: Field, initial: Option<Json>)
    requires n < |messages|
    ensures LatestSent(messages[..n + 1], id, field, initial) ==
              if messages[n].id == id && Get(messages[n].handshake, field).Some? then Get(messages[n].handshake, field)
              else LatestSent(messages[..n], id, field, initial)
  {
    assert messages[..n + 1][..n] == messages[..n];
  }

  lemma {:induction false} LatestComesFromMessages(stored: map<string, Row>, events: seq<Event>, id: string,
        field: Field)
    requires OnlyChannelWrites(events)
    ensures Processed(events) <= |Accepted(events)|
    ensures Latest(stored, Ops(events), id, field)
         == LatestSent(Accepted(events)[..Processed(events)], id, field, Latest(stored, [], id, field))
  {
    AcceptedAreProcessedOrWaiting(events);
    if events == [] {
    } else {
      var before, event := events[..|events| - 1], events[|events| - 1];
      AcceptedAreProcessedOrWaiting(before);
      LatestComesFromMessages(stored, before, id, field);
      var initial, n := Latest(stored, [], id, field), Processed(before);
      match event {
        case Offer(_) =>
          assert Accepted(events)[..n] == Accepted(before)[..n];
          assert Ops(events) == Ops(before);
        case Consume =>
          assert Accepted(events) == Accepted(before);
          if Backlog(before) > 0 {
            LatestAppend(stored, Ops(before), ApplyMessage(Accepted(before)[n]), id, field);
            LatestSentAppend(Accepted(before), n, id, field, initial);
          } else {
            assert Ops(events) == Ops(before);
          }
        case Other(op) =>
          assert Accepted(events) == Accepted(before);
          LatestAppend(stored, Ops(before), op, id, field);
      }
    }
  }

  /** Every stored row's capabilities, auth methods and commands are the latest sent for it among
    * the messages processed so far. */
  lemma CatalogueShowsLatestProcessed(
    catalog: Catalog, stored: map<string, Row>, events: seq<Event>, id: string, field: Field)
    requires OnlyChannelWrites(events)
    requires id in After(catalog, stored, events).registry.stored
    ensures Processed(events) <= |Accepted(events)|
    ensures Get(After(catalog, stored, events).registry.stored[id].handshake, field)
         == LatestSent(Accepted(events)[..Processed(events)], id, field, Latest(stored, [], id, field))
  {
    ChannelIsFifo(catalog, stored, events);
    StoredFieldIsLatest(catalog, stored, Ops(events), id, field);
    LatestComesFromMessages(stored, events, id, field);
  }
}
