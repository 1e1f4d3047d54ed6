/** The event transport: a client that owns one producer and one consumer
    session, publishes envelopes to per-topic logs keyed by event id, and
    feeds every message of a subscribed topic to a handler, isolating each
    message's failure. The broker's per-topic logs are state of the client;
    the broker's own answers (connect, send, disconnect) are parameters. */
module Transport {
  import opened Outcomes
  import opened Envelope
  import opened KafkaConfig

  /** A record's value as text: either the serialised form of an envelope or
      text that does not parse as one. Serialisation itself is not modelled. */
  datatype Wire<T> = Serialized(message: KafkaMessage<T>) | Unparsable(text: string)

  /** `JSON.stringify` of an envelope. */
  function Serialize<T>(m: KafkaMessage<T>): Wire<T>
  {
    Serialized(m)
  }

  /** `JSON.parse` of a record's value. */
  function Parse<T>(w: Wire<T>): (r: Result<KafkaMessage<T>, string>)
    ensures r.Ok? <==> w.Serialized?
  {
    match w
    case Serialized(m) => Ok(m)
    case Unparsable(_) => Err("Unexpected token")
  }

  /** Parsing gives back exactly the envelope that was serialised. */
  lemma ParseSerialize<T>(m: KafkaMessage<T>)
    ensures Parse(Serialize(m)) == Ok(m)
  {
  }

  /** One record of a topic: a key, a value that may be null, a timestamp. */
  datatype Record<T> = Record(key: string, value: Option<Wire<T>>, timestamp: int)

  /** The record `publishEvent` sends for an envelope. */
  function MessageOf<T>(event: KafkaMessage<T>, now: int): (r: Record<T>)
    ensures r.key == event.eventId && r.timestamp == now
    ensures r.value.Some? && Parse(r.value.value) == Ok(event)
  {
    Record(event.eventId, Some(Serialize(event)), now)
  }

  /** What processing one message came to; none of them stops the loop. */
  datatype MessageOutcome = Skipped | Handled | HandlerFailed | ParseFailed

  /** The body of the per-message callback: a null value is skipped, a value
      that does not parse is logged, otherwise the handler runs once and its
      failure is logged. `handler` says whether the handler completed. */
  function OutcomeOf<T>(r: Record<T>, handler: KafkaMessage<T> -> bool): (o: MessageOutcome)
    ensures o == Skipped <==> r.value.None?
    ensures o == ParseFailed <==> r.value.Some? && Parse(r.value.value).Err?
    ensures r.value.Some? && Parse(r.value.value).Ok? ==> (o == Handled <==> handler(Parse(r.value.value).value))
    ensures r.value.Some? && Parse(r.value.value).Ok? ==> (o == HandlerFailed <==> !handler(Parse(r.value.value).value))
  {
    match r.value
    case None => Skipped
    case Some(w) =>
      match Parse(w)
      case Err(_) => ParseFailed
      case Ok(m) => if handler(m) then Handled else HandlerFailed
  }

  /** The envelopes the handler is called with, in log order: one for every
      record whose value is present and parses. */
  function Deliverable<T>(log: seq<Record<T>>): (ms: seq<KafkaMessage<T>>)
    ensures |ms| <= |log|
  {
    if |log| == 0 then []
    else
      var last := log[|log| - 1];
      Deliverable(log[..|log| - 1])
      + (if last.value.Some? && Parse(last.value.value).Ok? then [Parse(last.value.value).value] else [])
  }

  /** Delivery distributes over concatenated logs: what one message does never
      affects whether another is delivered. */
  lemma {:induction false} DeliverableAppend<T>(a: seq<Record<T>>, b: seq<Record<T>>)
    ensures Deliverable(a + b) == Deliverable(a) + Deliverable(b)
    decreases |b|
  {
    if |b| == 0 {
      assert a + b == a;
    } else {
      DeliverableAppend(a, b[..|b| - 1]);
      assert (a + b)[..|a + b| - 1] == a + b[..|b| - 1];
    }
  }

  /** Publishing an envelope makes it the next envelope a subscriber that
      reads the topic receives. */
  lemma PublishedIsDelivered<T>(log: seq<Record<T>>, event: KafkaMessage<T>, now: int)
    ensures Deliverable(log + [MessageOf(event, now)]) == Deliverable(log) + [event]
  {
    DeliverableAppend(log, [MessageOf(event, now)]);
    assert [MessageOf(event, now)][..0] == [];
  }

  /** A null or unparsable record is passed over without disturbing the
      messages around it; there is no retry and no dead-letter topic. */
  lemma BadRecordIsPassedOver<T>(before: seq<Record<T>>, bad: Record<T>, after: seq<Record<T>>)
    requires bad.value.None? || Parse(bad.value.value).Err?
    ensures Deliverable(before + [bad] + after) == Deliverable(before) + Deliverable(after)
  {
    assert Deliverable([bad]) == [] by {
      assert [bad][..0] == [];
    }
    DeliverableAppend(before, [bad]);
    DeliverableAppend(before + [bad], after);
  }

  /** The consumer's run loop over a topic read from its first offset: every
      record goes through the callback body, whatever earlier ones did. */
  method RunEachMessage<T>(log: seq<Record<T>>, handler: KafkaMessage<T> -> bool)
    returns (delivered: seq<KafkaMessage<T>>, outcomes: seq<MessageOutcome>)
    ensures delivered == Deliverable(log)
    ensures |outcomes| == |log|
    ensures forall i :: 0 <= i < |log| ==> outcomes[i] == OutcomeOf(log[i], handler)
  {
    delivered, outcomes := [], [];
    var i := 0;
    while i < |log|
      invariant 0 <= i <= |log|
      invariant delivered == Deliverable(log[..i])
      invariant |outcomes| == i
      invariant forall j :: 0 <= j < i ==> outcomes[j] == OutcomeOf(log[j], handler)
    {
      var record := log[i];
      assert log[..i + 1][..i] == log[..i];
      if record.value.Some? {
        var parsed := Parse(record.value.value);
        if parsed.Ok? {
          delivered := delivered + [parsed.value];
        }
      }
      outcomes := outcomes + [OutcomeOf(record, handler)];
      i := i + 1;
    }
    assert log[..i] == log;
  }

  /** The connect and disconnect calls the client issues. */
  datatype SessionCall = ConnectProducer | ConnectConsumer | DisconnectProducer | DisconnectConsumer

  const ConnectFailed := "Connection error"

  /** The transport client. */
  class KafkaService<T> {
    const config: Config
    /** Whether the producer and consumer objects exist (set up at init). */
    var created: bool
    var producerConnected: bool
    var consumerConnected: bool
    /** The session calls issued so far, in order. */
    var calls: seq<SessionCall>
    /** Whether the consumer's run loop has been started by a subscription. */
    var running: bool
    /** The broker's per-topic logs. */
    var topics: map<string, seq<Record<T>>>

    constructor (config: Config, topics: map<string, seq<Record<T>>>)
      ensures this.config == config && this.topics == topics
      ensures !created && !producerConnected && !consumerConnected && !running && calls == []
    {
      this.config := config;
      this.topics := topics;
      created, producerConnected, consumerConnected, running := false, false, false, false;
      calls := [];
    }

    /** The log of a topic; a topic never written to is empty. */
    function Log(topic: string): seq<Record<T>>
      reads this
    {
      if topic in topics then topics[topic] else []
    }

    /** `onModuleInit`: create both clients afresh, then connect the producer
        and only after it the consumer. A failed connect is not caught: it
        fails the start-up and leaves the consumer unconnected. */
    method OnModuleInit(producerConnects: bool, consumerConnects: bool) returns (r: Result<(), string>)
      modifies this
      ensures created && !running && topics == old(topics)
      ensures producerConnects ==> calls == old(calls) + [ConnectProducer, ConnectConsumer]
      ensures !producerConnects ==> calls == old(calls) + [ConnectProducer]
      ensures producerConnected == producerConnects
      ensures consumerConnected == (producerConnects && consumerConnects)
      ensures r.Ok? <==> producerConnects && consumerConnects
    {
      created, producerConnected, consumerConnected, running := true, false, false, false;
      calls := calls + [ConnectProducer];
      if !producerConnects {
        return Err(ConnectFailed);
      }
      producerConnected := true;
      calls := calls + [ConnectConsumer];
      if !consumerConnects {
        return Err(ConnectFailed);
      }
      consumerConnected := true;
      r := Ok(());
    }

    /** `publishEvent`: send one record to the topic, keyed by the event id.
        Every failure is logged and swallowed, so the method has no error
        result: a call before init, a send on a producer that is not
        connected, and a send the broker refuses (`accepted` is its answer). */
    method PublishEvent(topic: string, event: KafkaMessage<T>, now: int, accepted: bool)
      modifies this`topics
      ensures created && producerConnected && accepted ==>
                topics == old(topics)[topic := old(Log(topic)) + [MessageOf(event, now)]]
      ensures !(created && producerConnected && accepted) ==> topics == old(topics)
    {
      if !created || !producerConnected {
        return;
      }
      var message := MessageOf(event, now);
      if accepted {
        topics := topics[topic := Log(topic) + [message]];
      }
    }

    /** `subscribeToTopic`: subscribe from the beginning of the topic and run
        the callback body on each record. Without a consumer, or once the
        consumer is running, the subscribe call fails, and that failure is not
        caught. */
    method SubscribeToTopic(topic: string, handler: KafkaMessage<T> -> bool)
      returns (r: Result<(seq<KafkaMessage<T>>, seq<MessageOutcome>), string>)
      modifies this`running
      ensures r.Ok? <==> created && !old(running)
      ensures running == (old(running) || r.Ok?)
      ensures r.Ok? ==> r.value.0 == Deliverable(Log(topic))
      ensures r.Ok? ==> |r.value.1| == |Log(topic)|
                        && forall i :: 0 <= i < |Log(topic)| ==> r.value.1[i] == OutcomeOf(Log(topic)[i], handler)
    {
      if !created {
        return Err("Cannot read properties of undefined (reading 'subscribe')");
      }
      if running {
        return Err("Cannot subscribe to topic while consumer is running");
      }
      running := true;
      var delivered, outcomes := RunEachMessage(Log(topic), handler);
      r := Ok((delivered, outcomes));
    }

    /** `onModuleDestroy`: disconnect the producer, then the consumer. Errors
        are logged, never thrown; a failed producer disconnect skips the
        consumer's. */
    method OnModuleDestroy(producerDisconnects: bool, consumerDisconnects: bool)
      modifies this
      ensures topics == old(topics) && created == old(created) && running == old(running)
      ensures !created ==> calls == old(calls) && producerConnected == old(producerConnected)
                           && consumerConnected == old(consumerConnected)
      ensures created && !producerDisconnects ==>
                calls == old(calls) + [DisconnectProducer]
                && producerConnected == old(producerConnected) && consumerConnected == old(consumerConnected)
      ensures created && producerDisconnects ==>
                calls == old(calls) + [DisconnectProducer, DisconnectConsumer] && !producerConnected
                && consumerConnected == (old(consumerConnected) && !consumerDisconnects)
    {
      if !created {
        return;
      }
      calls := calls + [DisconnectProducer];
      if !producerDisconnects {
        return;
      }
      producerConnected := false;
      calls := calls + [DisconnectConsumer];
      if consumerDisconnects {
        consumerConnected := false;
      }
    }
  }

  /** A client that starts, publishes one envelope to a fresh topic and
      subscribes to that topic receives exactly that envelope. */
  method PublishThenSubscribe<T>(config: Config, topic: string, event: KafkaMessage<T>, now: int,
                                 handler: KafkaMessage<T> -> bool)
    returns (delivered: seq<KafkaMessage<T>>)
    ensures delivered == [event]
  {
    var client := new KafkaService<T>(config, map[]);
    var started := client.OnModuleInit(true, true);
    assert client.created && client.producerConnected && !client.running && client.topics == map[];
    assert client.Log(topic) == [];
    client.PublishEvent(topic, event, now, true);
    assert client.topics == map[topic := [] + [MessageOf(event, now)]];
    assert client.Log(topic) == [] + [MessageOf(event, now)];
    PublishedIsDelivered([], event, now);
    var received := client.SubscribeToTopic(topic, handler);
    delivered := received.value.0;
  }

  /** A started client's second subscription is refused: its consumer is
      already running. */
  method SecondSubscriptionIsRefused<T>(config: Config, first: string, second: string,
                                        handler: KafkaMessage<T> -> bool)
    returns (r: Result<(seq<KafkaMessage<T>>, seq<MessageOutcome>), string>)
    ensures r.Err?
  {
    var client := new KafkaService<T>(config, map[]);
    var started := client.OnModuleInit(true, true);
    var once := client.SubscribeToTopic(first, handler);
    r := client.SubscribeToTopic(second, handler);
  }
}
