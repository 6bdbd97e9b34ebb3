/**
 Sessions against a fresh publisher, written as clients of the Publisher's
 contracts: admission control on the default channel, the frames a
 two-line payload produces, and what unsubscribing does.
 */
module Scenarios {
  import opened Wrappers
  import opened Queues
  import opened Lines
  import opened Registry
  import opened Publishing

  /**
   Two subscriptions to the default channel both succeed, with distinct IDs;
   a third one is turned away.
   */
  method AdmissionOnDefaultChannel() returns (first: nat, second: nat, thirdRejected: bool)
    ensures first != second
    ensures thirdRejected
  {
    var p := new Publisher();
    var r1 := p.Subscribe(DefaultChannel);
    var r2 := p.Subscribe(DefaultChannel);
    var r3 := p.Subscribe(DefaultChannel);
    first := r1.value.0;
    second := r2.value.0;
    thirdRejected := r3.None?;
  }

  /** A fresh publisher with a single subscriber on the default channel. */
  method SoleSubscriber() returns (p: Publisher, stream: AsyncIterable)
    ensures fresh(p) && fresh(stream.data) && p.Valid()
    ensures p.subscribersByChannel == map[DefaultChannel := [Subscriber(1, stream.data)]]
    ensures stream.data.items == [] && stream.data.maxsize == SubscriberQueueSize
  {
    p := new Publisher();
    var r := p.Subscribe(DefaultChannel);
    stream := r.value.1;
    assert p.subscribersByChannel.Keys == {DefaultChannel};
    assert p.subscribersByChannel[DefaultChannel] == [Subscriber(1, stream.data)];
  }

  /** Publishing on a channel whose only subscriber holds `q` appends the units to `q`. */
  method PublishToSole(p: Publisher, data: string, id: nat, q: Queue<string>)
    requires p.Valid() && p.subscribersByChannel == map[DefaultChannel := [Subscriber(id, q)]]
    requires q.QSize() + |PublishUnits(data)| <= SubscriberQueueSize
    modifies p, q
    ensures q.Valid() && q.items == old(q.items) + PublishUnits(data)
  {
    assert Listed(p.subscribersByChannel, DefaultChannel) == [Subscriber(id, q)];
    p.Publish(data, DefaultChannel);
    assert p.subscribersByChannel[DefaultChannel][0] == Subscriber(id, q);
    assert Subscriber(id, q) in p.subscribersByChannel[DefaultChannel];
  }

  /**
   A fresh publisher with one subscriber on the default channel, after one
   publish of "A1B2\nC3D4": the subscriber's queue holds the two lines, in
   order, each with its '\n'.
   */
  method PublishTwoLines() returns (stream: AsyncIterable)
    ensures fresh(stream.data) && stream.data.Valid()
    ensures stream.data.items == ["A1B2\n", "C3D4\n"]
  {
    var p;
    p, stream := SoleSubscriber();
    TwoLineUnits();
    PublishToSole(p, "A1B2\nC3D4", 1, stream.data);
  }

  /**
   One subscriber, one publish of "A1B2\nC3D4": its stream yields the two
   lines in order, each framed as an event-stream `card` event. Because each
   unit keeps its '\n', the written frame ends in three '\n'.
   */
  method TwoLinePayloadFrames() returns (first: string, second: string)
    ensures first == "event: card\ndata: A1B2\n\n\n"
    ensures second == "event: card\ndata: C3D4\n\n\n"
  {
    var stream := PublishTwoLines();
    var x := stream.Next();
    var y := stream.Next();
    first := MessageToClient(x.value);
    second := MessageToClient(y.value);
    TwoLineFrames();
  }

  /**
   A subscriber that has been unsubscribed gets nothing from later publishes,
   and unsubscribing it a second time fails.
   */
  method UnsubscribeThenPublish() returns (firstRemoval: bool, secondRemoval: bool, pending: nat)
    ensures firstRemoval && !secondRemoval
    ensures pending == 0
  {
    var p, stream := SoleSubscriber();
    ghost var reg := p.subscribersByChannel;
    firstRemoval := p.Unsubscribe(1, DefaultChannel);
    UnsubscribeTwiceFails(reg, DefaultChannel, 1);
    secondRemoval := p.Unsubscribe(1, DefaultChannel);
    p.Publish("B65BBC19", DefaultChannel);
    pending := stream.data.QSize();
  }
}
