/**
 The in-place part of the broadcast engine: the stream a session pulls from
 (`AsyncIterable`) and the `Publisher`, which owns the channel registry and
 fans published payloads out to the subscribers' queues.
 */
module Publishing {
  import opened Wrappers
  import opened Queues
  import opened Lines
  import opened Registry

  /**
   `AsyncIterable(queue)`: the stream over one subscriber's queue. Each pull
   takes the oldest item; a falsy item (the empty string) ends the stream.
   */
  class AsyncIterable {
    const data: Queue<string>
    var index: nat

    constructor (iterable: Queue<string>)
      ensures data == iterable && index == 0
    {
      data := iterable;
      index := 0;
    }

    /**
     `__anext__` once `fetch_data`'s wait is over: the oldest item is taken
     from the queue and returned, or `None` (StopAsyncIteration) when that
     item is the empty string.
     */
    method Next() returns (r: Option<string>)
      requires data.Valid() && !data.Empty()
      modifies data
      ensures data.Valid()
      ensures data.items == old(data.items)[1..]
      ensures r == if old(data.items)[0] == "" then None else Some(old(data.items)[0])
    {
      var x := data.Get();
      if x == "" {
        r := None;
      } else {
        r := Some(x);
      }
    }
  }

  /**
   `Publisher()`: `subscribers_by_channel` maps each channel to its
   subscribers in subscription order. `nextId` hands out subscriber IDs
   (standing for `id(q)`); the ghost map `owner` records, for every queue
   ever handed out, the channel and ID it was created for.
   */
  class Publisher {
    var subscribersByChannel: Channels
    var nextId: nat
    ghost var owner: map<Queue<string>, (string, nat)>

    /**
     The registry is well formed (at most `max_clients` per channel, IDs
     distinct per channel); every registered subscriber has an ID issued
     earlier and a queue owned by its channel and its ID (so no queue is
     shared between two registered subscribers), of capacity 15 and within it.
     */
    ghost predicate Valid()
      reads this, owner.Keys
    {
      nextId > 0 &&
      WellFormed(subscribersByChannel) &&
      Owned(subscribersByChannel, owner) &&
      (forall c, s | c in subscribersByChannel && s in subscribersByChannel[c] :: s.id < nextId) &&
      QueuesBounded()
    }

    /** Every registered queue has capacity 15 and holds at most that many items. */
    ghost predicate QueuesBounded()
      reads this, owner.Keys
      requires Owned(subscribersByChannel, owner)
    {
      forall c, s | c in subscribersByChannel && s in subscribersByChannel[c] ::
        s.queue.maxsize == SubscriberQueueSize && s.queue.Valid()
    }

    constructor ()
      ensures Valid()
      ensures subscribersByChannel == map[] && nextId == 1 && owner == map[]
    {
      subscribersByChannel := map[];
      nextId := 1;
      owner := map[];
    }

    /**
     The queues of one channel are pairwise distinct, and each has capacity
     15 and room for `n` more items when the channel's requirement says so.
     */
    lemma ChannelReady(channel: string, n: nat)
      requires Valid() && channel in subscribersByChannel
      requires forall s | s in subscribersByChannel[channel] :: s.queue.QSize() + n <= SubscriberQueueSize
      ensures var list := subscribersByChannel[channel];
        forall k, m | 0 <= k < m < |list| :: list[k].queue != list[m].queue
      ensures var list := subscribersByChannel[channel];
        forall k | 0 <= k < |list| ::
          var q := list[k].queue; q.Valid() && q.maxsize == SubscriberQueueSize && q.QSize() + n <= SubscriberQueueSize
    {
      var list := subscribersByChannel[channel];
      forall k, m | 0 <= k < m < |list| ensures list[k].queue != list[m].queue {
        OwnedQueuesDistinct(subscribersByChannel, owner, channel, k, m);
      }
      forall k | 0 <= k < |list| ensures list[k] in list {
      }
    }

    /**
     `get_subscribers(channel)`: the channel's list, after `setdefault` has
     given an unknown channel an empty one. Nothing else changes.
     */
    method GetSubscribers(channel: string) returns (list: seq<Subscriber>)
      requires Valid()
      modifies this
      ensures Valid()
      ensures subscribersByChannel == SetDefault(old(subscribersByChannel), channel)
      ensures list == subscribersByChannel[channel]
      ensures nextId == old(nextId) && owner == old(owner)
    {
      if channel !in subscribersByChannel {
        subscribersByChannel := subscribersByChannel[channel := []];
      }
      list := subscribersByChannel[channel];
    }

    /** `_make_generator(subscriber)`: the subscriber's ID and a fresh stream over its queue. */
    method MakeGenerator(subscriber: Subscriber) returns (id: nat, stream: AsyncIterable)
      ensures id == subscriber.id
      ensures fresh(stream) && stream.data == subscriber.queue
    {
      id := subscriber.id;
      stream := new AsyncIterable(subscriber.queue);
    }

    /**
     `subscribers_list.append(subscriber)` for an admitted subscriber: its
     ID is the next one and its empty queue of capacity 15 belongs to no
     registered subscriber. The subscriber goes at the end of the channel's
     list and the next ID moves on.
     */
    method AppendSubscriber(channel: string, subscriber: Subscriber)
      requires Valid() && channel in subscribersByChannel
      requires |subscribersByChannel[channel]| < MaxClients
      requires subscriber.id == nextId && subscriber.queue !in owner
      requires subscriber.queue.items == [] && subscriber.queue.maxsize == SubscriberQueueSize
      modifies this
      ensures Valid()
      ensures Admit(old(subscribersByChannel), channel, subscriber) == Some(subscribersByChannel)
      ensures nextId == old(nextId) + 1 && owner == old(owner)[subscriber.queue := (channel, subscriber.id)]
    {
      ghost var reg := subscribersByChannel;
      AdmitKeepsWellFormed(reg, channel, subscriber);
      subscribersByChannel := subscribersByChannel[channel := subscribersByChannel[channel] + [subscriber]];
      owner := owner[subscriber.queue := (channel, nextId)];
      nextId := nextId + 1;
      forall c, t | c in subscribersByChannel && t in subscribersByChannel[c]
        ensures t.queue in owner && owner[t.queue] == (c, t.id) && t.id < nextId
        ensures t.queue.maxsize == SubscriberQueueSize && t.queue.Valid()
      {
        if t != subscriber || c != channel {
          assert c in reg && t in reg[c];
        }
      }
    }

    /**
     `subscribe(channel)`. Rejected (`None`, the source's `(None, None)`)
     exactly when the channel already has `max_clients` subscribers, and then
     nothing changes. Otherwise one new subscriber is appended at the end of
     the channel's list: its ID is new, its queue is fresh, empty and of
     capacity 15, and the returned stream reads that same queue. Every other
     channel and every existing queue is unchanged.
     */
    method Subscribe(channel: string) returns (r: Option<(nat, AsyncIterable)>)
      requires Valid()
      modifies this
      ensures Valid()
      ensures r.None? <==> |Listed(old(subscribersByChannel), channel)| >= MaxClients
      ensures r.None? ==>
        subscribersByChannel == old(subscribersByChannel) && nextId == old(nextId) && owner == old(owner)
      ensures r.Some? ==>
        var (id, stream) := r.value;
        id == old(nextId) && id > 0 && nextId == old(nextId) + 1 &&
        fresh(stream) && fresh(stream.data) &&
        stream.data.items == [] && stream.data.maxsize == SubscriberQueueSize &&
        Admit(old(subscribersByChannel), channel, Subscriber(id, stream.data)) == Some(subscribersByChannel)
    {
      var q := new Queue<string>(SubscriberQueueSize);
      var subscriber := Subscriber(nextId, q);
      var list := GetSubscribers(channel);
      if |list| < MaxClients {
        AppendSubscriber(channel, subscriber);
        var id, stream := MakeGenerator(subscriber);
        r := Some((id, stream));
      } else {
        r := None;
      }
    }

    /**
     `unsubscribe(subscriber_id, channel)`: removes the first subscriber of
     the channel with that ID, keeping the others in order, and answers
     `true`; answers `false` where the source raises because no subscriber
     of the channel has that ID (the only change then being `setdefault`'s).
     */
    method Unsubscribe(subscriberId: nat, channel: string) returns (found: bool)
      requires Valid()
      modifies this
      ensures Valid()
      ensures (found, subscribersByChannel) == Unsubscribed(old(subscribersByChannel), channel, subscriberId)
      ensures nextId == old(nextId) && owner == old(owner)
      ensures found ==> forall s, c | s in old(Listed(subscribersByChannel, channel)) && s.id == subscriberId ::
        s.queue !in QueuesOf(Listed(subscribersByChannel, c))
    {
      ghost var before := subscribersByChannel;
      var list := GetSubscribers(channel);
      match FirstWithId(list, subscriberId)
      case None =>
        found := false;
      case Some(k) =>
        assert list[k] in list && channel in before;
        RemoveSubscriber(channel, k);
        found := true;
        UnsubscribeTwiceFails(before, channel, subscriberId);
        forall s, c | s in Listed(before, channel) && s.id == subscriberId
          ensures s.queue !in QueuesOf(Listed(subscribersByChannel, c))
        {
          UnlistedQueue(subscribersByChannel, owner, channel, subscriberId, s.queue, c);
        }
    }

    /**
     After `unsubscribe(subscriberId, channel)`, a `publish` to any channel
     `target`, other subscribers of `channel` included, leaves the queue of
     the removed subscriber as it was: every subscriber of `channel` with that
     ID is found and removed, and its queue receives nothing more.
     */
    method PublishAfterUnsubscribe(subscriberId: nat, channel: string, data: string, target: string)
      returns (found: bool)
      requires Valid()
      requires forall t | t in Listed(subscribersByChannel, target) ::
        t.queue.QSize() + |PublishUnits(data)| <= SubscriberQueueSize
      modifies this, owner.Keys
      ensures Valid()
      ensures forall s | s in old(Listed(subscribersByChannel, channel)) && s.id == subscriberId ::
        found && s.queue.items == old(s.queue.items)
    {
      ghost var before := subscribersByChannel;
      found := Unsubscribe(subscriberId, channel);
      UnsubscribedShrinks(before, channel, subscriberId, target);
      OwnedQueuesKnown(subscribersByChannel, owner, target);
      Publish(data, target);
    }

    /**
     `subscribers_list.remove(...)` of the subscriber at position `k` of the
     channel's list: the others keep their order, every other channel keeps
     its list, and the publisher stays valid.
     */
    method RemoveSubscriber(channel: string, k: nat)
      requires Valid() && channel in subscribersByChannel && k < |subscribersByChannel[channel]|
      modifies this
      ensures Valid()
      ensures subscribersByChannel == old(subscribersByChannel)[channel := RemoveAt(old(subscribersByChannel)[channel], k)]
      ensures nextId == old(nextId) && owner == old(owner)
    {
      ghost var before := subscribersByChannel;
      var list := subscribersByChannel[channel];
      var rest := RemoveAt(list, k);
      UnsubscribeKeepsWellFormed(before, channel, list[k].id);
      assert Unsubscribed(before, channel, list[k].id) == (true, before[channel := rest]) by {
        assert list[k] in list;
        assert FirstWithId(list, list[k].id).Some?;
      }
      subscribersByChannel := subscribersByChannel[channel := rest];
      forall c, s | c in subscribersByChannel && s in subscribersByChannel[c]
        ensures s.queue in owner && owner[s.queue] == (c, s.id) && s.id < nextId
        ensures s.queue.maxsize == SubscriberQueueSize && s.queue.Valid()
      {
        assert c in before && s in before[c];
      }
    }

    /**
     `_publish_single(data, subscriber)` with each `put`'s wait over: the
     subscriber's queue has room for every unit of `data`, and gets them
     appended, in order, after what it already held.
     */
    method PublishSingle(data: string, subscriber: Subscriber)
      requires subscriber.queue.Valid()
      requires subscriber.queue.maxsize == 0 ||
               subscriber.queue.QSize() + |PublishUnits(data)| <= subscriber.queue.maxsize
      modifies subscriber.queue
      ensures subscriber.queue.Valid()
      ensures subscriber.queue.items == old(subscriber.queue.items) + PublishUnits(data)
    {
      var q := subscriber.queue;
      var lines := Split(data);
      ghost var before := q.items;
      ghost var units := Terminated(lines);
      var j := 0;
      while j < |lines|
        invariant 0 <= j <= |lines|
        invariant q.Valid()
        invariant q.maxsize == 0 || |q.items| + (|lines| - j) <= q.maxsize
        invariant q.items == before + units[..j]
      {
        q.Put(lines[j] + "\n");
        assert units[..j + 1] == units[..j] + [lines[j] + "\n"];
        j := j + 1;
      }
      assert units[..|lines|] == units;
    }

    /**
     The loop of `publish`: subscriber by subscriber, in list order, every
     queue of `subscribers` gets the units of `data` appended. The queues
     are pairwise distinct and each has room for all the units.
     */
    method FanOut(data: string, subscribers: seq<Subscriber>)
      requires forall k, m | 0 <= k < m < |subscribers| :: subscribers[k].queue != subscribers[m].queue
      requires forall k | 0 <= k < |subscribers| ::
        var q := subscribers[k].queue;
        q.Valid() && q.maxsize == SubscriberQueueSize && q.QSize() + |PublishUnits(data)| <= SubscriberQueueSize
      modifies QueuesOf(subscribers)
      ensures forall k | 0 <= k < |subscribers| ::
        var q := subscribers[k].queue; q.items == old(q.items) + PublishUnits(data) && q.Valid()
    {
      var i := 0;
      while i < |subscribers|
        invariant 0 <= i <= |subscribers|
        invariant forall k | 0 <= k < i ::
          var q := subscribers[k].queue; q.items == old(q.items) + PublishUnits(data) && q.Valid()
        invariant forall k | i <= k < |subscribers| :: subscribers[k].queue.items == old(subscribers[k].queue.items)
      {
        PublishSingle(data, subscribers[i]);
        i := i + 1;
      }
    }

    /**
     `publish`'s fan-out over a channel already present in the registry:
     every queue of the channel gets the units of `data` appended, the
     registry itself and the queues of every other channel are untouched.
     */
    method DeliverToChannel(data: string, channel: string, subscribers: seq<Subscriber>)
      requires Valid() && channel in subscribersByChannel && subscribers == subscribersByChannel[channel]
      requires forall s | s in subscribers :: s.queue.QSize() + |PublishUnits(data)| <= SubscriberQueueSize
      modifies QueuesOf(subscribers)
      ensures Valid()
      ensures forall k | 0 <= k < |subscribers| ::
        var q := subscribers[k].queue; q.items == old(q.items) + PublishUnits(data)
      ensures forall c, s | c in subscribersByChannel && c != channel && s in subscribersByChannel[c] ::
        s.queue.items == old(s.queue.items)
    {
      ChannelReady(channel, |PublishUnits(data)|);
      FanOut(data, subscribers);
      forall c, s | c in subscribersByChannel && s in subscribersByChannel[c]
        ensures s.queue.maxsize == SubscriberQueueSize && s.queue.Valid()
        ensures c != channel ==> s.queue.items == old(s.queue.items)
      {
        if c == channel {
          var k :| 0 <= k < |subscribers| && subscribers[k] == s;
        } else {
          OwnedOnOneChannel(subscribersByChannel, owner, channel, c, s);
        }
      }
    }

    /**
     `publish(data, channel)` with each `put`'s wait over (every queue of the
     channel has room for all the units of `data`). Subscriber by subscriber,
     in list order, each queue of the channel gets the units of `data`
     appended. The registry changes only by `setdefault`; the queues of every
     other channel are unchanged.
     */
    method Publish(data: string, channel: string)
      requires Valid()
      requires forall s | s in Listed(subscribersByChannel, channel) ::
        s.queue.QSize() + |PublishUnits(data)| <= SubscriberQueueSize
      modifies this, QueuesOf(Listed(subscribersByChannel, channel))
      ensures Valid()
      ensures subscribersByChannel == SetDefault(old(subscribersByChannel), channel)
      ensures nextId == old(nextId) && owner == old(owner)
      ensures forall k | 0 <= k < |subscribersByChannel[channel]| ::
        var q := subscribersByChannel[channel][k].queue; q.items == old(q.items) + PublishUnits(data)
      ensures forall c, s | c in subscribersByChannel && c != channel && s in subscribersByChannel[c] ::
        s.queue.items == old(s.queue.items)
    {
      var subscribers := GetSubscribers(channel);
      assert subscribers == Listed(old(subscribersByChannel), channel);
      DeliverToChannel(data, channel, subscribers);
    }
  }
}
