# Broadcast engine of the RFID event-stream server

A Dafny model of the in-process broadcast engine of `sse_server.py`, the
MicroPython server that pushes RFID card reads to browsers as server-sent
events. The model covers:

- the bounded FIFO `Queue` with its `QueueEmpty` and `QueueFull` outcomes;
- `AsyncIterable`, the stream a session pulls from;
- the `Publisher`, which keeps `subscribers_by_channel`, admits at most
  `max_clients` (2) subscribers per channel, each with a fresh `Queue(15)`,
  removes them by ID, and fans a published payload out line by line;
- the constants `max_clients` and `message_to_client`.

Layout, one module per file:

- `wrappers.dfy` (`Wrappers`): `Option`.
- `lines.dfy` (`Lines`): `str.split('\n')` and `'\n'.join`, the delivery
  units of one publish, and the event-stream frame.
- `queues.dfy` (`Queues`): the `Queue` class, the pure steps that specify
  `get_nowait`/`put_nowait`, and lemmas over whole operation histories
  (FIFO, the bound).
- `registry.dfy` (`Registry`): the channel registry as a value, and the pure
  steps that specify `get_subscribers`, `subscribe` and `unsubscribe`,
  with the lemmas about them.
- `publisher.dfy` (`Publishing`): the `AsyncIterable` and `Publisher`
  classes, whose methods change the registry and the queues in place and
  are proved against the pure steps.
- `scenarios.dfy` (`Scenarios`): fixed sessions, written as callers of the
  methods' contracts.

Subscriber IDs are handed out by a counter `nextId`, which stands for
`id(q)`. The code relies on two properties of `id(q)`. A new ID differs
from every registered ID. An ID is also never 0, since the `/subscribe`
route reads a falsy ID as a rejection. The counter starts at 1 and gives
both. A ghost map `owner`
records which channel and ID each queue was created for. From it follows
that no queue is shared between registered subscribers, which is what
lets `publish` update each queue separately.

Three behaviours of the code are easy to misread. The model follows the
code in each:

- `message_to_client.format(item)` is applied to an item that already ends
  in `'\n'`, so a frame ends in three `'\n'` (`"event: card\ndata: A1B2\n\n\n"`),
  not in two.
- `AsyncIterable.__anext__` ends the stream (`StopAsyncIteration`) when it
  pulls a falsy item, the empty string.
- `unsubscribe` of an absent ID raises (`IndexError` from indexing an empty
  filter result) after `setdefault` has already run. The model returns
  `false` and keeps the `setdefault` entry.

The two queue guards are modelled as written:

- `put`/`put_nowait` refuse when `qsize() >= maxsize and maxsize`;
- `full()` answers `maxsize > 0 and qsize() >= maxsize`.

These agree for every `maxsize >= 0` and disagree for a negative one.

## Model

| member | source | states |
|---|---|---|
| Lines.Split | sse_server.py:170 | `split('\n')` gives one more piece than there are separators, no piece holds `'\n'`, and joining the pieces with `'\n'` gives the string back |
| Lines.SplitJoin | sse_server.py:170 | the converse round trip: splitting the join of a non-empty list of separator-free pieces gives exactly those pieces |
| Lines.Terminated | sse_server.py:171 | `'{}\n'.format(line)` for each line: as many units as lines, unit `k` being line `k` followed by `'\n'` |
| Lines.PublishUnits | sse_server.py:166-171 | the units one publish enqueues: one per line (newline count + 1), each non-empty, ending in `'\n'` with no other `'\n'`, and together spelling the payload followed by `'\n'` |
| Lines.MessageToClient | sse_server.py:13 | a frame is the header `"event: card\ndata: "`, the item unchanged, then `"\n\n"`, so the item can be read back from between them |
| Lines.UnitFrameEnding | sse_server.py:13 | the frame of any published unit ends in three `'\n'` |
| Lines.TwoPieceUnits | sse_server.py:170-171 | a payload of two separator-free lines gives exactly two units, in order, each with its `'\n'` |
| Lines.TwoLineUnits | sse_server.py:170-171 | `"A1B2\nC3D4"` gives the units `"A1B2\n"` and `"C3D4\n"` |
| Lines.TwoLineFrames | sse_server.py:13 | the frames of those units are `"event: card\ndata: A1B2\n\n\n"` and `"event: card\ndata: C3D4\n\n\n"` |
| Queues.GetResult | sse_server.py:22-24 | the outcome of `get_nowait`: an item, or `QueueEmpty` |
| Queues.PutResult | sse_server.py:27-29 | the outcome of `put_nowait`: appended, or `QueueFull` |
| Queues.PutBlocked | sse_server.py:65 | the guard `qsize() >= maxsize and maxsize` of `put` (and of `put_nowait` at line 75): never with `maxsize` 0, exactly at `qsize() >= maxsize` for a positive `maxsize`, always for a negative one |
| Queues.IsFull | sse_server.py:87-94 | `full()` agrees with the append guard exactly when `maxsize >= 0`; for a negative `maxsize` it answers "not full" although every append is refused |
| Queues.TakeOldest | sse_server.py:50-56 | `get_nowait` fails with `QueueEmpty` exactly on an empty queue and then changes nothing; otherwise the item taken followed by the new contents is the old contents |
| Queues.AppendNewest | sse_server.py:71-77 | `put_nowait` fails with `QueueFull` exactly when `qsize() >= maxsize` and `maxsize` is non-zero, and then changes nothing; otherwise the value becomes the last item; a bounded queue within its bound stays within it |
| Queues.RunIsFifo | sse_server.py:40-77 | over any sequence of `put_nowait`/`get_nowait`, the items taken followed by those left equal the items at the start followed by every accepted item |
| Queues.TakenIsPrefixOfAccepted | sse_server.py:40-77 | from an empty queue, items come out in the order they went in: the taken items are a prefix of the accepted ones |
| Queues.RunStaysBounded | sse_server.py:71-77 | no sequence of operations takes a queue with `maxsize > 0` beyond `maxsize` items |
| Queues.Queue.constructor | sse_server.py:36-38 | a new queue has the given `maxsize` and no items |
| Queues.Queue.QSize | sse_server.py:79-81 | `qsize()` is the number of items and never exceeds a positive `maxsize` |
| Queues.Queue.Empty | sse_server.py:83-85 | `empty()` holds exactly when there are no items |
| Queues.Queue.Full | sse_server.py:87-94 | `full()` holds exactly when `maxsize > 0` and the size has reached it; it matches the append guard for `maxsize >= 0` |
| Queues.Queue.RemoveOldest | sse_server.py:40-41 | `_get()` returns the first item and leaves the rest |
| Queues.Queue.AppendItem | sse_server.py:58-59 | `_put(val)` appends `val` at the end |
| Queues.Queue.Get | sse_server.py:43-48 | `get()` on a non-empty queue returns the oldest item and leaves the rest, within the bound |
| Queues.Queue.GetNowait | sse_server.py:50-56 | the outcome and the new contents are those of `TakeOldest` on the old contents |
| Queues.Queue.Put | sse_server.py:61-69 | `put(val)` once the guard no longer holds appends `val` and keeps the bound |
| Queues.Queue.PutNowait | sse_server.py:71-77 | the outcome and the new contents are those of `AppendNewest` on the old contents |
| Registry.DefaultChannel | sse_server.py:137 | `'default channel'`, the channel `get_subscribers`, `subscribe`, `unsubscribe` and `publish` use by default (also lines 141, 153, 173) |
| Registry.Subscriber | sse_server.py:129 | the namedtuple `Subscriber(ID, queue)`: equal exactly when the ID and the queue (by reference) are equal |
| Registry.MaxClients | sse_server.py:18 | `max_clients`: at most 2 subscribers per channel |
| Registry.SubscriberQueueSize | sse_server.py:143 | every subscriber's queue is a `Queue(15)` |
| Registry.SetDefault | sse_server.py:137-139 | `setdefault(channel, [])` adds the channel with an empty list when it is unknown and leaves every existing channel's list unchanged |
| Registry.Admit | sse_server.py:141-151 | `subscribe` is rejected exactly when the channel already lists `max_clients` subscribers; otherwise the new subscriber is appended at the end, the list stays within `max_clients`, and every other channel is unchanged |
| Registry.AdmitKeepsWellFormed | sse_server.py:146-148 | admitting a subscriber with an unused ID keeps every list within `max_clients` with distinct IDs |
| Registry.FirstWithId | sse_server.py:157-158 | the position the filter's first element stands at: the first subscriber with that ID, or none exactly when no subscriber has it |
| Registry.RemoveAt | sse_server.py:159 | removing one position keeps the order of the others, and the removed element plus the rest form the old list as a multiset; applied at the filter's first match, it is `list.remove`, since every earlier element has a different ID and so is not equal |
| Registry.Unsubscribed | sse_server.py:153-159 | `unsubscribe` fails exactly when no subscriber of the channel has the ID, and then only `setdefault` has acted; otherwise exactly the first match is removed, the rest keep their order, and the other channels are unchanged |
| Registry.UnsubscribeKeepsWellFormed | sse_server.py:153-159 | unsubscribing keeps the registry within `max_clients` per channel with distinct IDs |
| Registry.UnsubscribeTwiceFails | sse_server.py:153-159 | after a successful `unsubscribe(id, channel)` no subscriber with that ID remains on the channel, and a second `unsubscribe(id, channel)` fails |
| Registry.UnsubscribedShrinks | sse_server.py:153-159 | `unsubscribe` never adds a subscriber to any channel's list |
| Registry.UnlistedQueue | sse_server.py:153-159 | once no subscriber of the channel has the ID, the queue created for that channel and ID is listed on no channel |
| Registry.AdmitThenUnsubscribe | sse_server.py:141-159 | subscribing and then unsubscribing the new ID succeeds and leaves the registry as `setdefault` alone would |
| Registry.OwnedQueuesDistinct | sse_server.py:143-144 | since each subscriber gets its own new queue, two positions of one channel never share a queue |
| Registry.OwnedOnOneChannel | sse_server.py:143-148 | a queue registered on one channel is registered on no other |
| Publishing.AsyncIterable.constructor | sse_server.py:100-102 | the stream wraps the given queue, with index 0 |
| Publishing.AsyncIterable.Next | sse_server.py:107-117 | a pull takes the oldest item off the queue and returns it, or ends the stream when that item is the empty string |
| Publishing.Publisher.constructor | sse_server.py:131-135 | a new publisher has no channels, and the first ID it hands out is 1 |
| Publishing.Publisher.GetSubscribers | sse_server.py:137-139 | the registry becomes its `setdefault` and the channel's list is returned |
| Publishing.Publisher.MakeGenerator | sse_server.py:161-164 | the subscriber's ID and a fresh stream over the subscriber's own queue |
| Publishing.Publisher.AppendSubscriber | sse_server.py:147-148 | the admitted subscriber goes at the end of its channel's list, exactly as `Admit` says, and the publisher stays valid |
| Publishing.Publisher.Subscribe | sse_server.py:141-151 | rejected exactly when the channel is at `max_clients`, and then nothing changes; otherwise a new, non-zero ID, a fresh empty queue of capacity 15, a stream over it, and the registry that `Admit` specifies |
| Publishing.Publisher.Unsubscribe | sse_server.py:153-159 | the outcome and the new registry are those of `Unsubscribed`; on success the removed subscriber's queue is in no channel's list; the publisher stays valid |
| Publishing.Publisher.PublishAfterUnsubscribe | sse_server.py:153-175 | after `unsubscribe(id, channel)`, a `publish` to any channel, other subscribers included, leaves the queue of every subscriber of `channel` with that ID unchanged, and the unsubscribe found it |
| Publishing.Publisher.RemoveSubscriber | sse_server.py:159 | removing one position of a channel's list leaves the others in order and the publisher valid |
| Publishing.Publisher.PublishSingle | sse_server.py:166-171 | the subscriber's queue gets the units of the payload appended, in order, after what it held, within its bound |
| Publishing.Publisher.FanOut | sse_server.py:174-175 | every queue of the list, visited in list order, gets the units of the payload appended |
| Publishing.Publisher.DeliverToChannel | sse_server.py:173-175 | every queue of the channel gets the units appended; the registry and the queues of the other channels are untouched |
| Publishing.Publisher.Publish | sse_server.py:173-175 | the registry changes only by `setdefault`, each queue of the channel gets the units of the payload appended, and the queues of every other channel are unchanged |
| Scenarios.AdmissionOnDefaultChannel | sse_server.py:141-151 | on a fresh publisher two subscriptions succeed with distinct IDs and a third is rejected |
| Scenarios.PublishTwoLines | sse_server.py:166-175 | one subscriber, one publish of `"A1B2\nC3D4"`: its queue holds `"A1B2\n"` then `"C3D4\n"` |
| Scenarios.TwoLinePayloadFrames | sse_server.py:107-117 | that subscriber's stream yields those two units in order, which frame as `"event: card\ndata: A1B2\n\n\n"` and `"event: card\ndata: C3D4\n\n\n"` |
| Scenarios.UnsubscribeThenPublish | sse_server.py:153-175 | unsubscribing succeeds once and fails the second time, and a later publish leaves the removed subscriber's queue empty |

## Left out

- The HTTP routes `/subscribe`, `/hello` and `/id` (`sse_server.py:181-263`), including the frame writes, the LED and buzzer, and the `OSError` and cleanup paths: they are network and hardware I/O around the engine.
- The imports, host settings and device objects (`sse_server.py:1-17`, all but `message_to_client`), the card reader loop (`266-278`) and the event-loop start-up (`281-288`): hardware and scheduling.
- The `print` calls in `put`/`put_nowait`: console output only.
- Cooperative scheduling: the spin loops of `get` and `put` and the `sleep(0.1)` in `fetch_data` become the preconditions "non-empty" and "has room". Interleavings of sessions with a `publish` are not modelled. In particular, `get_subscribers` returns the registry's own list and `publish` (`sse_server.py:174`) iterates that live list, so an `unsubscribe` run while a `put` waits shifts the list under the loop, which would then skip the next subscriber. The model iterates a value copy of the list, which agrees with the code only when nothing interleaves.
- Default arguments: the model passes every channel explicitly, `DefaultChannel` where the code relies on `channel='default channel'`. `Queue(maxsize=0)` has no default in the model, because the code only ever builds `Queue(15)`.
- Publishing.Publisher.Publish: requires every queue of the channel to have room for all units of the payload. The code would instead wait for a reader to drain the queue, which needs the concurrency that is not modelled.
- Publishing.Publisher.PublishSingle: requires room for all units, for the same reason.
- Publishing.AsyncIterable.Next: requires a non-empty queue, as `get()` waits otherwise.
- `id(q)`: replaced by the counter `nextId`. The model captures that IDs of live subscribers differ, not the memory addresses themselves.
- `str(data)` in `_publish_single`: payloads are modelled as strings already.
- `__aiter__`: it only returns the stream itself. The `index` field is kept, but nothing in the source reads it.
- Publishing.Publisher.Unsubscribe: the `IndexError` raised for an absent ID is modelled as the result `false`.
