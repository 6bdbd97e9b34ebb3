/**
 The channel registry of `Publisher` (`subscribers_by_channel`) as a value: a
 map from channel name to the channel's subscribers in subscription order.
 These functions say what `get_subscribers`, `subscribe` and `unsubscribe` do
 to the registry; the Publisher class applies them in place.
 */
module Registry {
  import opened Wrappers
  import opened Queues

  /** `max_clients`: at most this many subscribers per channel. */
  const MaxClients: nat := 2

  /** The capacity of the queue each new subscriber gets (`Queue(15)`). */
  const SubscriberQueueSize: nat := 15

  /** The channel every route of the server uses. */
  const DefaultChannel: string := "default channel"

  /** `Subscriber(ID, queue)`: one live stream and the queue it reads from. */
  datatype Subscriber = Subscriber(id: nat, queue: Queue<string>)

  type Channels = map<string, seq<Subscriber>>

  /** The subscribers listed for `channel`; an unknown channel has none. */
  function Listed(reg: Channels, channel: string): seq<Subscriber>
  {
    if channel in reg then reg[channel] else []
  }

  /**
   `subscribers_by_channel.setdefault(channel, [])`: an unknown channel gets
   an empty list; every channel already present keeps its list.
   */
  function SetDefault(reg: Channels, channel: string): (r: Channels)
    ensures r.Keys == reg.Keys + {channel}
    ensures r[channel] == Listed(reg, channel)
    ensures forall c | c in reg :: r[c] == reg[c]
  {
    if channel in reg then reg else reg[channel := []]
  }

  /** The queues of the subscribers in `list`. */
  function QueuesOf(list: seq<Subscriber>): (r: set<Queue<string>>)
    ensures forall s | s in list :: s.queue in r
    ensures forall q | q in r :: exists s | s in list :: s.queue == q
  {
    set s | s in list :: s.queue
  }

  /** No channel has more than `MaxClients` subscribers. */
  ghost predicate Bounded(reg: Channels)
  {
    forall c | c in reg :: |reg[c]| <= MaxClients
  }

  /** No two positions of one channel's list hold the same ID. */
  ghost predicate DistinctIds(list: seq<Subscriber>)
  {
    forall i, j | 0 <= i < j < |list| :: list[i].id != list[j].id
  }

  /** The registry invariant: bounded lists, and IDs distinct within each list. */
  ghost predicate WellFormed(reg: Channels)
  {
    Bounded(reg) && forall c | c in reg :: DistinctIds(reg[c])
  }

  /** No subscriber listed on `channel` has the ID of `s`. */
  ghost predicate IdUnused(reg: Channels, channel: string, s: Subscriber)
  {
    forall t | t in Listed(reg, channel) :: t.id != s.id
  }

  /**
   The registry step of `subscribe(channel)`: rejected (`None`) exactly when
   the channel already lists `MaxClients` subscribers; otherwise `s` is
   appended at the end of the channel's list and every other channel keeps
   its list.
   */
  function Admit(reg: Channels, channel: string, s: Subscriber): (r: Option<Channels>)
    ensures r.None? <==> |Listed(reg, channel)| >= MaxClients
    ensures r.None? ==> channel in reg
    ensures r.Some? ==>
      r.value.Keys == reg.Keys + {channel} &&
      r.value[channel] == Listed(reg, channel) + [s] &&
      |r.value[channel]| <= MaxClients &&
      forall c | c in reg && c != channel :: r.value[c] == reg[c]
  {
    var list := SetDefault(reg, channel)[channel];
    if |list| < MaxClients then Some(SetDefault(reg, channel)[channel := list + [s]]) else None
  }

  /** Admitting a subscriber whose ID the channel does not use keeps the registry well formed. */
  lemma AdmitKeepsWellFormed(reg: Channels, channel: string, s: Subscriber)
    requires WellFormed(reg) && IdUnused(reg, channel, s)
    ensures Admit(reg, channel, s).Some? ==> WellFormed(Admit(reg, channel, s).value)
  {
    var r := Admit(reg, channel, s);
    if r.Some? {
      var after := r.value;
      var list := Listed(reg, channel);
      assert DistinctIds(list + [s]) by {
        forall i, j | 0 <= i < j < |list| + 1 ensures (list + [s])[i].id != (list + [s])[j].id {
          assert (list + [s])[i] == list[i] && list[i] in list;
        }
      }
    }
  }

  /**
   The position of the first subscriber in `list` whose ID is `id`, the
   element `list(filter(lambda x: x.ID == id, list))[0]` stands at; `None`
   when no subscriber has that ID (where indexing the empty filter raises).
   */
  function FirstWithId(list: seq<Subscriber>, id: nat): (r: Option<nat>)
    ensures r.Some? ==> r.value < |list| && list[r.value].id == id &&
                        forall k | 0 <= k < r.value :: list[k].id != id
    ensures r.None? <==> forall k | 0 <= k < |list| :: list[k].id != id
    decreases |list|
  {
    if list == [] then None
    else if list[0].id == id then Some(0)
    else match FirstWithId(list[1..], id)
      case None => None
      case Some(k) =>
        assert forall j | 1 <= j <= k :: list[j] == list[1..][j - 1];
        Some(k + 1)
  }

  /** `list` without its element at position `k`, the others in their order. */
  function RemoveAt<T>(list: seq<T>, k: nat): (r: seq<T>)
    requires k < |list|
    ensures |r| == |list| - 1
    ensures forall p | 0 <= p < |r| :: r[p] == if p < k then list[p] else list[p + 1]
    ensures multiset(r) + multiset{list[k]} == multiset(list)
    ensures forall x | x in r :: x in list
  {
    assert list == list[..k] + [list[k]] + list[k + 1..];
    list[..k] + list[k + 1..]
  }

  /**
   The registry step of `unsubscribe(id, channel)`. The first component says
   whether a subscriber with ID `id` was found on `channel`; when none is
   (the source raises), the only change is the `setdefault` entry for an
   unknown channel. When one is, exactly that first match is removed from
   the channel's list, the others keep their relative order, and every other
   channel keeps its list. Removing the first match's position is what
   `list.remove` does: it deletes the first element equal to the match, and
   every earlier element has a different ID, so it is not an equal
   namedtuple.
   */
  function Unsubscribed(reg: Channels, channel: string, id: nat): (r: (bool, Channels))
    ensures !r.0 <==> forall s | s in Listed(reg, channel) :: s.id != id
    ensures !r.0 ==> r.1 == SetDefault(reg, channel)
    ensures r.0 ==>
      channel in reg && r.1.Keys == reg.Keys &&
      (forall c | c in reg && c != channel :: r.1[c] == reg[c]) &&
      exists k | 0 <= k < |reg[channel]| ::
        reg[channel][k].id == id &&
        (forall j | 0 <= j < k :: reg[channel][j].id != id) &&
        r.1[channel] == RemoveAt(reg[channel], k)
  {
    var list := SetDefault(reg, channel)[channel];
    match FirstWithId(list, id)
    case None =>
      assert forall s | s in list :: s.id != id by {
        forall s | s in list ensures s.id != id {
          var k :| 0 <= k < |list| && list[k] == s;
        }
      }
      (false, SetDefault(reg, channel))
    case Some(k) =>
      var after := reg[channel := RemoveAt(list, k)];
      assert list[k] in list && list == reg[channel];
      assert after[channel] == RemoveAt(reg[channel], k);
      (true, after)
  }

  /** Removing a subscriber keeps the registry well formed. */
  lemma UnsubscribeKeepsWellFormed(reg: Channels, channel: string, id: nat)
    requires WellFormed(reg)
    ensures WellFormed(Unsubscribed(reg, channel, id).1)
  {
    var (found, after) := Unsubscribed(reg, channel, id);
    if found {
      var list := reg[channel];
      var k := FirstWithId(list, id).value;
      var rest := RemoveAt(list, k);
      assert after == reg[channel := rest];
    } else {
      assert after == SetDefault(reg, channel);
    }
  }

  /**
   Once `unsubscribe(id, channel)` has succeeded on a well-formed registry,
   no subscriber with that ID is left on the channel, so a second
   `unsubscribe(id, channel)` fails.
   */
  lemma UnsubscribeTwiceFails(reg: Channels, channel: string, id: nat)
    requires WellFormed(reg)
    requires Unsubscribed(reg, channel, id).0
    ensures var after := Unsubscribed(reg, channel, id).1;
      forall s | s in after[channel] :: s.id != id
    ensures !Unsubscribed(Unsubscribed(reg, channel, id).1, channel, id).0
  {
    var list := reg[channel];
    var k := FirstWithId(list, id).value;
    var rest := RemoveAt(list, k);
    assert Unsubscribed(reg, channel, id).1[channel] == rest;
    forall s | s in rest ensures s.id != id {
      var p :| 0 <= p < |rest| && rest[p] == s;
      if p < k {
        assert s == list[p];
      } else {
        assert s == list[p + 1] && k < p + 1;
        assert list[k].id != list[p + 1].id;
      }
    }
  }

  /** When the first match is at position `k`, `unsubscribe` removes position `k`. */
  lemma UnsubscribedAt(reg: Channels, channel: string, id: nat, k: nat)
    requires channel in reg && FirstWithId(reg[channel], id) == Some(k)
    ensures Unsubscribed(reg, channel, id) == (true, reg[channel := RemoveAt(reg[channel], k)])
  {
    assert SetDefault(reg, channel) == reg;
  }

  /**
   In a list where `s` is the first with its ID, that is, `s` appended to a
   list without its ID, the first match of the ID is `s`, and removing it
   gives the list back.
   */
  lemma FirstWithIdAppended(list: seq<Subscriber>, s: Subscriber)
    requires forall t | t in list :: t.id != s.id
    ensures FirstWithId(list + [s], s.id) == Some(|list|)
    ensures RemoveAt(list + [s], |list|) == list
  {
    var grown := list + [s];
    forall k | 0 <= k < |list| ensures grown[k].id != s.id {
      assert grown[k] == list[k] && list[k] in list;
    }
    assert grown[|list|] == s;
  }

  /**
   Subscribing and then unsubscribing the new ID is a round trip: the
   admitted subscriber is the one removed, and the registry is left as
   `setdefault` alone would have left it.
   */
  lemma AdmitThenUnsubscribe(reg: Channels, channel: string, s: Subscriber)
    requires IdUnused(reg, channel, s)
    ensures Admit(reg, channel, s).Some? ==>
      Unsubscribed(Admit(reg, channel, s).value, channel, s.id) == (true, SetDefault(reg, channel))
  {
    var a := Admit(reg, channel, s);
    if a.Some? {
      var old_list := Listed(reg, channel);
      FirstWithIdAppended(old_list, s);
      UnsubscribedAt(a.value, channel, s.id, |old_list|);
      AdmitUndone(reg, channel, s);
    }
  }

  /** Putting back the channel's old list undoes an admission, up to `setdefault`. */
  lemma AdmitUndone(reg: Channels, channel: string, s: Subscriber)
    requires Admit(reg, channel, s).Some?
    ensures Admit(reg, channel, s).value[channel := Listed(reg, channel)] == SetDefault(reg, channel)
  {
    var back := Admit(reg, channel, s).value[channel := Listed(reg, channel)];
    var sd := SetDefault(reg, channel);
    assert back.Keys == sd.Keys;
    forall c | c in back ensures back[c] == sd[c] {
      if c != channel {
        assert c in reg && back[c] == reg[c];
      }
    }
  }

  /** `unsubscribe` only ever takes subscribers away, on every channel. */
  lemma UnsubscribedShrinks(reg: Channels, channel: string, id: nat, c: string)
    ensures forall t | t in Listed(Unsubscribed(reg, channel, id).1, c) :: t in Listed(reg, c)
  {
    var (found, after) := Unsubscribed(reg, channel, id);
    if found && c == channel {
      var k :| 0 <= k < |reg[channel]| && after[channel] == RemoveAt(reg[channel], k);
    }
  }

  /**
   `owner` records for each registered queue the channel and the ID of the
   subscriber holding it.
   */
  ghost predicate Owned(reg: Channels, owner: map<Queue<string>, (string, nat)>)
  {
    forall c, s | c in reg && s in reg[c] :: s.queue in owner && owner[s.queue] == (c, s.id)
  }

  /**
   A queue owned by `(channel, id)` is listed on no channel once no
   subscriber of `channel` has that ID any more.
   */
  lemma UnlistedQueue(reg: Channels, owner: map<Queue<string>, (string, nat)>, channel: string, id: nat,
                      q: Queue<string>, c: string)
    requires Owned(reg, owner) && q in owner && owner[q] == (channel, id)
    requires forall s | s in Listed(reg, channel) :: s.id != id
    ensures q !in QueuesOf(Listed(reg, c))
  {
  }

  /** Under an owner map, every listed queue has an owner. */
  lemma OwnedQueuesKnown(reg: Channels, owner: map<Queue<string>, (string, nat)>, c: string)
    requires Owned(reg, owner)
    ensures QueuesOf(Listed(reg, c)) <= owner.Keys
  {
    forall q | q in QueuesOf(Listed(reg, c)) ensures q in owner {
      var s :| s in Listed(reg, c) && s.queue == q;
    }
  }

  /** Under an owner map, two positions of one channel's list never share a queue. */
  lemma OwnedQueuesDistinct(reg: Channels, owner: map<Queue<string>, (string, nat)>, c: string, i: nat, j: nat)
    requires WellFormed(reg) && Owned(reg, owner) && c in reg
    requires i < j < |reg[c]|
    ensures reg[c][i].queue != reg[c][j].queue
  {
    assert reg[c][i] in reg[c] && reg[c][j] in reg[c];
  }

  /** Under an owner map, a queue registered on one channel is registered on no other. */
  lemma OwnedOnOneChannel(reg: Channels, owner: map<Queue<string>, (string, nat)>, c: string, d: string, s: Subscriber)
    requires Owned(reg, owner) && c in reg && d in reg
    requires c != d && s in reg[d]
    ensures s.queue !in QueuesOf(reg[c])
  {
  }
}
