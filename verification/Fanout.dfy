/** The relay's fan-out hub: subscribers with small buffered channels, lossy
    broadcasts, and a terminal event that always arrives. The hub's maps are
    guarded by a mutex, its channels are not: a subscriber may receive between
    any two channel operations of a broadcast or a termination. */
module Fanout {
  /** Of an event only its end-of-stream mark matters here. */
  datatype Event = Event(payload: string, terminal: bool)

  const CAPACITY := 8

  datatype Channel = Channel(buffer: seq<Event>, closed: bool)

  /** A send in a select with a default case. */
  function TrySend(c: Channel, e: Event): Channel {
    if |c.buffer| < CAPACITY then c.(buffer := c.buffer + [e]) else c
  }

  /** A receive in a select with a default case. */
  function TryReceive(c: Channel): Channel {
    if c.buffer == [] then c else c.(buffer := c.buffer[1..])
  }

  /** Subscription key to subscriber id to channel. */
  type Subscribers<C> = map<string, map<nat, C>>

  /** Reading a missing key gives an empty map. */
  function Under<C>(subs: Subscribers<C>, key: string): map<nat, C> {
    if key in subs then subs[key] else map[]
  }

  function Added<C>(subs: Subscribers<C>, key: string, id: nat, ch: C): Subscribers<C> {
    subs[key := Under(subs, key)[id := ch]]
  }

  /** unregister also drops a key whose last subscriber left. */
  function Removed<C>(subs: Subscribers<C>, key: string, id: nat): Subscribers<C> {
    var rest := Under(subs, key) - {id};
    if rest == map[] then subs - {key} else subs[key := rest]
  }

  predicate Registered<C>(subs: Subscribers<C>, key: string, id: nat) {
    key in subs && id in subs[key]
  }

  ghost predicate NoEmptyKey<C>(subs: Subscribers<C>) {
    forall k :: k in subs ==> subs[k] != map[]
  }

  /** Registering and unregistering change one registration, and keep keys
      exactly while someone is registered under them. */
  lemma RegistrationsChange<C>(subs: Subscribers<C>, key: string, id: nat, ch: C, k: string, i: nat)
    requires NoEmptyKey(subs)
    ensures NoEmptyKey(Added(subs, key, id, ch)) && NoEmptyKey(Removed(subs, key, id))
    ensures Registered(Added(subs, key, id, ch), k, i) <==> Registered(subs, k, i) || (k == key && i == id)
    ensures Registered(Removed(subs, key, id), k, i) <==> Registered(subs, k, i) && !(k == key && i == id)
    ensures Registered(Removed(subs, key, id), k, i) ==> Removed(subs, key, id)[k][i] == subs[k][i]
  {
    assert id in Added(subs, key, id, ch)[key];
    assert i in Under(subs, key) && i != id ==> i in Under(subs, key) - {id};
  }

  lemma KeyForgotten<C>(subs: Subscribers<C>, key: string)
    requires NoEmptyKey(subs)
    ensures NoEmptyKey(subs - {key})
    ensures forall k, i :: Registered(subs - {key}, k, i) <==> Registered(subs, k, i) && k != key
  {
  }

  /** Unregistering someone who is not registered changes nothing. */
  lemma RemovingNobody<C>(subs: Subscribers<C>, key: string, id: nat)
    requires NoEmptyKey(subs) && !Registered(subs, key, id)
    ensures Removed(subs, key, id) == subs
  {
    assert Under(subs, key) - {id} == Under(subs, key);
  }

  // ----------------------------------------------------------- subsequences

  /** `a` arises from `b` by leaving events out. */
  ghost predicate Subsequence(a: seq<Event>, b: seq<Event>)
    decreases |b|
  {
    || a == []
    || (b != [] && (|| Subsequence(a, b[..|b| - 1])
                    || (a[|a| - 1] == b[|b| - 1] && Subsequence(a[..|a| - 1], b[..|b| - 1]))))
  }

  lemma SubsequenceSkip(a: seq<Event>, b: seq<Event>, e: Event)
    requires Subsequence(a, b)
    ensures Subsequence(a, b + [e])
  {
    assert (b + [e])[..|b|] == b;
  }

  lemma SubsequenceTake(a: seq<Event>, b: seq<Event>, e: Event)
    requires Subsequence(a, b)
    ensures Subsequence(a + [e], b + [e])
  {
    assert (b + [e])[..|b|] == b && (a + [e])[..|a|] == a;
  }

  /** Leaving out one more event keeps a subsequence. */
  lemma {:induction false} SubsequenceDrop(a: seq<Event>, b: seq<Event>, i: nat)
    requires Subsequence(a, b) && i < |a|
    ensures Subsequence(a[..i] + a[i + 1..], b)
    decreases |b|
  {
    var front := b[..|b| - 1];
    if Subsequence(a, front) {
      SubsequenceDrop(a, front, i);
    } else if i == |a| - 1 {
      assert a[..i] + a[i + 1..] == a[..|a| - 1];
    } else {
      var rest := a[..|a| - 1];
      SubsequenceDrop(rest, front, i);
      var shorter := a[..i] + a[i + 1..];
      assert shorter[..|shorter| - 1] == rest[..i] + rest[i + 1..];
    }
  }

  // ------------------------------------------------------ the hub's objects

  /** A buffered channel, and the registration it was made for. */
  class EventChannel {
    ghost const key: string
    ghost const id: nat
    var buffer: seq<Event>
    var closed: bool

    constructor (ghost key: string, ghost id: nat)
      ensures this.key == key && this.id == id && View() == Channel([], false)
    {
      this.key, this.id := key, id;
      buffer, closed := [], false;
    }

    function View(): Channel
      reads this
    {
      Channel(buffer, closed)
    }

    /** sendTerminalFanoutEvent when no receive intervenes. */
    method SendTerminal(e: Event)
      modifies this
      ensures View() == WithTerminal(old(View()), e)
    {
      if |buffer| < CAPACITY {
        buffer := buffer + [e];
        return;
      }
      if buffer != [] {
        buffer := buffer[1..];
      }
      if |buffer| < CAPACITY {
        buffer := buffer + [e];
      }
    }
  }

  /** The channel after its terminal event, sent without interference: the
      event is last, and at most the oldest buffered event made room for it. */
  function WithTerminal(c: Channel, e: Event): (d: Channel)
    ensures |c.buffer| < CAPACITY ==> d.buffer == c.buffer + [e]
    ensures |c.buffer| == CAPACITY ==> d.buffer == c.buffer[1..] + [e]
    ensures d.closed == c.closed
  {
    if |c.buffer| < CAPACITY then TrySend(c, e) else TrySend(TryReceive(c), e)
  }

  class RelayFanoutHub {
    var nextId: nat
    var subscribers: map<string, map<nat, EventChannel>>

    /** The channel is open and made for this registration. */
    ghost predicate ChannelOk(key: string, id: nat, ch: EventChannel)
      reads this, ch
    {
      id <= nextId && ch.key == key && ch.id == id && !ch.closed
    }

    /** No key is kept without subscribers, and every registration is sound. */
    ghost predicate Valid()
      reads *
    {
      && NoEmptyKey(subscribers)
      && (forall k, id :: Registered(subscribers, k, id) ==> ChannelOk(k, id, subscribers[k][id]))
    }

    constructor ()
      ensures Valid() && nextId == 0 && subscribers == map[]
    {
      nextId, subscribers := 0, map[];
    }

    /** The new subscriber's id was never used, and its channel is its own. */
    method Register(key: string) returns (id: nat, ch: EventChannel)
      requires Valid()
      modifies this
      ensures Valid() && fresh(ch) && ch.View() == Channel([], false)
      ensures id == nextId == old(nextId) + 1
      ensures subscribers == Added(old(subscribers), key, id, ch)
    {
      nextId := nextId + 1;
      id := nextId;
      ch := new EventChannel(key, id);
      hide NoEmptyKey;
      RegistrationsChange(subscribers, key, id, ch, key, id);
      subscribers := subscribers[key := Under(subscribers, key)[id := ch]];
    }

    method Unregister(key: string, id: nat)
      requires Valid()
      modifies this
      ensures Valid() && nextId == old(nextId) && subscribers == Removed(old(subscribers), key, id)
    {
      var rest := Under(subscribers, key) - {id};
      if rest == map[] {
        subscribers := subscribers - {key};
      } else {
        subscribers := subscribers[key := rest];
      }
    }

    method HasSubscribers(key: string) returns (r: bool)
      requires Valid()
      ensures r <==> exists id :: Registered(subscribers, key, id)
    {
      r := Under(subscribers, key) != map[];
      if r {
        assert Under(subscribers, key).Keys != {};
        var id :| id in Under(subscribers, key).Keys;
        assert Registered(subscribers, key, id);
      }
    }

    /** Every subscriber of the key gets the event unless its buffer is full;
        nobody else notices. */
    method Broadcast(key: string, e: Event)
      requires Valid()
      modifies Under(subscribers, key).Values
      ensures Valid()
      ensures forall id :: id in Under(subscribers, key) ==>
                Under(subscribers, key)[id].View() == TrySend(old(Under(subscribers, key)[id].View()), e)
    {
      OfferAll(Under(subscribers, key), e);
    }

    /** Every subscriber of the key gets the event as its last and is closed,
        once; the key is forgotten. */
    method Terminate(key: string, e: Event)
      requires Valid()
      modifies this, Under(subscribers, key).Values
      ensures Valid() && nextId == old(nextId) && subscribers == old(subscribers) - {key}
      ensures forall id :: id in old(Under(subscribers, key)) ==>
                old(Under(subscribers, key))[id].View()
                == WithTerminal(old(Under(subscribers, key)[id].View()), e).(closed := true)
    {
      hide WithTerminal, NoEmptyKey;
      var ids := Under(subscribers, key);
      KeyForgotten(subscribers, key);
      subscribers := subscribers - {key};
      EndAll(ids, e);
    }
  }

  /** Each subscriber has a channel of its own, still open. */
  ghost predicate OwnChannels(ids: map<nat, EventChannel>)
    reads ids.Values
  {
    forall id :: id in ids ==> ids[id].id == id && !ids[id].closed
  }

  method OfferAll(ids: map<nat, EventChannel>, e: Event)
    requires OwnChannels(ids)
    modifies ids.Values
    ensures forall id :: id in ids ==> ids[id].View() == TrySend(old(ids[id].View()), e)
  {
    var left := ids.Keys;
    while left != {}
      invariant left <= ids.Keys
      invariant forall id :: id in left ==> ids[id].View() == old(ids[id].View())
      invariant forall id :: id in ids && id !in left ==> ids[id].View() == TrySend(old(ids[id].View()), e)
      decreases |left|
    {
      var id :| id in left;
      left := left - {id};
      var ch := ids[id];
      if |ch.buffer| < CAPACITY {
        ch.buffer := ch.buffer + [e];
      }
    }
  }

  method EndAll(ids: map<nat, EventChannel>, e: Event)
    requires OwnChannels(ids)
    modifies ids.Values
    ensures forall id :: id in ids ==> ids[id].View() == WithTerminal(old(ids[id].View()), e).(closed := true)
  {
    var left := ids.Keys;
    while left != {}
      invariant left <= ids.Keys
      invariant forall id :: id in left ==> ids[id].View() == old(ids[id].View())
      invariant forall id :: id in ids && id !in left ==>
                  ids[id].View() == WithTerminal(old(ids[id].View()), e).(closed := true)
      decreases |left|
    {
      var id :| id in left;
      left := left - {id};
      var ch := ids[id];
      ch.SendTerminal(e);
      ch.closed := true;
    }
  }
}
