/** Every interleaving of hub operations and subscribers. Register, unregister,
    broadcast and terminate run under the hub's mutex; receives do not, and may
    come between any two channel operations of a broadcast or a termination. */
module FanoutRuns {
  import opened Text
  import opened Fanout

  /** A subscriber. `since` is where in the log it registered, `offered` what
      was meant for it so far, `got` what its handler received. */
  datatype Subscriber = Subscriber(key: string, id: nat, since: nat, offered: seq<Event>, got: seq<Event>,
                                   accepted: nat, evicted: nat, gone: bool)

  /** How far sendTerminalFanoutEvent and close are with one channel. */
  datatype Stage = First | Full | Evicted | Sent

  /** What the holder of the mutex is doing, and to which channels still. */
  datatype Lock =
    | Free
    | Broadcasting(event: Event, todo: set<nat>)
    | Terminating(event: Event, todo: set<nat>, at: Option<(nat, Stage)>)

  datatype Published = Published(key: string, event: Event)

  /** `issued` remembers which channel each id was given to, `log` lists
      broadcasts and terminations, `panicked` records a send on, or a close of,
      a closed channel. */
  datatype Hub = Hub(nextId: nat, subs: Subscribers<nat>, chans: map<nat, Channel>, who: map<nat, Subscriber>,
                     lock: Lock, issued: map<nat, nat>, log: seq<Published>, panicked: bool)

  datatype Label =
    | Register(key: string, ch: nat)
    | Unregister(ch: nat)
    | StartBroadcast(key: string, event: Event)
    | Offer(ch: nat)
    | StartTerminate(key: string, event: Event)
    | Pick(ch: nat)
    | TryFirst
    | Evict
    | TryAgain
    | Close
    | Unlock
    | Receive(ch: nat)
    | Leave(ch: nat)

  // -------------------------------------------------------------------- steps

  /** A lossy send of `e` to channel `ch`. */
  function Send(h: Hub, ch: nat, e: Event): Hub
    requires ch in h.chans && ch in h.who
  {
    var c, u := h.chans[ch], h.who[ch];
    h.(chans := h.chans[ch := TrySend(c, e)],
       who := h.who[ch := u.(offered := u.offered + [e],
                             accepted := if |c.buffer| < CAPACITY then u.accepted + 1 else u.accepted)],
       panicked := h.panicked || c.closed)
  }

  function HandlesUnder(h: Hub, key: string): set<nat> {
    Under(h.subs, key).Values
  }

  predicate Enabled(h: Hub, l: Label) {
    match l
    case Register(_, ch) => h.lock.Free? && ch !in h.chans
    case Unregister(ch) => h.lock.Free? && ch in h.who && h.who[ch].gone
    case StartBroadcast(_, e) => h.lock.Free? && !e.terminal
    case Offer(ch) => h.lock.Broadcasting? && ch in h.lock.todo && ch in h.chans && ch in h.who
    case StartTerminate(_, e) => h.lock.Free? && e.terminal
    case Pick(ch) => h.lock.Terminating? && h.lock.at.None? && ch in h.lock.todo
    case TryFirst => At(h, First)
    case Evict => At(h, Full)
    case TryAgain => At(h, Evicted)
    case Close => At(h, Sent)
    case Unlock => (h.lock.Broadcasting? || (h.lock.Terminating? && h.lock.at.None?)) && h.lock.todo == {}
    case Receive(ch) => ch in h.chans && ch in h.who && !h.who[ch].gone && h.chans[ch].buffer != []
    case Leave(ch) => ch in h.who
  }

  predicate At(h: Hub, stage: Stage) {
    && h.lock.Terminating? && h.lock.at.Some? && h.lock.at.value.1 == stage
    && h.lock.at.value.0 in h.chans && h.lock.at.value.0 in h.who
  }

  function Current(h: Hub): nat
    requires h.lock.Terminating? && h.lock.at.Some?
  {
    h.lock.at.value.0
  }

  function Moved(h: Hub, stage: Stage): Hub
    requires h.lock.Terminating? && h.lock.at.Some?
  {
    h.(lock := h.lock.(at := Some((Current(h), stage))))
  }

  function Step(h: Hub, l: Label): Hub
    requires Enabled(h, l)
  {
    match l
    case Register(key, ch) =>
      var id := h.nextId + 1;
      h.(nextId := id, subs := Added(h.subs, key, id, ch), chans := h.chans[ch := Channel([], false)],
         who := h.who[ch := Subscriber(key, id, |h.log|, [], [], 0, 0, false)], issued := h.issued[id := ch])
    case Unregister(ch) => h.(subs := Removed(h.subs, h.who[ch].key, h.who[ch].id))
    case StartBroadcast(key, e) =>
      h.(lock := Broadcasting(e, HandlesUnder(h, key)), log := h.log + [Published(key, e)])
    case Offer(ch) => Send(h, ch, h.lock.event).(lock := Broadcasting(h.lock.event, h.lock.todo - {ch}))
    case StartTerminate(key, e) =>
      h.(lock := Terminating(e, HandlesUnder(h, key), None), log := h.log + [Published(key, e)], subs := h.subs - {key})
    case Pick(ch) => h.(lock := Terminating(h.lock.event, h.lock.todo - {ch}, Some((ch, First))))
    case TryFirst =>
      if |h.chans[Current(h)].buffer| < CAPACITY then Moved(Send(h, Current(h), h.lock.event), Sent) else Moved(h, Full)
    case Evict =>
      var ch := Current(h);
      var c, u := h.chans[ch], h.who[ch];
      Moved(h, Evicted).(chans := h.chans[ch := TryReceive(c)],
                         who := h.who[ch := u.(evicted := if c.buffer == [] then u.evicted else u.evicted + 1)])
    case TryAgain => Moved(Send(h, Current(h), h.lock.event), Sent)
    case Close =>
      var ch := Current(h);
      h.(chans := h.chans[ch := h.chans[ch].(closed := true)], panicked := h.panicked || h.chans[ch].closed,
         lock := h.lock.(at := None))
    case Unlock => h.(lock := Free)
    case Receive(ch) =>
      var e, u := h.chans[ch].buffer[0], h.who[ch];
      h.(chans := h.chans[ch := TryReceive(h.chans[ch])],
         who := h.who[ch := u.(got := u.got + [e], gone := e.terminal)])
    case Leave(ch) => h.(who := h.who[ch := h.who[ch].(gone := true)])
  }

  ghost predicate Run(hs: seq<Hub>, ls: seq<Label>) {
    && |hs| == |ls| + 1
    && hs[0] == Hub(0, map[], map[], map[], Free, map[], [], false)
    && forall i :: 0 <= i < |ls| ==> Enabled(hs[i], ls[i]) && hs[i + 1] == Step(hs[i], ls[i])
  }

  // ------------------------------------------------------------ the invariant

  /** The events published under `key` from position `since` on. */
  function Events(log: seq<Published>, key: string, since: nat): seq<Event> {
    if |log| <= since then []
    else
      var p := log[|log| - 1];
      Events(log[..|log| - 1], key, since) + (if p.key == key then [p.event] else [])
  }

  /** What the mutex holder still has to do with a channel. */
  datatype Phase = Idle | Offering(e: Event) | Ending(e: Event, stage: Stage)

  function PhaseOf(lock: Lock, ch: nat): Phase {
    match lock
    case Free => Idle
    case Broadcasting(e, todo) => if ch in todo then Offering(e) else Idle
    case Terminating(e, todo, at) =>
      if at.Some? && at.value.0 == ch then Ending(e, at.value.1)
      else if ch in todo then Ending(e, First)
      else Idle
  }

  function Pending(p: Phase): seq<Event> {
    match p
    case Idle => []
    case Offering(e) => [e]
    case Ending(e, stage) => if stage == Sent then [] else [e]
  }

  predicate IsRegistered(subs: Subscribers<nat>, u: Subscriber, ch: nat) {
    Registered(subs, u.key, u.id) && subs[u.key][u.id] == ch
  }

  /** The terminal event has been sent to this channel. */
  predicate Ended(c: Channel, p: Phase) {
    c.closed || (p.Ending? && p.stage == Sent)
  }

  ghost predicate NoTerminal(events: seq<Event>) {
    forall i :: 0 <= i < |events| ==> !events[i].terminal
  }

  /** Delivery: nothing but what was offered, in order; after the end, the
      terminal event last. */
  ghost predicate DeliveryOk(c: Channel, u: Subscriber, p: Phase) {
    && |c.buffer| <= CAPACITY
    && Subsequence(u.got + c.buffer, u.offered)
    && (if Ended(c, p) then
          && u.offered != [] && NoTerminal(u.offered[..|u.offered| - 1]) && u.offered[|u.offered| - 1].terminal
          && u.got + c.buffer != [] && (u.got + c.buffer)[|u.got + c.buffer| - 1] == u.offered[|u.offered| - 1]
        else NoTerminal(u.offered))
  }

  /** Accounting: every accepted event is received, buffered, or the one that
      made room for the terminal event. */
  predicate CountsOk(c: Channel, u: Subscriber, p: Phase) {
    && u.accepted == |u.got| + |c.buffer| + u.evicted
    && u.evicted <= 1
    && (!Ended(c, p) && !(p.Ending? && p.stage == Evicted) ==> u.evicted == 0)
    && (p.Ending? && p.stage == Evicted ==> |c.buffer| < CAPACITY)
  }

  /** What was offered is what was published under the key since; only who left
      is dropped without being closed. */
  ghost predicate OfferedOk(log: seq<Published>, registered: bool, c: Channel, u: Subscriber, p: Phase) {
    && u.since <= |log|
    && u.offered + Pending(p) <= Events(log, u.key, u.since)
    && (registered ==> !c.closed && u.offered + Pending(p) == Events(log, u.key, u.since) && !p.Ending?)
    && (!p.Idle? ==> !c.closed)
    && (p.Idle? && !registered && !c.closed ==> u.gone)
    && (p.Offering? ==> registered && !p.e.terminal) && (p.Ending? ==> p.e.terminal)
  }

  ghost predicate Sound(log: seq<Published>, registered: bool, c: Channel, u: Subscriber, p: Phase) {
    DeliveryOk(c, u, p) && CountsOk(c, u, p) && OfferedOk(log, registered, c, u, p)
  }

  ghost predicate ChannelOk(h: Hub, ch: nat)
    requires ch in h.chans && ch in h.who
  {
    && h.who[ch].id in h.issued && h.issued[h.who[ch].id] == ch
    && Sound(h.log, IsRegistered(h.subs, h.who[ch], ch), h.chans[ch], h.who[ch], PhaseOf(h.lock, ch))
  }

  ghost predicate MapsOk(h: Hub) {
    && h.chans.Keys == h.who.Keys
    && NoEmptyKey(h.subs)
    && (forall k, id :: Registered(h.subs, k, id) ==>
          h.subs[k][id] in h.who && h.who[h.subs[k][id]].key == k && h.who[h.subs[k][id]].id == id)
    && (forall id :: id in h.issued ==> id <= h.nextId)
  }

  ghost predicate LockOk(h: Hub) {
    match h.lock
    case Free => true
    case Broadcasting(_, todo) => todo <= h.who.Keys
    case Terminating(_, todo, at) => todo <= h.who.Keys && (at.Some? ==> at.value.0 in h.who && at.value.0 !in todo)
  }

  ghost predicate Inv(h: Hub) {
    && MapsOk(h) && LockOk(h) && !h.panicked
    && forall ch :: ch in h.who ==> ch in h.chans && ChannelOk(h, ch)
  }

  // ----------------------------------------------------- one channel, one step

  /** Any send that the mutex holder owes a channel, when it can succeed. */
  lemma SendSound(log: seq<Published>, registered: bool, c: Channel, u: Subscriber, p: Phase, next: Phase)
    requires Sound(log, registered, c, u, p)
    requires || (p.Offering? && next.Idle?)
             || (p.Ending? && p.stage != Sent && |c.buffer| < CAPACITY && next == Ending(p.e, Sent))
    ensures Sound(log, registered, TrySend(c, p.e),
                  u.(offered := u.offered + [p.e],
                     accepted := if |c.buffer| < CAPACITY then u.accepted + 1 else u.accepted),
                  next)
  {
    var seen := u.got + c.buffer;
    if |c.buffer| < CAPACITY {
      SubsequenceTake(seen, u.offered, p.e);
      assert u.got + (c.buffer + [p.e]) == seen + [p.e];
    } else {
      SubsequenceSkip(seen, u.offered, p.e);
    }
    assert (u.offered + [p.e])[..|u.offered|] == u.offered;
    assert (u.offered + [p.e]) + [] == u.offered + [p.e];
  }

  lemma EvictSound(log: seq<Published>, registered: bool, c: Channel, u: Subscriber, e: Event)
    requires Sound(log, registered, c, u, Ending(e, Full))
    ensures Sound(log, registered, TryReceive(c), u.(evicted := if c.buffer == [] then u.evicted else u.evicted + 1),
                  Ending(e, Evicted))
  {
    if c.buffer != [] {
      var seen := u.got + c.buffer;
      SubsequenceDrop(seen, u.offered, |u.got|);
      assert seen[..|u.got|] + seen[|u.got| + 1..] == u.got + c.buffer[1..];
    }
  }

  lemma ReceiveSound(log: seq<Published>, registered: bool, c: Channel, u: Subscriber, p: Phase, gone: bool)
    requires Sound(log, registered, c, u, p) && c.buffer != [] && !u.gone
    ensures Sound(log, registered, TryReceive(c), u.(got := u.got + [c.buffer[0]], gone := gone), p)
  {
    assert u.got + c.buffer == (u.got + [c.buffer[0]]) + c.buffer[1..];
  }

  lemma CloseSound(log: seq<Published>, registered: bool, c: Channel, u: Subscriber, e: Event)
    requires Sound(log, registered, c, u, Ending(e, Sent))
    ensures !c.closed && Sound(log, registered, c.(closed := true), u, Idle)
  {
  }

  lemma FullSound(log: seq<Published>, registered: bool, c: Channel, u: Subscriber, e: Event)
    requires Sound(log, registered, c, u, Ending(e, First))
    ensures Sound(log, registered, c, u, Ending(e, Full))
  {
  }

  /** Unregistering a subscriber who left asks less of its channel. */
  lemma UnregisteredSound(log: seq<Published>, registered: bool, c: Channel, u: Subscriber)
    requires Sound(log, registered, c, u, Idle) && u.gone
    ensures Sound(log, false, c, u, Idle)
  {
  }

  lemma EventsGrow(log: seq<Published>, p: Published, key: string, since: nat)
    requires since <= |log|
    ensures Events(log + [p], key, since) == Events(log, key, since) + (if p.key == key then [p.event] else [])
  {
    assert (log + [p])[..|log|] == log;
  }

  /** A new publication: subscribers of its key have it pending, others do not
      notice. */
  lemma PublishSound(log: seq<Published>, pub: Published, registered: bool, c: Channel, u: Subscriber, next: Phase)
    requires Sound(log, registered, c, u, Idle)
    requires if registered && pub.key == u.key then
               next == (if pub.event.terminal then Ending(pub.event, First) else Offering(pub.event))
             else next == Idle
    ensures Sound(log + [pub], registered && !(pub.event.terminal && pub.key == u.key), c, u, next)
  {
    EventsGrow(log, pub, u.key, u.since);
  }

  // ------------------------------------------------------ every step keeps it

  lemma InvChannel(h: Hub, ch: nat)
    requires Inv(h) && ch in h.who
    ensures ch in h.chans && ChannelOk(h, ch)
  {
  }

  /** A step that works on one channel only. */
  ghost predicate OnlyTouches(h: Hub, g: Hub, ch: nat) {
    && ch in h.who && ch in h.chans && ch in g.who && ch in g.chans
    && g.subs == h.subs && g.log == h.log && g.nextId == h.nextId && g.issued == h.issued
    && g.chans == h.chans[ch := g.chans[ch]] && g.who == h.who[ch := g.who[ch]]
    && g.who[ch].key == h.who[ch].key && g.who[ch].id == h.who[ch].id
    && forall dh :: dh != ch ==> PhaseOf(g.lock, dh) == PhaseOf(h.lock, dh)
  }

  lemma TouchKeepsMaps(h: Hub, g: Hub, ch: nat)
    requires MapsOk(h) && OnlyTouches(h, g, ch)
    ensures MapsOk(g)
  {
    hide PhaseOf;
    assert g.chans.Keys == h.chans.Keys && g.who.Keys == h.who.Keys;
  }

  lemma TouchKeeps(h: Hub, g: Hub, ch: nat)
    requires Inv(h) && OnlyTouches(h, g, ch) && LockOk(g) && !g.panicked
    requires Sound(h.log, IsRegistered(h.subs, h.who[ch], ch), g.chans[ch], g.who[ch], PhaseOf(g.lock, ch))
    ensures Inv(g)
  {
    hide Sound, PhaseOf, MapsOk, LockOk, IsRegistered;
    TouchKeepsMaps(h, g, ch);
    forall dh | dh in g.who ensures dh in g.chans && ChannelOk(g, dh) {
      InvChannel(h, dh);
      if dh == ch {
        SameRegistration(h.subs, h.who[ch], g.who[ch], ch);
      }
    }
  }

  lemma SameRegistration(subs: Subscribers<nat>, u: Subscriber, v: Subscriber, ch: nat)
    requires u.key == v.key && u.id == v.id
    ensures IsRegistered(subs, u, ch) == IsRegistered(subs, v, ch)
  {
  }

  lemma OfferKeeps(h: Hub, ch: nat)
    requires Inv(h) && Enabled(h, Offer(ch))
    ensures Inv(Step(h, Offer(ch)))
  {
    hide Sound, MapsOk, IsRegistered;
    InvChannel(h, ch);
    var c, u, p := h.chans[ch], h.who[ch], PhaseOf(h.lock, ch);
    var registered := IsRegistered(h.subs, u, ch);
    OpenWhenBusy(h.log, registered, c, u, p);
    SendSound(h.log, registered, c, u, p, Idle);
    TouchKeeps(h, Step(h, Offer(ch)), ch);
  }

  lemma TerminalSendKeeps(h: Hub, l: Label)
    requires Inv(h) && Enabled(h, l) && (l.TryFirst? || l.TryAgain?)
    ensures Inv(Step(h, l))
  {
    hide Sound, MapsOk, IsRegistered;
    var ch := Current(h);
    InvChannel(h, ch);
    var c, u, p := h.chans[ch], h.who[ch], PhaseOf(h.lock, ch);
    var registered := IsRegistered(h.subs, u, ch);
    OpenWhenBusy(h.log, registered, c, u, p);
    if |c.buffer| < CAPACITY {
      SendSound(h.log, registered, c, u, p, Ending(p.e, Sent));
    } else {
      FullSound(h.log, registered, c, u, p.e);
    }
    TouchKeeps(h, Step(h, l), ch);
  }

  lemma EvictOrCloseKeeps(h: Hub, l: Label)
    requires Inv(h) && Enabled(h, l) && (l.Evict? || l.Close?)
    ensures Inv(Step(h, l))
  {
    hide Sound, MapsOk, IsRegistered;
    var ch := Current(h);
    InvChannel(h, ch);
    var c, u, p := h.chans[ch], h.who[ch], PhaseOf(h.lock, ch);
    var registered := IsRegistered(h.subs, u, ch);
    if l.Evict? {
      EvictSound(h.log, registered, c, u, p.e);
    } else {
      CloseSound(h.log, registered, c, u, p.e);
    }
    TouchKeeps(h, Step(h, l), ch);
  }

  lemma ReaderStepKeeps(h: Hub, l: Label)
    requires Inv(h) && Enabled(h, l) && (l.Receive? || l.Leave?)
    ensures Inv(Step(h, l))
  {
    hide Sound, MapsOk, IsRegistered, PhaseOf, LockOk;
    InvChannel(h, l.ch);
    var c, u, p := h.chans[l.ch], h.who[l.ch], PhaseOf(h.lock, l.ch);
    var registered := IsRegistered(h.subs, u, l.ch);
    if l.Receive? {
      ReceiveSound(h.log, registered, c, u, p, c.buffer[0].terminal);
    } else {
      LeaveSound(h.log, registered, c, u, p);
    }
    SameLock(h, Step(h, l));
    TouchKeeps(h, Step(h, l), l.ch);
  }

  lemma SameLock(h: Hub, g: Hub)
    requires LockOk(h) && g.lock == h.lock && h.who.Keys <= g.who.Keys
    ensures LockOk(g)
  {
  }

  /** The mutex holder only works on open channels, and makes room first. */
  lemma OpenWhenBusy(log: seq<Published>, registered: bool, c: Channel, u: Subscriber, p: Phase)
    requires Sound(log, registered, c, u, p)
    ensures !p.Idle? ==> !c.closed
    ensures p.Ending? && p.stage == Evicted ==> |c.buffer| < CAPACITY
  {
  }

  lemma LeaveSound(log: seq<Published>, registered: bool, c: Channel, u: Subscriber, p: Phase)
    requires Sound(log, registered, c, u, p)
    ensures Sound(log, registered, c, u.(gone := true), p)
  {
  }

  /** Picking the next channel and unlocking change no channel's phase. */
  lemma LockStepKeeps(h: Hub, l: Label)
    requires Inv(h) && Enabled(h, l) && (l.Pick? || l.Unlock?)
    ensures Inv(Step(h, l))
  {
    hide Sound, IsRegistered;
    var g := Step(h, l);
    forall ch | ch in g.who ensures ch in g.chans && ChannelOk(g, ch) {
      InvChannel(h, ch);
      assert PhaseOf(g.lock, ch) == PhaseOf(h.lock, ch);
    }
  }

  lemma NewcomerSound(log: seq<Published>, key: string, id: nat)
    ensures Sound(log, true, Channel([], false), Subscriber(key, id, |log|, [], [], 0, 0, false), Idle)
  {
  }

  lemma RegisterMaps(h: Hub, key: string, ch: nat)
    requires MapsOk(h) && ch !in h.chans
    ensures MapsOk(Step(h.(lock := Free), Register(key, ch)))
  {
    var g := Step(h.(lock := Free), Register(key, ch));
    var id := g.nextId;
    forall k, i ensures Registered(g.subs, k, i) <==> Registered(h.subs, k, i) || (k == key && i == id) {
      RegistrationsChange(h.subs, key, id, ch, k, i);
    }
    assert NoEmptyKey(g.subs) by {
      RegistrationsChange(h.subs, key, id, ch, key, id);
    }
    assert g.chans.Keys == g.who.Keys;
  }

  lemma RegisterKeeps(h: Hub, key: string, ch: nat)
    requires Inv(h) && Enabled(h, Register(key, ch))
    ensures Inv(Step(h, Register(key, ch)))
  {
    hide Sound;
    var g := Step(h, Register(key, ch));
    assert h.(lock := Free) == h;
    RegisterMaps(h, key, ch);
    NewcomerSound(h.log, key, g.nextId);
    assert g.nextId !in h.issued;
    hide MapsOk, IsRegistered, Added;
    AddedHere(h.subs, key, g.nextId, ch, g.who[ch]);
    forall dh | dh in g.who ensures dh in g.chans && ChannelOk(g, dh) {
      if dh != ch {
        InvChannel(h, dh);
        AddedElsewhere(h.subs, key, g.nextId, ch, h.who[dh], dh);
      }
    }
  }

  lemma AddedHere(subs: Subscribers<nat>, key: string, id: nat, ch: nat, u: Subscriber)
    requires u.key == key && u.id == id
    ensures IsRegistered(Added(subs, key, id, ch), u, ch)
  {
  }

  lemma AddedElsewhere(subs: Subscribers<nat>, key: string, id: nat, ch: nat, u: Subscriber, dh: nat)
    requires u.id != id
    ensures IsRegistered(Added(subs, key, id, ch), u, dh) == IsRegistered(subs, u, dh)
  {
  }

  lemma UnregisterMaps(h: Hub, key: string, id: nat)
    requires MapsOk(h)
    ensures MapsOk(h.(subs := Removed(h.subs, key, id)))
  {
    var subs := Removed(h.subs, key, id);
    forall k, i
      ensures Registered(subs, k, i) ==> Registered(h.subs, k, i) && subs[k][i] == h.subs[k][i]
    {
      RegistrationsChange(h.subs, key, id, 0, k, i);
    }
    assert NoEmptyKey(subs) by {
      RegistrationsChange(h.subs, key, id, 0, key, id);
    }
  }

  lemma UnregisterKeeps(h: Hub, ch: nat)
    requires Inv(h) && Enabled(h, Unregister(ch))
    ensures Inv(Step(h, Unregister(ch)))
  {
    hide Sound, Removed, MapsOk;
    var g := Step(h, Unregister(ch));
    UnregisterMaps(h, h.who[ch].key, h.who[ch].id);
    InvChannel(h, ch);
    forall dh | dh in g.who ensures dh in g.chans && ChannelOk(g, dh) {
      InvChannel(h, dh);
      var u := h.who[dh];
      assert NoEmptyKey(h.subs) by { MapsNoEmpty(h); }
      RegistrationsChange(h.subs, h.who[ch].key, h.who[ch].id, 0, u.key, u.id);
      if dh == ch {
        UnregisteredSound(h.log, IsRegistered(h.subs, u, dh), h.chans[dh], u);
      } else {
        assert IsRegistered(g.subs, u, dh) == IsRegistered(h.subs, u, dh);
      }
    }
  }

  lemma MapsNoEmpty(h: Hub)
    requires MapsOk(h)
    ensures NoEmptyKey(h.subs)
  {
  }

  /** The channels a publication goes to are those registered under its key. */
  lemma HandlesAreRegistered(h: Hub, key: string, ch: nat)
    requires MapsOk(h) && ch in h.who
    ensures ch in HandlesUnder(h, key) <==> h.who[ch].key == key && IsRegistered(h.subs, h.who[ch], ch)
  {
    if ch in HandlesUnder(h, key) {
      var id :| id in Under(h.subs, key) && Under(h.subs, key)[id] == ch;
      assert Registered(h.subs, key, id);
    }
    if h.who[ch].key == key && IsRegistered(h.subs, h.who[ch], ch) {
      assert Under(h.subs, key)[h.who[ch].id] == ch;
    }
  }

  lemma HandlesExist(h: Hub, key: string)
    requires MapsOk(h)
    ensures HandlesUnder(h, key) <= h.who.Keys
  {
    forall dh | dh in HandlesUnder(h, key) ensures dh in h.who {
      var id :| id in Under(h.subs, key) && Under(h.subs, key)[id] == dh;
      assert Registered(h.subs, key, id);
    }
  }

  lemma StartMaps(h: Hub, key: string)
    requires MapsOk(h)
    ensures MapsOk(h.(subs := h.subs - {key}))
  {
    assert forall k, id :: Registered(h.subs - {key}, k, id) ==> Registered(h.subs, k, id);
  }

  lemma StartKeeps(h: Hub, l: Label)
    requires Inv(h) && Enabled(h, l) && (l.StartBroadcast? || l.StartTerminate?)
    ensures Inv(Step(h, l))
  {
    hide Sound, MapsOk, HandlesUnder;
    var g := Step(h, l);
    StartMaps(h, l.key);
    SameMaps(h, g, l.key);
    forall ch | ch in g.who ensures ch in g.chans && ChannelOk(g, ch) {
      InvChannel(h, ch);
      HandlesAreRegistered(h, l.key, ch);
      var u := h.who[ch];
      PublishSound(h.log, Published(l.key, l.event), IsRegistered(h.subs, u, ch), h.chans[ch], u, PhaseOf(g.lock, ch));
    }
    HandlesExist(h, l.key);
  }

  lemma SameMaps(h: Hub, g: Hub, key: string)
    requires MapsOk(h.(subs := h.subs - {key})) && MapsOk(h)
    requires g.chans == h.chans && g.who == h.who && g.nextId == h.nextId && g.issued == h.issued
    requires g.subs == h.subs || g.subs == h.subs - {key}
    ensures MapsOk(g)
  {
  }

  lemma StepKeeps(h: Hub, l: Label)
    requires Inv(h) && Enabled(h, l)
    ensures Inv(Step(h, l))
  {
    hide Inv, Step, Enabled;
    match l
    case Register(key, ch) => RegisterKeeps(h, key, ch);
    case Unregister(ch) => UnregisterKeeps(h, ch);
    case StartBroadcast(_, _) => StartKeeps(h, l);
    case StartTerminate(_, _) => StartKeeps(h, l);
    case Offer(ch) => OfferKeeps(h, ch);
    case Pick(_) => LockStepKeeps(h, l);
    case Unlock => LockStepKeeps(h, l);
    case TryFirst => TerminalSendKeeps(h, l);
    case TryAgain => TerminalSendKeeps(h, l);
    case Evict => EvictOrCloseKeeps(h, l);
    case Close => EvictOrCloseKeeps(h, l);
    case Receive(_) => ReaderStepKeeps(h, l);
    case Leave(_) => ReaderStepKeeps(h, l);
  }

  lemma {:induction false} RunInv(hs: seq<Hub>, ls: seq<Label>, i: nat)
    requires Run(hs, ls) && i <= |ls|
    ensures Inv(hs[i])
  {
    if i > 0 {
      RunInv(hs, ls, i - 1);
      hide Inv, Step, Enabled;
      StepKeeps(hs[i - 1], ls[i - 1]);
    }
  }

  // ----------------------------------------------------------- main theorems

  /** No interleaving sends on a closed channel or closes one twice. */
  lemma NeverPanics(hs: seq<Hub>, ls: seq<Label>, i: nat)
    requires Run(hs, ls) && i <= |ls|
    ensures !hs[i].panicked
  {
    RunInv(hs, ls, i);
  }

  /** A key is kept exactly while someone is registered under it, and no two
      subscribers ever had the same id. */
  lemma SubscriptionsAreSound(hs: seq<Hub>, ls: seq<Label>, i: nat, key: string, ch: nat, dh: nat)
    requires Run(hs, ls) && i <= |ls|
    ensures key in hs[i].subs <==> exists id :: Registered(hs[i].subs, key, id)
    ensures ch in hs[i].who && dh in hs[i].who && ch != dh ==> hs[i].who[ch].id != hs[i].who[dh].id
  {
    RunInv(hs, ls, i);
    hide Sound, Run;
    var h := hs[i];
    if key in h.subs {
      assert h.subs[key].Keys != {};
      var id :| id in h.subs[key].Keys;
      assert Registered(h.subs, key, id);
    }
    if ch in h.who && dh in h.who {
      InvChannel(h, ch);
      InvChannel(h, dh);
    }
  }

  lemma {:induction false} SubsequenceOfPrefix(a: seq<Event>, b: seq<Event>, c: seq<Event>)
    requires Subsequence(a, b) && b <= c
    ensures Subsequence(a, c)
    decreases |c|
  {
    if b != c {
      SubsequenceOfPrefix(a, b, c[..|c| - 1]);
    }
  }

  /** What a subscriber received and has buffered is, in order, some of what was
      published under its key since it registered; while it is registered and
      the hub is at rest, all of that has been offered to it. */
  lemma DeliveredInOrder(hs: seq<Hub>, ls: seq<Label>, i: nat, ch: nat)
    requires Run(hs, ls) && i <= |ls| && ch in hs[i].who
    ensures ch in hs[i].chans
    ensures var u, h := hs[i].who[ch], hs[i];
            && Subsequence(u.got + h.chans[ch].buffer, Events(h.log, u.key, u.since))
            && (h.lock.Free? && IsRegistered(h.subs, u, ch) ==> u.offered == Events(h.log, u.key, u.since))
  {
    RunInv(hs, ls, i);
    hide Run, CountsOk, Events, IsRegistered;
    InvChannel(hs[i], ch);
    var u := hs[i].who[ch];
    assert u.offered <= u.offered + Pending(PhaseOf(hs[i].lock, ch));
    SubsequenceOfPrefix(u.got + hs[i].chans[ch].buffer, u.offered, Events(hs[i].log, u.key, u.since));
  }

  /** A closed channel ends with the one terminal event meant for it, published
      under its key; to make room for it at most one accepted event was lost. */
  lemma TerminalArrivesLast(hs: seq<Hub>, ls: seq<Label>, i: nat, ch: nat)
    requires Run(hs, ls) && i <= |ls| && ch in hs[i].who && ch in hs[i].chans && hs[i].chans[ch].closed
    ensures var u := hs[i].who[ch];
            var seen := u.got + hs[i].chans[ch].buffer;
            && seen != [] && seen[|seen| - 1].terminal
            && u.offered != [] && seen[|seen| - 1] == u.offered[|u.offered| - 1]
            && NoTerminal(u.offered[..|u.offered| - 1])
            && |seen| <= u.accepted <= |seen| + 1
  {
    RunInv(hs, ls, i);
    hide Run, Events, IsRegistered, Subsequence;
    InvChannel(hs[i], ch);
  }

  /** Nobody is forgotten: whenever the hub is at rest, a subscriber that has not
      left is still registered or was closed, after its terminal event. */
  lemma NobodyIsForgotten(hs: seq<Hub>, ls: seq<Label>, i: nat, ch: nat)
    requires Run(hs, ls) && i <= |ls| && hs[i].lock.Free? && ch in hs[i].who && !hs[i].who[ch].gone
    ensures ch in hs[i].chans && (IsRegistered(hs[i].subs, hs[i].who[ch], ch) || hs[i].chans[ch].closed)
  {
    RunInv(hs, ls, i);
    hide Run, Events, IsRegistered, Subsequence;
    InvChannel(hs[i], ch);
  }

  // ------------------------------------------------ what a termination does

  /** The terminal event `e` is on its way to the channel, sent to it, or sent
      to it and followed by the close. */
  predicate EndsWith(c: Channel, u: Subscriber, p: Phase, e: Event) {
    || (p.Ending? && p.e == e && p.stage != Sent)
    || ((c.closed || p == Ending(e, Sent)) && u.offered != [] && u.offered[|u.offered| - 1] == e)
  }

  ghost predicate Ends(h: Hub, ch: nat, e: Event) {
    && ch in h.who && ch in h.chans && !IsRegistered(h.subs, h.who[ch], ch)
    && EndsWith(h.chans[ch], h.who[ch], PhaseOf(h.lock, ch), e)
  }

  lemma StartEnds(h: Hub, l: Label, ch: nat)
    requires Inv(h) && Enabled(h, l) && l.StartTerminate? && ch in HandlesUnder(h, l.key)
    ensures Ends(Step(h, l), ch, l.event)
  {
    HandlesExist(h, l.key);
    InvChannel(h, ch);
    HandlesAreRegistered(h, l.key, ch);
    hide Sound, Inv;
  }

  /** A newcomer gets an id of its own, and nobody comes back by leaving. */
  lemma RegistryKeepsEnd(h: Hub, l: Label, ch: nat, e: Event)
    requires Inv(h) && Enabled(h, l) && Ends(h, ch, e) && (l.Register? || l.Unregister?)
    ensures Ends(Step(h, l), ch, e)
  {
    InvChannel(h, ch);
    MapsNoEmpty(h);
    var u := h.who[ch];
    assert u.id <= h.nextId;
    hide Inv, Sound, Added, Removed, EndsWith;
    if l.Register? {
      AddedElsewhere(h.subs, l.key, h.nextId + 1, l.ch, u, ch);
    } else {
      RegistrationsChange(h.subs, h.who[l.ch].key, h.who[l.ch].id, 0, u.key, u.id);
    }
  }

  /** A new publication goes to registered channels only. */
  lemma StartKeepsEnd(h: Hub, l: Label, ch: nat, e: Event)
    requires Inv(h) && Enabled(h, l) && Ends(h, ch, e) && (l.StartBroadcast? || l.StartTerminate?)
    ensures Ends(Step(h, l), ch, e)
  {
    HandlesAreRegistered(h, l.key, ch);
    MapsNoEmpty(h);
    hide Inv, HandlesUnder, EndsWith;
    KeyForgotten(h.subs, l.key);
  }

  lemma LockKeepsEnd(h: Hub, l: Label, ch: nat, e: Event)
    requires Enabled(h, l) && Ends(h, ch, e) && (l.Pick? || l.Unlock?)
    ensures Ends(Step(h, l), ch, e)
  {
    hide IsRegistered, EndsWith;
    assert PhaseOf(Step(h, l).lock, ch) == PhaseOf(h.lock, ch);
  }

  /** Readers take events out but change nothing that was offered. */
  lemma ReaderKeepsEnd(h: Hub, l: Label, ch: nat, e: Event)
    requires Enabled(h, l) && Ends(h, ch, e) && (l.Receive? || l.Leave?)
    ensures Ends(Step(h, l), ch, e)
  {
    hide PhaseOf, IsRegistered;
    SameRegistration(h.subs, h.who[ch], Step(h, l).who[ch], ch);
  }

  /** A broadcast sends to open channels only, never to one that ends. */
  lemma OfferKeepsEnd(h: Hub, l: Label, ch: nat, e: Event)
    requires Inv(h) && Enabled(h, l) && Ends(h, ch, e) && l.Offer?
    ensures Ends(Step(h, l), ch, e)
  {
    InvChannel(h, l.ch);
    var p := PhaseOf(h.lock, l.ch);
    OpenWhenBusy(h.log, IsRegistered(h.subs, h.who[l.ch], l.ch), h.chans[l.ch], h.who[l.ch], p);
    hide Inv, Sound, TrySend, IsRegistered;
    assert l.ch != ch;
  }

  /** The termination sends its own event, and closes after it. */
  lemma TerminalKeepsEnd(h: Hub, l: Label, ch: nat, e: Event)
    requires Inv(h) && Enabled(h, l) && Ends(h, ch, e) && (l.TryFirst? || l.Evict? || l.TryAgain? || l.Close?)
    ensures Ends(Step(h, l), ch, e)
  {
    InvChannel(h, ch);
    var g, c, u, p := Step(h, l), h.chans[ch], h.who[ch], PhaseOf(h.lock, ch);
    OpenWhenBusy(h.log, IsRegistered(h.subs, u, ch), c, u, p);
    hide Inv, Sound, IsRegistered;
    if Current(h) == ch {
      assert p == Ending(e, h.lock.at.value.1);
      TerminalMoves(h, l);
      hide Step;
      SameRegistration(h.subs, u, g.who[ch], ch);
    } else {
      OthersRest(h, l, ch);
    }
  }

  /** What one step of a termination does to the channel it works on. */
  lemma TerminalMoves(h: Hub, l: Label)
    requires Enabled(h, l) && (l.TryFirst? || l.Evict? || l.TryAgain? || l.Close?)
    ensures var g, ch := Step(h, l), Current(h);
            && ch in g.who && ch in g.chans && g.subs == h.subs
            && g.who[ch].key == h.who[ch].key && g.who[ch].id == h.who[ch].id
            && (EndsWith(h.chans[ch], h.who[ch], PhaseOf(h.lock, ch), h.lock.event) ==>
                  EndsWith(g.chans[ch], g.who[ch], PhaseOf(g.lock, ch), h.lock.event))
  {
    hide TrySend, TryReceive;
  }

  lemma OthersRest(h: Hub, l: Label, ch: nat)
    requires Enabled(h, l) && (l.TryFirst? || l.Evict? || l.TryAgain? || l.Close?)
    requires ch != Current(h) && ch in h.who && ch in h.chans
    ensures var g := Step(h, l);
            && ch in g.who && ch in g.chans && g.subs == h.subs
            && g.who[ch] == h.who[ch] && g.chans[ch] == h.chans[ch] && PhaseOf(g.lock, ch) == PhaseOf(h.lock, ch)
  {
    hide TrySend, TryReceive;
  }

  lemma {:induction false} EndStays(hs: seq<Hub>, ls: seq<Label>, i: nat, j: nat, ch: nat)
    requires Run(hs, ls) && i < j <= |ls| && ls[i].StartTerminate? && ch in HandlesUnder(hs[i], ls[i].key)
    ensures Ends(hs[j], ch, ls[i].event)
    decreases j
  {
    RunInv(hs, ls, j - 1);
    hide Inv, Step, Enabled, Ends, HandlesUnder;
    if i == j - 1 {
      StartEnds(hs[i], ls[i], ch);
    } else {
      EndStays(hs, ls, i, j - 1, ch);
      match ls[j - 1]
      case Register(_, _) | Unregister(_) => RegistryKeepsEnd(hs[j - 1], ls[j - 1], ch, ls[i].event);
      case StartBroadcast(_, _) | StartTerminate(_, _) => StartKeepsEnd(hs[j - 1], ls[j - 1], ch, ls[i].event);
      case Pick(_) | Unlock => LockKeepsEnd(hs[j - 1], ls[j - 1], ch, ls[i].event);
      case Receive(_) | Leave(_) => ReaderKeepsEnd(hs[j - 1], ls[j - 1], ch, ls[i].event);
      case Offer(_) => OfferKeepsEnd(hs[j - 1], ls[j - 1], ch, ls[i].event);
      case TryFirst | Evict | TryAgain | Close => TerminalKeepsEnd(hs[j - 1], ls[j - 1], ch, ls[i].event);
    }
  }

  /** Every channel that was registered under a key when it was terminated, and
      whatever its subscriber did since, is closed once the hub is at rest
      again, and the last event received from it or left in it is the one the
      key was terminated with; at most one accepted event made room for it. */
  lemma TerminatedIsClosed(hs: seq<Hub>, ls: seq<Label>, i: nat, j: nat, ch: nat)
    requires Run(hs, ls) && i < j <= |ls| && ls[i].StartTerminate? && ch in HandlesUnder(hs[i], ls[i].key)
    requires hs[j].lock.Free?
    ensures ch in hs[j].who && ch in hs[j].chans && hs[j].chans[ch].closed
    ensures var u := hs[j].who[ch];
            var seen := u.got + hs[j].chans[ch].buffer;
            && seen != [] && seen[|seen| - 1] == ls[i].event && Subsequence(seen, u.offered)
            && NoTerminal(u.offered[..|u.offered| - 1]) && |seen| <= u.accepted <= |seen| + 1
  {
    hide Step, Enabled, Subsequence, IsRegistered;
    EndStays(hs, ls, i, j, ch);
    TerminalArrivesLast(hs, ls, j, ch);
    RunInv(hs, ls, j);
    InvChannel(hs[j], ch);
  }

  /** Ids are never reused: who is not registered shares its id with nobody. */
  lemma IdIsOwn(h: Hub, ch: nat)
    requires Inv(h) && ch in h.who && !IsRegistered(h.subs, h.who[ch], ch)
    ensures !Registered(h.subs, h.who[ch].key, h.who[ch].id)
  {
    InvChannel(h, ch);
    var key, id := h.who[ch].key, h.who[ch].id;
    if Registered(h.subs, key, id) {
      InvChannel(h, h.subs[key][id]);
    }
  }

  /** The release of a subscriber whose key was terminated changes nothing,
      however late it comes and whoever registered under the key since. */
  lemma LateUnregisterIsHarmless(hs: seq<Hub>, ls: seq<Label>, i: nat, j: nat, ch: nat)
    requires Run(hs, ls) && i < j < |ls| && ls[i].StartTerminate? && ch in HandlesUnder(hs[i], ls[i].key)
    requires ls[j] == Unregister(ch)
    ensures hs[j + 1] == hs[j]
  {
    EndStays(hs, ls, i, j, ch);
    RunInv(hs, ls, j);
    IdIsOwn(hs[j], ch);
    MapsNoEmpty(hs[j]);
    hide Inv, Removed;
    RemovingNobody(hs[j].subs, hs[j].who[ch].key, hs[j].who[ch].id);
  }

  /** No release, early or late, takes the registration of another subscriber. */
  lemma UnregisterTakesOnlyItsOwn(hs: seq<Hub>, ls: seq<Label>, j: nat, ch: nat, dh: nat)
    requires Run(hs, ls) && j < |ls| && ls[j] == Unregister(ch) && dh in hs[j].who && dh != ch
    ensures dh in hs[j + 1].who
    ensures IsRegistered(hs[j + 1].subs, hs[j + 1].who[dh], dh) == IsRegistered(hs[j].subs, hs[j].who[dh], dh)
  {
    RunInv(hs, ls, j);
    var h := hs[j];
    InvChannel(h, ch);
    InvChannel(h, dh);
    MapsNoEmpty(h);
    hide Inv, Removed, Sound;
    RegistrationsChange(h.subs, h.who[ch].key, h.who[ch].id, 0, h.who[dh].key, h.who[dh].id);
  }
}
