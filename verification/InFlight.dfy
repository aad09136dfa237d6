/** The relay's in-flight limiter: two counters and a set, which must always
    agree with the slots that are out. */
module InFlight {
  /** A slot that was granted and not yet released. */
  datatype Slot = Slot(session: string, client: string)

  datatype Outcome = Granted | ChunkInProgress | SessionLimit | ClientLimit

  type Counters = map<string, int>

  function Read(m: Counters, key: string): int {
    if key in m then m[key] else 0
  }

  function Incremented(m: Counters, key: string): Counters {
    m[key := Read(m, key) + 1]
  }

  /** decrementOrDelete. */
  function Decremented(m: Counters, key: string): Counters {
    if Read(m, key) <= 1 then m - {key} else m[key := m[key] - 1]
  }

  /** The slots out on behalf of one session, or of one client. */
  ghost function Held(slots: map<string, Slot>, byClient: bool, key: string): set<string> {
    set c | c in slots && (if byClient then slots[c].client else slots[c].session) == key
  }

  ghost function Number(slots: map<string, Slot>, byClient: bool, key: string): nat {
    |Held(slots, byClient, key)|
  }

  function Of(slot: Slot, byClient: bool): string {
    if byClient then slot.client else slot.session
  }

  lemma NumberAfterGrant(slots: map<string, Slot>, byClient: bool, chunk: string, slot: Slot, key: string)
    requires chunk !in slots
    ensures Number(slots[chunk := slot], byClient, key)
            == Number(slots, byClient, key) + (if key == Of(slot, byClient) then 1 else 0)
  {
    var before, after := Held(slots, byClient, key), Held(slots[chunk := slot], byClient, key);
    if key == Of(slot, byClient) {
      assert after == before + {chunk};
    } else {
      assert after == before;
    }
  }

  lemma NumberAfterRelease(slots: map<string, Slot>, byClient: bool, chunk: string, key: string)
    requires chunk in slots
    ensures Number(slots - {chunk}, byClient, key)
            == Number(slots, byClient, key) - (if key == Of(slots[chunk], byClient) then 1 else 0)
  {
    assert Held(slots - {chunk}, byClient, key)
        == Held(slots, byClient, key) - (if key == Of(slots[chunk], byClient) then {chunk} else {});
  }

  /** A counter has an entry exactly for those who hold slots, and it is their number. */
  ghost predicate Counts(m: Counters, slots: map<string, Slot>, byClient: bool) {
    forall key :: CountsKey(m, slots, byClient, key)
  }

  ghost predicate CountsKey(m: Counters, slots: map<string, Slot>, byClient: bool, key: string) {
    Read(m, key) == Number(slots, byClient, key) && (key in m ==> m[key] > 0)
  }

  lemma GrantCounts(m: Counters, slots: map<string, Slot>, byClient: bool, chunk: string, slot: Slot)
    requires Counts(m, slots, byClient) && chunk !in slots
    ensures Counts(Incremented(m, Of(slot, byClient)), slots[chunk := slot], byClient)
  {
    hide Number;
    var n, after := Incremented(m, Of(slot, byClient)), slots[chunk := slot];
    forall key ensures CountsKey(n, after, byClient, key) {
      assert CountsKey(m, slots, byClient, key);
      NumberAfterGrant(slots, byClient, chunk, slot, key);
    }
  }

  lemma ReleaseCounts(m: Counters, slots: map<string, Slot>, byClient: bool, chunk: string)
    requires Counts(m, slots, byClient) && chunk in slots
    ensures Counts(Decremented(m, Of(slots[chunk], byClient)), slots - {chunk}, byClient)
  {
    hide Number;
    forall key ensures CountsKey(Decremented(m, Of(slots[chunk], byClient)), slots - {chunk}, byClient, key) {
      assert CountsKey(m, slots, byClient, key);
      NumberAfterRelease(slots, byClient, chunk, key);
    }
  }

  /** No holder has more than `max` slots; a limit that is not positive is none. */
  ghost predicate Within(slots: map<string, Slot>, byClient: bool, max: int) {
    max > 0 ==> forall key :: Number(slots, byClient, key) <= max
  }

  lemma GrantWithin(slots: map<string, Slot>, byClient: bool, chunk: string, slot: Slot, max: int)
    requires Within(slots, byClient, max) && chunk !in slots
    requires max > 0 ==> Number(slots, byClient, Of(slot, byClient)) < max
    ensures Within(slots[chunk := slot], byClient, max)
  {
    hide Number;
    var after := slots[chunk := slot];
    if max > 0 {
      forall key ensures Number(after, byClient, key) <= max {
        NumberAfterGrant(slots, byClient, chunk, slot, key);
      }
    }
  }

  lemma ReleaseWithin(slots: map<string, Slot>, byClient: bool, chunk: string, max: int)
    requires Within(slots, byClient, max) && chunk in slots
    ensures Within(slots - {chunk}, byClient, max)
  {
    hide Number;
    if max > 0 {
      forall key ensures Number(slots - {chunk}, byClient, key) <= max {
        NumberAfterRelease(slots, byClient, chunk, key);
      }
    }
  }

  class RelayInFlightLimiter {
    var sessions: Counters
    var clients: Counters
    var chunks: set<string>
    const maxSession: int
    const maxClient: int
    ghost var slots: map<string, Slot>

    ghost predicate Valid()
      reads this
    {
      && chunks == slots.Keys
      && Counts(sessions, slots, false) && Counts(clients, slots, true)
      && Within(slots, false, maxSession) && Within(slots, true, maxClient)
    }

    constructor (maxSession: int, maxClient: int)
      ensures Valid() && slots == map[] && this.maxSession == maxSession && this.maxClient == maxClient
    {
      sessions, clients, chunks, slots := map[], map[], {}, map[];
      this.maxSession, this.maxClient := maxSession, maxClient;
    }

    /** A slot is granted exactly when the chunk is not in progress and both
        limits leave room; the reason for a refusal is the first that applies,
        and a refusal changes nothing. */
    method Acquire(session: string, client: string, chunk: string) returns (r: Outcome)
      requires Valid()
      modifies this
      ensures Valid()
      ensures r == (if chunk in old(slots) then ChunkInProgress
                    else if maxSession > 0 && Number(old(slots), false, session) >= maxSession then SessionLimit
                    else if maxClient > 0 && Number(old(slots), true, client) >= maxClient then ClientLimit
                    else Granted)
      ensures r.Granted? ==> slots == old(slots)[chunk := Slot(session, client)]
      ensures !r.Granted? ==>
                slots == old(slots) && sessions == old(sessions) && clients == old(clients) && chunks == old(chunks)
    {
      hide Number, Within;
      assert CountsKey(sessions, slots, false, session) && CountsKey(clients, slots, true, client);
      if chunk in chunks {
        return ChunkInProgress;
      }
      if maxSession > 0 && Read(sessions, session) >= maxSession {
        return SessionLimit;
      }
      if maxClient > 0 && Read(clients, client) >= maxClient {
        return ClientLimit;
      }
      ghost var slot := Slot(session, client);
      GrantCounts(sessions, slots, false, chunk, slot);
      GrantCounts(clients, slots, true, chunk, slot);
      GrantWithin(slots, false, chunk, slot, maxSession);
      GrantWithin(slots, true, chunk, slot, maxClient);
      sessions := Incremented(sessions, session);
      clients := Incremented(clients, client);
      chunks := chunks + {chunk};
      slots := slots[chunk := slot];
      return Granted;
    }

    /** The release function of a granted slot. */
    method Release(session: string, client: string, chunk: string)
      requires Valid() && chunk in slots && slots[chunk] == Slot(session, client)
      modifies this
      ensures Valid() && slots == old(slots) - {chunk}
    {
      ReleaseCounts(sessions, slots, false, chunk);
      ReleaseCounts(clients, slots, true, chunk);
      ReleaseWithin(slots, false, chunk, maxSession);
      ReleaseWithin(slots, true, chunk, maxClient);
      sessions := Decremented(sessions, session);
      clients := Decremented(clients, client);
      chunks := chunks - {chunk};
      slots := slots - {chunk};
    }

    /** Once every slot is back nothing is left behind. */
    lemma AllReleased()
      requires Valid() && slots == map[]
      ensures sessions == map[] && clients == map[] && chunks == {}
    {
      forall key ensures key !in sessions && key !in clients {
        assert CountsKey(sessions, slots, false, key) && CountsKey(clients, slots, true, key);
      }
    }
  }
}
