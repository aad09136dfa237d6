/** The fixed-window rate limiters: the process-local one, which prunes every
    expired entry on each call, and the shared one, a counter that expires. */
module RateLimiter {
  /** Instants are nanoseconds since the zero time.Time. */
  datatype Entry = Entry(count: nat, expiresAt: nat)

  type Entries = map<string, Entry>

  /** One call of Allow, with the clock reading it takes. */
  datatype Call = Call(key: string, limit: int, window: int, now: nat)

  const MILLISECOND: int := 1_000_000

  // ------------------------------------------------------------ the limiters

  /** A missing entry reads as the zero value. */
  function Get(m: Entries, key: string): Entry {
    if key in m then m[key] else Entry(0, 0)
  }

  function Pruned(m: Entries, now: nat): Entries {
    map k | k in m && now < m[k].expiresAt :: m[k]
  }

  predicate Unlimited(c: Call) {
    c.limit <= 0 || c.window <= 0
  }

  /** Counts a call and decides it, without pruning. */
  function Hit(m: Entries, c: Call): (Entries, bool)
    requires !Unlimited(c)
  {
    var e := Get(m, c.key);
    if e.expiresAt == 0 || c.now >= e.expiresAt then (m[c.key := Entry(1, c.now + c.window)], true)
    else (m[c.key := e.(count := e.count + 1)], e.count + 1 <= c.limit)
  }

  /** A limiter that never deletes an entry. */
  function Keeping(m: Entries, c: Call): (Entries, bool) {
    if Unlimited(c) then (m, true) else Hit(m, c)
  }

  /** memoryRateLimiter.Allow. */
  function Pruning(m: Entries, c: Call): (Entries, bool) {
    if Unlimited(c) then (m, true) else Hit(Pruned(m, c.now), c)
  }

  /** time.Duration.Milliseconds, at least one: the expiry the shared store gets. */
  function StoreWindow(window: int): int
    requires window > 0
  {
    if window < MILLISECOND then MILLISECOND else window - window % MILLISECOND
  }

  /** Valkey.Allow: increment, set the expiry on the first increment, compare. */
  function Shared(m: Entries, c: Call): (Entries, bool) {
    if Unlimited(c) then (m, true)
    else if c.key in m && c.now < m[c.key].expiresAt then
      var n := m[c.key].count + 1;
      (m[c.key := m[c.key].(count := n)], n <= c.limit)
    else (m[c.key := Entry(1, c.now + StoreWindow(c.window))], 1 <= c.limit)
  }

  /** The process-local limiter. */
  class MemoryRateLimiter {
    var entries: Entries

    constructor ()
      ensures entries == map[]
    {
      entries := map[];
    }

    method PruneExpired(now: nat)
      modifies this
      ensures entries == Pruned(old(entries), now)
    {
      var left := entries.Keys;
      while left != {}
        invariant left <= entries.Keys <= old(entries).Keys
        invariant forall k :: k in entries ==> entries[k] == old(entries)[k]
        invariant forall k :: k in old(entries) && k !in left ==> (k in entries <==> now < old(entries)[k].expiresAt)
        decreases |left|
      {
        var key :| key in left;
        left := left - {key};
        if !(now < entries[key].expiresAt) {
          entries := entries - {key};
        }
      }
    }

    method Allow(key: string, limit: int, window: int, now: nat) returns (allowed: bool)
      modifies this
      ensures (entries, allowed) == Pruning(old(entries), Call(key, limit, window, now))
    {
      if limit <= 0 || window <= 0 {
        return true;
      }
      PruneExpired(now);
      var entry := Get(entries, key);
      if entry.expiresAt == 0 || !(now < entry.expiresAt) {
        entries := entries[key := Entry(1, now + window)];
        return true;
      }
      entry := entry.(count := entry.count + 1);
      entries := entries[key := entry];
      return entry.count <= limit;
    }
  }

  // -------------------------------------------------------------------- runs

  datatype Kind = KeepingKind | PruningKind | SharedKind

  function Apply(kind: Kind, m: Entries, c: Call): (Entries, bool) {
    match kind
    case KeepingKind => Keeping(m, c)
    case PruningKind => Pruning(m, c)
    case SharedKind => Shared(m, c)
  }

  /** The entries after a run of calls from an empty limiter. */
  function After(kind: Kind, calls: seq<Call>): Entries {
    if calls == [] then map[]
    else Apply(kind, After(kind, calls[..|calls| - 1]), calls[|calls| - 1]).0
  }

  /** The decision on call `i`. */
  predicate Allowed(kind: Kind, calls: seq<Call>, i: nat)
    requires i < |calls|
  {
    Apply(kind, After(kind, calls[..i]), calls[i]).1
  }

  ghost predicate ClockForward(calls: seq<Call>) {
    forall i, j :: 0 <= i <= j < |calls| ==> calls[i].now <= calls[j].now
  }

  lemma AfterStep(kind: Kind, calls: seq<Call>, n: nat)
    requires n < |calls|
    ensures After(kind, calls[..n + 1]) == Apply(kind, After(kind, calls[..n]), calls[n]).0
  {
    assert calls[..n + 1][..n] == calls[..n];
  }

  // -------------------------------------------------------------- refinement

  /** The entry of a key if it is live at `now`, the zero entry otherwise. */
  function Live(m: Entries, key: string, now: nat): Entry {
    if key in m && now < m[key].expiresAt then m[key] else Entry(0, 0)
  }

  /** The two limiters agree on everything that is still live at `now`. */
  ghost predicate SameLive(m: Entries, n: Entries, now: nat) {
    forall k :: Live(m, k, now) == Live(n, k, now)
  }

  lemma SameLiveLater(m: Entries, n: Entries, now: nat, later: nat)
    requires SameLive(m, n, now) && now <= later
    ensures SameLive(m, n, later)
  {
    forall k ensures Live(m, k, later) == Live(n, k, later) {
      assert Live(m, k, now) == Live(n, k, now);
    }
  }

  lemma HitAgrees(m: Entries, n: Entries, c: Call)
    requires SameLive(m, n, c.now) && !Unlimited(c)
    ensures SameLive(Hit(m, c).0, Hit(n, c).0, c.now) && Hit(m, c).1 == Hit(n, c).1
  {
    assert Live(m, c.key, c.now) == Live(n, c.key, c.now);
    forall k ensures Live(Hit(m, c).0, k, c.now) == Live(Hit(n, c).0, k, c.now) {
      assert Live(m, k, c.now) == Live(n, k, c.now);
    }
  }

  lemma PruningAgrees(m: Entries, n: Entries, c: Call)
    requires SameLive(m, n, c.now)
    ensures SameLive(Keeping(m, c).0, Pruning(n, c).0, c.now) && Keeping(m, c).1 == Pruning(n, c).1
  {
    if !Unlimited(c) {
      assert forall k :: Live(Pruned(n, c.now), k, c.now) == Live(n, k, c.now);
      HitAgrees(m, Pruned(n, c.now), c);
    }
  }

  lemma SharedAgrees(m: Entries, n: Entries, c: Call)
    requires SameLive(m, n, c.now) && Sound(n)
    requires !Unlimited(c) ==> c.window % MILLISECOND == 0
    ensures SameLive(Keeping(m, c).0, Shared(n, c).0, c.now) && Keeping(m, c).1 == Shared(n, c).1
  {
    if !Unlimited(c) {
      assert Hit(n, c) == Shared(n, c);
      HitAgrees(m, n, c);
    }
  }

  /** No stored expiry is the zero time. */
  predicate Sound(m: Entries) {
    forall k :: k in m ==> m[k].expiresAt > 0
  }

  lemma {:induction false} AfterSound(kind: Kind, calls: seq<Call>)
    ensures Sound(After(kind, calls))
  {
    if calls != [] {
      AfterSound(kind, calls[..|calls| - 1]);
    }
  }

  ghost predicate WholeMilliseconds(calls: seq<Call>) {
    forall i :: 0 <= i < |calls| && !Unlimited(calls[i]) ==> calls[i].window % MILLISECOND == 0
  }

  lemma {:induction false} StatesAgree(kind: Kind, calls: seq<Call>, n: nat)
    requires ClockForward(calls) && n <= |calls| && (kind.SharedKind? ==> WholeMilliseconds(calls))
    ensures n < |calls| ==> SameLive(After(KeepingKind, calls[..n]), After(kind, calls[..n]), calls[n].now)
    ensures n < |calls| ==> Allowed(KeepingKind, calls, n) == Allowed(kind, calls, n)
  {
    if n < |calls| {
      if n == 0 {
        assert SameLive(map[], map[], calls[0].now);
      } else {
        StatesAgree(kind, calls, n - 1);
        AfterStep(KeepingKind, calls, n - 1);
        AfterStep(kind, calls, n - 1);
        StepAgrees(kind, calls, n - 1);
        SameLiveLater(After(KeepingKind, calls[..n]), After(kind, calls[..n]), calls[n - 1].now, calls[n].now);
      }
      StepAgrees(kind, calls, n);
    }
  }

  lemma StepAgrees(kind: Kind, calls: seq<Call>, n: nat)
    requires n < |calls| && (kind.SharedKind? ==> WholeMilliseconds(calls))
    requires SameLive(After(KeepingKind, calls[..n]), After(kind, calls[..n]), calls[n].now)
    ensures SameLive(Apply(KeepingKind, After(KeepingKind, calls[..n]), calls[n]).0,
                     Apply(kind, After(kind, calls[..n]), calls[n]).0, calls[n].now)
    ensures Allowed(KeepingKind, calls, n) == Allowed(kind, calls, n)
  {
    var m, k := After(KeepingKind, calls[..n]), After(kind, calls[..n]);
    AfterSound(kind, calls[..n]);
    hide SameLive;
    match kind
    case KeepingKind => SameLiveReflexive(Keeping(m, calls[n]).0, calls[n].now);
    case PruningKind => PruningAgrees(m, k, calls[n]);
    case SharedKind => SharedAgrees(m, k, calls[n]);
  }

  lemma SameLiveReflexive(m: Entries, now: nat)
    ensures SameLive(m, m, now)
  {
  }

  /** Pruning changes no decision: over any calls on any keys with any limits,
      as long as the clock does not go back. */
  lemma PruningRefinesKeeping(calls: seq<Call>, i: nat)
    requires ClockForward(calls) && i < |calls|
    ensures Allowed(PruningKind, calls, i) == Allowed(KeepingKind, calls, i)
  {
    StatesAgree(PruningKind, calls, i);
  }

  /** The process-local and the shared limiter decide alike on one clock when
      every window is a whole number of milliseconds. */
  lemma BackendsAgree(calls: seq<Call>, i: nat)
    requires ClockForward(calls) && WholeMilliseconds(calls) && i < |calls|
    ensures Allowed(PruningKind, calls, i) == Allowed(SharedKind, calls, i)
  {
    StatesAgree(PruningKind, calls, i);
    StatesAgree(SharedKind, calls, i);
  }

  /** With a clock that steps back pruning does change a decision: the entry of
      "a" is pruned on behalf of "b" and is missing when the clock returns. */
  lemma PruningNeedsForwardClock()
    ensures var calls := [Call("a", 1, 10, 100), Call("b", 1, 10, 115), Call("a", 1, 10, 105)];
            Allowed(PruningKind, calls, 2) && !Allowed(KeepingKind, calls, 2)
  {
    var a, b, c := Call("a", 1, 10, 100), Call("b", 1, 10, 115), Call("a", 1, 10, 105);
    var calls := [a, b, c];
    AfterStep(PruningKind, calls, 0);
    AfterStep(PruningKind, calls, 1);
    AfterStep(KeepingKind, calls, 0);
    AfterStep(KeepingKind, calls, 1);
  }

  // ------------------------------------------------- how much gets through

  /** All calls on `key` use one limit and one window, both positive. */
  ghost predicate Fixed(calls: seq<Call>, key: string, limit: nat, window: nat) {
    limit > 0 && window > 0
    && forall i :: 0 <= i < |calls| && calls[i].key == key ==> calls[i].limit == limit && calls[i].window == window
  }

  /** Calls on `key` among calls[from..n], read in [a, b), that were allowed. */
  function Admitted(kind: Kind, calls: seq<Call>, key: string, a: nat, b: nat, from: nat, n: nat): nat
    requires from <= n <= |calls|
    decreases n
  {
    if n == from then 0
    else
      var c := calls[n - 1];
      Admitted(kind, calls, key, a, b, from, n - 1)
      + (if c.key == key && a <= c.now < b && Allowed(kind, calls, n - 1) then 1 else 0)
  }

  lemma {:induction false} AdmittedAlike(calls: seq<Call>, key: string, a: nat, b: nat, from: nat, n: nat)
    requires ClockForward(calls) && from <= n <= |calls|
    ensures Admitted(PruningKind, calls, key, a, b, from, n) == Admitted(KeepingKind, calls, key, a, b, from, n)
  {
    if from < n {
      AdmittedAlike(calls, key, a, b, from, n - 1);
      PruningRefinesKeeping(calls, n - 1);
    }
  }

  function Min(x: int, y: int): int {
    if x < y then x else y
  }

  /** When the current window of a key opened. */
  function OpenedAt(e: Entry, window: nat): int {
    e.expiresAt - window
  }

  /** One key's entry across a call on it. */
  function NextEntry(e: Entry, window: nat, now: nat): Entry {
    if e.expiresAt == 0 || now >= e.expiresAt then Entry(1, now + window) else e.(count := e.count + 1)
  }

  predicate NextAllowed(e: Entry, limit: nat, now: nat) {
    e.expiresAt == 0 || now >= e.expiresAt || e.count + 1 <= limit
  }

  /** A call on another key leaves this key's entry alone. */
  lemma KeyStep(calls: seq<Call>, key: string, limit: nat, window: nat, n: nat)
    requires Fixed(calls, key, limit, window) && n < |calls|
    ensures var e, c := Get(After(KeepingKind, calls[..n]), key), calls[n];
            && Get(After(KeepingKind, calls[..n + 1]), key) == (if c.key == key then NextEntry(e, window, c.now) else e)
            && (c.key == key ==> Allowed(KeepingKind, calls, n) == NextAllowed(e, limit, c.now))
  {
    AfterStep(KeepingKind, calls, n);
  }

  function LastRead(calls: seq<Call>, n: nat): nat
    requires n <= |calls|
  {
    if n == 0 then 0 else calls[n - 1].now
  }

  /** What the current window says about the `f` admissions in [a, a + window):
      it opened before the interval, in it, or after it. */
  predicate Bounded(e: Entry, f: nat, last: nat, limit: nat, window: nat, a: nat) {
    && (e.expiresAt == 0 || last < a ==> f == 0)
    && (e.expiresAt > 0 ==>
          && e.count >= 1 && 0 <= OpenedAt(e, window) <= last
          && var o, c := OpenedAt(e, window), Min(e.count, limit);
             f <= (if o < a then c - 1 else if o < a + window then limit - 1 + c else 2 * limit - 1))
  }

  lemma CallKeepsBound(e: Entry, f: nat, last: nat, limit: nat, window: nat, a: nat, now: nat)
    requires Bounded(e, f, last, limit, window, a) && last <= now && limit > 0 && window > 0
    ensures var g := f + (if a <= now < a + window && NextAllowed(e, limit, now) then 1 else 0);
            Bounded(NextEntry(e, window, now), g, now, limit, window, a)
  {
  }

  lemma {:induction false} StaysBounded(calls: seq<Call>, key: string, limit: nat, window: nat, a: nat, n: nat)
    requires ClockForward(calls) && Fixed(calls, key, limit, window) && n <= |calls|
    ensures Bounded(Get(After(KeepingKind, calls[..n]), key), Admitted(KeepingKind, calls, key, a, a + window, 0, n),
                    LastRead(calls, n), limit, window, a)
  {
    if n > 0 {
      hide Allowed, After, Get, NextEntry, NextAllowed, Bounded;
      StaysBounded(calls, key, limit, window, a, n - 1);
      KeyStep(calls, key, limit, window, n - 1);
      assert LastRead(calls, n - 1) <= calls[n - 1].now;
      var e := Get(After(KeepingKind, calls[..n - 1]), key);
      var f := Admitted(KeepingKind, calls, key, a, a + window, 0, n - 1);
      if calls[n - 1].key == key {
        CallKeepsBound(e, f, LastRead(calls, n - 1), limit, window, a, calls[n - 1].now);
      } else {
        ClockKeepsBound(e, f, LastRead(calls, n - 1), limit, window, a, calls[n - 1].now);
      }
    }
  }

  lemma ClockKeepsBound(e: Entry, f: nat, last: nat, limit: nat, window: nat, a: nat, now: nat)
    requires Bounded(e, f, last, limit, window, a) && last <= now
    ensures Bounded(e, f, now, limit, window, a)
  {
  }

  /** In every half-open interval as long as the window, one key gets at most
      twice its limit less one through, whatever happens on other keys. */
  lemma SlidingBound(calls: seq<Call>, key: string, limit: nat, window: nat, a: nat)
    requires ClockForward(calls) && Fixed(calls, key, limit, window)
    ensures Admitted(PruningKind, calls, key, a, a + window, 0, |calls|) <= 2 * limit - 1
  {
    StaysBounded(calls, key, limit, window, a, |calls|);
    AdmittedAlike(calls, key, a, a + window, 0, |calls|);
  }

  /** Call `i` opens a window for its key. */
  predicate Opens(calls: seq<Call>, i: nat)
    requires i < |calls|
  {
    Live(After(KeepingKind, calls[..i]), calls[i].key, calls[i].now) == Entry(0, 0)
  }

  /** While the window opened at `o` lasts it has admitted its calls up to the limit. */
  predicate Filled(e: Entry, f: nat, last: nat, limit: nat, window: nat, o: nat) {
    && o <= last && e.expiresAt > 0 && f <= limit
    && (if OpenedAt(e, window) == o then f == Min(e.count, limit) else o + window <= OpenedAt(e, window) <= last)
  }

  lemma CallKeepsFilled(e: Entry, f: nat, last: nat, limit: nat, window: nat, o: nat, now: nat)
    requires Filled(e, f, last, limit, window, o) && last <= now && limit > 0 && window > 0
    ensures var g := f + (if o <= now < o + window && NextAllowed(e, limit, now) then 1 else 0);
            Filled(NextEntry(e, window, now), g, now, limit, window, o)
  {
  }

  lemma {:induction false} WindowFills(calls: seq<Call>, key: string, limit: nat, window: nat, i: nat, n: nat)
    requires ClockForward(calls) && Fixed(calls, key, limit, window) && i < n <= |calls|
    requires calls[i].key == key && Opens(calls, i)
    ensures var o := calls[i].now;
            Filled(Get(After(KeepingKind, calls[..n]), key), Admitted(KeepingKind, calls, key, o, o + window, i, n),
                   LastRead(calls, n), limit, window, o)
    decreases n
  {
    hide Allowed, After, Get, NextEntry, NextAllowed, Filled, Opens;
    KeyStep(calls, key, limit, window, n - 1);
    var o := calls[i].now;
    if i + 1 < n {
      WindowFills(calls, key, limit, window, i, n - 1);
      assert LastRead(calls, n - 1) <= calls[n - 1].now;
      var e := Get(After(KeepingKind, calls[..n - 1]), key);
      var f := Admitted(KeepingKind, calls, key, o, o + window, i, n - 1);
      if calls[n - 1].key == key {
        CallKeepsFilled(e, f, LastRead(calls, n - 1), limit, window, o, calls[n - 1].now);
      } else {
        ClockKeepsFilled(e, f, LastRead(calls, n - 1), limit, window, o, calls[n - 1].now);
      }
    } else {
      OpeningFills(calls, key, limit, window, i);
    }
  }

  lemma OpeningFills(calls: seq<Call>, key: string, limit: nat, window: nat, i: nat)
    requires Fixed(calls, key, limit, window) && i < |calls| && calls[i].key == key && Opens(calls, i)
    ensures var o := calls[i].now;
            Filled(Get(After(KeepingKind, calls[..i + 1]), key),
                   Admitted(KeepingKind, calls, key, o, o + window, i, i + 1),
                   o, limit, window, o)
  {
    hide After, Allowed;
    KeyStep(calls, key, limit, window, i);
    assert Admitted(KeepingKind, calls, key, calls[i].now, calls[i].now + window, i, i) == 0;
  }

  lemma ClockKeepsFilled(e: Entry, f: nat, last: nat, limit: nat, window: nat, o: nat, now: nat)
    requires Filled(e, f, last, limit, window, o) && last <= now
    ensures Filled(e, f, now, limit, window, o)
  {
  }

  /** A window, once opened, lets at most `limit` calls of its key through. */
  lemma WindowBound(calls: seq<Call>, key: string, limit: nat, window: nat, i: nat)
    requires ClockForward(calls) && Fixed(calls, key, limit, window) && i < |calls|
    requires calls[i].key == key && Opens(calls, i)
    ensures Admitted(PruningKind, calls, key, calls[i].now, calls[i].now + window, i, |calls|) <= limit
  {
    WindowFills(calls, key, limit, window, i, |calls|);
    AdmittedAlike(calls, key, calls[i].now, calls[i].now + window, i, |calls|);
  }

  /** One call when the clock starts, limit - 1 more just before its window
      ends and `limit` more when it has ended. */
  function Burst(key: string, limit: nat, window: nat): seq<Call>
    requires limit > 0 && window > 0
  {
    seq(2 * limit, i requires 0 <= i < 2 * limit =>
      Call(key, limit, window, if i == 0 then 0 else if i < limit then window - 1 else window))
  }

  lemma {:induction false} BurstCounts(key: string, limit: nat, window: nat, n: nat)
    requires limit > 0 && window > 1 && 1 <= n <= 2 * limit
    ensures var calls := Burst(key, limit, window);
            && Get(After(KeepingKind, calls[..n]), key)
               == (if n <= limit then Entry(n, window) else Entry(n - limit, 2 * window))
            && Admitted(KeepingKind, calls, key, window - 1, window - 1 + window, 0, n) == n - 1
  {
    var calls := Burst(key, limit, window);
    assert Fixed(calls, key, limit, window);
    hide After, Allowed;
    KeyStep(calls, key, limit, window, n - 1);
    if n > 1 {
      BurstCounts(key, limit, window, n - 1);
    } else {
      assert calls[..0] == [];
      EmptyLimiter(key);
    }
  }

  lemma EmptyLimiter(key: string)
    ensures Get(After(KeepingKind, []), key) == Entry(0, 0)
  {
  }

  /** The sliding bound is reached for every limit and every window longer than
      one tick. */
  lemma SlidingBoundIsTight(key: string, limit: nat, window: nat)
    requires limit > 0 && window > 1
    ensures var calls := Burst(key, limit, window);
            && ClockForward(calls) && Fixed(calls, key, limit, window)
            && Admitted(PruningKind, calls, key, window - 1, window - 1 + window, 0, |calls|) == 2 * limit - 1
  {
    var calls := Burst(key, limit, window);
    BurstCounts(key, limit, window, 2 * limit);
    AdmittedAlike(calls, key, window - 1, window - 1 + window, 0, |calls|);
  }
}
