/** Upload leases in a Valkey-compatible store: set-if-absent with an expiry,
    and compare-and-delete. Both scripts are single atomic steps of the store. */
module Coordination {

  datatype Entry<T> = Entry(token: T, expires: int)

  type Keys<T> = map<string, Entry<T>>

  /** A key is visible until its expiry. */
  predicate Live<T>(kv: Keys<T>, key: string, now: int) {
    key in kv && now < kv[key].expires
  }

  /** SET NX PX: writes only when the key is absent or expired. */
  function SetNX<T>(kv: Keys<T>, key: string, token: T, ttl: int, now: int): Keys<T> {
    if Live(kv, key, now) then kv else kv[key := Entry(token, now + ttl)]
  }

  /** The compare-and-delete script. */
  function DeleteIfValue<T(==)>(kv: Keys<T>, key: string, token: T, now: int): Keys<T> {
    if Live(kv, key, now) && kv[key].token == token then kv - {key} else kv
  }

  /** UploadLease. A lease without a key is the one handed out when no
      coordination is configured; releasing it does nothing. */
  datatype Lease = Lease(key: string, token: string, acquired: bool)

  /** A lease that was granted, and until when. */
  datatype Grant = Grant(key: string, token: string, expires: int)

  datatype Event =
    | Acquire(key: string, ttl: int, token: string)
    | Release(key: string, token: string)
    | Advance(elapsed: nat)

  /** The store and the clock, with the grants handed out and not yet taken
      back and the tokens drawn so far. */
  datatype Ledger = Ledger(kv: Keys<string>, now: int, grants: set<Grant>, tokens: set<string>)

  /** Random tokens do not repeat. */
  predicate Enabled(l: Ledger, e: Event) {
    e.Acquire? ==> e.token !in l.tokens && e.token != ""
  }

  function Next(l: Ledger, e: Event): Ledger {
    match e
    case Advance(elapsed) => l.(now := l.now + elapsed)
    case Release(key, token) =>
      if key == "" || token == "" then l
      else l.(kv := DeleteIfValue(l.kv, key, token, l.now),
              grants := set g | g in l.grants && (g.token != token || g.key != key))
    case Acquire(key, ttl, token) =>
      var drawn := l.(tokens := l.tokens + {token});
      if key == "" || ttl <= 0 || Live(l.kv, key, l.now) then drawn
      else drawn.(kv := SetNX(l.kv, key, token, ttl, l.now),
                  grants := l.grants + {Grant(key, token, l.now + ttl)})
  }

  /** The store remembers every unexpired grant as the entry of its key. */
  ghost predicate Consistent(l: Ledger) {
    && (forall g :: g in l.grants ==> g.token in l.tokens)
    && (forall g :: g in l.grants && l.now < g.expires ==> g.key in l.kv && l.kv[g.key] == Entry(g.token, g.expires))
    && (forall g, h :: g in l.grants && h in l.grants && g.token == h.token ==> g == h)
  }

  lemma StepConsistent(l: Ledger, e: Event)
    requires Consistent(l) && Enabled(l, e)
    ensures Consistent(Next(l, e))
  {
  }

  /** A run from an empty store. */
  ghost predicate Run(ls: seq<Ledger>, es: seq<Event>) {
    && |ls| == |es| + 1
    && ls[0].kv == map[] && ls[0].grants == {}
    && forall i :: 0 <= i < |es| ==> Enabled(ls[i], es[i]) && ls[i + 1] == Next(ls[i], es[i])
  }

  lemma {:induction false} RunConsistent(ls: seq<Ledger>, es: seq<Event>, i: nat)
    requires Run(ls, es) && i <= |es|
    ensures Consistent(ls[i])
  {
    if i > 0 {
      RunConsistent(ls, es, i - 1);
      StepConsistent(ls[i - 1], es[i - 1]);
    }
  }

  /** At every moment of every run, a key has at most one unexpired holder. */
  lemma HoldersExclude(ls: seq<Ledger>, es: seq<Event>, i: nat, g: Grant, h: Grant)
    requires Run(ls, es) && i <= |es|
    requires g in ls[i].grants && h in ls[i].grants && g.key == h.key
    requires ls[i].now < g.expires && ls[i].now < h.expires
    ensures g == h
  {
    RunConsistent(ls, es, i);
  }

  /** A holder that releases late, after its lease expired and another took
      the key, takes nothing away: every other grant keeps its entry. */
  lemma LateReleaseIsHarmless(ls: seq<Ledger>, es: seq<Event>, i: nat, g: Grant)
    requires Run(ls, es) && i < |es|
    requires es[i].Release? && g in ls[i].grants && g.token != es[i].token && ls[i].now < g.expires
    ensures g in ls[i + 1].grants && g.key in ls[i + 1].kv
    ensures ls[i + 1].kv[g.key] == Entry(g.token, g.expires)
  {
    RunConsistent(ls, es, i);
  }

  /** The coordinator as the server drives it. */
  class Valkey {
    var kv: Keys<string>
    var now: int
    ghost var grants: set<Grant>
    ghost var tokens: set<string>

    ghost function State(): Ledger
      reads this
    {
      Ledger(kv, now, grants, tokens)
    }

    constructor (start: int)
      ensures State() == Ledger(map[], start, {}, {})
    {
      kv, now, grants, tokens := map[], start, {}, {};
    }

    /** AcquireUploadLease with a fresh random token. */
    method AcquireUploadLease(key: string, ttl: int, token: string) returns (lease: Lease)
      requires Consistent(State()) && Enabled(State(), Acquire(key, ttl, token))
      modifies this
      ensures State() == Next(old(State()), Acquire(key, ttl, token)) && Consistent(State())
      ensures lease.acquired <==> key == "" || ttl <= 0 || !Live(old(kv), key, old(now))
      ensures lease.acquired && lease.key != "" ==> Grant(lease.key, lease.token, now + ttl) in grants
      ensures lease.acquired && lease.key != "" ==>
                forall g :: g in grants && g.key == key && now < g.expires ==> g.token == lease.token
    {
      StepConsistent(State(), Acquire(key, ttl, token));
      tokens := tokens + {token};
      if key == "" || ttl <= 0 {
        return Lease("", "", true);
      }
      if Live(kv, key, now) {
        return Lease(key, "", false);
      }
      kv := kv[key := Entry(token, now + ttl)];
      grants := grants + {Grant(key, token, now + ttl)};
      lease := Lease(key, token, true);
    }

    /** ReleaseUploadLease: only this token's own entry can go. */
    method ReleaseUploadLease(lease: Lease)
      requires Consistent(State())
      modifies this
      ensures State() == Next(old(State()), Release(lease.key, lease.token)) && Consistent(State())
    {
      StepConsistent(State(), Release(lease.key, lease.token));
      if lease.key == "" || lease.token == "" {
        return;
      }
      kv := DeleteIfValue(kv, lease.key, lease.token, now);
      grants := set g | g in grants && (g.token != lease.token || g.key != lease.key);
    }
  }
}
