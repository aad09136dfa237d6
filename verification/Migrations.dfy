/** The schema migration runner: steps applied in order, each together with its
    record in one transaction, restartable and safe to run concurrently. */
module Migrations {
  import opened Text

  /** A migration; `apply` gives None where its SQL fails on a schema. */
  datatype Migration<!S> = Migration(id: string, checksum: string, apply: S -> Option<S>)

  /** The schema, and the rows of schema_migrations by id. */
  datatype Db<+S> = Db(schema: S, records: map<string, string>)

  ghost predicate DistinctIds<S>(steps: seq<Migration<S>>) {
    forall i, j :: 0 <= i < j < |steps| ==> steps[i].id != steps[j].id
  }

  // --------------------------------------------------------------- one runner

  /** applyMigrationStep: skip a recorded step, refuse a changed one, otherwise
      apply and record together. */
  function ApplyStep<S>(db: Db<S>, step: Migration<S>): Option<Db<S>> {
    if step.id in db.records then
      if db.records[step.id] == step.checksum then Some(db) else None
    else
      match step.apply(db.schema)
      case None => None
      case Some(schema) => Some(Db(schema, db.records[step.id := step.checksum]))
  }

  /** Where a runner gets to from step `k` on, and whether it finishes. */
  function RunFrom<S>(steps: seq<Migration<S>>, db: Db<S>, k: nat): (Db<S>, bool)
    requires k <= |steps|
    decreases |steps| - k
  {
    if k == |steps| then (db, true)
    else
      match ApplyStep(db, steps[k])
      case None => (db, false)
      case Some(next) => RunFrom(steps, next, k + 1)
  }

  class Database<S> {
    var schema: S
    var records: map<string, string>

    constructor (schema: S)
      ensures this.schema == schema && records == map[]
    {
      this.schema, records := schema, map[];
    }

    function View(): Db<S>
      reads this
    {
      Db(schema, records)
    }

    method Apply(step: Migration<S>) returns (ok: bool)
      modifies this
      ensures ok == ApplyStep(old(View()), step).Some?
      ensures View() == if ok then ApplyStep(old(View()), step).value else old(View())
    {
      if step.id in records {
        return records[step.id] == step.checksum;
      }
      var applied := step.apply(schema);
      if applied.None? {
        return false;
      }
      schema, records := applied.value, records[step.id := step.checksum];
      return true;
    }

    /** Migrate: stops at the first step that fails or was changed. */
    method Migrate(steps: seq<Migration<S>>) returns (ok: bool)
      modifies this
      ensures (View(), ok) == RunFrom(steps, old(View()), 0)
    {
      for k := 0 to |steps|
        invariant RunFrom(steps, View(), k) == RunFrom(steps, old(View()), 0)
      {
        ok := Apply(steps[k]);
        if !ok {
          return;
        }
      }
      return true;
    }
  }

  // ------------------------------------------------------------ prefix states

  /** The database after exactly the first `n` steps, each applied once and in
      order; None if one of them fails. */
  function Prefix<S>(steps: seq<Migration<S>>, start: S, n: nat): Option<Db<S>>
    requires n <= |steps|
  {
    if n == 0 then Some(Db(start, map[]))
    else
      match Prefix(steps, start, n - 1)
      case None => None
      case Some(db) =>
        match steps[n - 1].apply(db.schema)
        case None => None
        case Some(schema) => Some(Db(schema, db.records[steps[n - 1].id := steps[n - 1].checksum]))
  }

  /** The database is a prefix state: exactly steps[..n] are recorded. */
  ghost predicate At<S>(steps: seq<Migration<S>>, start: S, n: nat, db: Db<S>) {
    n <= |steps| && Prefix(steps, start, n) == Some(db)
  }

  lemma {:induction false} RecordedExactly<S>(steps: seq<Migration<S>>, start: S, n: nat, db: Db<S>, i: nat)
    requires DistinctIds(steps) && At(steps, start, n, db) && i < |steps|
    ensures steps[i].id in db.records <==> i < n
    ensures i < n ==> db.records[steps[i].id] == steps[i].checksum
  {
    if n > 0 {
      RecordedExactly(steps, start, n - 1, Prefix(steps, start, n - 1).value, i);
    }
  }

  /** Applying a step in a prefix state skips it, or makes the next prefix. */
  lemma StepFromPrefix<S>(steps: seq<Migration<S>>, start: S, n: nat, db: Db<S>, k: nat)
    requires DistinctIds(steps) && At(steps, start, n, db) && k < |steps| && k <= n
    ensures k < n ==> ApplyStep(db, steps[k]) == Some(db)
    ensures k == n ==> ApplyStep(db, steps[k]) == Prefix(steps, start, n + 1)
  {
    RecordedExactly(steps, start, n, db, k);
  }

  /** Running from a prefix state, from any step not past it. */
  lemma {:induction false} RunFromPrefix<S>(steps: seq<Migration<S>>, start: S, n: nat, db: Db<S>, k: nat)
    requires DistinctIds(steps) && At(steps, start, n, db) && k <= n
    ensures RunFrom(steps, db, k) == RunFrom(steps, db, n)
    decreases n - k
  {
    if k < n {
      StepFromPrefix(steps, start, n, db, k);
      RunFromPrefix(steps, start, n, db, k + 1);
    }
  }

  /** A rerun from wherever an earlier run stopped ends exactly where one
      uninterrupted run ends. */
  lemma {:induction false} RerunEqualsUninterrupted<S>(steps: seq<Migration<S>>, start: S, n: nat, db: Db<S>)
    requires DistinctIds(steps) && At(steps, start, n, db)
    ensures RunFrom(steps, db, 0) == RunFrom(steps, Db(start, map[]), 0)
  {
    RunFromPrefix(steps, start, n, db, 0);
    if n > 0 {
      var before := Prefix(steps, start, n - 1).value;
      RerunEqualsUninterrupted(steps, start, n - 1, before);
      RunFromPrefix(steps, start, n - 1, before, 0);
      StepFromPrefix(steps, start, n - 1, before, n - 1);
    }
  }

  // -------------------------------------------------------- changed migrations

  /** A recorded step whose text has changed stops the run before any later
      step: nothing from it on is applied or recorded, whatever the database. */
  lemma {:induction false} MismatchStops<S>(steps: seq<Migration<S>>, db: Db<S>, k: nat, j: nat, i: nat)
    requires DistinctIds(steps) && k <= j <= i < |steps|
    requires steps[j].id in db.records && db.records[steps[j].id] != steps[j].checksum
    ensures !RunFrom(steps, db, k).1
    ensures var after := RunFrom(steps, db, k).0;
            && (steps[i].id in after.records <==> steps[i].id in db.records)
            && (steps[i].id in db.records ==> after.records[steps[i].id] == db.records[steps[i].id])
            && after == RunFrom(steps[..j], db, k).0
    decreases j - k
  {
    var next := ApplyStep(db, steps[k]);
    if k < j && next.Some? {
      MismatchStops(steps, next.value, k + 1, j, i);
    }
  }

  // ----------------------------------------------------------------- upgrades

  /** The steps from number k on that are not recorded, in list order. */
  function Unrecorded<S>(steps: seq<Migration<S>>, records: map<string, string>, k: nat): seq<Migration<S>>
    requires k <= |steps|
    decreases |steps| - k
  {
    if k == |steps| then []
    else if steps[k].id in records then Unrecorded(steps, records, k + 1)
    else [steps[k]] + Unrecorded(steps, records, k + 1)
  }

  /** Recorded steps that are still in the list have not been changed. */
  ghost predicate Unchanged<S>(steps: seq<Migration<S>>, records: map<string, string>) {
    forall i :: 0 <= i < |steps| && steps[i].id in records ==> records[steps[i].id] == steps[i].checksum
  }

  /** Another record leaves the later unrecorded steps what they were. */
  lemma {:induction false} UnrecordedElsewhere<S>(steps: seq<Migration<S>>, records: map<string, string>, k: nat,
                                                  id: string, checksum: string)
    requires k <= |steps| && forall i :: k <= i < |steps| ==> steps[i].id != id
    ensures Unrecorded(steps, records[id := checksum], k) == Unrecorded(steps, records, k)
    decreases |steps| - k
  {
    if k < |steps| {
      UnrecordedElsewhere(steps, records, k + 1, id, checksum);
    }
  }

  lemma {:induction false} RunSplits<S>(steps: seq<Migration<S>>, more: seq<Migration<S>>, db: Db<S>, k: nat)
    requires k <= |steps|
    ensures RunFrom(steps + more, db, k)
            == (var (mid, ok) := RunFrom(steps, db, k);
                if ok then RunFrom(steps + more, mid, |steps|) else (mid, false))
    decreases |steps| - k
  {
    if k < |steps| {
      assert (steps + more)[k] == steps[k];
      var next := ApplyStep(db, steps[k]);
      if next.Some? {
        RunSplits(steps, more, next.value, k + 1);
      }
    }
  }

  lemma {:induction false} RunShifts<S>(before: seq<Migration<S>>, steps: seq<Migration<S>>, db: Db<S>, k: nat)
    requires k <= |steps|
    ensures RunFrom(before + steps, db, |before| + k) == RunFrom(steps, db, k)
    decreases |steps| - k
  {
    if k < |steps| {
      assert (before + steps)[|before| + k] == steps[k];
      var next := ApplyStep(db, steps[k]);
      if next.Some? {
        RunShifts(before, steps, next.value, k + 1);
      }
    }
  }

  /** A run skips what is recorded and applies the rest in list order. */
  lemma {:induction false} RunAppliesUnrecorded<S>(steps: seq<Migration<S>>, db: Db<S>, k: nat)
    requires DistinctIds(steps) && Unchanged(steps, db.records) && k <= |steps|
    ensures RunFrom(steps, db, k) == RunFrom(Unrecorded(steps, db.records, k), db, 0)
    decreases |steps| - k
  {
    if k < |steps| {
      var step := steps[k];
      if step.id in db.records {
        RunAppliesUnrecorded(steps, db, k + 1);
      } else if step.apply(db.schema).Some? {
        var next := ApplyStep(db, step).value;
        RunAppliesUnrecorded(steps, next, k + 1);
        UnrecordedElsewhere(steps, db.records, k + 1, step.id, step.checksum);
        RunShifts([step], Unrecorded(steps, db.records, k + 1), next, 0);
      }
    }
  }

  lemma {:induction false} PrefixRuns<S>(steps: seq<Migration<S>>, start: S, n: nat, db: Db<S>, k: nat)
    requires DistinctIds(steps) && At(steps, start, n, db) && k <= n
    ensures Prefix(steps, start, k).Some? && RunFrom(steps[..n], Prefix(steps, start, k).value, k) == (db, true)
    decreases n - k
  {
    PrefixDefined(steps, start, n, k);
    if k < n {
      StepFromPrefix(steps, start, k, Prefix(steps, start, k).value, k);
      PrefixRuns(steps, start, n, db, k + 1);
    }
  }

  lemma {:induction false} PrefixDefined<S>(steps: seq<Migration<S>>, start: S, n: nat, k: nat)
    requires k <= n <= |steps| && Prefix(steps, start, n).Some?
    ensures Prefix(steps, start, k).Some?
    decreases n
  {
    if k < n {
      PrefixDefined(steps, start, n - 1, k);
    }
  }

  /** An upgrade brings a new list, in which new steps may stand before old ones.
      Wherever the older program stopped in its own list, the newer one ends
      exactly like one uninterrupted run of the old steps done so far, in their
      old order, followed by the unrecorded steps of the new list in its order. */
  lemma UpgradeAppends<S>(earlier: seq<Migration<S>>, steps: seq<Migration<S>>, start: S, n: nat, db: Db<S>)
    requires DistinctIds(earlier) && DistinctIds(steps) && At(earlier, start, n, db) && Unchanged(steps, db.records)
    ensures RunFrom(steps, db, 0) == RunFrom(earlier[..n] + Unrecorded(steps, db.records, 0), Db(start, map[]), 0)
  {
    var rest := Unrecorded(steps, db.records, 0);
    RunAppliesUnrecorded(steps, db, 0);
    PrefixRuns(earlier, start, n, db, 0);
    RunSplits(earlier[..n], rest, Db(start, map[]), 0);
    RunShifts(earlier[..n], rest, db, 0);
  }

  // ------------------------------------------------------- concurrent runners

  /** Where a runner stands: about to look step `k` up, or having found it
      unrecorded and about to commit it. */
  datatype Pc = Reading(k: nat) | Applying(k: nat) | Finished | Failed | Crashed

  datatype System<+S> = System(db: Db<S>, runners: map<nat, Pc>)

  /** A transaction takes effect and is reported, is rolled back, or takes
      effect and is reported as failed. */
  datatype Outcome = Reported | RolledBack | Unreported

  datatype Label = Start(r: nat) | Look(r: nat) | Commit(r: nat, outcome: Outcome) | Crash(r: nat)

  predicate Enabled<S>(steps: seq<Migration<S>>, s: System<S>, l: Label) {
    match l
    case Start(r) => r !in s.runners
    case Look(r) => r in s.runners && s.runners[r].Reading? && s.runners[r].k <= |steps|
    case Commit(r, _) => r in s.runners && s.runners[r].Applying? && s.runners[r].k < |steps|
    case Crash(r) => r in s.runners
  }

  function Move<S>(s: System<S>, r: nat, pc: Pc): System<S> {
    s.(runners := s.runners[r := pc])
  }

  /** The look-up and the transaction are separate: another runner may commit
      the step in between, and the insert then violates the primary key. */
  function Step<S>(steps: seq<Migration<S>>, s: System<S>, l: Label): System<S>
    requires Enabled(steps, s, l)
  {
    match l
    case Start(r) => Move(s, r, Reading(0))
    case Look(r) =>
      var k := s.runners[r].k;
      if k == |steps| then Move(s, r, Finished)
      else if steps[k].id !in s.db.records then Move(s, r, Applying(k))
      else Move(s, r, if s.db.records[steps[k].id] == steps[k].checksum then Reading(k + 1) else Failed)
    case Commit(r, outcome) =>
      var k := s.runners[r].k;
      if outcome == RolledBack || steps[k].id in s.db.records then Move(s, r, Failed)
      else
        (match ApplyStep(s.db, steps[k])
         case None => Move(s, r, Failed)
         case Some(db) => Move(s.(db := db), r, if outcome == Reported then Reading(k + 1) else Failed))
    case Crash(r) => Move(s, r, Crashed)
  }

  ghost predicate Run<S>(steps: seq<Migration<S>>, start: S, ss: seq<System<S>>, ls: seq<Label>) {
    && |ss| == |ls| + 1
    && ss[0] == System(Db(start, map[]), map[])
    && forall i :: 0 <= i < |ls| ==> Enabled(steps, ss[i], ls[i]) && ss[i + 1] == Step(steps, ss[i], ls[i])
  }

  /** The database is at a prefix that no runner is past. */
  ghost predicate Sound<S>(steps: seq<Migration<S>>, start: S, s: System<S>, n: nat) {
    && At(steps, start, n, s.db)
    && (forall r :: r in s.runners && (s.runners[r].Reading? || s.runners[r].Applying?) ==> s.runners[r].k <= n)
    && (forall r :: r in s.runners && s.runners[r].Finished? ==> n == |steps|)
  }

  lemma StepSound<S>(steps: seq<Migration<S>>, start: S, s: System<S>, n: nat, l: Label) returns (m: nat)
    requires DistinctIds(steps) && Sound(steps, start, s, n) && Enabled(steps, s, l)
    ensures n <= m <= n + 1 && Sound(steps, start, Step(steps, s, l), m)
  {
    m := n;
    if (l.Look? || l.Commit?) && s.runners[l.r].k < |steps| {
      var k := s.runners[l.r].k;
      RecordedExactly(steps, start, n, s.db, k);
      StepFromPrefix(steps, start, n, s.db, k);
      if l.Commit? && l.outcome != RolledBack && k == n && Prefix(steps, start, n + 1).Some? {
        m := n + 1;
      }
    }
  }

  lemma {:induction false} RunSound<S>(steps: seq<Migration<S>>, start: S, ss: seq<System<S>>, ls: seq<Label>, i: nat)
    returns (n: nat)
    requires DistinctIds(steps) && Run(steps, start, ss, ls) && i <= |ls|
    ensures n <= |steps| && Sound(steps, start, ss[i], n)
  {
    if i == 0 {
      n := 0;
    } else {
      var m := RunSound(steps, start, ss, ls, i - 1);
      n := StepSound(steps, start, ss[i - 1], m, ls[i - 1]);
    }
  }

  /** With any number of runners, started, crashed and interleaved in any way,
      the recorded ids are always a prefix of the list, the schema is those
      steps applied once each in order, and a runner that finished left the
      database of one uninterrupted run. */
  lemma AlwaysAPrefix<S>(steps: seq<Migration<S>>, start: S, ss: seq<System<S>>, ls: seq<Label>, i: nat)
    returns (n: nat)
    requires DistinctIds(steps) && Run(steps, start, ss, ls) && i <= |ls|
    ensures n <= |steps| && Prefix(steps, start, n) == Some(ss[i].db)
    ensures forall j :: 0 <= j < |steps| ==> (steps[j].id in ss[i].db.records <==> j < n)
    ensures (exists r :: r in ss[i].runners && ss[i].runners[r].Finished?) ==>
              RunFrom(steps, Db(start, map[]), 0) == (ss[i].db, true)
  {
    n := RunSound(steps, start, ss, ls, i);
    var db := ss[i].db;
    forall j | 0 <= j < |steps| ensures steps[j].id in db.records <==> j < n {
      RecordedExactly(steps, start, n, db, j);
    }
    RerunEqualsUninterrupted(steps, start, n, db);
    RunFromPrefix(steps, start, n, db, 0);
  }
}
