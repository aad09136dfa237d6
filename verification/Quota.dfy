/** The account storage quota: its 64-bit arithmetic and its meaning over runs. */
module Quota {
  import opened Text
  import opened Chunks
  import opened Store
  import opened Protocol
  import opened Invariant
  import opened Safety
  import opened Acceptance

  /** The comparison as the handlers compute it, in 64-bit integers. That every
      intermediate value is an Int64 is part of what is verified here. */
  function Exceeds(used: Int64, additional: Int64, quota: Int64): (refused: bool)
    requires used >= 0
    ensures refused <==> quota > 0 && additional > 0 && used as int + additional as int > quota as int
  {
    if quota <= 0 || additional <= 0 then false
    else if additional > quota then true
    else used > quota - additional
  }

  /** It is the comparison the repository makes for an owned incident. */
  lemma ExceedsIsQuotaRefuses(owner: string, used: Int64, additional: Int64, quota: Int64)
    requires used >= 0 && owner != ""
    ensures Exceeds(used, additional, quota) <==> QuotaRefuses(owner, used as int, additional as int, quota as int)
  {
  }

  /** No account holds more than the quota. */
  ghost predicate WithinQuota(cfg: Config, db: Db) {
    cfg.quota > 0 ==> forall owner :: owner != "" ==> CommittedBytes(db.incidents, db.rows, owner) <= cfg.quota
  }

  predicate OwnedBy(incidents: map<string, Incident>, r: Row, owner: string) {
    r.meta.incident in incidents && incidents[r.meta.incident].owner == owner
  }

  lemma {:induction false} SameOwners(incidents: map<string, Incident>, later: map<string, Incident>, rows: seq<Row>,
                                      owner: string)
    requires forall r :: r in rows ==> (OwnedBy(incidents, r, owner) <==> OwnedBy(later, r, owner))
    ensures CommittedBytes(later, rows, owner) == CommittedBytes(incidents, rows, owner)
  {
    if rows != [] {
      assert rows[|rows| - 1] in rows;
      SameOwners(incidents, later, rows[..|rows| - 1], owner);
    }
  }

  lemma {:induction false} FewerRows(incidents: map<string, Incident>, rows: seq<Row>, gone: string, owner: string)
    ensures CommittedBytes(incidents, Without(rows, gone), owner) <= CommittedBytes(incidents, rows, owner)
  {
    if rows != [] {
      FewerRows(incidents, rows[..|rows| - 1], gone, owner);
      var kept := Without(rows[..|rows| - 1], gone);
      var r := rows[|rows| - 1];
      if r.meta.incident != gone {
        assert Without(rows, gone) == kept + [r];
        assert (kept + [r])[..|kept|] == kept;
      } else {
        assert Without(rows, gone) == kept;
      }
    }
  }

  lemma InsertWithin(cfg: Config, db: Db, m: Meta, path: string, id: nat)
    requires WithinQuota(cfg, db) && CreateChunk(cfg, db, m, path, id).Ok?
    ensures WithinQuota(cfg, CreateChunk(cfg, db, m, path, id).value)
  {
    var later := CreateChunk(cfg, db, m, path, id).value;
    var row := Row(id, Stored(cfg.backend, m), path);
    assert later.rows[..|later.rows| - 1] == db.rows && later.rows[|later.rows| - 1] == row;
  }

  lemma PruneWithin(cfg: Config, db: Db, i: string)
    requires WithinQuota(cfg, db) && i in db.incidents
    ensures WithinQuota(cfg, PruneIncident(db, i))
  {
    var later := PruneIncident(db, i);
    forall owner | owner != "" && cfg.quota > 0
      ensures CommittedBytes(later.incidents, later.rows, owner) <= cfg.quota
    {
      SameOwners(db.incidents, later.incidents, Without(db.rows, i), owner);
      FewerRows(db.incidents, db.rows, i, owner);
    }
  }

  lemma IncidentsWithin(cfg: Config, db: Db, incidents: map<string, Incident>)
    requires WithinQuota(cfg, db)
    requires forall r, owner :: r in db.rows ==> (OwnedBy(db.incidents, r, owner) <==> OwnedBy(incidents, r, owner))
    ensures WithinQuota(cfg, db.(incidents := incidents))
  {
    forall owner | owner != "" && cfg.quota > 0
      ensures CommittedBytes(incidents, db.rows, owner) <= cfg.quota
    {
      SameOwners(db.incidents, incidents, db.rows, owner);
    }
  }

  lemma RowsHaveIncidents(cfg: Config, w: World)
    requires Inv(cfg, w)
    ensures forall r :: r in w.db.rows ==> r.meta.incident in w.db.incidents
  {
  }

  lemma EnvironmentWithin(cfg: Config, w: World, l: Label)
    requires Inv(cfg, w) && WithinQuota(cfg, w.db) && EnvironmentStep(w, l).Some? && !l.Reassign?
    ensures WithinQuota(cfg, EnvironmentStep(w, l).value.db)
  {
    hide Inv;
    RowsHaveIncidents(cfg, w);
    if l.FinishDeletion? {
      PruneWithin(cfg, w.db, l.incident);
    } else if l.NewIncident? || l.CloseIncident? || l.RequestDeletion? || l.PruneTombstone? {
      hide WithinQuota;
      IncidentsWithin(cfg, w.db, EnvironmentStep(w, l).value.db.incidents);
    }
  }

  lemma RequestWithin(cfg: Config, w: World, q: nat, r: Request, l: Label)
    requires WithinQuota(cfg, w.db) && Ready(l, r.pc)
    ensures WithinQuota(cfg, RequestStep(cfg, w, q, r, l).db)
  {
    hide WithinQuota, AfterRead, AfterLease, OnDuplicate, NextCommit, NextRemove;
    if l.InsertRow? {
      hide CreateChunk;
      if CreateChunk(cfg, w.db, r.meta, r.pc.path, l.id).Ok? {
        InsertWithin(cfg, w.db, r.meta, r.pc.path, l.id);
      }
    } else {
      hide RequestStep;
      RowsUntouched(cfg, w, q, r, l);
      OnlyKeysWithin(cfg, w.db, RequestStep(cfg, w, q, r, l).db);
    }
  }

  lemma OnlyKeysWithin(cfg: Config, db: Db, later: Db)
    requires WithinQuota(cfg, db) && OnlyKeys(db, later)
    ensures WithinQuota(cfg, later)
  {
  }

  lemma StepWithin(cfg: Config, w: World, l: Label)
    requires Inv(cfg, w) && WithinQuota(cfg, w.db) && Next(cfg, w, l).Some? && !l.Reassign?
    ensures WithinQuota(cfg, Next(cfg, w, l).value.db)
  {
    hide Inv, RequestStep, EnvironmentStep, WithinQuota;
    if l.Spawn? {
    } else if IsRequestLabel(l) {
      RequestWithin(cfg, w, l.q, w.reqs[l.q], l);
    } else {
      EnvironmentWithin(cfg, w, l);
    }
  }

  /** Although every request checks a usage that may be stale by the time it
      inserts, no account exceeds the quota at any moment of any run in which
      incidents keep their owners. */
  lemma {:induction false} QuotaHolds(cfg: Config, ws: seq<World>, ls: seq<Label>, i: nat)
    requires AtomicRun(cfg, ws, ls) && i <= |ls|
    requires forall j :: 0 <= j < i ==> !ls[j].Reassign?
    ensures WithinQuota(cfg, ws[i].db)
  {
    if i > 0 {
      hide Inv, Next, WithinQuota;
      QuotaHolds(cfg, ws, ls, i - 1);
      RunStep(cfg, ws, ls, i - 1);
      StepWithin(cfg, ws[i - 1], ls[i - 1]);
    }
  }

  // ------------------------------------------------------- owner reassignment

  /** The bytes of one incident. */
  function IncidentBytes(rows: seq<Row>, incident: string): nat {
    if rows == [] then 0
    else IncidentBytes(rows[..|rows| - 1], incident)
         + (if rows[|rows| - 1].meta.incident == incident then rows[|rows| - 1].meta.size else 0)
  }

  lemma {:induction false} ReassignedBytes(incidents: map<string, Incident>, rows: seq<Row>, i: string, owner: string)
    requires i in incidents && incidents[i].owner == "" && owner != ""
    ensures CommittedBytes(incidents[i := incidents[i].(owner := owner)], rows, owner)
            == CommittedBytes(incidents, rows, owner) + IncidentBytes(rows, i)
  {
    if rows != [] {
      ReassignedBytes(incidents, rows[..|rows| - 1], i, owner);
    }
  }

  /** Giving a legacy incident an owner checks no quota: the account stays
      within it exactly when the incident's bytes still fit. */
  lemma ReassignWithinIff(cfg: Config, w: World, i: string, owner: string)
    requires WithinQuota(cfg, w.db) && cfg.quota > 0 && owner != ""
    requires EnvironmentStep(w, Reassign(i, owner)).Some?
    ensures WithinQuota(cfg, EnvironmentStep(w, Reassign(i, owner)).value.db)
            <==> CommittedBytes(w.db.incidents, w.db.rows, owner) + IncidentBytes(w.db.rows, i) <= cfg.quota
  {
    var later := w.db.incidents[i := w.db.incidents[i].(owner := owner)];
    ReassignedBytes(w.db.incidents, w.db.rows, i, owner);
    forall other | other != "" && other != owner
      ensures CommittedBytes(later, w.db.rows, other) <= cfg.quota
    {
      SameOwners(w.db.incidents, later, w.db.rows, other);
    }
  }

  // ----------------------------------------------------------- a witness run

  /** A legacy upload one byte larger than the quota. */
  function LargeBody(quota: int): Bytes
    requires quota > 0
  {
    seq(quota + 1, _ => 0)
  }

  function LargeUpload(cfg: Config): Meta
    requires cfg.quota > 0
  {
    var body := LargeBody(cfg.quota);
    Meta("i", "", 0, "audio", 0, 0, "", |body|, cfg.sha(body))
  }

  /** Whatever the quota, there is a run in which a legacy incident collects
      more than it and is then given to an account: the account is over its
      quota although every upload was checked. */
  lemma OverQuotaIsReachable(cfg: Config, owner: string) returns (ws: seq<World>, ls: seq<Label>)
    requires cfg.quota > 0 && owner != ""
    ensures AtomicRun(cfg, ws, ls) && !WithinQuota(cfg, ws[|ls|].db)
  {
    hide Next, Admissible, PathOf, WithinQuota;
    LargeUploadHasPath(cfg);
    var m, body := LargeUpload(cfg), LargeBody(cfg.quota);
    ws, ls := UploadArrives(cfg, None, m, body);
    LegacyUploadAdmissible(cfg, ws[|ls|].reqs[0]);
    var vs := AdmissibleUploadIsCreated(cfg, ws[|ls|], 0, 0);
    Continue(cfg, ws, ls, vs, Course(0, 0));
    ws, ls := ws + vs[1..], ls + Course(0, 0);
    var w := OwnerTakesOver(cfg, ws[|ls|], owner);
    Continue(cfg, ws, ls, [ws[|ls|], w], [Reassign("i", owner)]);
    ws, ls := ws + [w], ls + [Reassign("i", owner)];
  }

  lemma LargeUploadHasPath(cfg: Config)
    requires cfg.quota > 0
    ensures PathOf(LargeUpload(cfg)).Some?
  {
  }

  lemma OwnerTakesOver(cfg: Config, w: World, owner: string) returns (v: World)
    requires cfg.quota > 0 && owner != ""
    requires IsActive(w.db, "i") && w.db.incidents["i"].owner == ""
    requires |w.db.rows| == 1 && w.db.rows[0].meta.incident == "i" && w.db.rows[0].meta.size == cfg.quota + 1
    ensures Next(cfg, w, Reassign("i", owner)) == Some(v) && !WithinQuota(cfg, v.db)
  {
    v := Next(cfg, w, Reassign("i", owner)).value;
    assert w.db.rows[..0] == [];
    assert CommittedBytes(v.db.incidents, w.db.rows, owner) == cfg.quota + 1;
  }
}
