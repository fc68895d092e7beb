/** Runs do not interfere: what the control plane holds about a run depends on that run's own
    steps only. */
module NonInterference {
  import opened Records
  import opened Tables
  import opened Detectors
  import opened Protection
  import opened Collector
  import opened Recovery
  import opened ControlPlane
  import opened Trails
  import opened Learning
  import opened Lifecycle
  import opened Staleness

  /** Which run an incident id and an idempotency key belong to. */
  datatype Owners = Owners(incident: map<Id, Id>, key: map<string, Id>) {
    predicate HasIncident(i: Id, r: Id) { i in incident && incident[i] == r }
    predicate HasKey(k: string, r: Id) { k in key && key[k] == r }
  }

  /** The two databases hold the same about run r. */
  ghost predicate SameDb(o: Owners, a: Db, b: Db, r: Id) {
    && (r in a.runs <==> r in b.runs)
    && (r in a.runs ==> a.runs[r] == b.runs[r])
    && At(a.events, r) == At(b.events, r)
    && At(a.incidents, r) == At(b.incidents, r)
    && At(a.audits, r) == At(b.audits, r)
    && (forall i | o.HasIncident(i, r) :: At(a.plans, i) == At(b.plans, i))
    && (forall k | o.HasKey(k, r) :: k in a.keys <==> k in b.keys)
  }

  /** Every id in the database is filed under its owner. */
  ghost predicate Filed(o: Owners, db: Db) {
    && (forall r, a | a in At(db.audits, r) :: a.incident.Some? ==> o.HasIncident(a.incident.value, r))
    && (forall r, x | x in At(db.incidents, r) :: x.run == r && o.HasIncident(x.id, r))
    && (forall i, p | p in At(db.plans, i) :: p.incident == i && o.HasIncident(i, p.run))
  }

  /** Two filed databases that hold the same about run r. */
  ghost predicate Sim(o: Owners, a: Db, b: Db, r: Id) {
    SameDb(o, a, b, r) && Filed(o, a) && Filed(o, b)
  }

  predicate Ours(o: Owners, i: Option<Id>, r: Id) {
    i.Some? ==> o.HasIncident(i.value, r)
  }

  /** What the two databases agree on. */
  lemma SameRows(o: Owners, a: Db, b: Db, r: Id)
    requires Sim(o, a, b, r)
    ensures r in a.runs <==> r in b.runs
    ensures r in a.runs ==> a.runs[r] == b.runs[r]
    ensures At(a.events, r) == At(b.events, r) && At(a.incidents, r) == At(b.incidents, r)
    ensures At(a.audits, r) == At(b.audits, r)
  {}

  lemma SamePlanOf(o: Owners, a: Db, b: Db, r: Id, i: Id)
    requires Sim(o, a, b, r) && o.HasIncident(i, r)
    ensures PlanOf(a, i) == PlanOf(b, i)
  {
    assert At(a.plans, i) == At(b.plans, i);
    hide Sim;
  }

  lemma OwnTarget(o: Owners, db: Db, q: Id, i: Option<Id>)
    requires Filed(o, db) && Ours(o, i, q)
    ensures Ours(o, ResumeTarget(db, q, i), q)
  {
    NewestOpenIsStored(At(db.incidents, q));
    hide NewestOpen;
  }

  lemma OwnNewest(o: Owners, db: Db, i: Id)
    requires Filed(o, db) && PlanOf(db, i).Some?
    ensures PlanOf(db, i).value.incident == i && o.HasIncident(i, PlanOf(db, i).value.run)
  {
    assert PlanOf(db, i).value in At(db.plans, i);
  }

  lemma SimFiled(o: Owners, a: Db, b: Db, r: Id)
    requires Sim(o, a, b, r)
    ensures Filed(o, a) && Filed(o, b)
  {}

  lemma SimReads(o: Owners, a: Db, b: Db, r: Id)
    requires Sim(o, a, b, r)
    ensures r in a.runs <==> r in b.runs
    ensures r in a.runs ==> a.runs[r] == b.runs[r]
    ensures At(a.events, r) == At(b.events, r) && At(a.incidents, r) == At(b.incidents, r)
    ensures At(a.audits, r) == At(b.audits, r)
    ensures Ours(o, ResumedIncident(At(a.audits, r)), r)
    ensures Ours(o, NewestOpen(At(a.incidents, r)), r)
    ensures forall i | o.HasIncident(i, r) :: PlanOf(a, i) == PlanOf(b, i)
    ensures forall k | o.HasKey(k, r) :: k in a.keys <==> k in b.keys
  {
    ResumedIsLogged(At(a.audits, r));
    NewestOpenIsStored(At(a.incidents, r));
    hide ResumedIncident, NewestOpen;
  }

  lemma FiledReads(o: Owners, b: Db, q: Id)
    requires Filed(o, b)
    ensures Ours(o, ResumedIncident(At(b.audits, q)), q)
    ensures Ours(o, NewestOpen(At(b.incidents, q)), q)
    ensures forall i :: PlanOf(b, i).Some? ==>
              PlanOf(b, i).value.incident == i && o.HasIncident(i, PlanOf(b, i).value.run)
  {
    ResumedIsLogged(At(b.audits, q));
    NewestOpenIsStored(At(b.incidents, q));
    hide ResumedIncident, NewestOpen;
    forall i | PlanOf(b, i).Some? ensures PlanOf(b, i).value.incident == i && o.HasIncident(i, PlanOf(b, i).value.run) {
      assert PlanOf(b, i).value in At(b.plans, i);
    }
  }

  // ---- the statements ----

  lemma FiledLog(o: Owners, db: Db, r: Id, x: Audit)
    requires Filed(o, db) && Ours(o, x.incident, r)
    ensures Filed(o, Log(db, r, x))
  {
    forall q, a | a in At(Log(db, r, x).audits, q) ensures Ours(o, a.incident, q) {
      assert a in At(db.audits, q) || (q == r && a == x);
    }
  }

  lemma OwnLog(o: Owners, a: Db, b: Db, r: Id, x: Audit)
    requires Sim(o, a, b, r) && Ours(o, x.incident, r)
    ensures Sim(o, Log(a, r, x), Log(b, r, x), r)
  {
    FiledLog(o, a, r, x);
    FiledLog(o, b, r, x);
    hide Filed;
  }

  lemma ForeignLog(o: Owners, a: Db, b: Db, r: Id, q: Id, x: Audit)
    requires Sim(o, a, b, r) && Ours(o, x.incident, q) && q != r
    ensures Sim(o, a, Log(b, q, x), r)
  {
    FiledLog(o, b, q, x);
    hide Filed;
  }

  /** Changes to the runs table that agree on r. */
  lemma SimRows(o: Owners, a: Db, b: Db, a1: Db, b1: Db, r: Id)
    requires Sim(o, a, b, r)
    requires a1 == a.(runs := a1.runs) && b1 == b.(runs := b1.runs)
    requires (r in a1.runs <==> r in b1.runs) && (r in a1.runs ==> a1.runs[r] == b1.runs[r])
    ensures Sim(o, a1, b1, r)
  {
    assert Filed(o, a1) && Filed(o, b1) by { hide SameDb; }
    hide Filed;
  }

  lemma OwnSaveRun(o: Owners, a: Db, b: Db, r: Id, row: Run)
    requires Sim(o, a, b, r)
    ensures Sim(o, SaveRun(a, r, row), SaveRun(b, r, row), r)
  {
    SimReads(o, a, b, r);
    hide Sim, MergeRun;
    SimRows(o, a, b, SaveRun(a, r, row), SaveRun(b, r, row), r);
  }

  lemma ForeignSaveRun(o: Owners, a: Db, b: Db, r: Id, q: Id, row: Run)
    requires Sim(o, a, b, r) && q != r
    ensures Sim(o, a, SaveRun(b, q, row), r)
  {
    SimReads(o, a, b, r);
    hide Sim, MergeRun;
    SimRows(o, a, b, a, SaveRun(b, q, row), r);
  }

  lemma OwnStatus(o: Owners, a: Db, b: Db, r: Id, status: Status)
    requires Sim(o, a, b, r)
    ensures Sim(o, UpdateRunStatus(a, r, status), UpdateRunStatus(b, r, status), r)
  {
    SimReads(o, a, b, r);
    hide Sim;
    SimRows(o, a, b, UpdateRunStatus(a, r, status), UpdateRunStatus(b, r, status), r);
  }

  lemma ForeignStatus(o: Owners, a: Db, b: Db, r: Id, q: Id, status: Status)
    requires Sim(o, a, b, r) && q != r
    ensures Sim(o, a, UpdateRunStatus(b, q, status), r)
  {
    SimReads(o, a, b, r);
    hide Sim;
    SimRows(o, a, b, a, UpdateRunStatus(b, q, status), r);
  }

  lemma OwnCas(o: Owners, a: Db, b: Db, r: Id, status: Status, expected: set<Status>)
    requires Sim(o, a, b, r)
    ensures Sim(o, CasRunStatus(a, r, status, expected), CasRunStatus(b, r, status, expected), r)
  {
    SimReads(o, a, b, r);
    hide UpdateRunStatus, Sim;
    OwnStatus(o, a, b, r, status);
  }

  lemma ForeignCas(o: Owners, a: Db, b: Db, r: Id, q: Id, status: Status, expected: set<Status>)
    requires Sim(o, a, b, r) && q != r
    ensures Sim(o, a, CasRunStatus(b, q, status, expected), r)
  {
    hide UpdateRunStatus, Sim;
    ForeignStatus(o, a, b, r, q, status);
  }

  lemma OwnMode(o: Owners, a: Db, b: Db, r: Id, mode: Mode)
    requires Sim(o, a, b, r)
    ensures Sim(o, UpdateProtectionMode(a, r, mode), UpdateProtectionMode(b, r, mode), r)
  {
    SimReads(o, a, b, r);
    hide Sim;
    SimRows(o, a, b, UpdateProtectionMode(a, r, mode), UpdateProtectionMode(b, r, mode), r);
  }

  lemma ForeignMode(o: Owners, a: Db, b: Db, r: Id, q: Id, mode: Mode)
    requires Sim(o, a, b, r) && q != r
    ensures Sim(o, a, UpdateProtectionMode(b, q, mode), r)
  {
    SimReads(o, a, b, r);
    hide Sim;
    SimRows(o, a, b, a, UpdateProtectionMode(b, q, mode), r);
  }

  lemma OwnSaveEvent(o: Owners, a: Db, b: Db, r: Id, e: Event)
    requires Sim(o, a, b, r) && o.HasKey(e.key, e.run) && e.run == r
    ensures Sim(o, SaveEvent(a, e), SaveEvent(b, e), r)
  {
    assert Filed(o, SaveEvent(a, e)) && Filed(o, SaveEvent(b, e)) by { hide SameDb; }
    hide Filed;
  }

  lemma ForeignSaveEvent(o: Owners, a: Db, b: Db, r: Id, e: Event)
    requires Sim(o, a, b, r) && o.HasKey(e.key, e.run) && e.run != r
    ensures Sim(o, a, SaveEvent(b, e), r)
  {
    assert Filed(o, SaveEvent(b, e)) by { hide SameDb; }
    hide Filed;
  }

  lemma FiledSaveIncident(o: Owners, db: Db, x: Incident)
    requires Filed(o, db) && o.HasIncident(x.id, x.run)
    ensures Filed(o, SaveIncident(db, x))
  {
    hide HasIncident;
    if SaveIncident(db, x) != db {
      var s := At(db.incidents, x.run);
      var db1 := db.(incidents := db.incidents[x.run := s + [x]]);
      assert SaveIncident(db, x) == db1;
      hide SaveIncident;
      forall r, y | y in At(db1.incidents, r) ensures y.run == r && o.HasIncident(y.id, r) {
        if r == x.run { assert y in s + [x]; } else { assert y in At(db.incidents, r); }
      }
    }
  }

  lemma OwnSaveIncident(o: Owners, a: Db, b: Db, r: Id, x: Incident)
    requires Sim(o, a, b, r) && o.HasIncident(x.id, x.run) && x.run == r
    ensures Sim(o, SaveIncident(a, x), SaveIncident(b, x), r)
  {
    FiledSaveIncident(o, a, x);
    FiledSaveIncident(o, b, x);
    hide Filed;
  }

  lemma ForeignSaveIncident(o: Owners, a: Db, b: Db, r: Id, x: Incident)
    requires Sim(o, a, b, r) && o.HasIncident(x.id, x.run) && x.run != r
    ensures Sim(o, a, SaveIncident(b, x), r)
  {
    FiledSaveIncident(o, b, x);
    hide Filed;
  }

  lemma FiledSavePlan(o: Owners, db: Db, p: Plan)
    requires Filed(o, db) && o.HasIncident(p.incident, p.run)
    ensures Filed(o, SavePlan(db, p))
  {
    var db1 := SavePlan(db, p);
    var s := At(db.plans, p.incident);
    forall i, q | q in At(db1.plans, i) ensures q.incident == i && o.HasIncident(i, q.run) {
      if i == p.incident {
        var k :| 0 <= k < |At(db1.plans, i)| && At(db1.plans, i)[k] == q;
        if k < |s| { assert s[k] in s; }
      } else {
        assert q in At(db.plans, i);
      }
    }
  }

  lemma OwnSavePlan(o: Owners, a: Db, b: Db, r: Id, p: Plan)
    requires Sim(o, a, b, r) && o.HasIncident(p.incident, r) && p.run == r
    ensures Sim(o, SavePlan(a, p), SavePlan(b, p), r)
  {
    FiledSavePlan(o, a, p);
    FiledSavePlan(o, b, p);
    hide Filed, UpdatedPlans, HasPlan;
  }

  lemma ForeignSavePlan(o: Owners, a: Db, b: Db, r: Id, p: Plan)
    requires Sim(o, a, b, r) && o.HasIncident(p.incident, p.run) && p.run != r
    ensures Sim(o, a, SavePlan(b, p), r)
  {
    FiledSavePlan(o, b, p);
    hide Filed, UpdatedPlans, HasPlan;
  }

  /** Changes outside the tables a run's view covers. */
  ghost predicate Invisible(db: Db, db1: Db) {
    && db1.runs == db.runs && db1.events == db.events && db1.keys == db.keys
    && db1.incidents == db.incidents && db1.audits == db.audits && db1.plans == db.plans
  }

  lemma SimInvisible(o: Owners, a: Db, b: Db, a1: Db, b1: Db, r: Id)
    requires Sim(o, a, b, r) && Invisible(a, a1) && Invisible(b, b1)
    ensures Sim(o, a1, b1, r)
  {
    assert Filed(o, a1) && Filed(o, b1) by { hide SameDb; }
    hide Filed;
  }

  // ---- pauses, resumes, gates ----

  lemma OwnPause(o: Owners, a: Db, b: Db, r: Id, i: Id)
    requires Sim(o, a, b, r) && o.HasIncident(i, r)
    ensures Sim(o, PauseRun(a, r, i), PauseRun(b, r, i), r)
  {
    SameRows(o, a, b, r);
    hide Sim, CasRunStatus, Log, At;
    OwnCas(o, a, b, r, PauseRequested, PAUSABLE);
    OwnLog(o, a, b, r, Audit(PauseFailedAudit, Failure, Some(i)));
    OwnLog(o, a, b, r, Audit(PauseRequestedAudit, Idempotent, Some(i)));
    OwnLog(o, CasRunStatus(a, r, PauseRequested, PAUSABLE), CasRunStatus(b, r, PauseRequested, PAUSABLE), r,
           Audit(PauseRequestedAudit, Success, Some(i)));
  }

  lemma ForeignPause(o: Owners, a: Db, b: Db, r: Id, q: Id, i: Id)
    requires Sim(o, a, b, r) && o.HasIncident(i, q) && q != r
    ensures Sim(o, a, PauseRun(b, q, i), r)
  {
    hide Sim, CasRunStatus;
    ForeignCas(o, a, b, r, q, PauseRequested, PAUSABLE);
    ForeignLog(o, a, b, r, q, Audit(PauseFailedAudit, Failure, Some(i)));
    ForeignLog(o, a, b, r, q, Audit(PauseRequestedAudit, Idempotent, Some(i)));
    ForeignLog(o, a, CasRunStatus(b, q, PauseRequested, PAUSABLE), r, q, Audit(PauseRequestedAudit, Success, Some(i)));
  }

  lemma OwnResume(o: Owners, a: Db, b: Db, r: Id, i: Option<Id>)
    requires Sim(o, a, b, r) && Ours(o, i, r)
    ensures Sim(o, ResumeRun(a, r, i), ResumeRun(b, r, i), r)
  {
    SameRows(o, a, b, r);
    SimFiled(o, a, b, r);
    OwnTarget(o, a, r, i);
    var target := ResumeTarget(a, r, i);
    assert ResumeTarget(b, r, i) == target;
    hide Sim, CasRunStatus, ResumeTarget, Log, Filed, At;
    if r in a.runs {
      if Terminal(a.runs[r].status) {
        OwnLog(o, a, b, r, Audit(ResumeFailedAudit, Failure, None));
      } else if a.runs[r].status in PAUSABLE {
        OwnLog(o, a, b, r, Audit(ResumeRequestedAudit, Idempotent, None));
      } else {
        var a1, b1 := CasRunStatus(a, r, ResumeRequested, HELD), CasRunStatus(b, r, ResumeRequested, HELD);
        OwnCas(o, a, b, r, ResumeRequested, HELD);
        OwnLog(o, a1, b1, r, Audit(ResumeRequestedAudit, Success, target));
      }
    }
  }

  lemma ForeignResume(o: Owners, a: Db, b: Db, r: Id, q: Id, i: Option<Id>)
    requires Sim(o, a, b, r) && Ours(o, i, q) && q != r
    ensures Sim(o, a, ResumeRun(b, q, i), r)
  {
    SimFiled(o, a, b, r);
    OwnTarget(o, b, q, i);
    hide Sim, CasRunStatus, ResumeTarget, Log, Filed, At;
    ForeignCas(o, a, b, r, q, ResumeRequested, HELD);
    ForeignLog(o, a, b, r, q, Audit(ResumeFailedAudit, Failure, None));
    ForeignLog(o, a, b, r, q, Audit(ResumeRequestedAudit, Idempotent, None));
    ForeignLog(o, a, CasRunStatus(b, q, ResumeRequested, HELD), r, q,
               Audit(ResumeRequestedAudit, Success, ResumeTarget(b, q, i)));
  }

  lemma OwnEntry(o: Owners, a: Db, b: Db, r: Id)
    requires Sim(o, a, b, r)
    ensures Sim(o, GateEntry(a, r), GateEntry(b, r), r)
  {
    SameRows(o, a, b, r);
    hide Sim, UpdateProtectionMode, UpdateRunStatus, Log, At;
    var paused := Audit(PausedAudit, Success, None);
    var a1, b1 := UpdateProtectionMode(a, r, Active), UpdateProtectionMode(b, r, Active);
    OwnMode(o, a, b, r, Active);
    OwnStatus(o, a, b, r, Paused);
    OwnLog(o, UpdateRunStatus(a, r, Paused), UpdateRunStatus(b, r, Paused), r, paused);
    OwnStatus(o, a1, b1, r, Paused);
    OwnLog(o, UpdateRunStatus(a1, r, Paused), UpdateRunStatus(b1, r, Paused), r, paused);
  }

  lemma ForeignEntry(o: Owners, a: Db, b: Db, r: Id, q: Id)
    requires Sim(o, a, b, r) && q != r
    ensures Sim(o, a, GateEntry(b, q), r)
  {
    hide Sim, UpdateProtectionMode, UpdateRunStatus;
    var paused := Audit(PausedAudit, Success, None);
    var b1 := UpdateProtectionMode(b, q, Active);
    ForeignMode(o, a, b, r, q, Active);
    ForeignStatus(o, a, b, r, q, Paused);
    ForeignLog(o, a, UpdateRunStatus(b, q, Paused), r, q, paused);
    ForeignStatus(o, a, b1, r, q, Paused);
    ForeignLog(o, a, UpdateRunStatus(b1, q, Paused), r, q, paused);
  }

  lemma OwnRelease(o: Owners, a: Db, b: Db, r: Id)
    requires Sim(o, a, b, r)
    ensures Sim(o, GateRelease(a, r), GateRelease(b, r), r)
  {
    SimReads(o, a, b, r);
    hide Sim, UpdateRunStatus;
    OwnStatus(o, a, b, r, Running);
    OwnLog(o, UpdateRunStatus(a, r, Running), UpdateRunStatus(b, r, Running), r, Audit(ResumedAudit, Success, None));
  }

  lemma ForeignRelease(o: Owners, a: Db, b: Db, r: Id, q: Id)
    requires Sim(o, a, b, r) && q != r
    ensures Sim(o, a, GateRelease(b, q), r)
  {
    hide Sim, UpdateRunStatus;
    ForeignStatus(o, a, b, r, q, Running);
    ForeignLog(o, a, UpdateRunStatus(b, q, Running), r, q, Audit(ResumedAudit, Success, None));
  }

  // ---- the collector ----

  lemma MarkInvisible(db: Db, i: Id, o: OutcomeVerification)
    ensures Invisible(db, VerifyOutcomes(db, i, o))
  {
    hide VerifiedOutcomes;
  }

  lemma OwnMark(o: Owners, a: Db, b: Db, r: Id, i: Id, v: Verification, ov: OutcomeVerification)
    requires Sim(o, a, b, r) && o.HasIncident(i, r)
    ensures Sim(o, MarkPlan(a, i, v, ov), MarkPlan(b, i, v, ov), r)
  {
    SimReads(o, a, b, r);
    assert Filed(o, a);
    FiledReads(o, a, r);
    hide Sim, SavePlan, VerifyOutcomes;
    if PlanOf(a, i).Some? {
      var p := PlanOf(a, i).value.(verification := Some(v));
      OwnSavePlan(o, a, b, r, p);
      MarkInvisible(SavePlan(a, p), i, ov);
      MarkInvisible(SavePlan(b, p), i, ov);
      var a1, b1 := SavePlan(a, p), SavePlan(b, p);
      SimInvisible(o, a1, b1, VerifyOutcomes(a1, i, ov), VerifyOutcomes(b1, i, ov), r);
    }
  }

  lemma ForeignMark(o: Owners, a: Db, b: Db, r: Id, q: Id, i: Id, v: Verification, ov: OutcomeVerification)
    requires Sim(o, a, b, r) && o.HasIncident(i, q) && q != r
    ensures Sim(o, a, MarkPlan(b, i, v, ov), r)
  {
    FiledReads(o, b, q);
    hide Sim, SavePlan, VerifyOutcomes;
    if PlanOf(b, i).Some? {
      var p := PlanOf(b, i).value.(verification := Some(v));
      ForeignSavePlan(o, a, b, r, p);
      MarkInvisible(SavePlan(b, p), i, ov);
      SimInvisible(o, a, SavePlan(b, p), a, VerifyOutcomes(SavePlan(b, p), i, ov), r);
    }
  }

  lemma OwnRepeat(o: Owners, a: Db, b: Db, r: Id)
    requires Sim(o, a, b, r)
    ensures Sim(o, RepeatFailure(a, r), RepeatFailure(b, r), r)
  {
    SimReads(o, a, b, r);
    hide Sim, ResumedIncident, HasVerdict, MarkPlan, PauseRun, PlanOf;
    var i := ResumedIncident(At(a.audits, r));
    if i.Some? {
      var x := Audit(RecoveryVerification, RepeatedFailure, i);
      var a1, b1 := Log(a, r, x), Log(b, r, x);
      OwnLog(o, a, b, r, x);
      SimReads(o, a1, b1, r);
      OwnMark(o, a1, b1, r, i.value, RecoveryRepeated, VerifiedFailure);
      var a2 := MarkPlan(a1, i.value, RecoveryRepeated, VerifiedFailure);
      var b2 := MarkPlan(b1, i.value, RecoveryRepeated, VerifiedFailure);
      OwnPause(o, a2, b2, r, i.value);
    }
  }

  lemma ForeignRepeat(o: Owners, a: Db, b: Db, r: Id, q: Id)
    requires Sim(o, a, b, r) && q != r
    ensures Sim(o, a, RepeatFailure(b, q), r)
  {
    FiledReads(o, b, q);
    hide Sim, ResumedIncident, HasVerdict, MarkPlan, PauseRun, PlanOf;
    var i := ResumedIncident(At(b.audits, q));
    if i.Some? {
      var x := Audit(RecoveryVerification, RepeatedFailure, i);
      var b1 := Log(b, q, x);
      ForeignLog(o, a, b, r, q, x);
      ForeignMark(o, a, b1, r, q, i.value, RecoveryRepeated, VerifiedFailure);
      ForeignPause(o, a, MarkPlan(b1, i.value, RecoveryRepeated, VerifiedFailure), r, q, i.value);
    }
  }

  lemma OwnVerify(o: Owners, a: Db, b: Db, r: Id)
    requires Sim(o, a, b, r)
    ensures Sim(o, VerifyRecovery(a, r), VerifyRecovery(b, r), r)
  {
    SimReads(o, a, b, r);
    hide Sim, ResumedIncident, LatestResume, HasVerdict, MarkPlan;
    var i := ResumedIncident(At(a.audits, r));
    var x := Audit(RecoveryVerification, Verified, i);
    OwnLog(o, a, b, r, x);
    if i.Some? { OwnMark(o, Log(a, r, x), Log(b, r, x), r, i.value, RecoveryVerified, VerifiedSuccess); }
  }

  lemma ForeignVerify(o: Owners, a: Db, b: Db, r: Id, q: Id)
    requires Sim(o, a, b, r) && q != r
    ensures Sim(o, a, VerifyRecovery(b, q), r)
  {
    FiledReads(o, b, q);
    hide Sim, ResumedIncident, LatestResume, HasVerdict, MarkPlan;
    var i := ResumedIncident(At(b.audits, q));
    var x := Audit(RecoveryVerification, Verified, i);
    ForeignLog(o, a, b, r, q, x);
    if i.Some? { ForeignMark(o, a, Log(b, q, x), r, q, i.value, RecoveryVerified, VerifiedSuccess); }
  }

  lemma OwnBook(o: Owners, cfg: Config, a: Db, b: Db, r: Id, e: Event)
    requires Sim(o, a, b, r) && e.run == r
    ensures Sim(o, Book(cfg, a, e), Book(cfg, b, e), r)
  {
    SimReads(o, a, b, r);
    hide Sim, VerifyRecovery, Advance, NewRun, SaveRun;
    OwnSaveRun(o, a, b, r, NewRun(cfg, e));
    var a1, b1 := EnsureRun(cfg, a, e), EnsureRun(cfg, b, e);
    SaveRunRows(a, r, NewRun(cfg, e));
    SaveRunRows(b, r, NewRun(cfg, e));
    SimReads(o, a1, b1, r);
    OwnVerify(o, a1, b1, r);
    var row := Advance(a1.runs[r], e);
    OwnSaveRun(o, VerifyRecovery(a1, r), VerifyRecovery(b1, r), r, row);
    OwnSaveRun(o, a1, b1, r, row);
  }

  lemma ForeignBook(o: Owners, cfg: Config, a: Db, b: Db, r: Id, e: Event)
    requires Sim(o, a, b, r) && e.run != r
    ensures Sim(o, a, Book(cfg, b, e), r)
  {
    hide Sim, VerifyRecovery, Advance, NewRun, SaveRun;
    ForeignSaveRun(o, a, b, r, e.run, NewRun(cfg, e));
    var b1 := EnsureRun(cfg, b, e);
    SaveRunRows(b, e.run, NewRun(cfg, e));
    ForeignVerify(o, a, b1, r, e.run);
    var row := Advance(b1.runs[e.run], e);
    ForeignSaveRun(o, a, VerifyRecovery(b1, e.run), r, e.run, row);
    ForeignSaveRun(o, a, b1, r, e.run, row);
  }

  lemma OwnPublish(o: Owners, cfg: Config, a: Db, b: Db, r: Id, x: Option<Incident>)
    requires Sim(o, a, b, r) && (x.Some? ==> x.value.run == r && o.HasIncident(x.value.id, r))
    ensures Sim(o, Publish(cfg, a, x), Publish(cfg, b, x), r)
  {
    hide Sim, SaveIncident, PauseRun;
    if x.Some? {
      OwnSaveIncident(o, a, b, r, x.value);
      OwnPause(o, SaveIncident(a, x.value), SaveIncident(b, x.value), r, x.value.id);
    }
  }

  lemma ForeignPublish(o: Owners, cfg: Config, a: Db, b: Db, r: Id, q: Id, x: Option<Incident>)
    requires Sim(o, a, b, r) && q != r && (x.Some? ==> x.value.run == q && o.HasIncident(x.value.id, q))
    ensures Sim(o, a, Publish(cfg, b, x), r)
  {
    hide Sim, SaveIncident, PauseRun;
    if x.Some? {
      ForeignSaveIncident(o, a, b, r, x.value);
      ForeignPause(o, a, SaveIncident(b, x.value), r, q, x.value.id);
    }
  }

  /** Two control planes that hold the same about run r, the engine's memory included. */
  ghost predicate SameRun(o: Owners, s: State, t: State, r: Id) {
    && Sim(o, s.db, t.db, r)
    && (forall k: Key | k.run == r :: k in s.emitted <==> k in t.emitted)
    && (forall k: Key | k.run == r && k in s.emitted && k in t.emitted :: s.emitted[k] == t.emitted[k])
    && (r in s.cumulative <==> r in t.cumulative)
    && (r in s.cumulative ==> s.cumulative[r] == t.cumulative[r])
  }

  lemma OwnEvaluate(o: Owners, cfg: Config, s: State, t: State, r: Id, e: Event, which: Detector, id: Id)
    requires SameRun(o, s, t, r) && e.run == r
    ensures var (s1, x) := EvaluateOne(cfg, s, e, which, id);
            var (t1, y) := EvaluateOne(cfg, t, e, which, id);
            SameRun(o, s1, t1, r) && x == y
  {
    SameRunSim(o, s, t, r);
    OwnRepeat(o, s.db, t.db, r);
    OwnDetect(o, cfg, s, t, r, e, which);
    OwnMemory(o, s, t, r);
    OwnObserve(o, cfg, s, t, r, e, which);
    var s0, t0 := Observe(cfg, s, e, which), Observe(cfg, t, e, which);
    hide SameRun, Sim, RepeatFailure, Detect, Observe;
    ObserveKeeps(cfg, s, e, which);
    ObserveKeeps(cfg, t, e, which);
    match Detect(cfg, s, e, which) {
      case None =>
      case Some(d) =>
        if Key(r, d.failure, VERSION) in s.emitted {
          SameRunDb(o, s0, t0, RepeatFailure(s.db, r), RepeatFailure(t.db, r), r);
        } else {
          OwnRemember(o, s0, t0, r, Key(r, d.failure, VERSION), e.seqNo);
        }
    }
  }

  lemma ObserveKeeps(cfg: Config, st: State, e: Event, which: Detector)
    ensures Observe(cfg, st, e, which).db == st.db && Observe(cfg, st, e, which).emitted == st.emitted
  {}

  lemma OwnObserve(o: Owners, cfg: Config, s: State, t: State, r: Id, e: Event, which: Detector)
    requires SameRun(o, s, t, r) && e.run == r
    ensures SameRun(o, Observe(cfg, s, e, which), Observe(cfg, t, e, which), r)
  {
    hide Sim;
  }

  lemma OwnRemember(o: Owners, s: State, t: State, r: Id, k: Key, n: int)
    requires SameRun(o, s, t, r) && k.run == r
    ensures SameRun(o, s.(emitted := s.emitted[k := n]), t.(emitted := t.emitted[k := n]), r)
  {
    hide Sim;
  }

  lemma OwnDetect(o: Owners, cfg: Config, s: State, t: State, r: Id, e: Event, which: Detector)
    requires SameRun(o, s, t, r) && e.run == r
    ensures Detect(cfg, s, e, which) == Detect(cfg, t, e, which)
    ensures var c, d := Accumulate(cfg, s.cumulative, e), Accumulate(cfg, t.cumulative, e);
            (r in c <==> r in d) && (r in c ==> c[r] == d[r])
  {
    SimReads(o, s.db, t.db, r);
    hide Sim, StuckDetect;
  }

  lemma OwnMemory(o: Owners, s: State, t: State, r: Id)
    requires SameRun(o, s, t, r)
    ensures forall f, v :: Key(r, f, v) in s.emitted <==> Key(r, f, v) in t.emitted
  {
    hide Sim;
  }

  lemma ForeignObserve(o: Owners, cfg: Config, s: State, t: State, r: Id, e: Event, which: Detector)
    requires SameRun(o, s, t, r) && e.run != r
    ensures SameRun(o, s, Observe(cfg, t, e, which), r)
  {
    hide Sim, Costed;
  }

  lemma ForeignRemember(o: Owners, s: State, t: State, r: Id, k: Key, n: int)
    requires SameRun(o, s, t, r) && k.run != r
    ensures SameRun(o, s, t.(emitted := t.emitted[k := n]), r)
  {
    hide Sim;
  }

  lemma ForeignEvaluate(o: Owners, cfg: Config, s: State, t: State, r: Id, e: Event, which: Detector, id: Id)
    requires SameRun(o, s, t, r) && e.run != r
    ensures SameRun(o, s, EvaluateOne(cfg, t, e, which, id).0, r)
  {
    SameRunSim(o, s, t, r);
    ForeignRepeat(o, s.db, t.db, r, e.run);
    ForeignObserve(o, cfg, s, t, r, e, which);
    var t0 := Observe(cfg, t, e, which);
    ObserveKeeps(cfg, t, e, which);
    hide SameRun, Sim, RepeatFailure, Detect, Observe;
    match Detect(cfg, t, e, which) {
      case None =>
      case Some(d) =>
        SameRunDb(o, s, t0, s.db, RepeatFailure(t.db, e.run), r);
        ForeignRemember(o, s, t0, r, Key(e.run, d.failure, VERSION), e.seqNo);
    }
  }

  lemma EvaluatedIncident(cfg: Config, st: State, e: Event, which: Detector, id: Id)
    ensures EvaluateOne(cfg, st, e, which, id).1.Some? ==>
            && EvaluateOne(cfg, st, e, which, id).1.value.run == e.run
            && EvaluateOne(cfg, st, e, which, id).1.value.id == id
  {
    hide Window, RepeatFailure;
  }

  lemma SameRunDb(o: Owners, s: State, t: State, a: Db, b: Db, r: Id)
    requires SameRun(o, s, t, r) && Sim(o, a, b, r)
    ensures SameRun(o, s.(db := a), t.(db := b), r)
  {
    hide Sim;
  }

  lemma SameRunSim(o: Owners, s: State, t: State, r: Id)
    requires SameRun(o, s, t, r)
    ensures Sim(o, s.db, t.db, r)
  {}

  lemma OwnDeliver(o: Owners, cfg: Config, s: State, t: State, r: Id, e: Event, ids: (Id, Id))
    requires SameRun(o, s, t, r) && e.run == r
    requires o.HasKey(e.key, r) && o.HasIncident(ids.0, r) && o.HasIncident(ids.1, r)
    ensures SameRun(o, ProcessEvent(cfg, s, e, ids), ProcessEvent(cfg, t, e, ids), r)
  {
    SameRunSim(o, s, t, r);
    hide SameRun, Sim, Book, EvaluateOne, Publish, SaveEvent;
    var a, b := Book(cfg, s.db, e), Book(cfg, t.db, e);
    OwnBook(o, cfg, s.db, t.db, r, e);
    SameRunDb(o, s, t, a, b, r);
    SimReads(o, a, b, r);
    if e.key !in a.keys {
      OwnSaveEvent(o, a, b, r, e);
      var s0, t0 := s.(db := SaveEvent(a, e)), t.(db := SaveEvent(b, e));
      SameRunDb(o, s, t, s0.db, t0.db, r);
      OwnEvaluate(o, cfg, s0, t0, r, e, StuckLoopDetector, ids.0);
      EvaluatedIncident(cfg, s0, e, StuckLoopDetector, ids.0);
      var (s1, x) := EvaluateOne(cfg, s0, e, StuckLoopDetector, ids.0);
      var (t1, _) := EvaluateOne(cfg, t0, e, StuckLoopDetector, ids.0);
      OwnEvaluate(o, cfg, s1, t1, r, e, BudgetDetector, ids.1);
      EvaluatedIncident(cfg, s1, e, BudgetDetector, ids.1);
      var (s2, y) := EvaluateOne(cfg, s1, e, BudgetDetector, ids.1);
      var (t2, _) := EvaluateOne(cfg, t1, e, BudgetDetector, ids.1);
      SameRunSim(o, s2, t2, r);
      OwnPublish(o, cfg, s2.db, t2.db, r, x);
      OwnPublish(o, cfg, Publish(cfg, s2.db, x), Publish(cfg, t2.db, x), r, y);
      SameRunDb(o, s2, t2, Publish(cfg, Publish(cfg, s2.db, x), y), Publish(cfg, Publish(cfg, t2.db, x), y), r);
    }
  }

  lemma ForeignDeliver(o: Owners, cfg: Config, s: State, t: State, r: Id, e: Event, ids: (Id, Id))
    requires SameRun(o, s, t, r) && e.run != r
    requires o.HasKey(e.key, e.run) && o.HasIncident(ids.0, e.run) && o.HasIncident(ids.1, e.run)
    ensures SameRun(o, s, ProcessEvent(cfg, t, e, ids), r)
  {
    SameRunSim(o, s, t, r);
    hide SameRun, Sim, Book, EvaluateOne, Publish, SaveEvent;
    var b := Book(cfg, t.db, e);
    ForeignBook(o, cfg, s.db, t.db, r, e);
    SameRunDb(o, s, t, s.db, b, r);
    if e.key !in b.keys {
      ForeignSaveEvent(o, s.db, b, r, e);
      var t0 := t.(db := SaveEvent(b, e));
      SameRunDb(o, s, t, s.db, t0.db, r);
      ForeignEvaluate(o, cfg, s, t0, r, e, StuckLoopDetector, ids.0);
      EvaluatedIncident(cfg, t0, e, StuckLoopDetector, ids.0);
      var (t1, x) := EvaluateOne(cfg, t0, e, StuckLoopDetector, ids.0);
      ForeignEvaluate(o, cfg, s, t1, r, e, BudgetDetector, ids.1);
      EvaluatedIncident(cfg, t1, e, BudgetDetector, ids.1);
      var (t2, y) := EvaluateOne(cfg, t1, e, BudgetDetector, ids.1);
      SameRunSim(o, s, t2, r);
      ForeignPublish(o, cfg, s.db, t2.db, r, e.run, x);
      ForeignPublish(o, cfg, s.db, Publish(cfg, t2.db, x), r, e.run, y);
      SameRunDb(o, s, t2, s.db, Publish(cfg, Publish(cfg, t2.db, x), y), r);
    }
  }

  // ---- plans ----

  lemma OwnRunAction(o: Owners, a: Db, b: Db, r: Id, p: Plan, x: PlanAction)
    requires Sim(o, a, b, r) && p.run == r && o.HasIncident(p.incident, r)
    ensures Sim(o, RunAction(a, p, x), RunAction(b, p, x), r)
  {
    hide Sim, ResumeRun;
    var a1, b1 := WriteAction(a, p, x, ActionExecuting), WriteAction(b, p, x, ActionExecuting);
    SimInvisible(o, a, b, a1, b1, r);
    match x.kind {
      case KeepPaused => OwnActionDone(o, a1, b1, r, p, x, ActionCompleted, Success);
      case Resume =>
        OwnResume(o, a1, b1, r, Some(p.incident));
        OwnActionDone(o, ResumeRun(a1, r, Some(p.incident)), ResumeRun(b1, r, Some(p.incident)), r, p, x,
                      ActionCompleted, Success);
      case Other(_) => OwnActionDone(o, a1, b1, r, p, x, ActionFailed, Failure);
    }
  }

  lemma OwnActionDone(
      o: Owners, a: Db, b: Db, r: Id, p: Plan, x: PlanAction, status: ActionStatus, result: AuditResult)
    requires Sim(o, a, b, r) && o.HasIncident(p.incident, r)
    ensures Sim(o, Log(WriteAction(a, p, x, status), r, PlanAudit(p, ActionExecuted, result)),
                   Log(WriteAction(b, p, x, status), r, PlanAudit(p, ActionExecuted, result)), r)
  {
    hide Sim;
    SimInvisible(o, a, b, WriteAction(a, p, x, status), WriteAction(b, p, x, status), r);
    OwnLog(o, WriteAction(a, p, x, status), WriteAction(b, p, x, status), r, PlanAudit(p, ActionExecuted, result));
  }

  lemma ForeignActionDone(
      o: Owners, a: Db, b: Db, r: Id, p: Plan, x: PlanAction, status: ActionStatus, result: AuditResult)
    requires Sim(o, a, b, r) && p.run != r && o.HasIncident(p.incident, p.run)
    ensures Sim(o, a, Log(WriteAction(b, p, x, status), p.run, PlanAudit(p, ActionExecuted, result)), r)
  {
    hide Sim, Log;
    SimInvisible(o, a, b, a, WriteAction(b, p, x, status), r);
    ForeignLog(o, a, WriteAction(b, p, x, status), r, p.run, PlanAudit(p, ActionExecuted, result));
  }

  lemma ForeignRunAction(o: Owners, a: Db, b: Db, r: Id, p: Plan, x: PlanAction)
    requires Sim(o, a, b, r) && p.run != r && o.HasIncident(p.incident, p.run)
    ensures Sim(o, a, RunAction(b, p, x), r)
  {
    var b1 := WriteAction(b, p, x, ActionExecuting);
    SimInvisible(o, a, b, a, b1, r);
    hide Sim, ResumeRun, Log, WriteAction;
    match x.kind {
      case KeepPaused => ForeignActionDone(o, a, b1, r, p, x, ActionCompleted, Success);
      case Resume =>
        ForeignResume(o, a, b1, r, p.run, Some(p.incident));
        ForeignActionDone(o, a, ResumeRun(b1, p.run, Some(p.incident)), r, p, x, ActionCompleted, Success);
      case Other(_) => ForeignActionDone(o, a, b1, r, p, x, ActionFailed, Failure);
    }
  }

  lemma {:induction false} OwnRunActions(o: Owners, a: Db, b: Db, r: Id, p: Plan, s: seq<PlanAction>)
    requires Sim(o, a, b, r) && p.run == r && o.HasIncident(p.incident, r)
    ensures Sim(o, RunActions(a, p, s), RunActions(b, p, s), r)
  {
    if s != [] {
      hide Sim, RunAction;
      OwnRunActions(o, a, b, r, p, s[..|s| - 1]);
      OwnRunAction(o, RunActions(a, p, s[..|s| - 1]), RunActions(b, p, s[..|s| - 1]), r, p, Last(s));
    }
  }

  lemma {:induction false} ForeignRunActions(o: Owners, a: Db, b: Db, r: Id, p: Plan, s: seq<PlanAction>)
    requires Sim(o, a, b, r) && p.run != r && o.HasIncident(p.incident, p.run)
    ensures Sim(o, a, RunActions(b, p, s), r)
  {
    if s != [] {
      hide Sim, RunAction;
      ForeignRunActions(o, a, b, r, p, s[..|s| - 1]);
      ForeignRunAction(o, a, RunActions(b, p, s[..|s| - 1]), r, p, Last(s));
    }
  }

  lemma OwnCarry(o: Owners, a: Db, b: Db, r: Id, p: Plan)
    requires Sim(o, a, b, r) && p.run == r && o.HasIncident(p.incident, r)
    ensures Sim(o, Carry(a, p), Carry(b, p), r)
  {
    hide Sim, SavePlan, RunActions, Learn;
    var approved, executing, done := p.(status := Approved), p.(status := Executing), Executed(p);
    OwnSavePlan(o, a, b, r, approved);
    var a1 := Log(SavePlan(a, approved), r, PlanAudit(p, PlanApproved, Success));
    var b1 := Log(SavePlan(b, approved), r, PlanAudit(p, PlanApproved, Success));
    OwnLog(o, SavePlan(a, approved), SavePlan(b, approved), r, PlanAudit(p, PlanApproved, Success));
    OwnSavePlan(o, a1, b1, r, executing);
    OwnRunActions(o, SavePlan(a1, executing), SavePlan(b1, executing), r, p, p.actions);
    var a2, b2 := RunActions(SavePlan(a1, executing), p, p.actions), RunActions(SavePlan(b1, executing), p, p.actions);
    OwnSavePlan(o, a2, b2, r, done);
    LearnTouches(SavePlan(a2, done), done, true);
    LearnTouches(SavePlan(b2, done), done, true);
    var a3, b3 := SavePlan(a2, done), SavePlan(b2, done);
    SimInvisible(o, a3, b3, Learn(a3, done, true), Learn(b3, done, true), r);
  }

  lemma ForeignCarry(o: Owners, a: Db, b: Db, r: Id, p: Plan)
    requires Sim(o, a, b, r) && p.run != r && o.HasIncident(p.incident, p.run)
    ensures Sim(o, a, Carry(b, p), r)
  {
    hide Sim, SavePlan, RunActions, Learn;
    var approved, executing, done := p.(status := Approved), p.(status := Executing), Executed(p);
    ForeignSavePlan(o, a, b, r, approved);
    var b1 := Log(SavePlan(b, approved), p.run, PlanAudit(p, PlanApproved, Success));
    ForeignLog(o, a, SavePlan(b, approved), r, p.run, PlanAudit(p, PlanApproved, Success));
    ForeignSavePlan(o, a, b1, r, executing);
    ForeignRunActions(o, a, SavePlan(b1, executing), r, p, p.actions);
    var b2 := RunActions(SavePlan(b1, executing), p, p.actions);
    ForeignSavePlan(o, a, b2, r, done);
    LearnTouches(SavePlan(b2, done), done, true);
    SimInvisible(o, a, SavePlan(b2, done), a, Learn(SavePlan(b2, done), done, true), r);
  }

  lemma SameFresh(o: Owners, a: Db, b: Db, r: Id, p: Plan)
    requires Sim(o, a, b, r) && p.run == r
    ensures Fresh(a, p) <==> Fresh(b, p)
  {
    SameRows(o, a, b, r);
    hide Sim, LatestSeq;
  }

  lemma OwnApprove(o: Owners, a: Db, b: Db, r: Id, p: Plan, role: Role)
    requires Sim(o, a, b, r) && p.run == r && o.HasIncident(p.incident, r)
    ensures Sim(o, ApprovePlan(a, p, role), ApprovePlan(b, p, role), r)
  {
    hide Sim, SavePlan, Carry, MayExecute, Fresh, Log;
    SameFresh(o, a, b, r, p);
    OwnCarry(o, a, b, r, p);
    OwnLog(o, a, b, r, PlanAudit(p, PlanRejected, Failure));
    OwnSavePlan(o, a, b, r, p.(status := Stale));
    var stale := p.(status := Stale);
    OwnLog(o, SavePlan(a, stale), SavePlan(b, stale), r, PlanAudit(p, PlanRejected, Failure));
  }

  lemma ForeignApprove(o: Owners, a: Db, b: Db, r: Id, p: Plan, role: Role)
    requires Sim(o, a, b, r) && p.run != r && o.HasIncident(p.incident, p.run)
    ensures Sim(o, a, ApprovePlan(b, p, role), r)
  {
    hide Sim, SavePlan, Carry, MayExecute, LatestSeq, Fresh;
    ForeignCarry(o, a, b, r, p);
    ForeignLog(o, a, b, r, p.run, PlanAudit(p, PlanRejected, Failure));
    ForeignSavePlan(o, a, b, r, p.(status := Stale));
    ForeignLog(o, a, SavePlan(b, p.(status := Stale)), r, p.run, PlanAudit(p, PlanRejected, Failure));
  }

  lemma OwnDismiss(o: Owners, a: Db, b: Db, r: Id, p: Plan, role: Role)
    requires Sim(o, a, b, r) && p.run == r && o.HasIncident(p.incident, r)
    ensures Sim(o, DismissPlan(a, p, role), DismissPlan(b, p, role), r)
  {
    hide Sim, SavePlan, Learn;
    var q := p.(status := Rejected);
    OwnSavePlan(o, a, b, r, q);
    var a1 := Log(SavePlan(a, q), r, PlanAudit(p, PlanRejected, Success));
    var b1 := Log(SavePlan(b, q), r, PlanAudit(p, PlanRejected, Success));
    OwnLog(o, SavePlan(a, q), SavePlan(b, q), r, PlanAudit(p, PlanRejected, Success));
    LearnTouches(a1, q, false);
    LearnTouches(b1, q, false);
    SimInvisible(o, a1, b1, Learn(a1, q, false), Learn(b1, q, false), r);
  }

  lemma ForeignDismiss(o: Owners, a: Db, b: Db, r: Id, p: Plan, role: Role)
    requires Sim(o, a, b, r) && p.run != r && o.HasIncident(p.incident, p.run)
    ensures Sim(o, a, DismissPlan(b, p, role), r)
  {
    hide Sim, SavePlan, Learn;
    var q := p.(status := Rejected);
    ForeignSavePlan(o, a, b, r, q);
    var b1 := Log(SavePlan(b, q), p.run, PlanAudit(p, PlanRejected, Success));
    ForeignLog(o, a, SavePlan(b, q), r, p.run, PlanAudit(p, PlanRejected, Success));
    LearnTouches(b1, q, false);
    SimInvisible(o, a, b1, a, Learn(b1, q, false), r);
  }

  // ---- plan requests ----

  /** The AI's answer decides the draft, whatever was learned from other runs. */
  predicate Decides(x: Incident, ai: Option<Analysis>) {
    ShouldInvokeAi(x) && ai.Some? && ai.value.recommended in {KeepPaused, Resume}
  }

  lemma OwnDraft(
      o: Owners, a: Db, b: Db, r: Id, x: Incident, planId: Id, actionId: Id, ai: Option<Analysis>)
    requires Sim(o, a, b, r) && x.run == r && Decides(x, ai)
    ensures Draft(a, x, planId, actionId, ai) == Draft(b, x, planId, actionId, ai)
  {
    SimReads(o, a, b, r);
    hide Sim, Proposal, LatestSeq, ResumedIncident, NewestOpen;
  }

  lemma RecallInvisible(db: Db, x: Incident)
    ensures Invisible(db, Recall(db, x))
  {
    hide TriggerEvent, PatternOf;
  }

  lemma OwnConsult(o: Owners, a: Db, b: Db, r: Id, x: Incident, ai: Option<Analysis>)
    requires Sim(o, a, b, r) && x.run == r && o.HasIncident(x.id, r) && Decides(x, ai)
    ensures Sim(o, ConsultAi(a, x, ai), ConsultAi(b, x, ai), r)
  {
    hide Sim, Log;
    var asked, began := Audit(AiRequested, Success, Some(x.id)), Audit(AiStarted, Success, Some(x.id));
    OwnLog(o, a, b, r, asked);
    OwnLog(o, Log(a, r, asked), Log(b, r, asked), r, began);
    OwnLog(o, Log(Log(a, r, asked), r, began), Log(Log(b, r, asked), r, began), r,
           Audit(AiCompleted, Success, Some(x.id)));
  }

  lemma ForeignConsult(o: Owners, a: Db, b: Db, r: Id, x: Incident, ai: Option<Analysis>)
    requires Sim(o, a, b, r) && x.run != r && o.HasIncident(x.id, x.run)
    ensures Sim(o, a, ConsultAi(b, x, ai), r)
  {
    hide Sim, Log;
    var q := x.run;
    var b1 := Log(b, q, Audit(AiRequested, Success, Some(x.id)));
    ForeignLog(o, a, b, r, q, Audit(AiRequested, Success, Some(x.id)));
    var b2 := Log(b1, q, Audit(AiStarted, Success, Some(x.id)));
    ForeignLog(o, a, b1, r, q, Audit(AiStarted, Success, Some(x.id)));
    ForeignLog(o, a, b2, r, q, Audit(AiCompleted, Success, Some(x.id)));
    ForeignLog(o, a, b2, r, q, Audit(AiFailed, Failure, Some(x.id)));
    ForeignLog(o, a, Log(b2, q, Audit(AiFailed, Failure, Some(x.id))), r, q, Audit(AiFallback, Success, Some(x.id)));
  }

  lemma OwnDrafted(
      o: Owners, a: Db, b: Db, r: Id, x: Incident, planId: Id, actionId: Id, ai: Option<Analysis>)
    requires Sim(o, a, b, r) && x.run == r && o.HasIncident(x.id, r) && Decides(x, ai)
    ensures Sim(o, Drafted(a, x, planId, actionId, ai), Drafted(b, x, planId, actionId, ai), r)
  {
    hide Sim, Recall, ConsultAi, Draft, SavePlan;
    RecallInvisible(a, x);
    RecallInvisible(b, x);
    SimInvisible(o, a, b, Recall(a, x), Recall(b, x), r);
    OwnConsult(o, Recall(a, x), Recall(b, x), r, x, ai);
    OwnDraft(o, a, b, r, x, planId, actionId, ai);
    DraftShape(b, x, planId, actionId, ai);
    var a1, b1 := ConsultAi(Recall(a, x), x, ai), ConsultAi(Recall(b, x), x, ai);
    OwnSavePlan(o, a1, b1, r, Draft(b, x, planId, actionId, ai));
  }

  lemma SameAutomation(o: Owners, cfg: Config, a: Db, b: Db, r: Id, p: Plan, x: Incident)
    requires Sim(o, a, b, r) && x.run == r
    ensures MayAutomate(cfg, a, p, x) <==> MayAutomate(cfg, b, p, x)
  {
    SameRows(o, a, b, r);
    hide Sim, At;
  }

  /** What becomes of a saved draft. */
  function Automated(cfg: Config, db: Db, p: Plan, x: Incident): Db {
    if MayAutomate(cfg, db, p, x)
    then ApprovePlan(Log(db, x.run, Audit(AutomationExecuted, Success, Some(x.id))), p, Admin)
    else Log(db, x.run, Audit(AutomationRejected, Success, Some(x.id)))
  }

  lemma OwnAutomation(o: Owners, cfg: Config, a: Db, b: Db, r: Id, p: Plan, x: Incident)
    requires Sim(o, a, b, r) && x.run == r && o.HasIncident(x.id, r)
    requires p.run == r && p.incident == x.id
    ensures Sim(o, Automated(cfg, a, p, x), Automated(cfg, b, p, x), r)
  {
    SameAutomation(o, cfg, a, b, r, p, x);
    hide Sim, ApprovePlan, MayAutomate, Log;
    var started := Audit(AutomationExecuted, Success, Some(x.id));
    OwnLog(o, a, b, r, started);
    OwnLog(o, a, b, r, Audit(AutomationRejected, Success, Some(x.id)));
    OwnApprove(o, Log(a, r, started), Log(b, r, started), r, p, Admin);
  }

  lemma OwnPlan(
      o: Owners, cfg: Config, a: Db, b: Db, r: Id, x: Incident, planId: Id, actionId: Id, ai: Option<Analysis>)
    requires Sim(o, a, b, r) && x.run == r && o.HasIncident(x.id, r) && Decides(x, ai)
    ensures Sim(o, PlanFor(cfg, a, x, planId, actionId, ai), PlanFor(cfg, b, x, planId, actionId, ai), r)
  {
    SamePlanOf(o, a, b, r, x.id);
    OwnDrafted(o, a, b, r, x, planId, actionId, ai);
    OwnDraft(o, a, b, r, x, planId, actionId, ai);
    DraftShape(b, x, planId, actionId, ai);
    hide Sim, Drafted, Draft, ApprovePlan, MayAutomate, Log, PlanOf, Settled, Fresh, Decides;
    OwnAutomation(o, cfg, Drafted(a, x, planId, actionId, ai), Drafted(b, x, planId, actionId, ai), r,
                  Draft(b, x, planId, actionId, ai), x);
  }

  lemma ForeignPlan(
      o: Owners, cfg: Config, a: Db, b: Db, r: Id, x: Incident, planId: Id, actionId: Id, ai: Option<Analysis>)
    requires Sim(o, a, b, r) && x.run != r && o.HasIncident(x.id, x.run)
    ensures Sim(o, a, PlanFor(cfg, b, x, planId, actionId, ai), r)
  {
    DraftShape(b, x, planId, actionId, ai);
    hide Sim, Recall, ConsultAi, Draft, SavePlan, ApprovePlan, MayAutomate, Log, PlanOf;
    var p := Draft(b, x, planId, actionId, ai);
    RecallInvisible(b, x);
    SimInvisible(o, a, b, a, Recall(b, x), r);
    ForeignConsult(o, a, Recall(b, x), r, x, ai);
    ForeignSavePlan(o, a, ConsultAi(Recall(b, x), x, ai), r, p);
    var b1 := Drafted(b, x, planId, actionId, ai);
    var started := Audit(AutomationExecuted, Success, Some(x.id));
    ForeignLog(o, a, b1, r, x.run, started);
    ForeignLog(o, a, b1, r, x.run, Audit(AutomationRejected, Success, Some(x.id)));
    ForeignApprove(o, a, Log(b1, x.run, started), r, p, Admin);
  }

  // ---- whole runs ----

  /** The run a step is about; a restart is about all of them. */
  function About(o: Owners, step: Step): Option<Id> {
    match step
    case Deliver(e, _) => Some(e.run)
    case EnterGate(r) => Some(r)
    case AfterInterrupt(r) => Some(r)
    case AutoGen(r) => Some(r)
    case OperatorResume(r, _) => Some(r)
    case Notify(r, _, _) => Some(r)
    case Approve(i, _) => if i in o.incident then Some(o.incident[i]) else None
    case Reject(i, _) => if i in o.incident then Some(o.incident[i]) else None
    case MakePlan(x, _, _, _) => Some(x.run)
    case Restart => None
  }

  /** A restart, or a step about a run that uses that run's keys and incidents only. */
  predicate Filing(o: Owners, step: Step) {
    && (About(o, step).Some? || step.Restart?)
    && match step
       case Deliver(e, ids) => o.HasKey(e.key, e.run) && o.HasIncident(ids.0, e.run) && o.HasIncident(ids.1, e.run)
       case OperatorResume(r, i) => Ours(o, i, r)
       case Notify(r, i, _) => o.HasIncident(i, r)
       case MakePlan(x, _, _, _) => o.HasIncident(x.id, x.run)
       case _ => true
  }

  /** A plan request whose draft the AI decides. */
  predicate Decided(step: Step) {
    step.MakePlan? ==> Decides(step.x, step.ai)
  }

  /** The run's own steps, and the restarts. */
  predicate Concerns(o: Owners, step: Step, r: Id) {
    About(o, step) == Some(r) || step.Restart?
  }

  function OnlyAbout(o: Owners, steps: seq<Step>, r: Id): seq<Step> {
    if steps == [] then []
    else OnlyAbout(o, steps[..|steps| - 1], r) + if Concerns(o, Last(steps), r) then [Last(steps)] else []
  }

  lemma BothRestart(o: Owners, s: State, t: State, r: Id)
    requires SameRun(o, s, t, r)
    ensures SameRun(o, s.(emitted := map[], cumulative := map[]), t.(emitted := map[], cumulative := map[]), r)
  {
    hide Sim;
  }

  lemma OwnDecision(o: Owners, cfg: Config, s: State, t: State, step: Step, r: Id)
    requires Sim(o, s.db, t.db, r) && (step.Approve? || step.Reject?) && About(o, step) == Some(r)
    ensures Sim(o, Next(cfg, s, step).db, Next(cfg, t, step).db, r)
  {
    SimFiled(o, s.db, t.db, r);
    hide Sim, ApprovePlan, DismissPlan, PlanOf, Filed;
    var i := step.target;
    SamePlanOf(o, s.db, t.db, r, i);
    if PlanOf(s.db, i).Some? {
      var p := PlanOf(s.db, i).value;
      OwnNewest(o, s.db, i);
      if step.Approve? {
        OwnApprove(o, s.db, t.db, r, p, step.role);
      } else {
        OwnDismiss(o, s.db, t.db, r, p, step.role);
      }
    }
  }

  lemma OnlyTables(cfg: Config, st: State, step: Step)
    requires !step.Deliver? && !step.Restart?
    ensures Next(cfg, st, step) == st.(db := Next(cfg, st, step).db)
  {
    hide GateEntry, GateRelease, ResumeRun, ApprovePlan, DismissPlan, PlanFor, PlanOf, Log;
  }

  lemma OwnCall(o: Owners, cfg: Config, s: State, t: State, step: Step, r: Id)
    requires Sim(o, s.db, t.db, r) && Filing(o, step) && About(o, step) == Some(r) && Decided(step) && !step.Deliver?
    ensures Sim(o, Next(cfg, s, step).db, Next(cfg, t, step).db, r)
  {
    hide Sim, GateEntry, GateRelease, ResumeRun, ApprovePlan, DismissPlan, PlanFor, PlanOf, Log;
    match step {
      case MakePlan(x, planId, actionId, ai) => OwnPlan(o, cfg, s.db, t.db, r, x, planId, actionId, ai);
      case EnterGate(_) => OwnEntry(o, s.db, t.db, r);
      case AfterInterrupt(_) => OwnRelease(o, s.db, t.db, r);
      case AutoGen(_) =>
        OwnEntry(o, s.db, t.db, r);
        OwnRelease(o, GateEntry(s.db, r), GateEntry(t.db, r), r);
      case OperatorResume(_, i) => OwnResume(o, s.db, t.db, r, i);
      case Notify(_, i, delivered) => OwnLog(o, s.db, t.db, r, Notification(i, delivered));
      case Approve(_, _) => OwnDecision(o, cfg, s, t, step, r);
      case Reject(_, _) => OwnDecision(o, cfg, s, t, step, r);
    }
  }

  lemma OwnStep(o: Owners, cfg: Config, s: State, t: State, step: Step, r: Id)
    requires SameRun(o, s, t, r) && Filing(o, step) && Concerns(o, step, r) && Decided(step)
    ensures SameRun(o, Next(cfg, s, step), Next(cfg, t, step), r)
  {
    SameRunSim(o, s, t, r);
    if step.Deliver? {
      OwnDeliver(o, cfg, s, t, r, step.e, step.ids);
    } else if step.Restart? {
      BothRestart(o, s, t, r);
    } else {
      hide Sim, SameRun, Next;
      OwnCall(o, cfg, s, t, step, r);
      OnlyTables(cfg, s, step);
      OnlyTables(cfg, t, step);
      SameRunDb(o, s, t, Next(cfg, s, step).db, Next(cfg, t, step).db, r);
    }
  }

  lemma ForeignDecision(o: Owners, cfg: Config, a: Db, t: State, step: Step, r: Id)
    requires Sim(o, a, t.db, r) && (step.Approve? || step.Reject?)
    requires About(o, step).Some? && About(o, step) != Some(r)
    ensures Sim(o, a, Next(cfg, t, step).db, r)
  {
    SimFiled(o, a, t.db, r);
    hide Sim, ApprovePlan, DismissPlan, PlanOf, Filed;
    var i := step.target;
    if PlanOf(t.db, i).Some? {
      var p := PlanOf(t.db, i).value;
      OwnNewest(o, t.db, i);
      if step.Approve? {
        ForeignApprove(o, a, t.db, r, p, step.role);
      } else {
        ForeignDismiss(o, a, t.db, r, p, step.role);
      }
    }
  }

  lemma ForeignCall(o: Owners, cfg: Config, a: Db, t: State, step: Step, r: Id)
    requires Sim(o, a, t.db, r) && Filing(o, step) && !Concerns(o, step, r) && !step.Deliver?
    ensures Sim(o, a, Next(cfg, t, step).db, r)
  {
    hide Sim, GateEntry, GateRelease, ResumeRun, ApprovePlan, DismissPlan, PlanFor, PlanOf, Log;
    match step {
      case MakePlan(x, planId, actionId, ai) => ForeignPlan(o, cfg, a, t.db, r, x, planId, actionId, ai);
      case EnterGate(q) => ForeignEntry(o, a, t.db, r, q);
      case AfterInterrupt(q) => ForeignRelease(o, a, t.db, r, q);
      case AutoGen(q) =>
        ForeignEntry(o, a, t.db, r, q);
        ForeignRelease(o, a, GateEntry(t.db, q), r, q);
      case OperatorResume(q, i) => ForeignResume(o, a, t.db, r, q, i);
      case Notify(q, i, delivered) => ForeignLog(o, a, t.db, r, q, Notification(i, delivered));
      case Approve(_, _) => ForeignDecision(o, cfg, a, t, step, r);
      case Reject(_, _) => ForeignDecision(o, cfg, a, t, step, r);
    }
  }

  lemma ForeignStep(o: Owners, cfg: Config, s: State, t: State, step: Step, r: Id)
    requires SameRun(o, s, t, r) && Filing(o, step) && !Concerns(o, step, r)
    ensures SameRun(o, s, Next(cfg, t, step), r)
  {
    SameRunSim(o, s, t, r);
    if step.Deliver? {
      ForeignDeliver(o, cfg, s, t, r, step.e, step.ids);
    } else {
      hide Sim, SameRun, Next;
      ForeignCall(o, cfg, s.db, t, step, r);
      OnlyTables(cfg, t, step);
      SameRunDb(o, s, t, s.db, Next(cfg, t, step).db, r);
    }
  }

  /** From any filed state and for any interleaving of steps about many runs, what is held about
      a run at the end is what its own steps and the restarts alone would have left, as long as the
      AI decides the plans made for it. */
  lemma {:induction false} RunsDoNotInterfere(o: Owners, cfg: Config, st: State, steps: seq<Step>, r: Id)
    requires Filed(o, st.db)
    requires forall step <- steps :: Filing(o, step)
    requires forall step <- steps :: About(o, step) == Some(r) ==> Decided(step)
    ensures SameRun(o, Trace(cfg, st, OnlyAbout(o, steps, r)), Trace(cfg, st, steps), r)
  {
    if steps == [] {
      assert SameDb(o, st.db, st.db, r);
    } else {
      hide SameRun, Next, Filed, Filing, About;
      var front := steps[..|steps| - 1];
      RunsDoNotInterfere(o, cfg, st, front, r);
      var own := OnlyAbout(o, front, r);
      if Concerns(o, Last(steps), r) {
        OwnStep(o, cfg, Trace(cfg, st, own), Trace(cfg, st, front), Last(steps), r);
        assert (own + [Last(steps)])[..|own|] == own;
      } else {
        ForeignStep(o, cfg, Trace(cfg, st, own), Trace(cfg, st, front), Last(steps), r);
        assert OnlyAbout(o, steps, r) == own;
      }
    }
  }

  // ---- where the guarantee ends ----

  /** A delivery stores its event and its key exactly when the key is new to the whole table. */
  lemma DeliveryStores(cfg: Config, st: State, e: Event, ids: (Id, Id))
    ensures var db := ProcessEvent(cfg, st, e, ids).db;
      && db.keys == st.db.keys + {e.key}
      && db.events == if e.key in st.db.keys then st.db.events
                      else st.db.events[e.run := At(st.db.events, e.run) + [e]]
  {
    hide Book, EvaluateBoth;
    BookRows(cfg, st.db, e);
    DetectRows(cfg, st, e, ids);
    if e.key in st.db.keys {
      assert st.db.keys + {e.key} == st.db.keys;
    }
  }

  /** Idempotency keys are unique over all runs: an event of one run whose key an event of another
      run has used is lost, although by itself it would have been stored. */
  lemma SharedKeyInterferes(cfg: Config, e: Event, f: Event, ids: (Id, Id), jds: (Id, Id))
    requires e.run != f.run && e.key == f.key
    ensures At(Trace(cfg, INITIAL, [Deliver(f, jds)]).db.events, f.run) == [f]
    ensures At(Trace(cfg, INITIAL, [Deliver(e, ids), Deliver(f, jds)]).db.events, f.run) == []
  {
    hide ProcessEvent;
    var one, two := [Deliver(e, ids)], [Deliver(e, ids), Deliver(f, jds)];
    assert one[..0] == [] && [Deliver(f, jds)][..0] == [] && two[..1] == one;
    assert Trace(cfg, INITIAL, []) == INITIAL;
    DeliveryStores(cfg, INITIAL, f, jds);
    DeliveryStores(cfg, INITIAL, e, ids);
    var st1 := ProcessEvent(cfg, INITIAL, e, ids);
    assert Trace(cfg, INITIAL, one) == st1;
    DeliveryStores(cfg, st1, f, jds);
    assert Trace(cfg, INITIAL, two) == ProcessEvent(cfg, st1, f, jds);
  }

  /** Three verified successes of resuming, recorded for an incident under a pattern. */
  function Successes(i: Id, k: PatternKey): seq<Outcome> {
    var o := Outcome(i, k, Resume, true, true, VerifiedSuccess);
    [o, o, o]
  }

  lemma SuccessesAreTrusted(i: Id, k: PatternKey, framework: string)
    requires framework == "langgraph" || framework == "autogen"
    ensures HistoryOverride(Successes(i, k), framework).Some?
    ensures HistoryOverride(Successes(i, k), framework).value.action == Resume
    ensures HistoryOverride(Successes(i, k), framework).value.risk == LowRisk
  {
    var s := Successes(i, k);
    forall p: Outcome -> bool ensures Count(s, p) == if p(s[0]) then 3 else 0 {
      assert s[..2][..1] == s[..1] && s[..1][..0] == [];
      assert Count(s[..1], p) == if p(s[0]) then 1 else 0;
      assert Count(s[..2], p) == if p(s[0]) then 2 else 0;
    }
    assert Candidate(s, framework, Resume);
    forall b | Candidate(s, framework, b) ensures AtLeast(Recommend(s, Resume), Recommend(s, b)) {
      assert b == Resume;
    }
    assert Trusted(s, framework, Resume);
    OverrideIsTrusted(s, framework);
  }

  lemma OneMoreOutcome(s: seq<Outcome>, o: Outcome)
    ensures OutcomesFor(s + [o], o.pattern) == [o] + OutcomesFor(s, o.pattern)
  {
    assert (s + [o])[..|s|] == s && Last(s + [o]) == o;
  }

  lemma OutcomesForAppended(s: seq<Outcome>, i: Id, k: PatternKey)
    requires OutcomesFor(s, k) == []
    ensures OutcomesFor(s + Successes(i, k), k) == Successes(i, k)
  {
    hide OutcomesFor;
    var o := Successes(i, k)[0];
    OneMoreOutcome(s, o);
    OneMoreOutcome(s + [o], o);
    OneMoreOutcome(s + [o] + [o], o);
    assert s + Successes(i, k) == s + [o] + [o] + [o];
  }

  /** Without an answer from the AI, the history under the incident's pattern decides the draft. */
  lemma HistoryDecides(db: Db, x: Incident, e: Event, planId: Id, actionId: Id)
    requires x.run in db.runs && TriggerEvent(At(db.events, x.run), x.trigger) == Some(e)
    requires PatternOf(db, x.run, x, e) in db.patterns
    ensures var k := PatternOf(db, x.run, x, e);
      var best := HistoryOverride(OutcomesFor(db.outcomes, k), db.patterns[k].framework);
      Draft(db, x, planId, actionId, None).actions ==
      [if best.None? then PlanAction(actionId, KeepPaused, LowRisk)
       else PlanAction(actionId, best.value.action, best.value.risk)]
  {
    hide HistoryOverride, OutcomesFor, TriggerEvent, Fingerprint, LatestSeq;
  }

  /** The remaining case does interfere: without an answer from the AI, outcomes that another run's
      incident left under the same pattern turn the plan from staying paused to resuming, although
      nothing that is held about the run itself differs. */
  lemma HistoryInterferes(o: Owners, db: Db, x: Incident, e: Event, planId: Id, actionId: Id, i: Id)
    requires x.run in db.runs && TriggerEvent(At(db.events, x.run), x.trigger) == Some(e)
    requires var k := PatternOf(db, x.run, x, e);
      && OutcomesFor(db.outcomes, k) == []
      && k in db.patterns && db.patterns[k].framework in {"langgraph", "autogen"}
    ensures var db1 := db.(outcomes := db.outcomes + Successes(i, PatternOf(db, x.run, x, e)));
      && SameDb(o, db, db1, x.run)
      && Draft(db, x, planId, actionId, None).actions == [PlanAction(actionId, KeepPaused, LowRisk)]
      && Draft(db1, x, planId, actionId, None).actions == [PlanAction(actionId, Resume, LowRisk)]
  {
    var k := PatternOf(db, x.run, x, e);
    var framework := db.patterns[k].framework;
    var db1 := db.(outcomes := db.outcomes + Successes(i, k));
    assert PatternOf(db1, x.run, x, e) == k;
    assert SameDb(o, db, db1, x.run) by { hide Successes; }
    HistoryDecides(db, x, e, planId, actionId);
    HistoryDecides(db1, x, e, planId, actionId);
    hide *;
    OutcomesForAppended(db.outcomes, i, k);
    SuccessesAreTrusted(i, k, framework);
    EmptyHistory(framework);
  }

  lemma EmptyHistory(framework: string)
    ensures HistoryOverride([], framework).None?
  {
    OverrideIsTrusted([], framework);
  }
}
