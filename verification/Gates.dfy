/** What the safety gates do over whole runs: an agent is stopped once per successful pause. */
module Gates {
  import opened Records
  import opened Tables
  import opened Detectors
  import opened Protection
  import opened Collector
  import opened Recovery
  import opened ControlPlane
  import opened Trails
  import opened Lifecycle
  import opened Verdicts
  import opened Interventions
  import opened Staleness

  predicate Requested(db: Db, r: Id) {
    r in db.runs && db.runs[r].status == PauseRequested
  }

  /** The successful pauses a gate has acted on, or that were overtaken by something else. */
  function Spent(db: Db, r: Id): int {
    Pauses(db, r) - if Requested(db, r) then 1 else 0
  }

  ghost predicate Grows(db: Db, db1: Db, r: Id) {
    Spent(db, r) <= Spent(db1, r) && Pauses(db, r) <= Pauses(db1, r)
  }

  lemma PauseGrows(db: Db, q: Id, incident: Id, r: Id)
    ensures Grows(db, PauseRun(db, q, incident), r)
  {
    hide Grows, Log, CasRunStatus;
    SameTrailGrows(db, db, r);
    LogGrows(db, q, Audit(PauseFailedAudit, Failure, Some(incident)), r);
    LogGrows(db, q, Audit(PauseRequestedAudit, Idempotent, Some(incident)), r);
    if q in db.runs && db.runs[q].status in PAUSABLE { TakenPauseGrows(db, q, incident, r); }
  }

  lemma TakenPauseGrows(db: Db, q: Id, incident: Id, r: Id)
    requires q in db.runs && db.runs[q].status in PAUSABLE
    ensures var a := Audit(PauseRequestedAudit, Success, Some(incident));
            Grows(db, Log(CasRunStatus(db, q, PauseRequested, PAUSABLE), q, a), r)
  {
    var a := Audit(PauseRequestedAudit, Success, Some(incident));
    var db1 := CasRunStatus(db, q, PauseRequested, PAUSABLE);
    assert db1 == db.(runs := db.runs[q := db.runs[q].(status := PauseRequested)]);
    hide Count, CasRunStatus;
    CountAppend(At(db.audits, q), a, IsPause);
    assert At(Log(db1, q, a).audits, r) == if r == q then At(db.audits, q) + [a] else At(db.audits, r);
  }

  lemma SameTrailGrows(db: Db, db1: Db, r: Id)
    requires At(db1.audits, r) == At(db.audits, r) && (Requested(db1, r) ==> Requested(db, r))
    ensures Grows(db, db1, r)
  {}

  lemma LogGrows(db: Db, q: Id, a: Audit, r: Id)
    requires !IsPause(a)
    ensures Grows(db, Log(db, q, a), r)
  {
    hide Count;
    CountAppend(At(db.audits, q), a, IsPause);
    assert At(Log(db, q, a).audits, r) == if r == q then At(db.audits, q) + [a] else At(db.audits, r);
  }

  lemma RepeatGrows(db: Db, q: Id, r: Id)
    ensures Grows(db, RepeatFailure(db, q), r)
  {
    hide ResumedIncident, HasVerdict, MarkPlan, PauseRun, PlanOf, Pauses, Log;
    var incident := ResumedIncident(At(db.audits, q));
    var verdict := Audit(RecoveryVerification, RepeatedFailure, incident);
    LogGrows(db, q, verdict, r);
    if incident.Some? {
      var db1 := Log(db, q, verdict);
      var db2 := MarkPlan(db1, incident.value, RecoveryRepeated, VerifiedFailure);
      MarkSilent(db1, incident.value, RecoveryRepeated, VerifiedFailure);
      SameTrailGrows(db1, db2, r);
      PauseGrows(db2, q, incident.value, r);
    }
  }

  lemma PublishGrows(cfg: Config, db: Db, x: Option<Incident>, r: Id)
    ensures Grows(db, Publish(cfg, db, x), r)
  {
    hide HasIncident, PauseRun, Pauses;
    if x.Some? {
      SameTrailGrows(db, SaveIncident(db, x.value), r);
      PauseGrows(SaveIncident(db, x.value), x.value.run, x.value.id, r);
    }
  }

  lemma BookGrows(cfg: Config, db: Db, e: Event, r: Id)
    ensures Grows(db, Book(cfg, db, e), r)
  {
    hide Book, Adds, HasVerdict, LatestResume, ResumedIncident;
    var suffix := BookTrail(cfg, db, e);
    BookRows(cfg, db, e);
    SuffixGrows(db, Book(cfg, db, e), e.run, suffix, r);
  }

  lemma SuffixGrows(db: Db, db1: Db, q: Id, suffix: seq<Audit>, r: Id)
    requires Adds(db, db1, q, suffix) && |suffix| <= 1 && forall a <- suffix :: !IsPause(a)
    requires Requested(db1, r) ==> Requested(db, r)
    ensures Grows(db, db1, r)
  {
    var s := At(db.audits, q);
    if r == q && suffix != [] {
      CountAppend(s, suffix[0], IsPause);
      assert s + suffix == s + [suffix[0]];
    } else {
      assert At(db1.audits, r) == At(db.audits, r);
    }
  }

  lemma DeliverGrows(cfg: Config, st: State, e: Event, ids: (Id, Id), r: Id)
    ensures Grows(st.db, ProcessEvent(cfg, st, e, ids).db, r)
  {
    hide Book, EvaluateOne, RepeatFailure, Publish, Pauses;
    var db := Book(cfg, st.db, e);
    BookGrows(cfg, st.db, e, r);
    if e.key !in db.keys {
      var st0 := st.(db := SaveEvent(db, e));
      SameTrailGrows(db, st0.db, r);
      EvaluateShape(cfg, st0, e, StuckLoopDetector, ids.0);
      RepeatGrows(st0.db, e.run, r);
      var (st1, x) := EvaluateOne(cfg, st0, e, StuckLoopDetector, ids.0);
      EvaluateShape(cfg, st1, e, BudgetDetector, ids.1);
      RepeatGrows(st1.db, e.run, r);
      var (st2, y) := EvaluateOne(cfg, st1, e, BudgetDetector, ids.1);
      PublishGrows(cfg, st2.db, x, r);
      PublishGrows(cfg, Publish(cfg, st2.db, x), y, r);
    }
  }

  lemma QuietPauses(db: Db, db1: Db, r: Id)
    requires Quiet(db, db1)
    ensures Pauses(db1, r) == Pauses(db, r)
  {
    forall k | |At(db.audits, r)| <= k < |At(db1.audits, r)| ensures !IsPause(At(db1.audits, r)[k]) {
      assert Noise(db, r, At(db1.audits, r)[k]);
    }
    QuietCount(At(db.audits, r), At(db1.audits, r), IsPause);
  }

  lemma MakePauses(cfg: Config, db: Db, x: Incident, planId: Id, actionId: Id, ai: Option<Analysis>, r: Id)
    requires OwnIncident(db, x.run, x.id)
    ensures Pauses(PlanFor(cfg, db, x, planId, actionId, ai), r) == Pauses(db, r)
  {
    hide Quiet, PlanFor, Automates, Drafted, Count;
    var db1, db2, a := MakePlanTrail(cfg, db, x, planId, actionId, ai);
    QuietPauses(db, db1, r);
    CountAppend(At(db1.audits, x.run), a, IsPause);
    QuietPauses(db2, PlanFor(cfg, db, x, planId, actionId, ai), r);
  }

  predicate Interrupted(db: Db, step: Step, r: Id) {
    Claims(step, r) && GateVerdict(db, r) == Interrupt
  }

  lemma QuietStepGrows(cfg: Config, st: State, step: Step, r: Id)
    requires PlansInv(st.db) && Legal(st, step) && !step.Deliver? && !step.MakePlan?
    ensures var db1 := Next(cfg, st, step).db;
      && Grows(st.db, db1, r)
      && (Interrupted(st.db, step, r) ==> Spent(st.db, r) < Spent(db1, r))
  {
    hide PlansInv, Next, Legal, Pauses, Quiet;
    var db1 := Next(cfg, st, step).db;
    OtherStepsDrift(cfg, st, step, r);
    OtherStepsQuiet(cfg, st, step);
    QuietPauses(st.db, db1, r);
    if Interrupted(st.db, step, r) { InterruptPauses(cfg, st, step, r); }
  }

  lemma PlanStepGrows(cfg: Config, st: State, step: Step, r: Id)
    requires Legal(st, step) && step.MakePlan?
    ensures Grows(st.db, Next(cfg, st, step).db, r) && !Interrupted(st.db, step, r)
  {
    hide Pauses, Next, NewAction, HasPlan, PlanFor;
    OtherStepsDrift(cfg, st, step, r);
    MakePauses(cfg, st.db, step.x, step.planId, step.actionId, step.ai, r);
    PlanNext(cfg, st, step);
  }

  lemma StepGrows(cfg: Config, st: State, step: Step, r: Id)
    requires PlansInv(st.db) && Legal(st, step)
    ensures var db1 := Next(cfg, st, step).db;
      && Grows(st.db, db1, r)
      && (Interrupted(st.db, step, r) ==> Spent(st.db, r) < Spent(db1, r))
  {
    hide PlansInv, ProcessEvent, Legal, Grows, Spent;
    if step.Deliver? {
      DeliverGrows(cfg, st, step.e, step.ids, r);
    } else if step.MakePlan? {
      hide Next, Interrupted;
      PlanStepGrows(cfg, st, step, r);
    } else {
      hide Next, Interrupted;
      QuietStepGrows(cfg, st, step, r);
    }
  }

  lemma PlanNext(cfg: Config, st: State, step: Step)
    requires step.MakePlan?
    ensures Next(cfg, st, step).db == PlanFor(cfg, st.db, step.x, step.planId, step.actionId, step.ai)
  {
    hide PlanFor;
  }

  /** The gate call that stops an agent also marks the run paused. */
  lemma InterruptPauses(cfg: Config, st: State, step: Step, r: Id)
    requires Interrupted(st.db, step, r)
    ensures var db1 := Next(cfg, st, step).db; r in db1.runs && db1.runs[r].status == Paused
  {
    EntryMoves(st.db, r);
    ReleaseMoves(GateEntry(st.db, r), r);
    hide GateEntry, GateRelease;
  }

  /** How often gates have stopped the run's agent. */
  function Stops(cfg: Config, steps: seq<Step>, r: Id): nat {
    if steps == [] then 0
    else
      var front := steps[..|steps| - 1];
      Stops(cfg, front, r) + if Interrupted(Trace(cfg, INITIAL, front).db, Last(steps), r) then 1 else 0
  }

  /** Each stop, and a pause request still waiting for a gate, is a successful pause of its own. */
  lemma {:induction false} StopsArePauses(cfg: Config, steps: seq<Step>, r: Id)
    requires LegalTrace(cfg, INITIAL, steps)
    ensures var db := Trace(cfg, INITIAL, steps).db;
            Stops(cfg, steps, r) + (if Requested(db, r) then 1 else 0) <= Pauses(db, r)
  {
    if steps != [] {
      hide Legal, Next, PlansInv, Pauses, Interrupted;
      LegalPrefix(cfg, INITIAL, steps);
      var front := steps[..|steps| - 1];
      StopsArePauses(cfg, front, r);
      ReachablePlans(cfg, front);
      StepGrows(cfg, Trace(cfg, INITIAL, front), Last(steps), r);
    }
  }

  /** In one engine lifetime an agent is stopped at most four times. */
  lemma StopsAreBounded(cfg: Config, steps: seq<Step>, r: Id)
    requires LegalTrace(cfg, INITIAL, steps) && OneLifetime(steps)
    ensures Stops(cfg, steps, r) <= 4
  {
    hide Trace, LegalTrace, Stops, Pauses;
    StopsArePauses(cfg, steps, r);
    BoundedIntervention(cfg, steps, r);
  }

  lemma {:induction false} SpentGrows(cfg: Config, steps: seq<Step>, i: nat, r: Id)
    requires LegalTrace(cfg, INITIAL, steps) && i <= |steps|
    ensures Grows(Trace(cfg, INITIAL, steps[..i]).db, Trace(cfg, INITIAL, steps).db, r)
  {
    if i == |steps| {
      assert steps[..i] == steps;
    } else {
      hide Legal, Next, PlansInv, Spent, Pauses;
      var front := steps[..|steps| - 1];
      LegalPrefix(cfg, INITIAL, steps);
      assert front[..i] == steps[..i];
      SpentGrows(cfg, front, i, r);
      ReachablePlans(cfg, front);
      StepGrows(cfg, Trace(cfg, INITIAL, front), Last(steps), r);
    }
  }

  /** Once a gate has stopped the agent, every later gate call lets it through until another
      successful pause of the run. */
  lemma GatesStopAgainAfterPauses(cfg: Config, steps: seq<Step>, i: nat, r: Id)
    requires LegalTrace(cfg, INITIAL, steps) && i < |steps|
    requires Interrupted(Trace(cfg, INITIAL, steps[..i]).db, steps[i], r)
    requires Pauses(Trace(cfg, INITIAL, steps).db, r) == Pauses(Trace(cfg, INITIAL, steps[..i]).db, r)
    ensures GateVerdict(Trace(cfg, INITIAL, steps).db, r) == Proceed
  {
    StepOf(cfg, steps, i);
    hide LegalTrace, Legal, Next, PlansInv, Pauses, Trace;
    ReachablePlans(cfg, steps[..i]);
    StepGrows(cfg, Trace(cfg, INITIAL, steps[..i]), steps[i], r);
    SpentGrows(cfg, steps, i + 1, r);
  }

  lemma StepOf(cfg: Config, steps: seq<Step>, i: nat)
    requires LegalTrace(cfg, INITIAL, steps) && i < |steps|
    ensures LegalTrace(cfg, INITIAL, steps[..i]) && Legal(Trace(cfg, INITIAL, steps[..i]), steps[i])
    ensures Trace(cfg, INITIAL, steps[..i + 1]) == Next(cfg, Trace(cfg, INITIAL, steps[..i]), steps[i])
  {
    hide Legal, Next;
    var upto := steps[..i + 1];
    assert upto[..i] == steps[..i] && Last(upto) == steps[i];
    hide Trace;
    assert forall k :: 0 <= k < i ==> steps[..i][..k] == steps[..k] && steps[..i][k] == steps[k];
  }
}
