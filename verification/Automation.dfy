/** What automation can do, whatever the AI provider answers. */
module Automation {
  import opened Records
  import opened Tables
  import opened Detectors
  import opened Protection
  import opened Collector
  import opened Recovery
  import opened ControlPlane
  import opened Trails
  import opened Lifecycle
  import opened Verdicts
  import opened Interventions

  function Automations(db: Db, r: Id): nat {
    Count(At(db.audits, r), IsAutomation)
  }

  function Cap(cfg: Config): nat {
    if cfg.maxAuto > 0 then cfg.maxAuto else 0
  }

  /** The incident is stored as a stuck loop of the run. */
  predicate OnLoop(db: Db, r: Id, incident: Option<Id>) {
    incident.Some? && exists x <- At(db.incidents, r) :: x.id == incident.value && x.failure == StuckLoop
  }

  ghost predicate LoopsOnly(db: Db) {
    forall r, a | a in At(db.audits, r) && IsAutomation(a) :: OnLoop(db, r, a.incident)
  }

  /** The number of automated recoveries is capped, and all are on stuck loops. */
  ghost predicate Bounded(cfg: Config, db: Db) {
    && (forall r :: Automations(db, r) <= Cap(cfg))
    && LoopsOnly(db)
  }

  /** No automation row is added, incidents only accumulate. */
  ghost predicate Manual(db: Db, db1: Db) {
    && IncidentsGrow(db, db1)
    && forall r ::
      && At(db.audits, r) <= At(db1.audits, r)
      && forall k :: |At(db.audits, r)| <= k < |At(db1.audits, r)| ==> !IsAutomation(At(db1.audits, r)[k])
  }

  lemma ManualKeeps(cfg: Config, db: Db, db1: Db)
    requires Bounded(cfg, db) && Manual(db, db1)
    ensures Bounded(cfg, db1)
  {
    forall r ensures Automations(db1, r) == Automations(db, r) {
      QuietCount(At(db.audits, r), At(db1.audits, r), IsAutomation);
    }
    forall r, a | a in At(db1.audits, r) && IsAutomation(a) ensures OnLoop(db1, r, a.incident) {
      var k :| 0 <= k < |At(db1.audits, r)| && At(db1.audits, r)[k] == a;
      assert At(db.audits, r)[k] == a;
      assert OnLoop(db, r, a.incident);
      var x :| x in At(db.incidents, r) && x.id == a.incident.value && x.failure == StuckLoop;
      assert x in At(db1.incidents, r);
    }
  }

  lemma ManualThen(a: Db, b: Db, c: Db)
    requires Manual(a, b) && Manual(b, c)
    ensures Manual(a, c)
  {
    forall r, k | |At(a.audits, r)| <= k < |At(c.audits, r)| ensures !IsAutomation(At(c.audits, r)[k]) {
      if k < |At(b.audits, r)| { assert At(c.audits, r)[k] == At(b.audits, r)[k]; }
    }
  }

  lemma QuietIsManual(db: Db, db1: Db)
    requires Quiet(db, db1)
    ensures Manual(db, db1)
  {
    forall r, k | |At(db.audits, r)| <= k < |At(db1.audits, r)| ensures !IsAutomation(At(db1.audits, r)[k]) {
      assert Noise(db, r, At(db1.audits, r)[k]);
    }
  }

  lemma AddsIsManual(db: Db, db1: Db, r: Id, suffix: seq<Audit>)
    requires Adds(db, db1, r, suffix) && db1.incidents == db.incidents
    requires forall a <- suffix :: !IsAutomation(a)
    ensures Manual(db, db1)
  {}

  lemma SavedIsManual(db: Db, x: Incident)
    ensures Manual(db, SaveIncident(db, x))
  {}

  lemma EvaluateManual(cfg: Config, st: State, e: Event, which: Detector, id: Id)
    ensures Manual(st.db, EvaluateOne(cfg, st, e, which, id).0.db)
  {
    hide Manual, EvaluateOne, RepeatFailure, Adds, HasVerdict, ResumedIncident;
    EvaluateShape(cfg, st, e, which, id);
    AddsNothing(st.db, st.db, e.run);
    AddsIsManual(st.db, st.db, e.run, []);
    var suffix := RepeatTrail(st.db, e.run);
    AddsIsManual(st.db, RepeatFailure(st.db, e.run), e.run, suffix);
  }

  lemma PublishManual(cfg: Config, db: Db, x: Option<Incident>)
    ensures Manual(db, Publish(cfg, db, x))
  {
    hide Manual, Adds, OnIncident;
    if x.None? {
      AddsNothing(db, db, "");
      AddsIsManual(db, db, "", []);
    } else {
      var db1 := SaveIncident(db, x.value);
      SavedIsManual(db, x.value);
      var suffix := IncidentTrail(cfg, db1, x.value);
      AddsIsManual(db1, OnIncident(cfg, db1, x.value), x.value.run, suffix);
      ManualThen(db, db1, OnIncident(cfg, db1, x.value));
    }
  }

  lemma DeliverManual(cfg: Config, st: State, e: Event, ids: (Id, Id))
    ensures Manual(st.db, ProcessEvent(cfg, st, e, ids).db)
  {
    hide Manual, Book, EvaluateOne, Publish, Adds, HasVerdict, LatestResume, ResumedIncident;
    var db := Book(cfg, st.db, e);
    var booked := BookTrail(cfg, st.db, e);
    BookRows(cfg, st.db, e);
    AddsIsManual(st.db, db, e.run, booked);
    if e.key !in db.keys {
      var st0 := st.(db := SaveEvent(db, e));
      AddsNothing(db, st0.db, e.run);
      AddsIsManual(db, st0.db, e.run, []);
      ManualThen(st.db, db, st0.db);
      var (st1, x) := EvaluateOne(cfg, st0, e, StuckLoopDetector, ids.0);
      EvaluateManual(cfg, st0, e, StuckLoopDetector, ids.0);
      ManualThen(st.db, st0.db, st1.db);
      var (st2, y) := EvaluateOne(cfg, st1, e, BudgetDetector, ids.1);
      EvaluateManual(cfg, st1, e, BudgetDetector, ids.1);
      ManualThen(st.db, st1.db, st2.db);
      var db3 := Publish(cfg, st2.db, x);
      PublishManual(cfg, st2.db, x);
      ManualThen(st.db, st2.db, db3);
      PublishManual(cfg, db3, y);
      ManualThen(st.db, db3, Publish(cfg, db3, y));
    }
  }

  lemma MakeBounded(cfg: Config, db: Db, x: Incident, planId: Id, actionId: Id, ai: Option<Analysis>)
    requires Bounded(cfg, db) && x in At(db.incidents, x.run)
    ensures Bounded(cfg, PlanFor(cfg, db, x, planId, actionId, ai))
  {
    hide Bounded, Quiet, PlanFor, Drafted, Draft;
    var db1, db2, a := MakePlanTrail(cfg, db, x, planId, actionId, ai);
    QuietIsManual(db, db1);
    QuietIncidents(db, db1);
    ManualKeeps(cfg, db, db1);
    if db2 != db1 {
      AutomatedOnce(cfg, db1, x, a);
    }
    QuietIsManual(db2, PlanFor(cfg, db, x, planId, actionId, ai));
    ManualKeeps(cfg, db2, PlanFor(cfg, db, x, planId, actionId, ai));
  }

  lemma AutomatedOnce(cfg: Config, db: Db, x: Incident, a: Audit)
    requires Bounded(cfg, db) && x in At(db.incidents, x.run)
    requires a.incident == Some(x.id)
    requires IsAutomation(a) ==> x.failure == StuckLoop && Automations(db, x.run) < cfg.maxAuto
    ensures Bounded(cfg, Log(db, x.run, a))
  {
    var db1 := Log(db, x.run, a);
    var s := At(db.audits, x.run);
    CountAppend(s, a, IsAutomation);
    assert At(db1.audits, x.run) == s + [a];
    forall r ensures Automations(db1, r) <= Cap(cfg) {
      if r != x.run { assert At(db1.audits, r) == At(db.audits, r); }
      assert Automations(db, r) <= Cap(cfg);
    }
    forall r, b | b in At(db1.audits, r) && IsAutomation(b) ensures OnLoop(db1, r, b.incident) {
      if b in At(db.audits, r) { assert OnLoop(db, r, b.incident); }
    }
  }

  lemma {:induction false} TraceBounded(cfg: Config, steps: seq<Step>)
    requires LegalTrace(cfg, INITIAL, steps)
    ensures Bounded(cfg, Trace(cfg, INITIAL, steps).db)
  {
    if steps != [] {
      hide Next, Bounded, PlansInv, Quiet, Manual, NewAction;
      var front, step := steps[..|steps| - 1], Last(steps);
      var st := Trace(cfg, INITIAL, front);
      LegalPrefix(cfg, INITIAL, steps);
      TraceBounded(cfg, front);
      ReachablePlans(cfg, front);
      StepBounded(cfg, st, step);
    }
  }

  lemma StepBounded(cfg: Config, st: State, step: Step)
    requires Bounded(cfg, st.db) && PlansInv(st.db) && Legal(st, step)
    ensures Bounded(cfg, Next(cfg, st, step).db)
  {
    hide Bounded, PlansInv, Quiet, Manual, NewAction, ProcessEvent, PlanFor;
    if step.Deliver? {
      DeliverManual(cfg, st, step.e, step.ids);
      ManualKeeps(cfg, st.db, Next(cfg, st, step).db);
    } else if step.MakePlan? {
      MakeBounded(cfg, st.db, step.x, step.planId, step.actionId, step.ai);
    } else {
      OtherStepsQuiet(cfg, st, step);
      QuietIsManual(st.db, Next(cfg, st, step).db);
      ManualKeeps(cfg, st.db, Next(cfg, st, step).db);
    }
  }

  /** Over any run of the system, with any AI answers and engine restarts: at most the configured
      number of automated recoveries per run, and each on a stuck loop. */
  lemma AutomationIsBounded(cfg: Config, steps: seq<Step>, r: Id)
    requires LegalTrace(cfg, INITIAL, steps)
    ensures var db := Trace(cfg, INITIAL, steps).db;
      && Automations(db, r) <= Cap(cfg)
      && forall a <- At(db.audits, r) :: IsAutomation(a) ==> OnLoop(db, r, a.incident)
  {
    hide Trace, LegalTrace, Automations, OnLoop;
    TraceBounded(cfg, steps);
  }

  /** An automated plan passes the executor's own checks and completes within the same call. */
  lemma AutomatedPlansComplete(cfg: Config, db: Db, x: Incident, planId: Id, actionId: Id, ai: Option<Analysis>)
    requires !Settled(PlanOf(db, x.id))
    requires Automates(cfg, db, x, planId, actionId, ai)
    ensures GeneratedPlan(cfg, db, x, planId, actionId, ai).status == PlanCompleted
  {
    hide Drafted, Draft, LatestSeq, Settled, IsAutomation, IsRepeat;
    var p := Draft(db, x, planId, actionId, ai);
    DraftedRows(db, x, planId, actionId, ai);
    DraftShape(db, x, planId, actionId, ai);
    var db2 := Log(Drafted(db, x, planId, actionId, ai), x.run, Audit(AutomationExecuted, Success, Some(x.id)));
    assert Fresh(db2, p);
    assert forall a <- p.actions :: a == p.actions[0];
    ApprovedPlansComplete(db2, p, Admin);
  }

  lemma LogAutomations(db: Db, q: Id, a: Audit, r: Id)
    requires !IsAutomation(a)
    ensures Automations(Log(db, q, a), r) == Automations(db, r)
  {
    hide Count;
    CountAppend(At(db.audits, q), a, IsAutomation);
    assert At(Log(db, q, a).audits, r) == if r == q then At(db.audits, q) + [a] else At(db.audits, r);
  }

  lemma ConsultAutomations(db: Db, x: Incident, ai: Option<Analysis>, r: Id)
    ensures Automations(ConsultAi(db, x, ai), r) == Automations(db, r)
  {
    hide Log, Automations;
    var db1 := Log(db, x.run, Audit(AiRequested, Success, Some(x.id)));
    var db2 := Log(db1, x.run, Audit(AiStarted, Success, Some(x.id)));
    var db3 := Log(db2, x.run, Audit(AiFailed, Failure, Some(x.id)));
    LogAutomations(db, x.run, Audit(AiRequested, Success, Some(x.id)), r);
    LogAutomations(db1, x.run, Audit(AiStarted, Success, Some(x.id)), r);
    LogAutomations(db2, x.run, Audit(AiCompleted, Success, Some(x.id)), r);
    LogAutomations(db2, x.run, Audit(AiFailed, Failure, Some(x.id)), r);
    LogAutomations(db3, x.run, Audit(AiFallback, Success, Some(x.id)), r);
  }

  /** Budget incidents are never automated: a new plan for one is left proposed, no run changes, and
      no run's trail gains an automated recovery. */
  lemma BudgetIsNeverAutomated(cfg: Config, db: Db, x: Incident, planId: Id, actionId: Id, ai: Option<Analysis>)
    requires x.failure == BudgetExceeded
    ensures PlanFor(cfg, db, x, planId, actionId, ai).runs == db.runs
    ensures !Settled(PlanOf(db, x.id)) ==> GeneratedPlan(cfg, db, x, planId, actionId, ai).status == Proposed
    ensures forall r :: Automations(PlanFor(cfg, db, x, planId, actionId, ai), r) == Automations(db, r)
  {
    hide Draft, Settled, ApprovePlan, Log, Automations, ConsultAi;
    DraftedRows(db, x, planId, actionId, ai);
    DraftShape(db, x, planId, actionId, ai);
    var db1 := Drafted(db, x, planId, actionId, ai);
    forall r ensures Automations(PlanFor(cfg, db, x, planId, actionId, ai), r) == Automations(db, r) {
      ConsultAutomations(Recall(db, x), x, ai, r);
      SameAutomations(db, Recall(db, x), r);
      SameAutomations(ConsultAi(Recall(db, x), x, ai), db1, r);
      LogAutomations(db1, x.run, Audit(AutomationRejected, Success, Some(x.id)), r);
    }
    LogKeepsRuns(db1, x.run, Audit(AutomationRejected, Success, Some(x.id)));
  }

  lemma SameAutomations(db: Db, db1: Db, r: Id)
    requires db1.audits == db.audits
    ensures Automations(db1, r) == Automations(db, r)
  {}

  lemma LogKeepsRuns(db: Db, r: Id, a: Audit)
    ensures Log(db, r, a).runs == db.runs
  {}

  lemma KeepPausedChangesNoRun(db: Db, p: Plan, role: Role)
    requires |p.actions| == 1 && p.actions[0].kind == KeepPaused
    ensures ApprovePlan(db, p, role).runs == db.runs
  {
    hide UpdatedPlans, HasPlan, Learn, Fresh, MayExecute, Executed;
    var db1 := Log(SavePlan(db, p.(status := Approved)), p.run, PlanAudit(p, PlanApproved, Success));
    var db2 := SavePlan(db1, p.(status := Executing));
    assert p.actions[..0] == [];
    assert RunActions(db2, p, p.actions[..0]) == db2;
    LearnTouches(SavePlan(RunActions(db2, p, p.actions), Executed(p)), Executed(p), true);
  }

  /** With the mock provider every plan for a detected incident is exactly to stay paused,
      whatever history says, and making it changes no run. */
  lemma MockKeepsPaused(cfg: Config, steps: seq<Step>, x: Incident, planId: Id, actionId: Id)
    requires LegalTrace(cfg, INITIAL, steps)
    requires x in At(Trace(cfg, INITIAL, steps).db.incidents, x.run)
    ensures var db := Trace(cfg, INITIAL, steps).db;
      && Draft(db, x, planId, actionId, Some(MockAnalysis(x))).actions == [PlanAction(actionId, KeepPaused, LowRisk)]
      && PlanFor(cfg, db, x, planId, actionId, Some(MockAnalysis(x))).runs == db.runs
  {
    hide Trace, LegalTrace, MemoryOk, TrailsOk, Paid, Drafted, Proposal, LatestSeq, ApprovePlan, Settled, MayAutomate;
    TraceInv(cfg, steps);
    var db := Trace(cfg, INITIAL, steps).db;
    assert ShouldInvokeAi(x);
    var ai := Some(MockAnalysis(x));
    DraftedRows(db, x, planId, actionId, ai);
    var p := Draft(db, x, planId, actionId, ai);
    var started := Log(Drafted(db, x, planId, actionId, ai), x.run, Audit(AutomationExecuted, Success, Some(x.id)));
    KeepPausedChangesNoRun(started, p, Admin);
  }
}
