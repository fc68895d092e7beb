/** Runs of the system, from the empty database on, that show where the guarantees end. */
module Limits {
  import opened Records
  import opened Tables
  import opened Detectors
  import opened Protection
  import opened Collector
  import opened Recovery
  import opened ControlPlane
  import opened Trails
  import opened Lifecycle
  import opened Interventions
  import opened Staleness
  import opened Automation
  import opened Accounting
  import opened NonInterference

  // ---- the staleness check of a run that is over ----

  lemma RepeatWithoutPlans(db: Db, r: Id)
    requires db.plans == map[]
    ensures RepeatFailure(db, r).plans == map[] && RepeatFailure(db, r).actions == db.actions
  {
    hide ResumedIncident, HasVerdict, MarkPlan, PauseRun;
  }

  lemma PublishWithoutPlans(cfg: Config, db: Db, x: Option<Incident>)
    ensures Publish(cfg, db, x).plans == db.plans && Publish(cfg, db, x).actions == db.actions
  {
    hide HasIncident, PauseRun, Adds;
    if x.Some? {
      var suffix := PauseTrail(SaveIncident(db, x.value), x.value.run, x.value.id);
    }
  }

  lemma BookWithoutPlans(cfg: Config, db: Db, e: Event)
    requires db.plans == map[]
    ensures Book(cfg, db, e).plans == map[]
  {
    hide VerifyRecovery, Advance, NewRun, MergeRun;
    VerifyWithoutPlans(EnsureRun(cfg, db, e), e.run);
  }

  lemma VerifyWithoutPlans(db: Db, r: Id)
    requires db.plans == map[]
    ensures VerifyRecovery(db, r).plans == map[]
  {
    hide ResumedIncident, HasVerdict, LatestResume, VerifyOutcomes, SavePlan;
  }

  /** Events make no plans. */
  lemma DeliverWithoutPlans(cfg: Config, st: State, e: Event, ids: (Id, Id))
    requires st.db.plans == map[]
    ensures ProcessEvent(cfg, st, e, ids).db.plans == map[]
    ensures ProcessEvent(cfg, st, e, ids).db.actions == st.db.actions
  {
    hide Book, EvaluateOne, RepeatFailure, Publish;
    BookWithoutPlans(cfg, st.db, e);
    BookRows(cfg, st.db, e);
    var booked := Book(cfg, st.db, e);
    if e.key !in booked.keys {
      var st0 := st.(db := SaveEvent(booked, e));
      EvaluateShape(cfg, st0, e, StuckLoopDetector, ids.0);
      RepeatWithoutPlans(st0.db, e.run);
      var (st1, x) := EvaluateOne(cfg, st0, e, StuckLoopDetector, ids.0);
      EvaluateShape(cfg, st1, e, BudgetDetector, ids.1);
      RepeatWithoutPlans(st1.db, e.run);
      var (st2, y) := EvaluateOne(cfg, st1, e, BudgetDetector, ids.1);
      PublishWithoutPlans(cfg, st2.db, x);
      PublishWithoutPlans(cfg, Publish(cfg, st2.db, x), y);
    }
  }

  lemma DeliverEnds(cfg: Config, st: State, e: Event, ids: (Id, Id))
    requires e.kind == RunCompleted || e.kind == RunFailed
    ensures var db := ProcessEvent(cfg, st, e, ids).db; e.run in db.runs && db.runs[e.run].status == EndStatus(e)
  {
    hide Book, EvaluateBoth;
    BookRows(cfg, st.db, e);
    DetectRows(cfg, st, e, ids);
  }

  predicate EndsTwice(cfg: Config, a: Event, b: Event) {
    && OppositeEnds(a, b) && a.run == b.run && a.key != b.key && 0 < a.seqNo < b.seqNo
    && cfg.budgetEnabled && Costed(a) && a.cost.value >= cfg.maxCost
  }

  /** The database after the two final events. */
  lemma TwoEndsRows(cfg: Config, a: Event, b: Event, ids: (Id, Id))
    requires EndsTwice(cfg, a, b)
    ensures var st1 := ProcessEvent(cfg, INITIAL, a, ids);
      var db := ProcessEvent(cfg, st1, b, ids).db;
      && At(st1.db.events, a.run) == [a] && At(db.events, b.run) == [a, b]
      && b.run in db.runs && db.runs[b.run].status == EndStatus(b)
      && a.key in db.keys && b.key in db.keys
      && db.plans == map[] && db.actions == []
  {
    hide ProcessEvent;
    var st1 := ProcessEvent(cfg, INITIAL, a, ids);
    DeliveryStores(cfg, INITIAL, a, ids);
    DeliverWithoutPlans(cfg, INITIAL, a, ids);
    DeliveryStores(cfg, st1, b, ids);
    DeliverWithoutPlans(cfg, st1, b, ids);
    DeliverEnds(cfg, st1, b, ids);
  }

  lemma TwoEndsOrdered(cfg: Config, a: Event, b: Event, ids: (Id, Id))
    requires EndsTwice(cfg, a, b)
    ensures Ordered(INITIAL, Deliver(a, ids))
    ensures Ordered(ProcessEvent(cfg, INITIAL, a, ids), Deliver(b, ids))
  {
    TwoEndsRows(cfg, a, b, ids);
    hide ProcessEvent, LatestSeq;
    LatestSeqAppend([], a);
    assert SeqOf(INITIAL.db, a.run) == 0 by { NoSeq(); }
    assert [] + [a] == [a];
  }

  lemma FirstFires(cfg: Config, a: Event, b: Event)
    requires EndsTwice(cfg, a, b)
    ensures [a, b][..1] == [a] && Fires(cfg, BudgetDetector, [a, b][..1])
  {
    assert [a, b][..1] == [a] && [a][..0] == [] && SumCost([]) == 0.0;
  }

  /** Overspending is emitted and stored. */
  lemma BudgetIncident(cfg: Config, steps: seq<Step>, r: Id, n: nat) returns (x: Incident)
    requires LegalTrace(cfg, INITIAL, steps) && OneLifetime(steps)
    requires var s := At(Trace(cfg, INITIAL, steps).db.events, r);
      0 < n <= |s| && Fires(cfg, BudgetDetector, s[..n])
    ensures x in At(Trace(cfg, INITIAL, steps).db.incidents, r) && x.run == r && x.failure == BudgetExceeded
  {
    hide LegalTrace, OneLifetime, Trace, Fires, Captures;
    IncidentsAreFirstMatches(cfg, steps, r, BudgetDetector);
    x :| x in At(Trace(cfg, INITIAL, steps).db.incidents, r) && x.failure == BudgetExceeded;
    DedupMemory(cfg, steps);
  }

  /** What two final events of a run that overspent leave. */
  lemma TwoEnds(cfg: Config, a: Event, b: Event, ids: (Id, Id)) returns (x: Incident)
    requires EndsTwice(cfg, a, b)
    ensures var steps := [Deliver(a, ids), Deliver(b, ids)];
      var db := Trace(cfg, INITIAL, steps).db;
      && LegalTrace(cfg, INITIAL, steps) && OrderedTrace(cfg, INITIAL, steps)
      && b.run in db.runs && db.runs[b.run].status == EndStatus(b)
      && a.key in db.keys && b.key in db.keys
      && db.plans == map[] && db.actions == []
      && x in At(db.incidents, b.run) && x.run == b.run && x.failure == BudgetExceeded
  {
    var steps := [Deliver(a, ids), Deliver(b, ids)];
    TwoEndsRows(cfg, a, b, ids);
    TwoEndsOrdered(cfg, a, b, ids);
    DeliveriesAreLegal(cfg, INITIAL, steps);
    FirstFires(cfg, a, b);
    assert a.run == b.run && OneLifetime(steps);
    hide *;
    TwoSteps(cfg, INITIAL, Deliver(a, ids), Deliver(b, ids));
    assert Next(cfg, INITIAL, Deliver(a, ids)) == ProcessEvent(cfg, INITIAL, a, ids);
    x := BudgetIncident(cfg, steps, b.run, 1);
  }

  lemma NoSeq()
    ensures LatestSeq([]) == 0
  {}

  lemma PlanRows(cfg: Config, db: Db, x: Incident, planId: Id, actionId: Id, ai: Option<Analysis>)
    requires x.failure == BudgetExceeded && db.plans == map[]
    ensures var db1, p := PlanFor(cfg, db, x, planId, actionId, ai), Draft(db, x, planId, actionId, ai);
      && db1.runs == db.runs && db1.events == db.events && db1.keys == db.keys
      && PlanOf(db1, x.id) == Some(p) && (x.run in db.runs ==> Fresh(db1, p))
  {
    hide Drafted, Draft, LatestSeq;
    DraftedRows(db, x, planId, actionId, ai);
    DraftedPlans(db, x, planId, actionId, ai);
    DraftShape(db, x, planId, actionId, ai);
  }

  lemma DraftSnapshot(db: Db, x: Incident, planId: Id, actionId: Id, ai: Option<Analysis>)
    requires x.run in db.runs
    ensures Draft(db, x, planId, actionId, ai).snapStatus == Some(db.runs[x.run].status)
    ensures Draft(db, x, planId, actionId, ai).run == x.run
  {
    hide Learned, LatestSeq;
  }

  lemma DeliveriesAreLegal(cfg: Config, st: State, steps: seq<Step>)
    requires forall step <- steps :: step.Deliver?
    ensures LegalTrace(cfg, st, steps)
  {
    hide Trace;
  }

  /** One more step at the end. */
  lemma AppendStep(cfg: Config, st: State, steps: seq<Step>, step: Step)
    requires LegalTrace(cfg, st, steps) && OrderedTrace(cfg, st, steps)
    requires Legal(Trace(cfg, st, steps), step) && Ordered(Trace(cfg, st, steps), step)
    ensures LegalTrace(cfg, st, steps + [step]) && OrderedTrace(cfg, st, steps + [step])
    ensures Trace(cfg, st, steps + [step]) == Next(cfg, Trace(cfg, st, steps), step)
  {
    AppendLegal(cfg, st, steps, step);
    hide Legal, Ordered, Next, LegalTrace;
    var all := steps + [step];
    assert all[..|steps|] == steps && Last(all) == step;
    forall i | 0 <= i < |all| ensures Ordered(Trace(cfg, st, all[..i]), all[i]) {
      if i < |steps| { assert all[..i] == steps[..i]; }
    }
  }

  lemma LastStep(cfg: Config, st: State, steps: seq<Step>)
    requires steps != [] && LegalTrace(cfg, st, steps) && OrderedTrace(cfg, st, steps)
    ensures var front := steps[..|steps| - 1];
      && LegalTrace(cfg, st, front) && OrderedTrace(cfg, st, front)
      && Legal(Trace(cfg, st, front), Last(steps)) && Ordered(Trace(cfg, st, front), Last(steps))
      && Trace(cfg, st, steps) == Next(cfg, Trace(cfg, st, front), Last(steps))
  {
    hide Legal, Ordered, Next;
    var front := steps[..|steps| - 1];
    assert forall i :: 0 <= i < |front| ==> front[..i] == steps[..i] && front[i] == steps[i];
    assert steps[..|front|] == front && steps[|front|] == Last(steps);
  }

  /** One run of the system after another. */
  lemma {:induction false} Join(cfg: Config, st: State, s: seq<Step>, t: seq<Step>)
    requires LegalTrace(cfg, st, s) && OrderedTrace(cfg, st, s)
    requires LegalTrace(cfg, Trace(cfg, st, s), t) && OrderedTrace(cfg, Trace(cfg, st, s), t)
    ensures LegalTrace(cfg, st, s + t) && OrderedTrace(cfg, st, s + t)
    ensures Trace(cfg, st, s + t) == Trace(cfg, Trace(cfg, st, s), t)
  {
    hide Legal, Ordered, Next, LegalTrace, OrderedTrace;
    if t == [] {
      assert s + t == s;
    } else {
      hide Trace;
      var front := t[..|t| - 1];
      LastStep(cfg, Trace(cfg, st, s), t);
      Join(cfg, st, s, front);
      AppendStep(cfg, st, s + front, Last(t));
      assert s + t == (s + front) + [Last(t)];
    }
  }

  lemma FirstPlanIsLegal(st: State, x: Incident, planId: Id, actionId: Id, ai: Option<Analysis>)
    requires st.db.plans == map[] && st.db.actions == [] && x in At(st.db.incidents, x.run)
    ensures Legal(st, MakePlan(x, planId, actionId, ai)) && Ordered(st, MakePlan(x, planId, actionId, ai))
  {}

  /** The first plan ever made, for a budget incident of a run that is over. */
  lemma FirstPlan(cfg: Config, st: State, x: Incident, planId: Id, actionId: Id, ai: Option<Analysis>)
    requires st.db.plans == map[] && st.db.actions == [] && x in At(st.db.incidents, x.run)
    requires x.failure == BudgetExceeded && x.run in st.db.runs
    ensures var make := MakePlan(x, planId, actionId, ai);
      var db := Next(cfg, st, make).db;
      && Legal(st, make) && Ordered(st, make) && db.keys == st.db.keys
      && PlanOf(db, x.id).Some?
      && var p := PlanOf(db, x.id).value;
         p.run == x.run && p.snapStatus == Some(st.db.runs[x.run].status) && Fresh(db, p)
  {
    PlanRows(cfg, st.db, x, planId, actionId, ai);
    DraftSnapshot(st.db, x, planId, actionId, ai);
    FirstPlanIsLegal(st, x, planId, actionId, ai);
    hide PlanFor, Draft, PlanOf, Fresh, Legal, Ordered, At;
  }

  /** A run that overspent and is over, with a plan made for it. */
  lemma PlanForEndedRun(
      cfg: Config, a: Event, b: Event, ids: (Id, Id), planId: Id, actionId: Id, ai: Option<Analysis>)
      returns (x: Incident)
    requires EndsTwice(cfg, a, b)
    ensures var steps := [Deliver(a, ids), Deliver(b, ids), MakePlan(x, planId, actionId, ai)];
      var db := Trace(cfg, INITIAL, steps).db;
      && LegalTrace(cfg, INITIAL, steps) && OrderedTrace(cfg, INITIAL, steps)
      && a.key in db.keys && b.key in db.keys
      && PlanOf(db, x.id).Some?
      && var p := PlanOf(db, x.id).value; p.run == b.run && p.snapStatus == Some(EndStatus(b)) && Fresh(db, p)
  {
    x := TwoEnds(cfg, a, b, ids);
    var two, make := [Deliver(a, ids), Deliver(b, ids)], MakePlan(x, planId, actionId, ai);
    var st2 := Trace(cfg, INITIAL, two);
    hide *;
    FirstPlan(cfg, st2, x, planId, actionId, ai);
    AppendStep(cfg, INITIAL, two, make);
    assert two + [make] == [Deliver(a, ids), Deliver(b, ids), make];
  }

  /** Two more deliveries after a run of the system. */
  lemma TwoMore(cfg: Config, made: seq<Step>, a: Event, b: Event, ids: (Id, Id))
    requires LegalTrace(cfg, INITIAL, made) && OrderedTrace(cfg, INITIAL, made)
    requires OrderedTrace(cfg, Trace(cfg, INITIAL, made), [Deliver(a, ids), Deliver(b, ids)])
    ensures var flipped, back := made + [Deliver(a, ids)], made + [Deliver(a, ids), Deliver(b, ids)];
      var st := Trace(cfg, INITIAL, made);
      && LegalTrace(cfg, INITIAL, back) && OrderedTrace(cfg, INITIAL, back)
      && Trace(cfg, INITIAL, flipped) == Trace(cfg, st, [Deliver(a, ids)])
      && Trace(cfg, INITIAL, back) == Trace(cfg, st, [Deliver(a, ids), Deliver(b, ids)])
  {
    var st, flip, rest := Trace(cfg, INITIAL, made), [Deliver(a, ids)], [Deliver(a, ids), Deliver(b, ids)];
    assert OrderedTrace(cfg, st, flip) by {
      hide Trace, Ordered;
      assert flip[..0] == rest[..0] && flip[0] == rest[0];
    }
    hide Trace, OrderedTrace, LegalTrace;
    DeliveriesAreLegal(cfg, st, flip);
    DeliveriesAreLegal(cfg, st, rest);
    Join(cfg, INITIAL, made, flip);
    Join(cfg, INITIAL, made, rest);
  }

  /** The hole of the staleness check is reached from the empty database, for either end: a run that
      overspent fails and completes, or completes and fails; a plan is made; both final events are
      delivered again; and the plan is still fresh. */
  lemma TerminalHoleIsReachable(
      cfg: Config, a: Event, b: Event, ids: (Id, Id), planId: Id, actionId: Id, ai: Option<Analysis>)
      returns (x: Incident)
    requires EndsTwice(cfg, a, b)
    ensures var made := [Deliver(a, ids), Deliver(b, ids), MakePlan(x, planId, actionId, ai)];
      var flipped, back := made + [Deliver(a, ids)], made + [Deliver(a, ids), Deliver(b, ids)];
      && LegalTrace(cfg, INITIAL, back) && OrderedTrace(cfg, INITIAL, back)
      && PlanOf(Trace(cfg, INITIAL, made).db, x.id).Some?
      && var p := PlanOf(Trace(cfg, INITIAL, made).db, x.id).value;
         && p.snapStatus == Some(EndStatus(b))
         && p.run in Trace(cfg, INITIAL, flipped).db.runs
         && Trace(cfg, INITIAL, flipped).db.runs[p.run].status == EndStatus(a) != EndStatus(b)
         && Fresh(Trace(cfg, INITIAL, back).db, p)
  {
    x := PlanForEndedRun(cfg, a, b, ids, planId, actionId, ai);
    var made := [Deliver(a, ids), Deliver(b, ids), MakePlan(x, planId, actionId, ai)];
    var st := Trace(cfg, INITIAL, made);
    hide Fresh, Trace, OrderedTrace, LegalTrace, PlanOf;
    TerminalSnapshotsCanFlip(cfg, st, a, b, ids, PlanOf(st.db, x.id).value);
    TwoMore(cfg, made, a, b, ids);
  }

  // ---- two approvals at once ----

  /** The run's row after a resume that takes effect if the run is held. */
  function Resumed(runs: map<Id, Run>, r: Id): map<Id, Run> {
    if r in runs && runs[r].status in HELD then runs[r := runs[r].(status := ResumeRequested)] else runs
  }

  lemma ResumeRunRows(db: Db, r: Id, incident: Option<Id>)
    ensures ResumeRun(db, r, incident).runs == Resumed(db.runs, r)
    ensures ResumeRun(db, r, incident).events == db.events
  {
    hide ResumeTarget, At;
    if r in db.runs && !Terminal(db.runs[r].status) && db.runs[r].status !in PAUSABLE {
      assert db.runs[r].status in HELD;
      assert CasRunStatus(db, r, ResumeRequested, HELD) == db.(runs := Resumed(db.runs, r));
      hide CasRunStatus;
    }
  }

  lemma RunActionRows(db: Db, p: Plan, a: PlanAction)
    ensures RunAction(db, p, a).events == db.events
    ensures RunAction(db, p, a).runs == if a.kind == Resume then Resumed(db.runs, p.run) else db.runs
  {
    if a.kind == Resume { ResumeRunRows(WriteAction(db, p, a, ActionExecuting), p.run, Some(p.incident)); }
    hide ResumeRun, At, Resumed;
  }

  /** What carrying out a plan of one action does to the runs table. */
  lemma CarryRuns(db: Db, p: Plan)
    requires |p.actions| == 1
    ensures Carry(db, p).events == db.events
    ensures Carry(db, p).runs == if p.actions[0].kind == Resume then Resumed(db.runs, p.run) else db.runs
  {
    hide UpdatedPlans, HasPlan, Learn, RunAction, At;
    var db1 := Log(SavePlan(db, p.(status := Approved)), p.run, PlanAudit(p, PlanApproved, Success));
    var db2 := SavePlan(db1, p.(status := Executing));
    assert p.actions[..0] == [] && RunActions(db2, p, []) == db2;
    RunActionRows(db2, p, p.actions[0]);
    LearnTouches(SavePlan(RunActions(db2, p, p.actions), Executed(p)), Executed(p), true);
  }

  /** The action leaves the run as the snapshot says. */
  predicate LeavesSnapshot(p: Plan) {
    !(p.actions != [] && p.actions[0].kind == Resume && p.snapStatus.Some? && p.snapStatus.value in HELD)
  }

  lemma StillFresh(db: Db, p: Plan)
    requires Fresh(db, p) && |p.actions| == 1 && p.actions[0].kind in {KeepPaused, Resume}
    ensures Fresh(Carry(db, p), p) <==> LeavesSnapshot(p)
  {
    CarryRuns(db, p);
    hide Carry, LatestSeq;
  }

  /** Loading a plan and executing it are two statements. Two operators who both loaded the open plan
      before either executes run its action twice, except when it resumes a run that was held: then
      the second finds the run changed, and marks the completed plan stale. */
  lemma OverlappingApprovals(db: Db, p: Plan, first: Role, second: Role)
    requires PlanOf(db, p.incident) == Some(p) && p.status == Proposed && Fresh(db, p) && |p.actions| == 1
    requires MayExecute(p, first) && MayExecute(p, second)
    ensures var db1 := ApprovePlan(db, p, first);
      var db2 := ApprovePlan(db1, p, second);
      && Starts(db1, p.actions[0].id) == Starts(db, p.actions[0].id) + 1
      && Starts(db2, p.actions[0].id) == Starts(db1, p.actions[0].id) + (if LeavesSnapshot(p) then 1 else 0)
      && AfterExecution(db1, p, second).status == (if LeavesSnapshot(p) then PlanCompleted else Stale)
  {
    StillFresh(db, p);
    CarryStarts(db, p, p.actions[0].id);
    CarryStarts(Carry(db, p), p, p.actions[0].id);
    ApprovedPlansComplete(db, p, first);
    ApprovedPlansComplete(Carry(db, p), p, second);
    hide Fresh, Carry, Starts, MayExecute, Executed, UpdatedPlans, HasPlan;
    var db1 := Carry(db, p);
    if !LeavesSnapshot(p) {
      SameStarts(db1, ApprovePlan(db1, p, second));
    }
  }
}
