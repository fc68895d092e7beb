/** The executor's staleness check has no A-B-A hole: an unchanged pair of status and latest
    sequence number means an unchanged status all along. */
module Staleness {
  import opened Records
  import opened Tables
  import opened Detectors
  import opened Protection
  import opened Collector
  import opened Recovery
  import opened ControlPlane
  import opened Trails
  import opened Lifecycle

  /** How far a run has moved since its last pause request. */
  function Phase(s: Status): nat {
    match s
    case PauseRequested => 0
    case Paused => 1
    case ResumeRequested => 2
    case Running => 3
    case Completed => 4
    case Failed => 4
  }

  /** Sequence numbers of stored events grow within each run. */
  ghost predicate Ordered(st: State, step: Step) {
    step.Deliver? && step.e.key !in st.db.keys ==> SeqOf(st.db, step.e.run) < step.e.seqNo
  }

  ghost predicate OrderedTrace(cfg: Config, st: State, steps: seq<Step>) {
    forall i :: 0 <= i < |steps| ==> Ordered(Trace(cfg, st, steps[..i]), steps[i])
  }

  function SeqOf(db: Db, r: Id): int {
    LatestSeq(At(db.events, r))
  }

  /** From db to db1 run r saw new events, or none and only moves away from a pause request. */
  ghost predicate Advances(db: Db, db1: Db, r: Id) {
    r in db.runs ==>
      && r in db1.runs
      && SeqOf(db, r) <= SeqOf(db1, r)
      && (SeqOf(db, r) == SeqOf(db1, r) ==> Phase(db.runs[r].status) <= Phase(db1.runs[r].status))
  }

  lemma AdvancesThen(a: Db, b: Db, c: Db, r: Id)
    requires Advances(a, b, r) && Advances(b, c, r)
    ensures Advances(a, c, r)
  {
    hide SeqOf;
  }

  /** No new event, and of the run's row only the status moves on, and protection is switched on if
      a gate claims the run. */
  ghost predicate Drifts(db: Db, db1: Db, r: Id, claimed: bool) {
    && At(db1.events, r) == At(db.events, r)
    && (r in db.runs <==> r in db1.runs)
    && (r in db.runs ==>
          && Phase(db.runs[r].status) <= Phase(db1.runs[r].status)
          && db1.runs[r] == db.runs[r].(status := db1.runs[r].status,
                                        mode := if claimed then Active else db.runs[r].mode))
  }

  lemma DriftAdvances(db: Db, db1: Db, r: Id, claimed: bool)
    requires Drifts(db, db1, r, claimed)
    ensures Advances(db, db1, r)
  {
    hide LatestSeq;
  }

  /** A pause, the only move back, touches the status of its own run alone. */
  ghost predicate PausesOnly(db: Db, db1: Db, r: Id) {
    && db1.events == db.events && db1.keys == db.keys
    && db1.runs.Keys == db.runs.Keys
    && (forall q <- db.runs :: q != r ==> db1.runs[q] == db.runs[q])
    && (r in db.runs ==>
          && db1.runs[r] == db.runs[r].(status := db1.runs[r].status)
          && (Terminal(db.runs[r].status) ==> db1.runs[r] == db.runs[r]))
  }

  lemma PauseRows(db: Db, r: Id, incident: Id)
    ensures PausesOnly(db, PauseRun(db, r, incident), r)
  {
    hide CasRunStatus, PausesOnly;
    CasRows(db, r, PauseRequested, PAUSABLE);
    var db1 := CasRunStatus(db, r, PauseRequested, PAUSABLE);
    SameRows(db, db, r);
    LogRows(db, db, r, Audit(PauseFailedAudit, Failure, Some(incident)));
    LogRows(db, db, r, Audit(PauseRequestedAudit, Idempotent, Some(incident)));
    LogRows(db, db1, r, Audit(PauseRequestedAudit, Success, Some(incident)));
  }

  lemma SameRows(db: Db, db1: Db, r: Id)
    requires db1.events == db.events && db1.keys == db.keys && db1.runs == db.runs
    ensures PausesOnly(db, db1, r)
  {}

  lemma LogRows(db: Db, db1: Db, r: Id, a: Audit)
    requires PausesOnly(db, db1, r)
    ensures PausesOnly(db, Log(db1, r, a), r)
  {}

  lemma CasRows(db: Db, r: Id, status: Status, expected: set<Status>)
    requires Completed !in expected && Failed !in expected
    ensures PausesOnly(db, CasRunStatus(db, r, status, expected), r)
  {
    hide PausesOnly, UpdateRunStatus;
    SameRows(db, db, r);
    if CasApplies(db, r, expected) { StatusRows(db, r, status); }
  }

  lemma StatusRows(db: Db, r: Id, status: Status)
    requires r in db.runs && !Terminal(db.runs[r].status)
    ensures PausesOnly(db, UpdateRunStatus(db, r, status), r)
  {
    var db1 := UpdateRunStatus(db, r, status);
    assert db1.runs == db.runs[r := db.runs[r].(status := status)];
    assert db1.runs.Keys == db.runs.Keys;
  }

  lemma RepeatRows(db: Db, r: Id)
    ensures PausesOnly(db, RepeatFailure(db, r), r)
  {
    hide ResumedIncident, HasVerdict, MarkPlan, PauseRun, PlanOf;
    var incident := ResumedIncident(At(db.audits, r));
    if RepeatFailure(db, r) != db {
      var db1 := Log(db, r, Audit(RecoveryVerification, RepeatedFailure, incident));
      MarkSilent(db1, incident.value, RecoveryRepeated, VerifiedFailure);
      PauseRows(MarkPlan(db1, incident.value, RecoveryRepeated, VerifiedFailure), r, incident.value);
    }
  }

  lemma PublishRows(cfg: Config, db: Db, x: Option<Incident>, r: Id)
    requires x.Some? ==> x.value.run == r
    ensures PausesOnly(db, Publish(cfg, db, x), r)
  {
    hide PauseRun;
    if x.Some? { PauseRows(SaveIncident(db, x.value), r, x.value.id); }
  }

  lemma BookAdvances(cfg: Config, db: Db, e: Event, r: Id)
    ensures Advances(db, Book(cfg, db, e), r)
  {
    hide Book, NewRun, LatestSeq;
    BookRows(cfg, db, e);
  }

  /** Storing the event and everything after it touches one run only. */
  lemma DetectRows(cfg: Config, st: State, e: Event, ids: (Id, Id))
    ensures var db := ProcessEvent(cfg, st, e, ids).db;
            var booked := Book(cfg, st.db, e);
            e.key !in booked.keys ==> PausesOnly(SaveEvent(booked, e), db, e.run)
  {
    hide Book, EvaluateOne, RepeatFailure, Publish;
    var booked := Book(cfg, st.db, e);
    if e.key !in booked.keys {
      var st0 := st.(db := SaveEvent(booked, e));
      EvaluateShape(cfg, st0, e, StuckLoopDetector, ids.0);
      RepeatRows(st0.db, e.run);
      var (st1, x) := EvaluateOne(cfg, st0, e, StuckLoopDetector, ids.0);
      EvaluateShape(cfg, st1, e, BudgetDetector, ids.1);
      RepeatRows(st1.db, e.run);
      var (st2, y) := EvaluateOne(cfg, st1, e, BudgetDetector, ids.1);
      PublishRows(cfg, st2.db, x, e.run);
      PublishRows(cfg, Publish(cfg, st2.db, x), y, e.run);
    }
  }

  lemma DeliverAdvances(cfg: Config, st: State, e: Event, ids: (Id, Id), r: Id)
    requires e.key !in st.db.keys ==> SeqOf(st.db, e.run) < e.seqNo
    ensures Advances(st.db, ProcessEvent(cfg, st, e, ids).db, r)
  {
    hide Book, EvaluateBoth, LatestSeq;
    BookAdvances(cfg, st.db, e, r);
    BookRows(cfg, st.db, e);
    var booked := Book(cfg, st.db, e);
    if e.key !in booked.keys {
      DetectRows(cfg, st, e, ids);
      var db := ProcessEvent(cfg, st, e, ids).db;
      if r == e.run {
        LatestSeqAppend(At(booked.events, r), e);
        assert At(db.events, r) == At(booked.events, r) + [e];
        assert SeqOf(db, r) == e.seqNo;
      } else {
        assert At(db.events, r) == At(booked.events, r);
        DriftAdvances(booked, db, r, false);
        AdvancesThen(st.db, booked, db, r);
      }
    }
  }

  lemma ResumeDrifts(db: Db, q: Id, incident: Option<Id>, r: Id)
    ensures Drifts(db, ResumeRun(db, q, incident), r, false)
  {
    hide ResumeTarget, UpdateRunStatus;
    StatusDriftsFromHeld(db, q, r);
  }

  lemma StatusDriftsFromHeld(db: Db, q: Id, r: Id)
    ensures Drifts(db, CasRunStatus(db, q, ResumeRequested, HELD), r, false)
  {}

  lemma StatusDrifts(db: Db, q: Id, status: Status, r: Id)
    requires q in db.runs ==> Phase(db.runs[q].status) <= Phase(status)
    ensures Drifts(db, UpdateRunStatus(db, q, status), r, false)
  {}

  lemma ModeDrifts(db: Db, q: Id, r: Id)
    ensures Drifts(db, UpdateProtectionMode(db, q, Active), r, q == r)
    ensures q in db.runs ==>
            && q in UpdateProtectionMode(db, q, Active).runs
            && UpdateProtectionMode(db, q, Active).runs[q].status == db.runs[q].status
  {}

  lemma EntryDrifts(db: Db, q: Id, r: Id)
    ensures Drifts(db, GateEntry(db, q), r, q == r)
  {
    hide UpdateRunStatus, UpdateProtectionMode;
    var db1 := UpdateProtectionMode(db, q, Active);
    ModeDrifts(db, q, r);
    if q in db.runs && db.runs[q].status == PauseRequested {
      StatusDrifts(db, q, Paused, r);
      StatusDrifts(db1, q, Paused, r);
    }
  }

  lemma ReleaseDrifts(db: Db, q: Id, r: Id)
    ensures Drifts(db, GateRelease(db, q), r, false)
  {
    hide UpdateRunStatus;
    if q in db.runs && db.runs[q].status == ResumeRequested { StatusDrifts(db, q, Running, r); }
  }

  lemma DriftsThen(a: Db, b: Db, c: Db, r: Id, claimed: bool)
    requires Drifts(a, b, r, claimed) && Drifts(b, c, r, false)
    ensures Drifts(a, c, r, claimed)
  {}

  lemma RunActionDrifts(db: Db, p: Plan, a: PlanAction, r: Id)
    ensures Drifts(db, RunAction(db, p, a), r, false)
  {
    if a.kind == Resume { ResumeDrifts(WriteAction(db, p, a, ActionExecuting), p.run, Some(p.incident), r); }
    hide ResumeRun, LatestSeq;
  }

  lemma {:induction false} RunActionsDrift(db: Db, p: Plan, s: seq<PlanAction>, r: Id)
    ensures Drifts(db, RunActions(db, p, s), r, false)
  {
    hide RunAction;
    if s != [] {
      var db1 := RunActions(db, p, s[..|s| - 1]);
      RunActionsDrift(db, p, s[..|s| - 1], r);
      RunActionDrifts(db1, p, Last(s), r);
    }
  }

  lemma ApproveDrifts(db: Db, p: Plan, role: Role, r: Id)
    ensures Drifts(db, ApprovePlan(db, p, role), r, false)
  {
    hide RunActions, Learn, UpdatedPlans, HasPlan, Fresh, MayExecute, Executed;
    var db1 := Log(SavePlan(db, p.(status := Approved)), p.run, PlanAudit(p, PlanApproved, Success));
    var db2 := SavePlan(db1, p.(status := Executing));
    RunActionsDrift(db2, p, p.actions, r);
    LearnTouches(SavePlan(RunActions(db2, p, p.actions), Executed(p)), Executed(p), true);
  }

  lemma DismissDrifts(db: Db, p: Plan, role: Role, r: Id)
    ensures Drifts(db, DismissPlan(db, p, role), r, false)
  {
    hide Learn, UpdatedPlans, HasPlan;
    var db1 := Log(SavePlan(db, p.(status := Rejected)), p.run, PlanAudit(p, PlanRejected, Success));
    LearnTouches(db1, p.(status := Rejected), false);
  }

  lemma DraftedDrifts(db: Db, x: Incident, planId: Id, actionId: Id, ai: Option<Analysis>, r: Id)
    ensures Drifts(db, Drafted(db, x, planId, actionId, ai), r, false)
  {
    hide Drafted;
    DraftedRows(db, x, planId, actionId, ai);
  }

  lemma MakeDrifts(cfg: Config, db: Db, x: Incident, planId: Id, actionId: Id, ai: Option<Analysis>, r: Id)
    ensures Drifts(db, PlanFor(cfg, db, x, planId, actionId, ai), r, false)
  {
    hide ApprovePlan, Drafted, Draft, MayAutomate;
    var db1 := Drafted(db, x, planId, actionId, ai);
    DraftedDrifts(db, x, planId, actionId, ai, r);
    var db2 := Log(db1, x.run, Audit(AutomationExecuted, Success, Some(x.id)));
    ApproveDrifts(db2, Draft(db, x, planId, actionId, ai), Admin, r);
  }

  /** A gate that runs for the run switches its protection on. */
  predicate Claims(step: Step, r: Id) {
    step == EnterGate(r) || step == AutoGen(r)
  }

  lemma OtherStepsDrift(cfg: Config, st: State, step: Step, r: Id)
    requires !step.Deliver?
    ensures Drifts(st.db, Next(cfg, st, step).db, r, Claims(step, r))
  {
    hide ProcessEvent, PlanFor, ApprovePlan, DismissPlan, ResumeRun, GateEntry, GateRelease, PlanOf;
    match step {
      case MakePlan(x, planId, actionId, ai) => MakeDrifts(cfg, st.db, x, planId, actionId, ai, r);
      case Approve(incident, role) =>
        if PlanOf(st.db, incident).Some? { ApproveDrifts(st.db, PlanOf(st.db, incident).value, role, r); }
      case Reject(incident, role) =>
        if PlanOf(st.db, incident).Some? { DismissDrifts(st.db, PlanOf(st.db, incident).value, role, r); }
      case EnterGate(q) => EntryDrifts(st.db, q, r);
      case AfterInterrupt(q) => ReleaseDrifts(st.db, q, r);
      case AutoGen(q) =>
        EntryDrifts(st.db, q, r);
        ReleaseDrifts(GateEntry(st.db, q), q, r);
        DriftsThen(st.db, GateEntry(st.db, q), Next(cfg, st, step).db, r, q == r);
      case OperatorResume(q, incident) => ResumeDrifts(st.db, q, incident, r);
      case Notify(_, _, _) =>
      case Restart =>
    }
  }

  lemma StepAdvances(cfg: Config, st: State, step: Step, r: Id)
    requires Ordered(st, step)
    ensures Advances(st.db, Next(cfg, st, step).db, r)
  {
    hide ProcessEvent, Advances, Drifts, SeqOf;
    if step.Deliver? {
      DeliverAdvances(cfg, st, step.e, step.ids, r);
    } else {
      OtherStepsDrift(cfg, st, step, r);
      DriftAdvances(st.db, Next(cfg, st, step).db, r, Claims(step, r));
    }
  }

  lemma {:induction false} TraceAdvances(cfg: Config, st: State, steps: seq<Step>, r: Id)
    requires OrderedTrace(cfg, st, steps)
    ensures Advances(st.db, Trace(cfg, st, steps).db, r)
  {
    hide Ordered, SeqOf, Next;
    if steps != [] {
      var front := steps[..|steps| - 1];
      forall i | 0 <= i < |front| ensures front[..i] == steps[..i] {}
      TraceAdvances(cfg, st, front, r);
      StepAdvances(cfg, Trace(cfg, st, front), Last(steps), r);
      AdvancesThen(st.db, Trace(cfg, st, front).db, Trace(cfg, st, steps).db, r);
    }
  }

  lemma {:induction false} TraceSplit(cfg: Config, st: State, steps: seq<Step>, i: nat)
    requires i <= |steps|
    ensures Trace(cfg, st, steps) == Trace(cfg, Trace(cfg, st, steps[..i]), steps[i..])
  {
    hide Next;
    if i == |steps| {
      assert steps[..i] == steps;
    } else {
      var n := |steps| - 1;
      TraceSplit(cfg, st, steps[..n], i);
      assert steps[..n][..i] == steps[..i];
      assert steps[i..][..n - i] == steps[..n][i..];
      assert Last(steps[i..]) == Last(steps);
    }
  }

  lemma OrderedSuffix(cfg: Config, st: State, steps: seq<Step>, i: nat)
    requires i <= |steps| && OrderedTrace(cfg, st, steps)
    ensures OrderedTrace(cfg, st, steps[..i])
    ensures OrderedTrace(cfg, Trace(cfg, st, steps[..i]), steps[i..])
  {
    hide Ordered, Trace;
    forall j | 0 <= j < i ensures steps[..i][..j] == steps[..j] {}
    forall j | 0 <= j < |steps| - i
      ensures Ordered(Trace(cfg, Trace(cfg, st, steps[..i]), steps[i..][..j]), steps[i..][j])
    {
      TraceSplit(cfg, st, steps[..i + j], i);
      assert steps[..i + j][..i] == steps[..i];
      assert steps[..i + j][i..] == steps[i..][..j];
      assert steps[i..][j] == steps[i + j];
    }
  }

  lemma SamePhase(db: Db, db1: Db, db2: Db, p: Plan)
    requires Advances(db, db1, p.run) && Advances(db1, db2, p.run)
    requires Fresh(db, p) && Fresh(db2, p)
    requires p.snapStatus.Some? && !Terminal(p.snapStatus.value)
    ensures Fresh(db1, p)
  {
    hide LatestSeq;
  }

  /** No A-B-A hole: a plan that is fresh in a state and again after the steps was fresh, and so
      its run in the snapshot status, at every point in between. */
  lemma FreshMeansUntouched(cfg: Config, st: State, steps: seq<Step>, p: Plan)
    requires OrderedTrace(cfg, st, steps)
    requires Fresh(st.db, p) && p.snapStatus.Some? && !Terminal(p.snapStatus.value)
    requires Fresh(Trace(cfg, st, steps).db, p)
    ensures forall i | 0 <= i <= |steps| ::
      && Fresh(Trace(cfg, st, steps[..i]).db, p)
      && Trace(cfg, st, steps[..i]).db.runs[p.run].status == p.snapStatus.value
  {
    forall i | 0 <= i <= |steps|
      ensures Fresh(Trace(cfg, st, steps[..i]).db, p)
      ensures Trace(cfg, st, steps[..i]).db.runs[p.run].status == p.snapStatus.value
    {
      hide Trace, OrderedTrace, Advances, LatestSeq;
      OrderedSuffix(cfg, st, steps, i);
      TraceAdvances(cfg, st, steps[..i], p.run);
      TraceSplit(cfg, st, steps, i);
      TraceAdvances(cfg, Trace(cfg, st, steps[..i]), steps[i..], p.run);
      SamePhase(st.db, Trace(cfg, st, steps[..i]).db, Trace(cfg, st, steps).db, p);
    }
  }

  /** The executor's check on a generated plan: drafted in one state, still fresh after the
      generating step and any others, it finds a run that never left its snapshot status. */
  lemma StalenessCheckIsSound(
      cfg: Config, st: State, x: Incident, planId: Id, actionId: Id, ai: Option<Analysis>, rest: seq<Step>)
    requires x.run in st.db.runs && !Terminal(st.db.runs[x.run].status)
    requires OrderedTrace(cfg, st, [MakePlan(x, planId, actionId, ai)] + rest)
    requires Fresh(Trace(cfg, st, [MakePlan(x, planId, actionId, ai)] + rest).db, Draft(st.db, x, planId, actionId, ai))
    ensures var steps := [MakePlan(x, planId, actionId, ai)] + rest;
            forall i | 0 <= i <= |steps| ::
              && x.run in Trace(cfg, st, steps[..i]).db.runs
              && Trace(cfg, st, steps[..i]).db.runs[x.run].status == st.db.runs[x.run].status
  {
    hide Trace, OrderedTrace, Proposal, LatestSeq;
    DraftShape(st.db, x, planId, actionId, ai);
    FreshMeansUntouched(cfg, st, [MakePlan(x, planId, actionId, ai)] + rest, Draft(st.db, x, planId, actionId, ai));
  }

  lemma DuplicateRows(cfg: Config, st: State, e: Event, ids: (Id, Id))
    requires e.key in st.db.keys && e.run in st.db.runs
    ensures var db := ProcessEvent(cfg, st, e, ids).db;
      && db.runs == st.db.runs[e.run := Booked(cfg, st.db, e)]
      && db.events == st.db.events && db.keys == st.db.keys
  {
    hide Book, Booked, EvaluateBoth;
    BookRows(cfg, st.db, e);
  }

  /** The two events that end a run, one way each. */
  predicate OppositeEnds(a: Event, b: Event) {
    (a.kind == RunFailed && b.kind == RunCompleted) || (a.kind == RunCompleted && b.kind == RunFailed)
  }

  function EndStatus(e: Event): Status {
    if e.kind == RunCompleted then Completed else Failed
  }

  lemma TwoSteps(cfg: Config, st: State, a: Step, b: Step)
    ensures Trace(cfg, st, [a]) == Next(cfg, st, a)
    ensures Trace(cfg, st, [a, b]) == Next(cfg, Next(cfg, st, a), b)
    ensures Ordered(st, a) && Ordered(Next(cfg, st, a), b) ==> OrderedTrace(cfg, st, [a, b])
  {
    hide Next, Ordered;
    assert [a][..0] == [] && [a, b][..0] == [] && [a, b][..1] == [a];
    assert Trace(cfg, st, []) == st;
  }

  /** A final event delivered again ends its run once more, and only that. */
  lemma FlippedRows(cfg: Config, st: State, e: Event, ids: (Id, Id))
    requires e.key in st.db.keys && e.run in st.db.runs && e.kind in {RunCompleted, RunFailed}
    ensures var db := ProcessEvent(cfg, st, e, ids).db;
      && e.run in db.runs && db.runs[e.run].status == EndStatus(e)
      && db.events == st.db.events && db.keys == st.db.keys
  {
    hide ProcessEvent, LatestResume, HasVerdict;
    DuplicateRows(cfg, st, e, ids);
  }

  lemma DuplicatesAreOrdered(st: State, e: Event, ids: (Id, Id))
    requires e.key in st.db.keys
    ensures Ordered(st, Deliver(e, ids))
  {
    hide SeqOf;
  }

  /** For a run that is over, either way, the check does have the hole: redelivered final events,
      which are not stored again, take the run to its other end and back under an unchanged snapshot. */
  lemma TerminalSnapshotsCanFlip(cfg: Config, st: State, other: Event, last: Event, ids: (Id, Id), p: Plan)
    requires OppositeEnds(other, last) && other.run == last.run == p.run
    requires Fresh(st.db, p) && p.snapStatus == Some(EndStatus(last))
    requires other.key in st.db.keys && last.key in st.db.keys
    ensures var flip, back := Deliver(other, ids), Deliver(last, ids);
      && OrderedTrace(cfg, st, [flip, back])
      && p.run in Trace(cfg, st, [flip]).db.runs
      && Trace(cfg, st, [flip]).db.runs[p.run].status == EndStatus(other) != p.snapStatus.value
      && Fresh(Trace(cfg, st, [flip, back]).db, p)
  {
    var flip, back := Deliver(other, ids), Deliver(last, ids);
    hide LatestSeq, ProcessEvent, Trace, OrderedTrace, Ordered;
    TwoSteps(cfg, st, flip, back);
    FlippedRows(cfg, st, other, ids);
    var st1 := ProcessEvent(cfg, st, other, ids);
    FlippedRows(cfg, st1, last, ids);
    DuplicatesAreOrdered(st, other, ids);
    DuplicatesAreOrdered(st1, last, ids);
  }
}
