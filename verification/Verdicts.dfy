/** Recovery verdicts: at most one verification and one repeated failure per incident, the failure
    never followed by a verification, and neither without a resume before it. */
module Verdicts {
  import opened Records
  import opened Tables
  import opened Detectors
  import opened Protection
  import opened Collector
  import opened Recovery
  import opened ControlPlane
  import opened Trails
  import opened Lifecycle

  /** Two verdicts on one incident are a verification and, after it, a repeated failure; every
      verdict comes after a resume. */
  ghost predicate VerdictsOk(s: seq<Audit>) {
    && (forall i, j | 0 <= i < j < |s| && IsVerdict(s[i]) && IsVerdict(s[j]) && s[i].incident == s[j].incident ::
          s[i].result == Verified && s[j].result == RepeatedFailure)
    && (forall j | 0 <= j < |s| && IsVerdict(s[j]) ::
          s[j].result in {Verified, RepeatedFailure} && exists i :: 0 <= i < j && IsResume(s[i]))
  }

  ghost predicate AllVerdictsOk(db: Db) {
    forall r :: VerdictsOk(At(db.audits, r))
  }

  lemma NoVerdictAppended(s: seq<Audit>, t: seq<Audit>)
    requires VerdictsOk(s) && s <= t
    requires forall k :: |s| <= k < |t| ==> !IsVerdict(t[k])
    ensures VerdictsOk(t)
  {
    forall j | 0 <= j < |t| && IsVerdict(t[j]) ensures exists i :: 0 <= i < j && IsResume(t[i]) {
      assert t[j] == s[j];
      var i :| 0 <= i < j && IsResume(s[i]);
      assert t[i] == s[i];
    }
  }

  lemma VerdictAppended(s: seq<Audit>, v: Audit)
    requires VerdictsOk(s)
    requires IsVerdict(v) && v.result in {Verified, RepeatedFailure}
    requires LatestResume(s).Some?
    requires !HasVerdict(s, RepeatedFailure, v.incident)
    requires v.result == Verified ==> !HasVerdict(s, Verified, v.incident)
    ensures VerdictsOk(s + [v])
  {
    ResumedIsLogged(s);
    hide LatestResume, ResumedIncident, LatestIncident;
    var t := s + [v];
    var i :| 0 <= i < |s| && IsResume(s[i]);
    assert t[i] == s[i];
    forall j | 0 <= j < |s| && IsVerdict(s[j]) ensures exists i :: 0 <= i < j && IsResume(t[i]) {
      var i :| 0 <= i < j && IsResume(s[i]);
      assert t[i] == s[i];
    }
    forall i | 0 <= i < |s| && IsVerdict(s[i]) && s[i].incident == v.incident
      ensures s[i].result == Verified && v.result == RepeatedFailure
    {
      assert s[i] == Audit(RecoveryVerification, s[i].result, v.incident);
    }
  }

  lemma QuietVerdicts(db: Db, db1: Db)
    requires AllVerdictsOk(db) && Quiet(db, db1)
    ensures AllVerdictsOk(db1)
  {
    hide VerdictsOk;
    forall r ensures VerdictsOk(At(db1.audits, r)) {
      assert VerdictsOk(At(db.audits, r));
      forall k | |At(db.audits, r)| <= k < |At(db1.audits, r)| ensures !IsVerdict(At(db1.audits, r)[k]) {
        assert Noise(db, r, At(db1.audits, r)[k]);
      }
      NoVerdictAppended(At(db.audits, r), At(db1.audits, r));
    }
  }

  lemma AddedVerdicts(db: Db, db1: Db, r: Id, suffix: seq<Audit>)
    requires AllVerdictsOk(db) && Adds(db, db1, r, suffix)
    requires suffix != [] ==>
      var s := At(db.audits, r);
      var v := suffix[0];
      && (forall k :: 1 <= k < |suffix| ==> !IsVerdict(suffix[k]))
      && (IsVerdict(v) ==>
            && v.result in {Verified, RepeatedFailure}
            && LatestResume(s).Some? && !HasVerdict(s, RepeatedFailure, v.incident)
            && (v.result == Verified ==> !HasVerdict(s, Verified, v.incident)))
    ensures AllVerdictsOk(db1)
  {
    hide VerdictsOk, HasVerdict, LatestResume;
    forall q ensures VerdictsOk(At(db1.audits, q)) {
      var s := At(db.audits, q);
      assert VerdictsOk(s);
      if q != r || suffix == [] {
        assert At(db1.audits, q) == s;
      } else {
        var t := s + [suffix[0]];
        if IsVerdict(suffix[0]) { VerdictAppended(s, suffix[0]); } else { NoVerdictAppended(s, t); }
        NoVerdictAppended(t, s + suffix);
      }
    }
  }

  lemma DeliverVerdicts(cfg: Config, st: State, e: Event, ids: (Id, Id))
    requires AllVerdictsOk(st.db)
    ensures AllVerdictsOk(ProcessEvent(cfg, st, e, ids).db)
  {
    hide AllVerdictsOk, Book, EvaluateOne, RepeatFailure, Publish, HasVerdict, LatestResume, ResumedIncident;
    var db := Book(cfg, st.db, e);
    var booked := BookTrail(cfg, st.db, e);
    AddedVerdicts(st.db, db, e.run, booked);
    if e.key !in db.keys {
      var st0 := st.(db := SaveEvent(db, e));
      SilentVerdicts(db, st0.db);
      EvaluateVerdicts(cfg, st0, e, StuckLoopDetector, ids.0);
      var (st1, x) := EvaluateOne(cfg, st0, e, StuckLoopDetector, ids.0);
      EvaluateVerdicts(cfg, st1, e, BudgetDetector, ids.1);
      var (st2, y) := EvaluateOne(cfg, st1, e, BudgetDetector, ids.1);
      PublishVerdicts(cfg, st2.db, x);
      PublishVerdicts(cfg, Publish(cfg, st2.db, x), y);
    }
  }

  lemma SilentVerdicts(db: Db, db1: Db)
    requires AllVerdictsOk(db) && db1.audits == db.audits
    ensures AllVerdictsOk(db1)
  {}

  lemma EvaluateVerdicts(cfg: Config, st: State, e: Event, which: Detector, id: Id)
    requires AllVerdictsOk(st.db)
    ensures AllVerdictsOk(EvaluateOne(cfg, st, e, which, id).0.db)
  {
    hide AllVerdictsOk, EvaluateOne, RepeatFailure, HasVerdict, LatestResume, ResumedIncident;
    EvaluateShape(cfg, st, e, which, id);
    var suffix := RepeatTrail(st.db, e.run);
    ResumedIsLogged(At(st.db.audits, e.run));
    AddedVerdicts(st.db, RepeatFailure(st.db, e.run), e.run, suffix);
  }

  lemma PublishVerdicts(cfg: Config, db: Db, x: Option<Incident>)
    requires AllVerdictsOk(db)
    ensures AllVerdictsOk(Publish(cfg, db, x))
  {
    hide AllVerdictsOk, PauseRun, HasVerdict, LatestResume;
    if x.Some? {
      var db1 := SaveIncident(db, x.value);
      SilentVerdicts(db, db1);
      var suffix := PauseTrail(db1, x.value.run, x.value.id);
      AddedVerdicts(db1, PauseRun(db1, x.value.run, x.value.id), x.value.run, suffix);
    }
  }

  /** Every handler but the collector's only adds noise, and plan generation at most one
      automation row besides. */
  lemma OtherStepsQuiet(cfg: Config, st: State, step: Step)
    requires PlansInv(st.db) && Legal(st, step)
    requires !step.Deliver? && !step.MakePlan?
    ensures Quiet(st.db, Next(cfg, st, step).db)
  {
    hide Quiet, PlansInv, GateEntry, GateRelease, ResumeRun, ApprovePlan, DismissPlan;
    match step {
      case EnterGate(r) => GateQuiet(st.db, r);
      case AfterInterrupt(r) => ReleaseQuiet(st.db, r);
      case AutoGen(r) => AutoGenQuiet(st.db, r);
      case OperatorResume(r, incident) => ResumeQuiet(st.db, r, incident);
      case Approve(incident, role) =>
        SilentQuiet(st.db, st.db);
        if PlanOf(st.db, incident).Some? {
          PlanOwned(st.db, incident);
          ApproveQuiet(st.db, PlanOf(st.db, incident).value, role);
        }
      case Reject(incident, role) =>
        SilentQuiet(st.db, st.db);
        if PlanOf(st.db, incident).Some? {
          PlanOwned(st.db, incident);
          DismissQuiet(st.db, PlanOf(st.db, incident).value, role);
        }
      case Notify(r, incident, delivered) => QuietLog(st.db, r, Notification(incident, delivered));
      case Restart => SilentQuiet(st.db, st.db);
    }
  }

  lemma PlanOwned(db: Db, i: Id)
    requires PlansInv(db) && PlanOf(db, i).Some?
    ensures PlanOf(db, i).value.incident == i && OwnIncident(db, PlanOf(db, i).value.run, i)
  {
    assert WellFormedPlan(db, i, PlanAt(db, i, |At(db.plans, i)| - 1));
  }

  /** Plan generation: noise, then one row on automation, then noise. */
  lemma MakePlanTrail(cfg: Config, db: Db, x: Incident, planId: Id, actionId: Id, ai: Option<Analysis>)
      returns (db1: Db, db2: Db, a: Audit)
    requires OwnIncident(db, x.run, x.id)
    ensures Quiet(db, db1) && Quiet(db2, PlanFor(cfg, db, x, planId, actionId, ai))
    ensures a.incident == Some(x.id) && !IsVerdict(a) && !IsPause(a)
    ensures db2 == db1 || db2 == Log(db1, x.run, a)
    ensures IsAutomation(a) && db2 != db1 ==>
              Automates(cfg, db, x, planId, actionId, ai) && db1 == Drafted(db, x, planId, actionId, ai)
  {
    hide Quiet, ApprovePlan, Drafted, Draft, MayAutomate;
    if Settled(PlanOf(db, x.id)) {
      SilentQuiet(db, db);
      db1, db2, a := db, db, Audit(AutomationRejected, Success, Some(x.id));
    } else {
      var p := Draft(db, x, planId, actionId, ai);
      DraftShape(db, x, planId, actionId, ai);
      DraftedQuiet(db, x, planId, actionId, ai);
      db1 := Drafted(db, x, planId, actionId, ai);
      if Automates(cfg, db, x, planId, actionId, ai) {
        a := Audit(AutomationExecuted, Success, Some(x.id));
        db2 := Log(db1, x.run, a);
        assert OwnIncident(db2, x.run, x.id) by { assert db2.incidents == db.incidents by { QuietIncidents(db, db1); } }
        ApproveQuiet(db2, p, Admin);
      } else {
        a := Audit(AutomationRejected, Success, Some(x.id));
        db2 := Log(db1, x.run, a);
        SilentQuiet(db2, db2);
      }
    }
  }

  lemma QuietIncidents(db: Db, db1: Db)
    requires Quiet(db, db1)
    ensures db1.incidents == db.incidents
  {}

  lemma StepVerdicts(cfg: Config, st: State, step: Step)
    requires AllVerdictsOk(st.db) && PlansInv(st.db) && Legal(st, step)
    ensures AllVerdictsOk(Next(cfg, st, step).db)
  {
    hide AllVerdictsOk, PlansInv, ProcessEvent, PlanFor, Quiet, HasVerdict, LatestResume, NewAction;
    if step.Deliver? {
      DeliverVerdicts(cfg, st, step.e, step.ids);
    } else if step.MakePlan? {
      var db1, db2, a := MakePlanTrail(cfg, st.db, step.x, step.planId, step.actionId, step.ai);
      QuietVerdicts(st.db, db1);
      AddsOne(db1, db1, step.x.run, a);
      AddedVerdicts(db1, Log(db1, step.x.run, a), step.x.run, [a]);
      QuietVerdicts(db2, Next(cfg, st, step).db);
    } else {
      OtherStepsQuiet(cfg, st, step);
      QuietVerdicts(st.db, Next(cfg, st, step).db);
    }
  }

  lemma {:induction false} TraceVerdicts(cfg: Config, steps: seq<Step>)
    requires LegalTrace(cfg, INITIAL, steps)
    ensures AllVerdictsOk(Trace(cfg, INITIAL, steps).db)
  {
    if steps != [] {
      hide Legal, Next, AllVerdictsOk, PlansInv;
      LegalPrefix(cfg, INITIAL, steps);
      TraceVerdicts(cfg, steps[..|steps| - 1]);
      ReachablePlans(cfg, steps[..|steps| - 1]);
      StepVerdicts(cfg, Trace(cfg, INITIAL, steps[..|steps| - 1]), Last(steps));
    }
  }

  /** In every reachable state, engine restarts included. */
  lemma RecoveryVerdicts(cfg: Config, steps: seq<Step>, r: Id)
    requires LegalTrace(cfg, INITIAL, steps)
    ensures VerdictsOk(At(Trace(cfg, INITIAL, steps).db.audits, r))
  {
    TraceVerdicts(cfg, steps);
  }
}
