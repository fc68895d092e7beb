/** How the handlers extend the audit trails. Gates, resumes and the executor only add noise:
    rows that are no verdict, no successful pause and no automation, booked on incidents of their
    own run. */
module Trails {
  import opened Records
  import opened Tables
  import opened Detectors
  import opened Protection
  import opened Collector
  import opened Recovery
  import opened ControlPlane

  predicate IsVerdict(a: Audit) {
    a.action == RecoveryVerification
  }

  predicate IsPause(a: Audit) {
    a.action == PauseRequestedAudit && a.result == Success
  }

  predicate Own(db: Db, r: Id, incident: Option<Id>) {
    incident.Some? ==> OwnIncident(db, r, incident.value)
  }

  ghost predicate Noise(db: Db, r: Id, a: Audit) {
    !IsVerdict(a) && !IsPause(a) && !IsAutomation(a) && Own(db, r, a.incident)
  }

  /** Every trail is kept and gains noise only. */
  ghost predicate Quiet(db: Db, db1: Db) {
    && db1.incidents == db.incidents
    && forall r ::
      && At(db.audits, r) <= At(db1.audits, r)
      && forall k :: |At(db.audits, r)| <= k < |At(db1.audits, r)| ==> Noise(db, r, At(db1.audits, r)[k])
  }

  ghost predicate Silent(db: Db, db1: Db) {
    db1.incidents == db.incidents && db1.audits == db.audits
  }

  lemma QuietLog(db: Db, r: Id, a: Audit)
    requires Noise(db, r, a)
    ensures Quiet(db, Log(db, r, a))
  {}

  lemma QuietThen(a: Db, b: Db, c: Db)
    requires Quiet(a, b) && Quiet(b, c)
    ensures Quiet(a, c)
  {
    forall r, k | |At(a.audits, r)| <= k < |At(c.audits, r)| ensures Noise(a, r, At(c.audits, r)[k]) {
      if k < |At(b.audits, r)| {
        assert At(c.audits, r)[k] == At(b.audits, r)[k];
      } else {
        assert Noise(b, r, At(c.audits, r)[k]);
      }
    }
  }

  lemma QuietThenSilent(a: Db, b: Db, c: Db)
    requires Quiet(a, b) && Silent(b, c)
    ensures Quiet(a, c)
  {}

  lemma QuietThenLog(a: Db, b: Db, r: Id, x: Audit)
    requires Quiet(a, b) && Noise(a, r, x)
    ensures Quiet(a, Log(b, r, x))
  {
    hide Noise, Quiet;
    assert Noise(b, r, x) by { QuietNoise(a, b, r, x); }
    QuietLog(b, r, x);
    QuietThen(a, b, Log(b, r, x));
  }

  lemma QuietNoise(a: Db, b: Db, r: Id, x: Audit)
    requires Quiet(a, b)
    ensures Noise(a, r, x) <==> Noise(b, r, x)
  {}

  lemma SilentQuiet(a: Db, b: Db)
    requires Silent(a, b)
    ensures Quiet(a, b)
  {}

  lemma {:induction false} QuietCount(s: seq<Audit>, t: seq<Audit>, p: Audit -> bool)
    requires s <= t
    requires forall k :: |s| <= k < |t| ==> !p(t[k])
    ensures Count(t, p) == Count(s, p)
  {
    if |s| == |t| {
      assert s == t;
    } else {
      QuietCount(s, t[..|t| - 1], p);
    }
  }

  lemma NewestOpenIsStored(s: seq<Incident>)
    ensures NewestOpen(s).Some? ==> exists x <- s :: x.id == NewestOpen(s).value
  {
    if s != [] && !Last(s).open { NewestOpenIsStored(s[..|s| - 1]); }
  }

  lemma StatementsAreSilent(db: Db, r: Id, status: Status, expected: set<Status>)
    ensures Silent(db, UpdateRunStatus(db, r, status))
    ensures Silent(db, CasRunStatus(db, r, status, expected))
    ensures Silent(db, UpdateProtectionMode(db, r, Active))
  {}

  lemma ResumeQuiet(db: Db, r: Id, incident: Option<Id>)
    requires Own(db, r, incident)
    ensures Quiet(db, ResumeRun(db, r, incident))
  {
    NewestOpenIsStored(At(db.incidents, r));
    StatementsAreSilent(db, r, ResumeRequested, HELD);
    var db1 := CasRunStatus(db, r, ResumeRequested, HELD);
    SilentQuiet(db, db);
    hide Quiet, NewestOpen, CasRunStatus, Log;
    SilentQuiet(db, db1);
    QuietThenLog(db, db, r, Audit(ResumeFailedAudit, Failure, None));
    QuietThenLog(db, db, r, Audit(ResumeRequestedAudit, Idempotent, None));
    QuietThenLog(db, db1, r, Audit(ResumeRequestedAudit, Success, ResumeTarget(db, r, incident)));
  }

  lemma GateQuiet(db: Db, r: Id)
    ensures Quiet(db, GateEntry(db, r))
  {
    var db1, a := UpdateProtectionMode(db, r, Active), Audit(PausedAudit, Success, None);
    SilentQuiet(db, db);
    StatementsAreSilent(db, r, Paused, HELD);
    StatementsAreSilent(db1, r, Paused, HELD);
    hide Quiet, UpdateProtectionMode, UpdateRunStatus, Log;
    SilentQuiet(db, db1);
    SilentQuiet(db, UpdateRunStatus(db, r, Paused));
    SilentQuiet(db, UpdateRunStatus(db1, r, Paused));
    QuietThenLog(db, UpdateRunStatus(db, r, Paused), r, a);
    QuietThenLog(db, UpdateRunStatus(db1, r, Paused), r, a);
  }

  lemma ReleaseQuiet(db: Db, r: Id)
    ensures Quiet(db, GateRelease(db, r))
  {
    SilentQuiet(db, db);
    StatementsAreSilent(db, r, Running, HELD);
    hide Quiet, UpdateRunStatus, Log;
    SilentQuiet(db, UpdateRunStatus(db, r, Running));
    QuietThenLog(db, UpdateRunStatus(db, r, Running), r, Audit(ResumedAudit, Success, None));
  }

  lemma AutoGenQuiet(db: Db, r: Id)
    ensures Quiet(db, AutoGenGate(db, r))
  {
    GateQuiet(db, r);
    ReleaseQuiet(GateEntry(db, r), r);
    QuietThen(db, GateEntry(db, r), AutoGenGate(db, r));
  }

  lemma RunActionQuiet(db: Db, p: Plan, a: PlanAction)
    requires OwnIncident(db, p.run, p.incident)
    ensures Quiet(db, RunAction(db, p, a))
  {
    hide Quiet, ResumeRun;
    var db1 := WriteAction(db, p, a, ActionExecuting);
    SilentQuiet(db, db1);
    assert OwnIncident(db1, p.run, p.incident);
    ResumeQuiet(db1, p.run, Some(p.incident));
    var db2 := ResumeRun(db1, p.run, Some(p.incident));
    QuietThen(db, db1, db2);
    QuietThenSilent(db, db1, WriteAction(db1, p, a, ActionCompleted));
    QuietThenSilent(db, db1, WriteAction(db1, p, a, ActionFailed));
    QuietThenSilent(db, db2, WriteAction(db2, p, a, ActionCompleted));
    QuietThenLog(db, WriteAction(db1, p, a, ActionCompleted), p.run, PlanAudit(p, ActionExecuted, Success));
    QuietThenLog(db, WriteAction(db2, p, a, ActionCompleted), p.run, PlanAudit(p, ActionExecuted, Success));
    QuietThenLog(db, WriteAction(db1, p, a, ActionFailed), p.run, PlanAudit(p, ActionExecuted, Failure));
  }

  lemma {:induction false} RunActionsQuiet(db: Db, p: Plan, s: seq<PlanAction>)
    requires OwnIncident(db, p.run, p.incident)
    ensures Quiet(db, RunActions(db, p, s))
  {
    hide RunAction;
    if s != [] {
      var db1 := RunActions(db, p, s[..|s| - 1]);
      RunActionsQuiet(db, p, s[..|s| - 1]);
      RunActionQuiet(db1, p, Last(s));
      QuietThen(db, db1, RunActions(db, p, s));
    }
  }

  lemma {:induction false} OutcomesTouch(db: Db, p: Plan, k: PatternKey, s: seq<PlanAction>, approved: bool)
    ensures var db1 := SaveOutcomes(db, p, k, s, approved); db1 == db.(outcomes := db1.outcomes)
  {
    if s != [] { OutcomesTouch(db, p, k, s[..|s| - 1], approved); }
  }

  /** Learning writes patterns and outcomes only. */
  lemma LearnTouches(db: Db, p: Plan, approved: bool)
    ensures var db1 := Learn(db, p, approved); db1 == db.(patterns := db1.patterns, outcomes := db1.outcomes)
  {
    hide TriggerEvent, FindIncident, Fingerprint;
    var x := FindIncident(At(db.incidents, p.run), p.incident);
    if x.Some? && p.run in db.runs {
      var e := TriggerEvent(At(db.events, p.run), x.value.trigger);
      if e.Some? {
        var k := PatternOf(db, p.run, x.value, e.value);
        OutcomesTouch(RecordPattern(db, k, e.value.framework), p, k, p.actions, approved);
      }
    }
  }

  lemma CarryQuiet(db: Db, p: Plan)
    requires OwnIncident(db, p.run, p.incident)
    ensures Quiet(db, Carry(db, p))
  {
    hide RunActions, Learn, UpdatedPlans, HasPlan;
    var db0 := SavePlan(db, p.(status := Approved));
    var db1 := Log(db0, p.run, PlanAudit(p, PlanApproved, Success));
    QuietLog(db0, p.run, PlanAudit(p, PlanApproved, Success));
    var db2 := SavePlan(db1, p.(status := Executing));
    assert Quiet(db, db2);
    var db3 := RunActions(db2, p, p.actions);
    RunActionsQuiet(db2, p, p.actions);
    QuietThen(db, db2, db3);
    LearnTouches(SavePlan(db3, Executed(p)), Executed(p), true);
  }

  lemma ApproveQuiet(db: Db, p: Plan, role: Role)
    requires OwnIncident(db, p.run, p.incident)
    ensures Quiet(db, ApprovePlan(db, p, role))
  {
    hide Carry, Fresh, MayExecute, UpdatedPlans, HasPlan;
    CarryQuiet(db, p);
    QuietLog(db, p.run, PlanAudit(p, PlanRejected, Failure));
    QuietLog(SavePlan(db, p.(status := Stale)), p.run, PlanAudit(p, PlanRejected, Failure));
  }

  lemma DismissQuiet(db: Db, p: Plan, role: Role)
    requires OwnIncident(db, p.run, p.incident)
    ensures Quiet(db, DismissPlan(db, p, role))
  {
    hide Learn, UpdatedPlans, HasPlan;
    var db0 := SavePlan(db, p.(status := Rejected));
    var db1 := Log(db0, p.run, PlanAudit(p, PlanRejected, Success));
    QuietLog(db0, p.run, PlanAudit(p, PlanRejected, Success));
    assert Quiet(db, db1);
    LearnTouches(db1, p.(status := Rejected), false);
  }

  lemma AiRowQuiet(db: Db, db1: Db, x: Incident, action: AuditAction, result: AuditResult)
    requires Quiet(db, db1) && OwnIncident(db, x.run, x.id)
    requires action in {AiRequested, AiStarted, AiCompleted, AiFailed, AiFallback}
    ensures Quiet(db, Log(db1, x.run, Audit(action, result, Some(x.id))))
  {
    hide Quiet, Log, OwnIncident;
    QuietThenLog(db, db1, x.run, Audit(action, result, Some(x.id)));
  }

  lemma ConsultQuiet(db: Db, x: Incident, ai: Option<Analysis>)
    requires OwnIncident(db, x.run, x.id)
    ensures Quiet(db, ConsultAi(db, x, ai))
  {
    SilentQuiet(db, db);
    hide Quiet, Log, OwnIncident;
    var db1 := Log(db, x.run, Audit(AiRequested, Success, Some(x.id)));
    AiRowQuiet(db, db, x, AiRequested, Success);
    var db2 := Log(db1, x.run, Audit(AiStarted, Success, Some(x.id)));
    AiRowQuiet(db, db1, x, AiStarted, Success);
    AiRowQuiet(db, db2, x, AiCompleted, Success);
    AiRowQuiet(db, db2, x, AiFailed, Failure);
    var db3 := Log(db2, x.run, Audit(AiFailed, Failure, Some(x.id)));
    AiRowQuiet(db, db3, x, AiFallback, Success);
  }

  lemma DraftedQuiet(db: Db, x: Incident, planId: Id, actionId: Id, ai: Option<Analysis>)
    requires OwnIncident(db, x.run, x.id)
    ensures Quiet(db, Drafted(db, x, planId, actionId, ai))
  {
    hide ConsultAi, UpdatedPlans, HasPlan, TriggerEvent, PatternOf, Draft;
    var db1 := Recall(db, x);
    assert Quiet(db, db1);
    ConsultQuiet(db1, x, ai);
    QuietThen(db, db1, ConsultAi(db1, x, ai));
  }

  // ---- what the collector writes ----

  /** Run r's trail gains the suffix, every other trail is as it was. */
  ghost predicate Adds(db: Db, db1: Db, r: Id, suffix: seq<Audit>) {
    forall q :: At(db1.audits, q) == At(db.audits, q) + (if q == r then suffix else [])
  }

  lemma AddsThen(a: Db, b: Db, c: Db, r: Id, s: seq<Audit>, t: seq<Audit>)
    requires Adds(a, b, r, s) && Adds(b, c, r, t)
    ensures Adds(a, c, r, s + t)
  {}

  lemma AddsNothing(db: Db, db1: Db, r: Id)
    requires db1.audits == db.audits
    ensures Adds(db, db1, r, [])
  {}

  /** A logged row, on top of changes that leave the trails alone. */
  lemma AddsOne(db: Db, db1: Db, r: Id, a: Audit)
    requires db1.audits == db.audits
    ensures Adds(db, Log(db1, r, a), r, [a])
  {}

  /** A chain of statements that leave plans, incidents and actions alone. */
  ghost predicate PlansUntouched(db: Db, db1: Db) {
    db1.plans == db.plans && db1.incidents == db.incidents && db1.actions == db.actions
  }

  lemma StatementsKeepPlans(db: Db, db1: Db, r: Id, status: Status, a: Audit)
    requires PlansUntouched(db, db1)
    ensures PlansUntouched(db, UpdateRunStatus(db1, r, status))
    ensures PlansUntouched(db, UpdateProtectionMode(db1, r, Active))
    ensures PlansUntouched(db, Log(db1, r, a))
  {
    hide At;
  }

  lemma CasKeepsPlans(db: Db, r: Id, status: Status, expected: set<Status>)
    ensures PlansUntouched(db, CasRunStatus(db, r, status, expected))
  {
    StatementsKeepPlans(db, db, r, status, Audit(PausedAudit, Success, None));
    hide UpdateRunStatus;
  }

  lemma PauseKeepsPlans(db: Db, r: Id, incident: Id)
    ensures PlansUntouched(db, PauseRun(db, r, incident))
  {
    CasKeepsPlans(db, r, PauseRequested, PAUSABLE);
    assert PlansUntouched(db, db);
    hide PlansUntouched, CasRunStatus, Log;
    var db1 := CasRunStatus(db, r, PauseRequested, PAUSABLE);
    StatementsKeepPlans(db, db, r, Paused, Audit(PauseFailedAudit, Failure, Some(incident)));
    StatementsKeepPlans(db, db, r, Paused, Audit(PauseRequestedAudit, Idempotent, Some(incident)));
    StatementsKeepPlans(db, db1, r, Paused, Audit(PauseRequestedAudit, Success, Some(incident)));
  }

  lemma PauseTrail(db: Db, r: Id, incident: Id) returns (suffix: seq<Audit>)
    ensures Adds(db, PauseRun(db, r, incident), r, suffix)
    ensures |suffix| <= 1
    ensures forall a <- suffix :: !IsVerdict(a) && !IsAutomation(a) && !IsResume(a) && a.incident == Some(incident)
    ensures PlansUntouched(db, PauseRun(db, r, incident))
  {
    PauseKeepsPlans(db, r, incident);
    StatementsAreSilent(db, r, PauseRequested, PAUSABLE);
    AddsNothing(db, db, r);
    hide Adds, CasRunStatus, Log;
    if r !in db.runs || db.runs[r].mode != Active {
      suffix := [];
    } else {
      var db1, a := db, Audit(PauseRequestedAudit, Success, Some(incident));
      if Terminal(db.runs[r].status) {
        a := Audit(PauseFailedAudit, Failure, Some(incident));
      } else if db.runs[r].status in HELD {
        a := Audit(PauseRequestedAudit, Idempotent, Some(incident));
      } else {
        db1 := CasRunStatus(db, r, PauseRequested, PAUSABLE);
      }
      AddsOne(db, db1, r, a);
      suffix := [a];
    }
  }

  lemma MarkSilent(db: Db, incident: Id, v: Verification, o: OutcomeVerification)
    ensures Silent(db, MarkPlan(db, incident, v, o))
    ensures MarkPlan(db, incident, v, o).runs == db.runs && MarkPlan(db, incident, v, o).events == db.events
    ensures MarkPlan(db, incident, v, o).keys == db.keys && MarkPlan(db, incident, v, o).actions == db.actions
  {
    hide VerifiedOutcomes, UpdatedPlans, HasPlan;
  }

  /** A repeat either changes nothing or books one failure verdict on the resumed incident, the
      first for that incident, followed by at most one row of the renewed pause. */
  lemma RepeatTrail(db: Db, r: Id) returns (suffix: seq<Audit>)
    ensures Adds(db, RepeatFailure(db, r), r, suffix)
    ensures RepeatFailure(db, r).incidents == db.incidents
    ensures suffix != [] ==>
      var incident := ResumedIncident(At(db.audits, r));
      && incident.Some? && !HasVerdict(At(db.audits, r), RepeatedFailure, incident)
      && suffix[0] == Audit(RecoveryVerification, RepeatedFailure, incident)
      && |suffix| <= 2
      && (|suffix| == 2 ==> !IsVerdict(suffix[1]) && !IsAutomation(suffix[1]) && suffix[1].incident == incident)
  {
    hide ResumedIncident, HasVerdict, MarkPlan, PauseRun, PlanOf;
    var incident := ResumedIncident(At(db.audits, r));
    if RepeatFailure(db, r) == db {
      suffix := [];
    } else {
      var verdict := Audit(RecoveryVerification, RepeatedFailure, incident);
      var db1 := Log(db, r, verdict);
      suffix := [verdict];
      if RepeatFailure(db, r) != db1 {
        var db2 := MarkPlan(db1, incident.value, RecoveryRepeated, VerifiedFailure);
        MarkSilent(db1, incident.value, RecoveryRepeated, VerifiedFailure);
        var rest := PauseTrail(db2, r, incident.value);
        AddsThen(db, db2, RepeatFailure(db, r), r, [verdict], rest);
        suffix := [verdict] + rest;
      }
    }
  }

  /** A completion adds nothing or the first verdict on the resumed incident. */
  lemma VerifyTrail(db: Db, r: Id) returns (suffix: seq<Audit>)
    ensures Adds(db, VerifyRecovery(db, r), r, suffix)
    ensures VerifyRecovery(db, r).incidents == db.incidents
    ensures VerifyRecovery(db, r).runs == db.runs && VerifyRecovery(db, r).events == db.events
    ensures VerifyRecovery(db, r).keys == db.keys && VerifyRecovery(db, r).actions == db.actions
    ensures suffix != [] ==>
      var trail := At(db.audits, r);
      var incident := ResumedIncident(trail);
      && LatestResume(trail).Some?
      && !HasVerdict(trail, RepeatedFailure, incident) && !HasVerdict(trail, Verified, incident)
      && suffix == [Audit(RecoveryVerification, Verified, incident)]
  {
    hide ResumedIncident, HasVerdict, MarkPlan, LatestResume;
    var incident := ResumedIncident(At(db.audits, r));
    var verdict := Audit(RecoveryVerification, Verified, incident);
    suffix := if VerifyRecovery(db, r) == db then [] else [verdict];
    if incident.Some? {
      MarkSilent(Log(db, r, verdict), incident.value, RecoveryVerified, VerifiedSuccess);
    }
  }

  lemma BookTrail(cfg: Config, db: Db, e: Event) returns (suffix: seq<Audit>)
    ensures Adds(db, Book(cfg, db, e), e.run, suffix)
    ensures suffix != [] ==>
      var trail := At(db.audits, e.run);
      var incident := ResumedIncident(trail);
      && e.kind == RunCompleted
      && LatestResume(trail).Some?
      && !HasVerdict(trail, RepeatedFailure, incident) && !HasVerdict(trail, Verified, incident)
      && suffix == [Audit(RecoveryVerification, Verified, incident)]
  {
    hide ResumedIncident, HasVerdict, LatestResume, VerifyRecovery, Advance, Adds, SaveRun;
    var db1 := EnsureRun(cfg, db, e);
    assert Silent(db, db1) && db1.audits == db.audits && e.run in db1.runs by {
      SaveRunRows(db, e.run, NewRun(cfg, e));
    }
    AddsNothing(db, db1, e.run);
    suffix := [];
    var db2 := db1;
    if e.kind == RunCompleted {
      suffix := VerifyTrail(db1, e.run);
      db2 := VerifyRecovery(db1, e.run);
    } else {
      AddsNothing(db1, db1, e.run);
    }
    var row := Advance(db1.runs[e.run], e);
    SaveRunRows(db2, e.run, row);
    AddsNothing(db2, SaveRun(db2, e.run, row), e.run);
    AddsThen(db, db1, db2, e.run, [], suffix);
    AddsThen(db, db2, SaveRun(db2, e.run, row), e.run, suffix, []);
    assert [] + suffix == suffix + [] == suffix;
  }

  lemma SaveRunRows(db: Db, r: Id, row: Run)
    ensures var db1 := SaveRun(db, r, row);
            && db1 == db.(runs := db1.runs)
            && db1.runs.Keys == db.runs.Keys + {r}
            && (forall q <- db.runs :: q != r ==> db1.runs[q] == db.runs[q])
  {}

  /** The row booking leaves behind, seen from the row it found. */
  function Booked(cfg: Config, db: Db, e: Event): Run {
    var row := if e.run in db.runs then db.runs[e.run] else NewRun(cfg, e);
    MergeRun(row, Advance(row, e))
  }

  lemma BookRows(cfg: Config, db: Db, e: Event)
    ensures var db1 := Book(cfg, db, e);
            && db1.incidents == db.incidents && db1.events == db.events && db1.keys == db.keys
            && db1.actions == db.actions
            && db1.runs == db.runs[e.run := Booked(cfg, db, e)]
  {
    hide VerifyRecovery, Advance, MergeRun, NewRun, Adds;
    var db1 := EnsureRun(cfg, db, e);
    var suffix := VerifyTrail(db1, e.run);
    var db2 := if e.kind == RunCompleted then VerifyRecovery(db1, e.run) else db1;
    assert db2.runs == db1.runs;
    BookedTwice(cfg, db, e);
  }

  lemma BookedTwice(cfg: Config, db: Db, e: Event)
    ensures var db1 := EnsureRun(cfg, db, e);
      && e.run in db1.runs
      && db1.incidents == db.incidents && db1.events == db.events && db1.keys == db.keys && db1.actions == db.actions
      && db1.runs[e.run := MergeRun(db1.runs[e.run], Advance(db1.runs[e.run], e))] ==
         db.runs[e.run := Booked(cfg, db, e)]
  {
    hide Advance, MergeRun, NewRun;
    if e.run !in db.runs {
      var row := NewRun(cfg, e);
      var booked := MergeRun(row, Advance(row, e));
      assert EnsureRun(cfg, db, e).runs == db.runs[e.run := row];
      assert db.runs[e.run := row][e.run := booked] == db.runs[e.run := booked];
    }
  }

  lemma EvaluateShape(cfg: Config, st: State, e: Event, which: Detector, id: Id)
    ensures var (st1, x) := EvaluateOne(cfg, st, e, which, id);
        && (st1.db == st.db || st1.db == RepeatFailure(st.db, e.run))
        && (x.Some? ==> x.value.run == e.run && st1.db == st.db)
  {
    hide Window, RepeatFailure;
  }

  lemma ResumedIsLogged(s: seq<Audit>)
    ensures ResumedIncident(s).Some? ==> exists a <- s :: a.incident == ResumedIncident(s)
    ensures ResumedIncident(s).Some? ==> LatestResume(s).Some?
    ensures LatestResume(s).Some? <==> exists a <- s :: IsResume(a)
    ensures LatestResume(s).Some? ==> LatestResume(s).value in s
    ensures LatestIncident(s).Some? ==> exists a <- s :: a.incident == LatestIncident(s)
  {
    if s != [] {
      var front := s[..|s| - 1];
      ResumedIsLogged(front);
      assert s == front + [Last(s)];
    }
  }
}
