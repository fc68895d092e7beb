/** Recovery plans: the policy, the executor with its staleness check, and plan generation with
    its history, AI and automation stages. */
module Recovery {
  import opened Records
  import opened Tables
  import opened Detectors
  import opened Protection
  import opened Learning
  import Storage

  // ---- policy ----

  predicate ShouldInvokeAi(x: Incident) {
    match x.failure
    case StuckLoop => x.severity in {Critical, High}
    case BudgetExceeded => x.severity == High
  }

  predicate IsAutomation(a: Audit) {
    a.action == AutomationExecuted
  }

  predicate IsRepeat(a: Audit) {
    a.action == RecoveryVerification && a.result == RepeatedFailure
  }

  predicate MayAutomate(cfg: Config, db: Db, p: Plan, x: Incident) {
    && x.run in db.runs
    && p.risk == LowRisk
    && x.failure == StuckLoop
    && |p.actions| == 1
    && p.actions[0].kind in {Resume, KeepPaused}
    && Count(At(db.audits, x.run), IsAutomation) < cfg.maxAuto
    && Count(At(db.audits, x.run), IsRepeat) < 2
  }

  predicate MayExecute(p: Plan, role: Role) {
    && role in {Operator, Admin}
    && forall a <- p.actions :: a.kind in {KeepPaused, Resume}
  }

  // ---- executor ----

  predicate Fresh(db: Db, p: Plan) {
    && p.run in db.runs
    && Some(db.runs[p.run].status) == p.snapStatus
    && LatestSeq(At(db.events, p.run)) == p.snapSeq
  }

  function PlanAudit(p: Plan, action: AuditAction, result: AuditResult): Audit {
    Audit(action, result, Some(p.incident))
  }

  function ActionOf(p: Plan, a: PlanAction, status: ActionStatus): ActionRow {
    ActionRow(a.id, p.run, p.incident, a.kind, a.risk, status)
  }

  function WriteAction(db: Db, p: Plan, a: PlanAction, status: ActionStatus): Db {
    SaveAction(db, ActionOf(p, a, status))
  }

  function RunAction(db: Db, p: Plan, a: PlanAction): Db {
    var db1 := WriteAction(db, p, a, ActionExecuting);
    match a.kind
    case KeepPaused =>
      Log(WriteAction(db1, p, a, ActionCompleted), p.run, PlanAudit(p, ActionExecuted, Success))
    case Resume =>
      var db2 := ResumeRun(db1, p.run, Some(p.incident));
      Log(WriteAction(db2, p, a, ActionCompleted), p.run, PlanAudit(p, ActionExecuted, Success))
    case Other(_) =>
      Log(WriteAction(db1, p, a, ActionFailed), p.run, PlanAudit(p, ActionExecuted, Failure))
  }

  function RunActions(db: Db, p: Plan, s: seq<PlanAction>): Db {
    if s == [] then db else RunAction(RunActions(db, p, s[..|s| - 1]), p, Last(s))
  }

  predicate Succeeds(a: PlanAction) {
    a.kind in {KeepPaused, Resume}
  }

  predicate Resumes(a: PlanAction) {
    a.kind == Resume
  }

  function FindEvent(s: seq<Event>, id: Id): Option<Event> {
    if s == [] then None else if s[0].id == id then Some(s[0]) else FindEvent(s[1..], id)
  }

  /** The triggering event, or the latest one when it is not among the stored events. */
  function TriggerEvent(s: seq<Event>, id: Id): Option<Event> {
    var ordered := OrderBySeq(s);
    if FindEvent(ordered, id).Some? then FindEvent(ordered, id)
    else if ordered == [] then None
    else Some(Last(ordered))
  }

  function Text(s: Option<string>): string {
    if s.Some? && s.value != "" then s.value else "None"
  }

  function FailureName(f: FailureType): string {
    match f case StuckLoop => "STUCK_LOOP" case BudgetExceeded => "BUDGET_EXCEEDED"
  }

  /** The text whose digest is the fingerprint. */
  function Fingerprint(x: Incident, e: Event): string {
    e.framework + "|" + e.agent + "|" + FailureName(x.failure) + "|" +
    Text(e.tool) + "|" + Text(e.args) + "|" + Text(e.resp)
  }

  function PatternOf(db: Db, r: Id, x: Incident, e: Event): PatternKey
    requires r in db.runs
  {
    PatternKey(db.runs[r].org, Fingerprint(x, e))
  }

  /** Reads the pattern, counts it once more, and saves it; or creates it. */
  function RecordPattern(db: Db, k: PatternKey, framework: string): Db {
    SavePattern(db, k, if k in db.patterns then db.patterns[k].(occurrences := db.patterns[k].occurrences + 1)
                       else Pattern(framework, 1))
  }

  method GetOrCreatePattern(store: Storage.Database, k: PatternKey, framework: string)
    modifies store
    ensures store.View() == RecordPattern(old(store.View()), k, framework)
  {
    if k in store.patterns {
      var existing := store.patterns[k];
      store.SavePatternRecord(k, existing.(occurrences := existing.occurrences + 1));
    } else {
      store.SavePatternRecord(k, Pattern(framework, 1));
    }
  }

  function SaveOutcomes(db: Db, p: Plan, k: PatternKey, s: seq<PlanAction>, approved: bool): Db {
    if s == [] then db
    else
      SaveOutcome(SaveOutcomes(db, p, k, s[..|s| - 1], approved),
                  Outcome(p.incident, k, Last(s).kind, approved, approved && Succeeds(Last(s)), Unverified))
  }

  /** Records one outcome per action under the incident's pattern; nothing if the incident, its
      run or an event to fingerprint is missing. */
  function Learn(db: Db, p: Plan, approved: bool): Db {
    var x := FindIncident(At(db.incidents, p.run), p.incident);
    if x.None? || p.run !in db.runs then db
    else
      var e := TriggerEvent(At(db.events, p.run), x.value.trigger);
      if e.None? then db
      else
        var k := PatternOf(db, p.run, x.value, e.value);
        SaveOutcomes(RecordPattern(db, k, e.value.framework), p, k, p.actions, approved)
  }

  function Executed(p: Plan): Plan {
    p.(status := if Count(p.actions, Succeeds) == |p.actions| then PlanCompleted else PlanFailed,
       verification := if Count(p.actions, Resumes) > 0 then Some(RecoveryUnverified) else p.verification)
  }

  function Carry(db: Db, p: Plan): Db {
    var db1 := Log(SavePlan(db, p.(status := Approved)), p.run, PlanAudit(p, PlanApproved, Success));
    var db2 := RunActions(SavePlan(db1, p.(status := Executing)), p, p.actions);
    Learn(SavePlan(db2, Executed(p)), Executed(p), true)
  }

  function ApprovePlan(db: Db, p: Plan, role: Role): Db {
    if p.status != Proposed then Log(db, p.run, PlanAudit(p, PlanRejected, Failure))
    else if !Fresh(db, p) then
      Log(SavePlan(db, p.(status := Stale)), p.run, PlanAudit(p, PlanRejected, Failure))
    else if !MayExecute(p, role) then Log(db, p.run, PlanAudit(p, PlanRejected, Failure))
    else Carry(db, p)
  }

  /** The plan object as the executor leaves it. */
  function AfterExecution(db: Db, p: Plan, role: Role): Plan {
    if p.status != Proposed then p
    else if !Fresh(db, p) then p.(status := Stale)
    else if !MayExecute(p, role) then p
    else Executed(p)
  }

  predicate CanReject(p: Plan, role: Role) {
    p.status in {Proposed, Stale} && role in {Operator, Admin}
  }

  function DismissPlan(db: Db, p: Plan, role: Role): Db {
    if !CanReject(p, role) then db
    else
      var db1 := Log(SavePlan(db, p.(status := Rejected)), p.run, PlanAudit(p, PlanRejected, Success));
      if p.actions == [] then db1 else Learn(db1, p.(status := Rejected), false)
  }

  /** A plan that passes the policy is carried out in full. */
  lemma ApprovedPlansComplete(db: Db, p: Plan, role: Role)
    requires MayExecute(p, role)
    ensures Count(p.actions, Succeeds) == |p.actions|
    ensures p.status == Proposed && Fresh(db, p) ==> AfterExecution(db, p, role).status == PlanCompleted
  {
    AllCount(p.actions, Succeeds);
  }

  lemma {:induction false} AllCount<T>(s: seq<T>, p: T -> bool)
    requires forall x <- s :: p(x)
    ensures Count(s, p) == |s|
  {
    if s != [] { AllCount(s[..|s| - 1], p); }
  }

  class Executor {
    const store: Storage.Database
    const controller: Controller

    constructor (store: Storage.Database)
      ensures this.store == store && controller.store == store
    {
      this.store := store;
      controller := new Controller(store);
    }

    method LearnFrom(p: Plan, approved: bool)
      modifies store
      ensures store.View() == Learn(old(store.View()), p, approved)
    {
      var x := FindIncident(At(store.incidents, p.run), p.incident);
      var row := store.GetRun(p.run);
      if x.None? || row.None? {
        return;
      }
      var e := TriggerEvent(At(store.events, p.run), x.value.trigger);
      if e.None? {
        return;
      }
      var k := PatternKey(row.value.org, Fingerprint(x.value, e.value));
      GetOrCreatePattern(store, k, e.value.framework);
      ghost var base := store.View();
      for i := 0 to |p.actions|
        invariant store.View() == SaveOutcomes(base, p, k, p.actions[..i], approved)
      {
        assert p.actions[..i + 1][..i] == p.actions[..i];
        var done := approved && p.actions[i].kind in {KeepPaused, Resume};
        store.SaveRecoveryOutcome(Outcome(p.incident, k, p.actions[i].kind, approved, done, Unverified));
      }
      assert p.actions[..|p.actions|] == p.actions;
    }

    method PerformAction(p: Plan, a: PlanAction)
      requires controller.store == store
      modifies store
      ensures store.View() == RunAction(old(store.View()), p, a)
    {
      store.SaveRecoveryAction(ActionOf(p, a, ActionExecuting));
      match a.kind {
        case KeepPaused =>
          store.SaveRecoveryAction(ActionOf(p, a, ActionCompleted));
          store.SaveAuditEvent(p.run, PlanAudit(p, ActionExecuted, Success));
        case Resume =>
          controller.Resume(p.run, Some(p.incident));
          store.SaveRecoveryAction(ActionOf(p, a, ActionCompleted));
          store.SaveAuditEvent(p.run, PlanAudit(p, ActionExecuted, Success));
        case Other(_) =>
          store.SaveRecoveryAction(ActionOf(p, a, ActionFailed));
          store.SaveAuditEvent(p.run, PlanAudit(p, ActionExecuted, Failure));
      }
    }

    method PerformActions(p: Plan) returns (succeeded: nat, resumed: bool)
      requires controller.store == store
      modifies store
      ensures store.View() == RunActions(old(store.View()), p, p.actions)
      ensures succeeded == Count(p.actions, Succeeds)
      ensures resumed == (Count(p.actions, Resumes) > 0)
    {
      succeeded, resumed := 0, false;
      for i := 0 to |p.actions|
        invariant store.View() == RunActions(old(store.View()), p, p.actions[..i])
        invariant succeeded == Count(p.actions[..i], Succeeds)
        invariant resumed == (Count(p.actions[..i], Resumes) > 0)
      {
        assert p.actions[..i + 1][..i] == p.actions[..i];
        PerformAction(p, p.actions[i]);
        if !p.actions[i].kind.Other? {
          succeeded := succeeded + 1;
        }
        if p.actions[i].kind == Resume {
          resumed := true;
        }
      }
      assert p.actions[..|p.actions|] == p.actions;
    }

    method ExecutePlan(p: Plan, role: Role) returns (q: Plan, ok: bool)
      requires controller.store == store
      modifies store
      ensures store.View() == ApprovePlan(old(store.View()), p, role)
      ensures q == AfterExecution(old(store.View()), p, role)
      ensures ok == (p.status == Proposed && q.status == PlanCompleted)
    {
      hide UpdatedPlans, HasPlan, Learn, RunActions, LatestSeq;
      q := p;
      if q.status != Proposed {
        store.SaveAuditEvent(p.run, PlanAudit(p, PlanRejected, Failure));
        return q, false;
      }
      var row := store.GetRun(p.run);
      if row.None? || Some(row.value.status) != p.snapStatus ||
         LatestSeq(At(store.events, p.run)) != p.snapSeq {
        q := q.(status := Stale);
        store.SaveRecoveryPlan(q);
        store.SaveAuditEvent(p.run, PlanAudit(p, PlanRejected, Failure));
        return q, false;
      }
      if !MayExecute(p, role) {
        store.SaveAuditEvent(p.run, PlanAudit(p, PlanRejected, Failure));
        return q, false;
      }
      q := q.(status := Approved);
      store.SaveRecoveryPlan(q);
      store.SaveAuditEvent(p.run, PlanAudit(p, PlanApproved, Success));
      q := q.(status := Executing);
      store.SaveRecoveryPlan(q);
      ghost var db := store.View();
      SameActions(db, q, p, p.actions);
      var succeeded, resumed := PerformActions(q);
      if resumed {
        q := q.(verification := Some(RecoveryUnverified));
      }
      q := q.(status := if succeeded == |p.actions| then PlanCompleted else PlanFailed);
      store.SaveRecoveryPlan(q);
      LearnFrom(q, true);
      return q, q.status == PlanCompleted;
    }

    method RejectPlan(p: Plan, role: Role) returns (ok: bool)
      modifies store
      ensures store.View() == DismissPlan(old(store.View()), p, role)
      ensures ok == CanReject(p, role)
    {
      if p.status !in {Proposed, Stale} {
        return false;
      }
      if role !in {Operator, Admin} {
        return false;
      }
      var q := p.(status := Rejected);
      store.SaveRecoveryPlan(q);
      store.SaveAuditEvent(p.run, PlanAudit(p, PlanRejected, Success));
      if p.actions != [] {
        LearnFrom(q, false);
      }
      return true;
    }
  }

  /** Running the actions depends on the plan's run and incident only. */
  lemma {:induction false} SameActions(db: Db, p: Plan, q: Plan, s: seq<PlanAction>)
    requires p.run == q.run && p.incident == q.incident
    ensures RunActions(db, p, s) == RunActions(db, q, s)
  {
    if s != [] { SameActions(db, p, q, s[..|s| - 1]); }
  }

  // ---- plan generation ----

  /** What an AI provider may answer; a provider that raises is None. */
  datatype Analysis = Analysis(recommended: ActionKind, risk: Risk)

  function Learned(db: Db, x: Incident): Option<Recommendation> {
    var e := TriggerEvent(At(db.events, x.run), x.trigger);
    if e.None? || x.run !in db.runs then None
    else
      var k := PatternOf(db, x.run, x, e.value);
      HistoryOverride(OutcomesFor(db.outcomes, k), RecordPattern(db, k, e.value.framework).patterns[k].framework)
  }

  function Recall(db: Db, x: Incident): Db {
    var e := TriggerEvent(At(db.events, x.run), x.trigger);
    if e.None? || x.run !in db.runs then db
    else RecordPattern(db, PatternOf(db, x.run, x, e.value), e.value.framework)
  }

  /** The deterministic default, overridden by trusted history. */
  function Proposal(db: Db, x: Incident, actionId: Id): PlanAction {
    match Learned(db, x)
    case None => PlanAction(actionId, KeepPaused, LowRisk)
    case Some(best) => PlanAction(actionId, best.action, best.risk)
  }

  function ConsultAi(db: Db, x: Incident, ai: Option<Analysis>): Db {
    if !ShouldInvokeAi(x) then db
    else
      var db0 := Log(db, x.run, Audit(AiRequested, Success, Some(x.id)));
      var db1 := Log(db0, x.run, Audit(AiStarted, Success, Some(x.id)));
      match ai
      case Some(_) => Log(db1, x.run, Audit(AiCompleted, Success, Some(x.id)))
      case None =>
        Log(Log(db1, x.run, Audit(AiFailed, Failure, Some(x.id))), x.run, Audit(AiFallback, Success, Some(x.id)))
  }

  /** An AI answer overrides history, but only with an action the executor knows. */
  function Draft(db: Db, x: Incident, planId: Id, actionId: Id, ai: Option<Analysis>): Plan {
    var base := Proposal(db, x, actionId);
    var consulted := ShouldInvokeAi(x) && ai.Some?;
    var action := if consulted && ai.value.recommended in {KeepPaused, Resume}
                  then PlanAction(actionId, ai.value.recommended, ai.value.risk) else base;
    Plan(planId, x.id, x.run, [action],
         if consulted then ai.value.risk else base.risk,
         if consulted then AiAssisted else Deterministic,
         Proposed,
         if x.run in db.runs then Some(db.runs[x.run].status) else None,
         LatestSeq(At(db.events, x.run)),
         None)
  }

  predicate Settled(p: Option<Plan>) {
    p.Some? && p.value.status !in {Stale, Rejected}
  }

  /** The database once the draft is saved and before automation is considered. */
  function Drafted(db: Db, x: Incident, planId: Id, actionId: Id, ai: Option<Analysis>): Db {
    SavePlan(ConsultAi(Recall(db, x), x, ai), Draft(db, x, planId, actionId, ai))
  }

  predicate Automates(cfg: Config, db: Db, x: Incident, planId: Id, actionId: Id, ai: Option<Analysis>) {
    MayAutomate(cfg, Drafted(db, x, planId, actionId, ai), Draft(db, x, planId, actionId, ai), x)
  }

  function PlanFor(cfg: Config, db: Db, x: Incident, planId: Id, actionId: Id, ai: Option<Analysis>): Db {
    if Settled(PlanOf(db, x.id)) then db
    else
      var db1 := Drafted(db, x, planId, actionId, ai);
      var p := Draft(db, x, planId, actionId, ai);
      if Automates(cfg, db, x, planId, actionId, ai)
      then ApprovePlan(Log(db1, x.run, Audit(AutomationExecuted, Success, Some(x.id))), p, Admin)
      else Log(db1, x.run, Audit(AutomationRejected, Success, Some(x.id)))
  }

  function GeneratedPlan(cfg: Config, db: Db, x: Incident, planId: Id, actionId: Id, ai: Option<Analysis>): Plan {
    if Settled(PlanOf(db, x.id)) then PlanOf(db, x.id).value
    else
      var db1 := Drafted(db, x, planId, actionId, ai);
      var p := Draft(db, x, planId, actionId, ai);
      if Automates(cfg, db, x, planId, actionId, ai)
      then AfterExecution(Log(db1, x.run, Audit(AutomationExecuted, Success, Some(x.id))), p, Admin)
      else p
  }

  /** The mock provider. */
  function MockAnalysis(x: Incident): Analysis {
    Analysis(KeepPaused, LowRisk)
  }

  class RecoveryEngine {
    const store: Storage.Database
    const executor: Executor

    constructor (store: Storage.Database)
      ensures this.store == store && executor.store == store && executor.controller.store == store
    {
      this.store := store;
      executor := new Executor(store);
    }

    method ProposeAction(x: Incident, actionId: Id) returns (a: PlanAction)
      modifies store
      ensures a == Proposal(old(store.View()), x, actionId)
      ensures store.View() == Recall(old(store.View()), x)
    {
      a := PlanAction(actionId, KeepPaused, LowRisk);
      var row := store.GetRun(x.run);
      var e := TriggerEvent(At(store.events, x.run), x.trigger);
      if e.Some? && row.Some? {
        var k := PatternKey(row.value.org, Fingerprint(x, e.value));
        GetOrCreatePattern(store, k, e.value.framework);
        var recs := RankingOf(OutcomesFor(store.outcomes, k), store.patterns[k].framework);
        if recs != [] && recs[0].level == HighTrust {
          a := a.(kind := recs[0].action, risk := recs[0].risk);
        }
      }
    }

    method Consult(x: Incident, ai: Option<Analysis>)
      requires ShouldInvokeAi(x)
      modifies store
      ensures store.View() == ConsultAi(old(store.View()), x, ai)
    {
      store.SaveAuditEvent(x.run, Audit(AiRequested, Success, Some(x.id)));
      store.SaveAuditEvent(x.run, Audit(AiStarted, Success, Some(x.id)));
      if ai.Some? {
        store.SaveAuditEvent(x.run, Audit(AiCompleted, Success, Some(x.id)));
      } else {
        store.SaveAuditEvent(x.run, Audit(AiFailed, Failure, Some(x.id)));
        store.SaveAuditEvent(x.run, Audit(AiFallback, Success, Some(x.id)));
      }
    }

    method DraftPlan(x: Incident, planId: Id, actionId: Id, ai: Option<Analysis>) returns (p: Plan)
      modifies store
      ensures p == Draft(old(store.View()), x, planId, actionId, ai)
      ensures store.View() == ConsultAi(Recall(old(store.View()), x), x, ai)
    {
      hide LatestSeq, Learned, Recall;
      var row := store.GetRun(x.run);
      var snapStatus := if row.Some? then Some(row.value.status) else None;
      var snapSeq := LatestSeq(At(store.events, x.run));
      var proposed := ProposeAction(x, actionId);
      var risk, planner := proposed.risk, Deterministic;
      if ShouldInvokeAi(x) {
        Consult(x, ai);
        if ai.Some? {
          planner, risk := AiAssisted, ai.value.risk;
          if ai.value.recommended in {KeepPaused, Resume} {
            proposed := proposed.(kind := ai.value.recommended, risk := ai.value.risk);
          }
        }
      }
      p := Plan(planId, x.id, x.run, [proposed], risk, planner, Proposed, snapStatus, snapSeq, None);
    }

    method GeneratePlan(cfg: Config, x: Incident, planId: Id, actionId: Id, ai: Option<Analysis>) returns (p: Plan)
      requires executor.store == store && executor.controller.store == store
      modifies store
      ensures store.View() == PlanFor(cfg, old(store.View()), x, planId, actionId, ai)
      ensures p == GeneratedPlan(cfg, old(store.View()), x, planId, actionId, ai)
    {
      hide Draft, ConsultAi, Recall, UpdatedPlans, HasPlan, ApprovePlan, AfterExecution, MayAutomate;
      var existing := PlanOf(store.View(), x.id);
      if existing.Some? && existing.value.status !in {Stale, Rejected} {
        return existing.value;
      }
      p := DraftPlan(x, planId, actionId, ai);
      store.SaveRecoveryPlan(p);
      if MayAutomate(cfg, store.View(), p, x) {
        store.SaveAuditEvent(x.run, Audit(AutomationExecuted, Success, Some(x.id)));
        var ok;
        p, ok := executor.ExecutePlan(p, Admin);
      } else {
        store.SaveAuditEvent(x.run, Audit(AutomationRejected, Success, Some(x.id)));
      }
    }
  }
}
