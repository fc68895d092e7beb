/** Recovery plans over whole runs: which plans can be open, how their status moves, and how
    often their actions run. */
module Lifecycle {
  import opened Records
  import opened Tables
  import opened Detectors
  import opened Protection
  import opened Collector
  import opened Recovery
  import opened ControlPlane
  import opened Trails

  // ---- what the handlers do to the plan table ----

  ghost predicate PlansKept(db: Db, db1: Db) {
    db1.plans == db.plans && db1.incidents == db.incidents
  }

  function Updated(db: Db, p: Plan): map<Id, seq<Plan>> {
    db.plans[p.incident := UpdatedPlans(At(db.plans, p.incident), p)]
  }

  lemma UpdatedTwice(s: seq<Plan>, p: Plan, q: Plan)
    requires p.id == q.id
    ensures UpdatedPlans(UpdatedPlans(s, p), q) == UpdatedPlans(s, q)
    ensures HasPlan(UpdatedPlans(s, p), p.id) <==> HasPlan(s, p.id)
  {
    var t := UpdatedPlans(s, p);
    if HasPlan(s, p.id) {
      var k :| 0 <= k < |s| && s[k].id == p.id;
      assert t[k].id == p.id && t[k] in t;
    }
    if HasPlan(t, p.id) {
      var k :| 0 <= k < |t| && t[k].id == p.id;
      assert s[k].id == p.id && s[k] in s;
    }
  }

  lemma ResumeKeepsPlans(db: Db, r: Id, incident: Option<Id>)
    ensures PlansUntouched(db, ResumeRun(db, r, incident))
  {
    CasKeepsPlans(db, r, ResumeRequested, HELD);
    assert PlansUntouched(db, db);
    hide PlansUntouched, ResumeTarget, CasRunStatus, Log;
    var resumed := CasRunStatus(db, r, ResumeRequested, HELD);
    var a := Audit(ResumeRequestedAudit, Success, ResumeTarget(db, r, incident));
    StatementsKeepPlans(db, db, r, Paused, Audit(ResumeFailedAudit, Failure, None));
    StatementsKeepPlans(db, db, r, Paused, Audit(ResumeRequestedAudit, Idempotent, None));
    StatementsKeepPlans(db, resumed, r, Paused, a);
  }

  lemma RunActionKeepsPlans(db: Db, p: Plan, a: PlanAction)
    ensures PlansKept(db, RunAction(db, p, a))
    ensures RunAction(db, p, a).actions == db.actions + [ActionOf(p, a, ActionExecuting)] +
              [ActionOf(p, a, if Succeeds(a) then ActionCompleted else ActionFailed)]
  {
    hide ResumeRun, At;
    if a.kind == Resume { ResumeKeepsPlans(WriteAction(db, p, a, ActionExecuting), p.run, Some(p.incident)); }
  }

  lemma {:induction false} RunActionsKeepPlans(db: Db, p: Plan, s: seq<PlanAction>)
    ensures PlansKept(db, RunActions(db, p, s))
  {
    hide RunAction;
    if s != [] {
      RunActionsKeepPlans(db, p, s[..|s| - 1]);
      RunActionKeepsPlans(RunActions(db, p, s[..|s| - 1]), p, Last(s));
    }
  }

  lemma CarryPlans(db: Db, p: Plan)
    requires HasPlan(At(db.plans, p.incident), p.id)
    ensures Carry(db, p).plans == Updated(db, Executed(p))
    ensures Carry(db, p).incidents == db.incidents
  {
    hide UpdatedPlans, HasPlan, RunActions, Learn;
    var s := At(db.plans, p.incident);
    var a, x := p.(status := Approved), p.(status := Executing);
    UpdatedTwice(s, a, x);
    UpdatedTwice(s, x, Executed(p));
    var db1 := Log(SavePlan(db, a), p.run, PlanAudit(p, PlanApproved, Success));
    var db2 := SavePlan(db1, x);
    assert db2.plans == Updated(db, x);
    RunActionsKeepPlans(db2, p, p.actions);
    var db3 := RunActions(db2, p, p.actions);
    LearnTouches(SavePlan(db3, Executed(p)), Executed(p), true);
  }

  lemma DismissPlans(db: Db, p: Plan, role: Role)
    requires HasPlan(At(db.plans, p.incident), p.id)
    ensures var db1 := DismissPlan(db, p, role);
            && db1.incidents == db.incidents && db1.actions == db.actions
            && db1.plans == if CanReject(p, role) then Updated(db, p.(status := Rejected)) else db.plans
  {
    hide UpdatedPlans, HasPlan, Learn;
    var db1 := Log(SavePlan(db, p.(status := Rejected)), p.run, PlanAudit(p, PlanRejected, Success));
    LearnTouches(db1, p.(status := Rejected), false);
  }

  /** An AI consultation writes audit rows only. */
  lemma ConsultTouches(db: Db, x: Incident, ai: Option<Analysis>)
    ensures ConsultAi(db, x, ai) == db.(audits := ConsultAi(db, x, ai).audits)
  {
    hide At;
  }

  lemma DraftShape(db: Db, x: Incident, planId: Id, actionId: Id, ai: Option<Analysis>)
    ensures var p := Draft(db, x, planId, actionId, ai);
            && p.id == planId && p.incident == x.id && p.run == x.run && p.status == Proposed
            && |p.actions| == 1 && p.actions[0].id == actionId
            && (x.run in db.runs ==> Fresh(db, p))
  {
    hide Learned, LatestSeq;
  }

  lemma DraftedRows(db: Db, x: Incident, planId: Id, actionId: Id, ai: Option<Analysis>)
    ensures var db1 := Drafted(db, x, planId, actionId, ai);
            db1.runs == db.runs && db1.events == db.events && db1.keys == db.keys
  {
    hide UpdatedPlans, HasPlan, TriggerEvent, PatternOf, Draft, ConsultAi;
    ConsultTouches(Recall(db, x), x, ai);
  }

  lemma DraftedPlans(db: Db, x: Incident, planId: Id, actionId: Id, ai: Option<Analysis>)
    requires !HasPlan(At(db.plans, x.id), planId)
    ensures var db1 := Drafted(db, x, planId, actionId, ai);
            && db1.incidents == db.incidents && db1.actions == db.actions
            && db1.plans == db.plans[x.id := At(db.plans, x.id) + [Draft(db, x, planId, actionId, ai)]]
            && db1.runs == db.runs && db1.events == db.events
  {
    hide UpdatedPlans, TriggerEvent, PatternOf, Draft, ConsultAi, HasPlan;
    ConsultTouches(Recall(db, x), x, ai);
    DraftShape(db, x, planId, actionId, ai);
  }

  // ---- the invariant ----

  function IsStart(id: Id): ActionRow -> bool {
    (w: ActionRow) => w.id == id && w.status == ActionExecuting
  }

  /** How often an action was started. */
  function Starts(db: Db, id: Id): nat {
    Count(db.actions, IsStart(id))
  }

  ghost predicate WellFormedPlan(db: Db, i: Id, p: Plan) {
    && p.incident == i
    && OwnIncident(db, p.run, i)
    && |p.actions| == 1
    && p.status in {Proposed, Stale, Rejected, PlanCompleted}
    && Starts(db, p.actions[0].id) == if p.status == PlanCompleted then 1 else 0
  }

  ghost predicate At?(db: Db, i: Id, k: int) {
    0 <= k < |At(db.plans, i)|
  }

  function PlanAt(db: Db, i: Id, k: int): Plan
    requires At?(db, i, k)
  {
    At(db.plans, i)[k]
  }

  /** The order in which a plan's status can move. */
  predicate Later(a: PlanStatus, b: PlanStatus) {
    a == b || (a == Proposed && b in {Stale, Rejected, PlanCompleted}) || (a == Stale && b == Rejected)
  }

  /** Every plan of the earlier database is still there, and its status has only moved on. */
  ghost predicate Moves(base: Db, db: Db) {
    forall i, k | At?(base, i, k) ::
      && At?(db, i, k)
      && PlanAt(db, i, k).id == PlanAt(base, i, k).id
      && PlanAt(db, i, k).actions == PlanAt(base, i, k).actions
      && Later(PlanAt(base, i, k).status, PlanAt(db, i, k).status)
  }

  /** Only the newest plan of an incident may be open; plan and action ids are not shared. */
  ghost predicate PlansInv(db: Db) {
    && (forall i, k | At?(db, i, k) :: WellFormedPlan(db, i, PlanAt(db, i, k)))
    && (forall i, k | At?(db, i, k) && At?(db, i, k + 1) :: PlanAt(db, i, k).status in {Stale, Rejected})
    && (forall i, k, l | At?(db, i, k) && At?(db, i, l) && k != l :: PlanAt(db, i, k).id != PlanAt(db, i, l).id)
    && (forall i, k, j, l | At?(db, i, k) && At?(db, j, l) && (i != j || k != l) ::
          |PlanAt(db, i, k).actions| == |PlanAt(db, j, l).actions| == 1 ==>
            PlanAt(db, i, k).actions[0].id != PlanAt(db, j, l).actions[0].id)
  }

  /** The invariant, and plans only moved on since the earlier database. */
  ghost predicate PlansOk(base: Db, db: Db) {
    Moves(base, db) && PlansInv(db)
  }

  lemma MovesThen(a: Db, b: Db, c: Db)
    requires Moves(a, b) && Moves(b, c)
    ensures Moves(a, c)
  {
    forall i, k | At?(a, i, k)
      ensures At?(c, i, k) && PlanAt(c, i, k).id == PlanAt(a, i, k).id
      ensures PlanAt(c, i, k).actions == PlanAt(a, i, k).actions
      ensures Later(PlanAt(a, i, k).status, PlanAt(c, i, k).status)
    {
      assert At?(b, i, k) && PlanAt(b, i, k).id == PlanAt(a, i, k).id;
    }
  }

  lemma UpdatePoint(db: Db, db1: Db, p: Plan, q: Plan)
    requires PlansInv(db) && PlanOf(db, p.incident) == Some(p)
    requires q == p.(status := q.status, verification := q.verification)
    requires db1.plans == Updated(db, q)
    ensures forall i, k :: At?(db1, i, k) <==> At?(db, i, k)
    ensures forall i, k | At?(db, i, k) ::
              PlanAt(db1, i, k) == if i == p.incident && k == |At(db.plans, i)| - 1 then q else PlanAt(db, i, k)
  {
    hide WellFormedPlan;
    forall i, k | At?(db, i, k)
      ensures PlanAt(db1, i, k) == if i == p.incident && k == |At(db.plans, i)| - 1 then q else PlanAt(db, i, k)
    {
      if i == p.incident && k != |At(db.plans, i)| - 1 {
        assert PlanAt(db, i, |At(db.plans, i)| - 1) == p;
      }
    }
  }

  lemma CountNone(s: seq<ActionRow>, id: Id)
    requires forall w <- s :: w.id != id
    ensures Count(s, IsStart(id)) == 0
  {
    if s != [] { CountNone(s[..|s| - 1], id); }
  }

  /** Rewriting the status columns of the newest plan of an incident keeps the invariant. */
  lemma UpdateKeeps(base: Db, db: Db, db1: Db, p: Plan, q: Plan)
    requires PlansOk(base, db) && PlanOf(db, p.incident) == Some(p)
    requires q == p.(status := q.status, verification := q.verification)
    requires db1.plans == Updated(db, q) && db1.incidents == db.incidents
    requires Later(p.status, q.status)
    requires forall i, k | At?(db, i, k) && PlanAt(db, i, k) != p ::
               |PlanAt(db, i, k).actions| == 1 ==>
                 Starts(db1, PlanAt(db, i, k).actions[0].id) == Starts(db, PlanAt(db, i, k).actions[0].id)
    requires |p.actions| == 1 ==> Starts(db1, p.actions[0].id) == if q.status == PlanCompleted then 1 else 0
    ensures PlansOk(base, db1)
  {
    hide Starts, Updated;
    UpdatePoint(db, db1, p, q);
    assert Moves(db, db1) by { hide PlansInv; }
    assert Moves(base, db1) by { hide PlansInv; MovesThen(base, db, db1); }
    assert PlansInv(db1) by {
      hide Moves;
      var n := |At(db.plans, p.incident)| - 1;
      assert At?(db, p.incident, n) && PlanAt(db, p.incident, n) == p;
      forall i, k | At?(db1, i, k) ensures WellFormedPlan(db1, i, PlanAt(db1, i, k)) {
        assert WellFormedPlan(db, i, PlanAt(db, i, k));
        if i == p.incident && k == n {
          assert WellFormedPlan(db1, i, q);
        } else {
          assert PlanAt(db, i, k) != p;
          assert WellFormedPlan(db1, i, PlanAt(db, i, k));
        }
      }
    }
  }

  /** Plan p follows the other plans of its incident, with an id and an action id of its own. */
  ghost predicate Appends(db: Db, db1: Db, p: Plan) {
    && |p.actions| == 1
    && (forall i, k | At?(db1, i, k) ::
          if At?(db, i, k) then PlanAt(db1, i, k) == PlanAt(db, i, k)
          else i == p.incident && k == |At(db.plans, i)| && PlanAt(db1, i, k) == p)
    && (forall i, k | At?(db, i, k) ::
          && At?(db1, i, k)
          && (i == p.incident ==> PlanAt(db, i, k).id != p.id)
          && (PlanAt(db, i, k).actions != [] ==> PlanAt(db, i, k).actions[0].id != p.actions[0].id))
  }

  lemma AppendPoint(db: Db, db1: Db, p: Plan)
    requires db1.plans == db.plans[p.incident := At(db.plans, p.incident) + [p]]
    requires |p.actions| == 1 && NewAction(db, p.actions[0].id) && !HasPlan(At(db.plans, p.incident), p.id)
    ensures Appends(db, db1, p)
  {
    forall i, k | At?(db, i, k)
      ensures i == p.incident ==> PlanAt(db, i, k).id != p.id
      ensures PlanAt(db, i, k).actions != [] ==> PlanAt(db, i, k).actions[0].id != p.actions[0].id
    {
      assert PlanAt(db, i, k) in At(db.plans, i);
    }
  }

  lemma AppendWellFormed(db: Db, db1: Db, p: Plan)
    requires forall i, k | At?(db, i, k) :: WellFormedPlan(db, i, PlanAt(db, i, k))
    requires Appends(db, db1, p) && db1.incidents == db.incidents && db1.actions == db.actions
    requires WellFormedPlan(db, p.incident, p)
    ensures forall i, k | At?(db1, i, k) :: WellFormedPlan(db1, i, PlanAt(db1, i, k))
  {
    hide Starts;
    SameStarts(db, db1);
    forall i, k | At?(db1, i, k) ensures WellFormedPlan(db1, i, PlanAt(db1, i, k)) {
      if At?(db, i, k) { assert WellFormedPlan(db, i, PlanAt(db, i, k)); }
    }
  }

  lemma AppendClosesOthers(db: Db, db1: Db, p: Plan)
    requires PlansInv(db) && Appends(db, db1, p) && !Settled(PlanOf(db, p.incident))
    ensures forall i, k | At?(db1, i, k) && At?(db1, i, k + 1) :: PlanAt(db1, i, k).status in {Stale, Rejected}
  {
    hide WellFormedPlan;
    forall i, k | At?(db1, i, k) && At?(db1, i, k + 1) ensures PlanAt(db1, i, k).status in {Stale, Rejected} {
      assert At?(db, i, k);
    }
  }

  lemma AppendKeeps(base: Db, db: Db, db1: Db, p: Plan)
    requires PlansOk(base, db) && !Settled(PlanOf(db, p.incident))
    requires db1.plans == db.plans[p.incident := At(db.plans, p.incident) + [p]]
    requires db1.incidents == db.incidents && db1.actions == db.actions
    requires OwnIncident(db, p.run, p.incident)
    requires p.status == Proposed && |p.actions| == 1
    requires NewAction(db, p.actions[0].id) && !HasPlan(At(db.plans, p.incident), p.id)
    ensures PlansOk(base, db1)
  {
    CountNone(db.actions, p.actions[0].id);
    AppendPoint(db, db1, p);
    AppendWellFormed(db, db1, p);
    AppendClosesOthers(db, db1, p);
    hide NewAction, HasPlan, WellFormedPlan, PlanOf, Settled;
    assert Moves(base, db1) by { hide PlansInv; MovesThen(base, db, db1); }
    hide Moves;
  }

  lemma CarryStarts(db: Db, p: Plan, id: Id)
    requires |p.actions| == 1
    ensures Starts(Carry(db, p), id) == Starts(db, id) + if id == p.actions[0].id then 1 else 0
  {
    hide UpdatedPlans, HasPlan, Learn, RunAction;
    var a := p.actions[0];
    var db1 := Log(SavePlan(db, p.(status := Approved)), p.run, PlanAudit(p, PlanApproved, Success));
    var db2 := SavePlan(db1, p.(status := Executing));
    var db3 := RunActions(db2, p, p.actions);
    LearnTouches(SavePlan(db3, Executed(p)), Executed(p), true);
    assert p.actions[..0] == [];
    assert db3 == RunAction(db2, p, a) by { assert RunActions(db2, p, []) == db2; }
    RunActionKeepsPlans(db2, p, a);
    var start := ActionOf(p, a, ActionExecuting);
    var end := ActionOf(p, a, if Succeeds(a) then ActionCompleted else ActionFailed);
    CountAppend(db.actions, start, IsStart(id));
    CountAppend(db.actions + [start], end, IsStart(id));
  }

  lemma CarryKeeps(base: Db, db: Db, p: Plan, role: Role)
    requires PlansOk(base, db) && PlanOf(db, p.incident) == Some(p)
    requires p.status == Proposed && MayExecute(p, role)
    ensures PlansOk(base, Carry(db, p))
  {
    NewestWellFormed(base, db, p.incident);
    hide UpdatedPlans, Carry, Starts, PlansOk, Executed, MayExecute, OwnIncident, PlanOf, HasPlan;
    ApprovedPlansCompleteWith(db, p, role);
    forall id ensures Starts(Carry(db, p), id) == Starts(db, id) + if id == p.actions[0].id then 1 else 0 {
      CarryStarts(db, p, id);
    }
    CarryPlans(db, p);
    UpdateCarried(base, db, Carry(db, p), p, Executed(p));
  }

  lemma StaleKeeps(base: Db, db: Db, p: Plan, a: Audit)
    requires PlansOk(base, db) && PlanOf(db, p.incident) == Some(p) && p.status == Proposed
    ensures PlansOk(base, Log(SavePlan(db, p.(status := Stale)), p.run, a))
  {
    NewestWellFormed(base, db, p.incident);
    hide UpdatedPlans, Starts, PlansOk, OwnIncident, PlanOf, HasPlan, At;
    var db1 := Log(SavePlan(db, p.(status := Stale)), p.run, a);
    assert db1.plans == Updated(db, p.(status := Stale));
    SameStarts(db, db1);
    UpdateCarried(base, db, db1, p, p.(status := Stale));
  }

  lemma ApproveKeeps(base: Db, db: Db, p: Plan, role: Role)
    requires PlansOk(base, db) && PlanOf(db, p.incident) == Some(p)
    ensures PlansOk(base, ApprovePlan(db, p, role))
  {
    hide SavePlan, Carry, PlansOk, Fresh, MayExecute, PlanOf;
    var refused := PlanAudit(p, PlanRejected, Failure);
    PlansOkFrame(base, db, Log(db, p.run, refused));
    if p.status == Proposed {
      StaleKeeps(base, db, p, refused);
      if MayExecute(p, role) { CarryKeeps(base, db, p, role); }
    }
  }

  lemma NewestWellFormed(base: Db, db: Db, i: Id)
    requires PlansOk(base, db) && PlanOf(db, i).Some?
    ensures WellFormedPlan(db, i, PlanOf(db, i).value)
    ensures HasPlan(At(db.plans, i), PlanOf(db, i).value.id)
  {
    var s := At(db.plans, i);
    assert WellFormedPlan(db, i, PlanAt(db, i, |s| - 1));
    assert Last(s) in s;
  }

  lemma ApprovedPlansCompleteWith(db: Db, p: Plan, role: Role)
    ensures MayExecute(p, role) ==> Executed(p).status == PlanCompleted
    ensures Executed(p) == p.(status := Executed(p).status, verification := Executed(p).verification)
  {
    if MayExecute(p, role) { ApprovedPlansComplete(db, p, role); }
  }

  lemma SameStarts(db: Db, db1: Db)
    requires db1.actions == db.actions
    ensures forall id :: Starts(db1, id) == Starts(db, id)
  {}

  ghost predicate IncidentsGrow(db: Db, db1: Db) {
    forall r :: At(db.incidents, r) <= At(db1.incidents, r)
  }

  lemma PlansOkFrame(base: Db, db: Db, db1: Db)
    requires PlansOk(base, db)
    requires db1.plans == db.plans && db1.actions == db.actions
    requires IncidentsGrow(db, db1)
    ensures PlansOk(base, db1)
  {
    hide Starts;
    SameStarts(db, db1);
    forall i, k | At?(db1, i, k) ensures WellFormedPlan(db1, i, PlanAt(db1, i, k)) {
      assert WellFormedPlan(db, i, PlanAt(db, i, k));
      var x :| x in At(db.incidents, PlanAt(db, i, k).run) && x.id == i;
      assert x in At(db1.incidents, PlanAt(db, i, k).run);
    }
    assert forall i, k :: At?(db1, i, k) <==> At?(db, i, k);
    assert forall i, k | At?(db, i, k) :: PlanAt(db1, i, k) == PlanAt(db, i, k);
  }

  lemma UpdateCarried(base: Db, db: Db, db1: Db, p: Plan, q: Plan)
    requires PlansOk(base, db) && PlanOf(db, p.incident) == Some(p)
    requires q == p.(status := q.status, verification := q.verification)
    requires db1.plans == Updated(db, q) && db1.incidents == db.incidents
    requires Later(p.status, q.status)
    requires |p.actions| == 1
    requires forall id :: Starts(db1, id) == Starts(db, id) +
               if id == p.actions[0].id && q.status == PlanCompleted && p.status != PlanCompleted then 1 else 0
    ensures PlansOk(base, db1)
  {
    hide Starts;
    NewestWellFormed(base, db, p.incident);
    var n := |At(db.plans, p.incident)| - 1;
    assert PlanAt(db, p.incident, n) == p;
    forall i, k | At?(db, i, k) && PlanAt(db, i, k) != p && |PlanAt(db, i, k).actions| == 1
      ensures PlanAt(db, i, k).actions[0].id != p.actions[0].id
    {
      assert i != p.incident || k != n;
    }
    UpdateKeeps(base, db, db1, p, q);
  }

  lemma DismissKeeps(base: Db, db: Db, p: Plan, role: Role)
    requires PlansOk(base, db) && PlanOf(db, p.incident) == Some(p)
    ensures PlansOk(base, DismissPlan(db, p, role))
  {
    hide UpdatedPlans, Starts, PlansOk, DismissPlan;
    var db1 := DismissPlan(db, p, role);
    NewestWellFormed(base, db, p.incident);
    DismissPlans(db, p, role);
    SameStarts(db, db1);
    if CanReject(p, role) {
      UpdateCarried(base, db, db1, p, p.(status := Rejected));
    } else {
      PlansOkFrame(base, db, db1);
    }
  }

  lemma MarkKeeps(base: Db, db: Db, incident: Id, v: Verification, o: OutcomeVerification)
    requires PlansOk(base, db)
    ensures PlansOk(base, MarkPlan(db, incident, v, o))
  {
    hide UpdatedPlans, Starts, PlansOk, VerifiedOutcomes;
    var db1 := MarkPlan(db, incident, v, o);
    MarkSilent(db, incident, v, o);
    if PlanOf(db, incident).Some? {
      var p := PlanOf(db, incident).value;
      NewestWellFormed(base, db, incident);
      SameStarts(db, db1);
      UpdateCarried(base, db, db1, p, p.(verification := Some(v)));
    }
  }

  lemma RepeatKeeps(base: Db, db: Db, r: Id)
    requires PlansOk(base, db)
    ensures PlansOk(base, RepeatFailure(db, r))
  {
    hide PlansOk, ResumedIncident, HasVerdict, MarkPlan, PauseRun, PlanOf;
    var incident := ResumedIncident(At(db.audits, r));
    if RepeatFailure(db, r) != db {
      var db1 := Log(db, r, Audit(RecoveryVerification, RepeatedFailure, incident));
      PlansOkFrame(base, db, db1);
      MarkKeeps(base, db1, incident.value, RecoveryRepeated, VerifiedFailure);
      var db2 := MarkPlan(db1, incident.value, RecoveryRepeated, VerifiedFailure);
      var suffix := PauseTrail(db2, r, incident.value);
      PlansOkFrame(base, db2, PauseRun(db2, r, incident.value));
    }
  }

  lemma VerifyKeeps(base: Db, db: Db, r: Id)
    requires PlansOk(base, db)
    ensures PlansOk(base, VerifyRecovery(db, r))
  {
    hide PlansOk, ResumedIncident, LatestResume, HasVerdict, MarkPlan;
    var incident := ResumedIncident(At(db.audits, r));
    var db1 := Log(db, r, Audit(RecoveryVerification, Verified, incident));
    PlansOkFrame(base, db, db1);
    if incident.Some? { MarkKeeps(base, db1, incident.value, RecoveryVerified, VerifiedSuccess); }
  }

  lemma SaveRunKeeps(base: Db, db: Db, r: Id, row: Run)
    requires PlansOk(base, db)
    ensures PlansOk(base, SaveRun(db, r, row))
  {
    hide PlansOk, MergeRun;
    PlansOkFrame(base, db, SaveRun(db, r, row));
  }

  lemma BookKeeps(base: Db, cfg: Config, db: Db, e: Event)
    requires PlansOk(base, db)
    ensures PlansOk(base, Book(cfg, db, e))
  {
    var db1 := EnsureRun(cfg, db, e);
    assert e.run in db1.runs;
    hide PlansOk, VerifyRecovery, Advance, NewRun, SaveRun;
    SaveRunKeeps(base, db, e.run, NewRun(cfg, e));
    VerifyKeeps(base, db1, e.run);
    SaveRunKeeps(base, VerifyRecovery(db1, e.run), e.run, Advance(db1.runs[e.run], e));
    SaveRunKeeps(base, db1, e.run, Advance(db1.runs[e.run], e));
  }

  lemma PublishKeeps(base: Db, cfg: Config, db: Db, x: Option<Incident>)
    requires PlansOk(base, db)
    ensures PlansOk(base, Publish(cfg, db, x))
  {
    hide PlansOk, PauseRun;
    if x.Some? {
      var db1 := SaveIncident(db, x.value);
      PlansOkFrame(base, db, db1);
      var suffix := PauseTrail(db1, x.value.run, x.value.id);
      PlansOkFrame(base, db1, OnIncident(cfg, db1, x.value));
    }
  }

  lemma DeliverKeeps(base: Db, cfg: Config, st: State, e: Event, ids: (Id, Id))
    requires PlansOk(base, st.db)
    ensures PlansOk(base, ProcessEvent(cfg, st, e, ids).db)
  {
    hide PlansOk, Book, EvaluateOne, RepeatFailure, Publish;
    BookKeeps(base, cfg, st.db, e);
    var db := Book(cfg, st.db, e);
    if e.key !in db.keys {
      var st0 := st.(db := SaveEvent(db, e));
      PlansOkFrame(base, db, st0.db);
      EvaluateShape(cfg, st0, e, StuckLoopDetector, ids.0);
      RepeatKeeps(base, st0.db, e.run);
      var (st1, x) := EvaluateOne(cfg, st0, e, StuckLoopDetector, ids.0);
      EvaluateShape(cfg, st1, e, BudgetDetector, ids.1);
      RepeatKeeps(base, st1.db, e.run);
      var (st2, y) := EvaluateOne(cfg, st1, e, BudgetDetector, ids.1);
      PublishKeeps(base, cfg, st2.db, x);
      PublishKeeps(base, cfg, Publish(cfg, st2.db, x), y);
    }
  }

  lemma MakeKeeps(base: Db, cfg: Config, db: Db, x: Incident, planId: Id, actionId: Id, ai: Option<Analysis>)
    requires PlansOk(base, db) && OwnIncident(db, x.run, x.id)
    requires !HasPlan(At(db.plans, x.id), planId) && NewAction(db, actionId)
    ensures PlansOk(base, PlanFor(cfg, db, x, planId, actionId, ai))
  {
    hide PlansOk, ApprovePlan, Drafted, Draft, MayAutomate;
    if !Settled(PlanOf(db, x.id)) {
      var p := Draft(db, x, planId, actionId, ai);
      var db1 := Drafted(db, x, planId, actionId, ai);
      DraftShape(db, x, planId, actionId, ai);
      DraftedPlans(db, x, planId, actionId, ai);
      AppendKeeps(base, db, db1, p);
      PlansOkFrame(base, db1, Log(db1, x.run, Audit(AutomationRejected, Success, Some(x.id))));
      var db2 := Log(db1, x.run, Audit(AutomationExecuted, Success, Some(x.id)));
      PlansOkFrame(base, db1, db2);
      ApproveKeeps(base, db2, p, Admin);
    }
  }

  lemma EntryKeepsPlans(db: Db, r: Id)
    ensures PlansUntouched(db, GateEntry(db, r))
  {
    assert PlansUntouched(db, db);
    hide PlansUntouched, UpdateRunStatus, UpdateProtectionMode, Log;
    var a, db1 := Audit(PausedAudit, Success, None), UpdateProtectionMode(db, r, Active);
    StatementsKeepPlans(db, db, r, Paused, a);
    StatementsKeepPlans(db, db1, r, Paused, a);
    StatementsKeepPlans(db, UpdateRunStatus(db, r, Paused), r, Paused, a);
    StatementsKeepPlans(db, UpdateRunStatus(db1, r, Paused), r, Paused, a);
  }

  lemma ReleaseKeepsPlans(db: Db, r: Id)
    ensures PlansUntouched(db, GateRelease(db, r))
  {
    assert PlansUntouched(db, db);
    hide PlansUntouched, UpdateRunStatus, Log;
    var a := Audit(ResumedAudit, Success, None);
    StatementsKeepPlans(db, db, r, Running, a);
    StatementsKeepPlans(db, UpdateRunStatus(db, r, Running), r, Running, a);
  }

  lemma StepKeeps(base: Db, cfg: Config, st: State, step: Step)
    requires PlansOk(base, st.db) && Legal(st, step)
    ensures PlansOk(base, Next(cfg, st, step).db)
  {
    hide PlansOk, ProcessEvent, PlanFor, ApprovePlan, DismissPlan, NewAction;
    hide GateEntry, GateRelease, ResumeRun, PlanOf, HasPlan, WellFormedPlan;
    var db1 := Next(cfg, st, step).db;
    match step {
      case Deliver(e, ids) => DeliverKeeps(base, cfg, st, e, ids);
      case MakePlan(x, planId, actionId, ai) => MakeKeeps(base, cfg, st.db, x, planId, actionId, ai);
      case Approve(incident, role) =>
        if PlanOf(st.db, incident).Some? {
          NewestWellFormed(base, st.db, incident);
          ApproveKeeps(base, st.db, PlanOf(st.db, incident).value, role);
        }
      case Reject(incident, role) =>
        if PlanOf(st.db, incident).Some? {
          NewestWellFormed(base, st.db, incident);
          DismissKeeps(base, st.db, PlanOf(st.db, incident).value, role);
        }
      case EnterGate(r) =>
        EntryKeepsPlans(st.db, r);
        PlansOkFrame(base, st.db, db1);
      case AfterInterrupt(r) =>
        ReleaseKeepsPlans(st.db, r);
        PlansOkFrame(base, st.db, db1);
      case AutoGen(r) =>
        EntryKeepsPlans(st.db, r);
        ReleaseKeepsPlans(GateEntry(st.db, r), r);
        PlansOkFrame(base, st.db, db1);
      case OperatorResume(r, incident) =>
        ResumeKeepsPlans(st.db, r, incident);
        PlansOkFrame(base, st.db, db1);
      case Notify(_, _, _) => PlansOkFrame(base, st.db, db1);
      case Restart =>
    }
  }

  lemma {:induction false} TraceKeeps(base: Db, cfg: Config, st: State, steps: seq<Step>)
    requires PlansOk(base, st.db)
    requires LegalTrace(cfg, st, steps)
    ensures PlansOk(base, Trace(cfg, st, steps).db)
  {
    hide Legal, Next, PlansOk;
    if steps != [] {
      LegalPrefix(cfg, st, steps);
      TraceKeeps(base, cfg, st, steps[..|steps| - 1]);
      StepKeeps(base, cfg, Trace(cfg, st, steps[..|steps| - 1]), Last(steps));
    }
  }

  /** In every reachable state: only the newest plan of an incident can still be open, and every
      action was started once if its plan completed and never otherwise. */
  lemma PlanLifecycle(cfg: Config, steps: seq<Step>, i: Id, k: nat)
    requires LegalTrace(cfg, INITIAL, steps)
    requires At?(Trace(cfg, INITIAL, steps).db, i, k)
    ensures var db := Trace(cfg, INITIAL, steps).db;
            var p := PlanAt(db, i, k);
            && (k + 1 < |At(db.plans, i)| ==> p.status in {Stale, Rejected})
            && p.status in {Proposed, Stale, Rejected, PlanCompleted}
            && OwnIncident(db, p.run, i)
            && forall a <- p.actions :: Starts(db, a.id) == if p.status == PlanCompleted then 1 else 0
  {
    hide Trace, Starts, Legal, LegalTrace;
    TraceKeeps(EMPTY_DB, cfg, INITIAL, steps);
    var db := Trace(cfg, INITIAL, steps).db;
    assert WellFormedPlan(db, i, PlanAt(db, i, k));
    assert k + 1 < |At(db.plans, i)| ==> At?(db, i, k + 1);
  }

  lemma ReachablePlans(cfg: Config, steps: seq<Step>)
    requires LegalTrace(cfg, INITIAL, steps)
    ensures PlansOk(Trace(cfg, INITIAL, steps).db, Trace(cfg, INITIAL, steps).db)
  {
    hide Trace, Legal, LegalTrace, WellFormedPlan;
    TraceKeeps(EMPTY_DB, cfg, INITIAL, steps);
  }

  /** From any reachable state on, a plan keeps its place, its id and its actions, and its status
      moves along an order without cycles. */
  lemma PlanStatusesAdvance(cfg: Config, before: seq<Step>, steps: seq<Step>)
    requires LegalTrace(cfg, INITIAL, before)
    requires LegalTrace(cfg, Trace(cfg, INITIAL, before), steps)
    ensures Moves(Trace(cfg, INITIAL, before).db, Trace(cfg, Trace(cfg, INITIAL, before), steps).db)
    ensures forall a: PlanStatus, b :: Later(a, b) && Later(b, a) ==> a == b
  {
    hide Trace, Legal, LegalTrace, WellFormedPlan;
    ReachablePlans(cfg, before);
    TraceKeeps(Trace(cfg, INITIAL, before).db, cfg, Trace(cfg, INITIAL, before), steps);
  }
}
