/** The whole control plane as a state machine in which every handler is atomic: one collector
    worker, any gates, operators, plan requests and alerts, and engine restarts. */
module ControlPlane {
  import opened Records
  import opened Tables
  import opened Detectors
  import opened Protection
  import opened Collector
  import opened Recovery

  datatype Step =
    | Deliver(e: Event, ids: (Id, Id))
    | EnterGate(r: Id)
    | AfterInterrupt(r: Id)
    | AutoGen(r: Id)
    | OperatorResume(r: Id, incident: Option<Id>)
    | MakePlan(x: Incident, planId: Id, actionId: Id, ai: Option<Analysis>)
    | Approve(target: Id, role: Role)
    | Reject(target: Id, role: Role)
    | Notify(r: Id, about: Id, delivered: bool)
    | Restart

  function Next(cfg: Config, st: State, step: Step): State {
    match step
    case Deliver(e, ids) => ProcessEvent(cfg, st, e, ids)
    case EnterGate(r) => st.(db := GateEntry(st.db, r))
    case AfterInterrupt(r) => st.(db := GateRelease(st.db, r))
    case AutoGen(r) => st.(db := AutoGenGate(st.db, r))
    case OperatorResume(r, incident) => st.(db := ResumeRun(st.db, r, incident))
    case MakePlan(x, planId, actionId, ai) => st.(db := PlanFor(cfg, st.db, x, planId, actionId, ai))
    case Approve(incident, role) =>
      (match PlanOf(st.db, incident)
       case None => st
       case Some(p) => st.(db := ApprovePlan(st.db, p, role)))
    case Reject(incident, role) =>
      (match PlanOf(st.db, incident)
       case None => st
       case Some(p) => st.(db := DismissPlan(st.db, p, role)))
    case Notify(r, incident, delivered) => st.(db := Log(st.db, r, Notification(incident, delivered)))
    case Restart => st.(emitted := map[], cumulative := map[])
  }

  function Trace(cfg: Config, st: State, steps: seq<Step>): State {
    if steps == [] then st else Next(cfg, Trace(cfg, st, steps[..|steps| - 1]), Last(steps))
  }

  predicate OwnIncident(db: Db, r: Id, id: Id) {
    exists x <- At(db.incidents, r) :: x.id == id
  }

  /** An action id nothing in the database has used. */
  ghost predicate NewAction(db: Db, id: Id) {
    && (forall w <- db.actions :: w.id != id)
    && (forall i, p | p in At(db.plans, i) :: forall a <- p.actions :: a.id != id)
  }

  /** What the surroundings promise: a resume is booked on an incident of its own run or left to
      the controller; an alert names an incident of its own run; plans are made for stored
      incidents, under new ids. */
  ghost predicate Legal(st: State, step: Step) {
    match step
    case OperatorResume(r, incident) => incident.Some? ==> OwnIncident(st.db, r, incident.value)
    case Notify(r, incident, _) => OwnIncident(st.db, r, incident)
    case MakePlan(x, planId, actionId, _) =>
      && x in At(st.db.incidents, x.run)
      && !HasPlan(At(st.db.plans, x.id), planId)
      && NewAction(st.db, actionId)
    case _ => true
  }

  ghost predicate LegalTrace(cfg: Config, st: State, steps: seq<Step>) {
    forall i :: 0 <= i < |steps| ==> Legal(Trace(cfg, st, steps[..i]), steps[i])
  }

  lemma LegalPrefix(cfg: Config, st: State, steps: seq<Step>)
    requires steps != [] && LegalTrace(cfg, st, steps)
    ensures LegalTrace(cfg, st, steps[..|steps| - 1])
    ensures Legal(Trace(cfg, st, steps[..|steps| - 1]), Last(steps))
  {
    forall i | 0 <= i < |steps| - 1 ensures steps[..|steps| - 1][..i] == steps[..i] {}
  }

  /** One more step at the end. */
  lemma AppendLegal(cfg: Config, st: State, steps: seq<Step>, step: Step)
    requires LegalTrace(cfg, st, steps) && Legal(Trace(cfg, st, steps), step)
    ensures LegalTrace(cfg, st, steps + [step])
    ensures Trace(cfg, st, steps + [step]) == Next(cfg, Trace(cfg, st, steps), step)
  {
    hide Legal, Next;
    var all := steps + [step];
    assert all[..|steps|] == steps && Last(all) == step;
    forall i | 0 <= i < |all| ensures Legal(Trace(cfg, st, all[..i]), all[i]) {
      hide Trace;
      if i < |steps| { assert all[..i] == steps[..i]; }
    }
  }
}
