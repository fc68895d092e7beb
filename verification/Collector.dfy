/** The detection engine with its in-memory dedup, and the collector that feeds it. */
module Collector {
  import opened Records
  import opened Tables
  import opened Detectors
  import opened Protection
  import Storage

  /** The dedup key of the engine, and the unique key of the `incidents` table. */
  datatype Key = Key(run: Id, failure: FailureType, version: string)

  /** The database together with one engine's memory. */
  datatype State = State(db: Db, emitted: map<Key, int>, cumulative: map<Id, real>)

  const INITIAL := State(EMPTY_DB, map[], map[])

  // ---- reading the audit trail ----

  /** The search accepts ACTION_EXECUTED and RESUME_REQUESTED and then asks for the word RESUME,
      so only RESUME_REQUESTED remains, whatever its result. */
  predicate IsResume(a: Audit) {
    a.action == ResumeRequestedAudit
  }

  function LatestResume(s: seq<Audit>): Option<Audit> {
    if s == [] then None
    else if IsResume(Last(s)) then Some(Last(s))
    else LatestResume(s[..|s| - 1])
  }

  function LatestIncident(s: seq<Audit>): Option<Id> {
    if s == [] then None
    else if Last(s).incident.Some? then Last(s).incident
    else LatestIncident(s[..|s| - 1])
  }

  /** The incident the latest resume is booked on, if there was a resume at all. */
  function ResumedIncident(s: seq<Audit>): Option<Id> {
    match LatestResume(s)
    case None => None
    case Some(a) => if a.incident.Some? then a.incident else LatestIncident(s)
  }

  predicate HasVerdict(s: seq<Audit>, result: AuditResult, incident: Option<Id>) {
    Audit(RecoveryVerification, result, incident) in s
  }

  /** Writes a verdict onto the incident's newest plan, if it has one, and onto its outcomes. */
  function MarkPlan(db: Db, incident: Id, v: Verification, o: OutcomeVerification): Db {
    if PlanOf(db, incident).None? then db
    else VerifyOutcomes(SavePlan(db, PlanOf(db, incident).value.(verification := Some(v))), incident, o)
  }

  // ---- the engine ----

  /** What a repeated match does: once per resumed incident, book the failed recovery, and pause
      again if the incident has a plan. */
  function RepeatFailure(db: Db, r: Id): Db {
    var trail := At(db.audits, r);
    var incident := ResumedIncident(trail);
    if r !in db.runs || incident.None? || HasVerdict(trail, RepeatedFailure, incident) then db
    else
      var db1 := Log(db, r, Audit(RecoveryVerification, RepeatedFailure, incident));
      if PlanOf(db1, incident.value).None? then db1
      else PauseRun(MarkPlan(db1, incident.value, RecoveryRepeated, VerifiedFailure), r, incident.value)
  }

  datatype Detector = StuckLoopDetector | BudgetDetector

  const DETECTORS := [StuckLoopDetector, BudgetDetector]

  function Detect(cfg: Config, st: State, e: Event, which: Detector): Option<Detection> {
    match which
    case StuckLoopDetector => StuckDetect(cfg, At(st.db.events, e.run), e)
    case BudgetDetector => BudgetDetect(cfg, st.cumulative, e)
  }

  function Observe(cfg: Config, st: State, e: Event, which: Detector): State {
    if which.BudgetDetector? then st.(cumulative := Accumulate(cfg, st.cumulative, e)) else st
  }

  function ToIncident(e: Event, d: Detection, id: Id): Incident {
    Incident(id, e.run, d.failure, VERSION, d.severity, true, d.trigger, d.observed, d.threshold)
  }

  function EvaluateOne(cfg: Config, st: State, e: Event, which: Detector, id: Id): (State, Option<Incident>) {
    var seen := Observe(cfg, st, e, which);
    match Detect(cfg, st, e, which)
    case None => (seen, None)
    case Some(d) =>
      var key := Key(e.run, d.failure, VERSION);
      if key in st.emitted then (seen.(db := RepeatFailure(st.db, e.run)), None)
      else (seen.(emitted := st.emitted[key := e.seqNo]), Some(ToIncident(e, d, id)))
  }

  /** Both detectors in turn; the second sees what the first one's repeat branch wrote. */
  function EvaluateBoth(cfg: Config, st: State, e: Event, ids: (Id, Id)): (State, Option<Incident>, Option<Incident>) {
    var (st1, x) := EvaluateOne(cfg, st, e, StuckLoopDetector, ids.0);
    var (st2, y) := EvaluateOne(cfg, st1, e, BudgetDetector, ids.1);
    (st2, x, y)
  }

  // ---- the collector ----

  function NewRun(cfg: Config, e: Event): Run {
    Run(Running, None, 0, None, if e.framework in {"langgraph", "autogen"} then Active else Disabled, cfg.org)
  }

  function EnsureRun(cfg: Config, db: Db, e: Event): Db {
    if e.run in db.runs then db else SaveRun(db, e.run, NewRun(cfg, e))
  }

  function Advance(row: Run, e: Event): Run {
    var row1 := if e.kind == RunCompleted then row.(status := Completed, endTime := Some(e.time))
                else if e.kind == RunFailed then row.(status := Failed, endTime := Some(e.time))
                else row;
    var row2 := if e.tokens.Some? && e.tokens.value > 0 then row1.(tokens := row1.tokens + e.tokens.value) else row1;
    if e.cost.Some? && e.cost.value > 0.0 then row2.(cost := Some(row2.cost.GetOr(0.0) + e.cost.value)) else row2
  }

  /** A run that completes after a resume verifies the resumed incident, unless a verdict stands. */
  function VerifyRecovery(db: Db, r: Id): Db {
    var trail := At(db.audits, r);
    var incident := ResumedIncident(trail);
    if || LatestResume(trail).None?
       || HasVerdict(trail, RepeatedFailure, incident)
       || HasVerdict(trail, Verified, incident)
    then db
    else
      var db1 := Log(db, r, Audit(RecoveryVerification, Verified, incident));
      if incident.None? then db1 else MarkPlan(db1, incident.value, RecoveryVerified, VerifiedSuccess)
  }

  function Publish(cfg: Config, db: Db, x: Option<Incident>): Db {
    if x.None? then db else OnIncident(cfg, SaveIncident(db, x.value), x.value)
  }

  /** The run row is written before the duplicate check, the event before the detectors look. */
  function Book(cfg: Config, db: Db, e: Event): Db {
    var db1 := EnsureRun(cfg, db, e);
    var db2 := if e.kind == RunCompleted then VerifyRecovery(db1, e.run) else db1;
    SaveRun(db2, e.run, Advance(db1.runs[e.run], e))
  }

  function ProcessEvent(cfg: Config, st: State, e: Event, ids: (Id, Id)): State {
    var db := Book(cfg, st.db, e);
    if e.key in db.keys then st.(db := db)
    else
      var (st1, x, y) := EvaluateBoth(cfg, st.(db := SaveEvent(db, e)), e, ids);
      st1.(db := Publish(cfg, Publish(cfg, st1.db, x), y))
  }

  // ---- the same, in place ----

  function Listed(x: Option<Incident>): seq<Incident> {
    if x.Some? then [x.value] else []
  }

  class DetectionEngine {
    const store: Storage.Database
    const budget: Detectors.BudgetDetector
    const controller: Controller
    var emitted: map<Key, int>

    constructor (store: Storage.Database)
      ensures this.store == store && controller.store == store && fresh(budget)
      ensures emitted == map[] && budget.cumulative == map[]
    {
      this.store := store;
      budget := new Detectors.BudgetDetector();
      controller := new Controller(store);
      emitted := map[];
    }

    function Memory(): State
      reads this, store, budget
    {
      State(store.View(), emitted, budget.cumulative)
    }

    method MarkRepeatedFailure(r: Id)
      requires controller.store == store
      modifies store
      ensures store.View() == RepeatFailure(old(store.View()), r)
    {
      var row := store.GetRun(r);
      if row.None? {
        return;
      }
      var trail := At(store.audits, r);
      var incident := ResumedIncident(trail);
      if incident.Some? && !HasVerdict(trail, RepeatedFailure, incident) {
        store.SaveAuditEvent(r, Audit(RecoveryVerification, RepeatedFailure, incident));
        var plan := PlanOf(store.View(), incident.value);
        if plan.Some? {
          store.SaveRecoveryPlan(plan.value.(verification := Some(RecoveryRepeated)));
          store.UpdateOutcomeVerification(incident.value, VerifiedFailure);
          controller.RequestPause(r, incident.value);
        }
      }
    }

    method RunDetector(cfg: Config, e: Event, which: Detector) returns (d: Option<Detection>)
      modifies budget
      ensures d == Detect(cfg, old(Memory()), e, which)
      ensures Memory() == Observe(cfg, old(Memory()), e, which)
    {
      match which
      case StuckLoopDetector => d := EvaluateStuckLoop(store, cfg, e);
      case BudgetDetector => d := budget.Evaluate(cfg, e);
    }

    method Evaluate(cfg: Config, e: Event, ids: (Id, Id)) returns (incidents: seq<Incident>)
      requires controller.store == store
      modifies this, store, budget
      ensures var (st, x, y) := EvaluateBoth(cfg, old(Memory()), e, ids);
              Memory() == st && incidents == Listed(x) + Listed(y)
    {
      incidents := [];
      ghost var (mid, x) := EvaluateOne(cfg, Memory(), e, StuckLoopDetector, ids.0);
      for i := 0 to |DETECTORS|
        invariant i == 0 ==> Memory() == old(Memory()) && incidents == []
        invariant i == 1 ==> Memory() == mid && incidents == Listed(x)
        invariant i == 2 ==>
          var (st, y) := EvaluateOne(cfg, mid, e, BudgetDetector, ids.1);
          Memory() == st && incidents == Listed(x) + Listed(y)
      {
        var d := RunDetector(cfg, e, DETECTORS[i]);
        if d.None? {
          continue;
        }
        var key := Key(e.run, d.value.failure, VERSION);
        if key in emitted {
          MarkRepeatedFailure(e.run);
          continue;
        }
        emitted := emitted[key := e.seqNo];
        incidents := incidents + [ToIncident(e, d.value, if i == 0 then ids.0 else ids.1)];
      }
    }
  }

  function PublishAll(cfg: Config, db: Db, xs: seq<Incident>): Db {
    if xs == [] then db else Publish(cfg, PublishAll(cfg, db, xs[..|xs| - 1]), Some(Last(xs)))
  }

  lemma PublishListed(cfg: Config, db: Db, x: Option<Incident>, y: Option<Incident>)
    ensures PublishAll(cfg, db, Listed(x) + Listed(y)) == Publish(cfg, Publish(cfg, db, x), y)
  {
    var xs, ys := Listed(x), Listed(y);
    assert PublishAll(cfg, db, xs) == Publish(cfg, db, x) by {
      if x.Some? { assert xs[..0] == []; }
    }
    if y.Some? {
      assert (xs + ys)[..|xs|] == xs;
    } else {
      assert xs + ys == xs;
    }
  }

  class RuntimeCollector {
    const engine: DetectionEngine

    constructor (store: Storage.Database)
      ensures engine.store == store && engine.controller.store == store
      ensures engine.emitted == map[] && engine.budget.cumulative == map[]
    {
      engine := new DetectionEngine(store);
    }

    method Verify(r: Id)
      modifies engine.store
      ensures engine.store.View() == VerifyRecovery(old(engine.store.View()), r)
    {
      var store := engine.store;
      var trail := At(store.audits, r);
      if LatestResume(trail).None? {
        return;
      }
      var incident := ResumedIncident(trail);
      if HasVerdict(trail, RepeatedFailure, incident) || HasVerdict(trail, Verified, incident) {
        return;
      }
      store.SaveAuditEvent(r, Audit(RecoveryVerification, Verified, incident));
      if incident.Some? {
        var plan := PlanOf(store.View(), incident.value);
        if plan.Some? {
          store.SaveRecoveryPlan(plan.value.(verification := Some(RecoveryVerified)));
          store.UpdateOutcomeVerification(incident.value, VerifiedSuccess);
        }
      }
    }

    method BookEvent(cfg: Config, e: Event)
      modifies engine.store
      ensures engine.store.View() == Book(cfg, old(engine.store.View()), e)
    {
      hide VerifyRecovery, MergeRun;
      var store := engine.store;
      var found := store.GetRun(e.run);
      var row: Run;
      if found.None? {
        row := NewRun(cfg, e);
        store.SaveRun(e.run, row);
      } else {
        row := found.value;
      }
      if e.kind == RunCompleted {
        row := row.(status := Completed, endTime := Some(e.time));
        Verify(e.run);
      } else if e.kind == RunFailed {
        row := row.(status := Failed, endTime := Some(e.time));
      }
      if e.tokens.Some? && e.tokens.value > 0 {
        row := row.(tokens := row.tokens + e.tokens.value);
      }
      if e.cost.Some? && e.cost.value > 0.0 {
        row := row.(cost := Some(row.cost.GetOr(0.0) + e.cost.value));
      }
      store.SaveRun(e.run, row);
    }

    method PublishIncidents(cfg: Config, incidents: seq<Incident>)
      requires engine.controller.store == engine.store
      modifies engine.store
      ensures engine.store.View() == PublishAll(cfg, old(engine.store.View()), incidents)
    {
      var i := 0;
      while i < |incidents|
        invariant 0 <= i <= |incidents|
        invariant engine.store.View() == PublishAll(cfg, old(engine.store.View()), incidents[..i])
      {
        assert incidents[..i + 1][..i] == incidents[..i];
        var inserted := engine.store.SaveIncident(incidents[i]);
        engine.controller.HandleIncident(cfg, incidents[i]);
        i := i + 1;
      }
      assert incidents[..i] == incidents;
    }

    method SyncProcessEvent(cfg: Config, e: Event, ids: (Id, Id))
      requires engine.controller.store == engine.store
      modifies engine, engine.store, engine.budget
      ensures engine.Memory() == ProcessEvent(cfg, old(engine.Memory()), e, ids)
    {
      BookEvent(cfg, e);
      var saved := engine.store.SaveEvent(e);
      if saved {
        ghost var before := engine.Memory();
        var incidents := engine.Evaluate(cfg, e, ids);
        ghost var (st, x, y) := EvaluateBoth(cfg, before, e, ids);
        PublishIncidents(cfg, incidents);
        PublishListed(cfg, st.db, x, y);
      }
    }
  }
}
