/** Intervention over several engine lifetimes: each restart allows two more incidents to be
    emitted, and so at most four more successful pauses. */
module Restarts {
  import opened Records
  import opened Tables
  import opened Detectors
  import opened Protection
  import opened Collector
  import opened Recovery
  import opened ControlPlane
  import opened Trails
  import opened Lifecycle
  import opened Verdicts
  import opened Interventions

  function Lifetimes(steps: seq<Step>): nat {
    if steps == [] then 1 else Lifetimes(steps[..|steps| - 1]) + if Last(steps).Restart? then 1 else 0
  }

  function IdsOf(x: Option<Incident>): seq<Id> {
    if x.Some? then [x.value.id] else []
  }

  /** The ids of the incidents a step makes the engine emit for the run, stored or not. */
  function Emits(cfg: Config, st: State, step: Step, r: Id): seq<Id> {
    match step
    case Deliver(e, ids) =>
      if e.run != r || e.key in st.db.keys then []
      else
        var (_, x, y) := EvaluateBoth(cfg, st.(db := SaveEvent(Book(cfg, st.db, e), e)), e, ids);
        IdsOf(x) + IdsOf(y)
    case _ => []
  }

  function Emitted(cfg: Config, steps: seq<Step>, r: Id): seq<Id> {
    if steps == [] then []
    else
      var front := steps[..|steps| - 1];
      Emitted(cfg, front, r) + Emits(cfg, Trace(cfg, INITIAL, front), Last(steps), r)
  }

  // ---- what a run's trail owes to the emitted incidents ----

  ghost predicate Known(ids: seq<Id>, a: Audit) {
    (a.incident.Some? ==> a.incident.value in ids) && (IsRepeat(a) ==> a.incident.Some?)
  }

  /** The run's rows name emitted incidents, and every successful pause is paid for by an emitted
      incident or a repeated failure; `owed` of the incidents have not been published yet. */
  ghost predicate Tied(db: Db, r: Id, ids: seq<Id>, owed: nat) {
    && (forall x <- At(db.incidents, r) :: x.id in ids)
    && (forall a <- At(db.audits, r) :: Known(ids, a))
    && Pauses(db, r) + owed <= |ids| + Repeats(db, r)
  }

  lemma TiedFrame(db: Db, db1: Db, r: Id, ids: seq<Id>, owed: nat)
    requires Tied(db, r, ids, owed)
    requires At(db1.incidents, r) == At(db.incidents, r) && At(db1.audits, r) == At(db.audits, r)
    ensures Tied(db1, r, ids, owed)
  {}

  /** Rows that pay for themselves, or one row that is paid for by an incident being published. */
  ghost predicate PaidFor(ids: seq<Id>, suffix: seq<Audit>, paid: nat) {
    && (forall a <- suffix :: Known(ids, a))
    && if paid == 0 then
         && |suffix| <= 2 && (suffix != [] ==> !IsPause(suffix[0]))
         && (|suffix| == 2 ==> IsRepeat(suffix[0]) && !IsRepeat(suffix[1]))
       else
         paid == 1 && |suffix| <= 1 && forall a <- suffix :: !IsRepeat(a)
  }

  lemma TiedAdds(db: Db, db1: Db, q: Id, suffix: seq<Audit>, r: Id, ids: seq<Id>, owed: nat, paid: nat)
    requires Tied(db, r, ids, owed + paid) && Adds(db, db1, q, suffix)
    requires At(db1.incidents, r) == At(db.incidents, r)
    requires q == r ==> PaidFor(ids, suffix, paid)
    ensures Tied(db1, r, ids, owed)
  {
    if q != r {
      assert At(db1.audits, r) == At(db.audits, r);
    } else {
      var s := At(db.audits, r);
      CountTwo(s, suffix, IsPause);
      CountTwo(s, suffix, IsRepeat);
      assert At(db1.audits, r) == s + suffix;
    }
  }

  lemma QuietTied(db: Db, db1: Db, r: Id, ids: seq<Id>)
    requires Tied(db, r, ids, 0) && Quiet(db, db1)
    ensures Tied(db1, r, ids, 0)
  {
    var s, t := At(db.audits, r), At(db1.audits, r);
    forall k | |s| <= k < |t| ensures !IsPause(t[k]) && !IsRepeat(t[k]) && Known(ids, t[k]) {
      assert Noise(db, r, t[k]);
    }
    QuietCount(s, t, IsPause);
    QuietCount(s, t, IsRepeat);
    forall a | a in t ensures Known(ids, a) {
      var k :| 0 <= k < |t| && t[k] == a;
      if k < |s| { assert s[k] in s; }
    }
  }

  lemma ResumedIsKnown(db: Db, r: Id, ids: seq<Id>, owed: nat)
    requires Tied(db, r, ids, owed)
    ensures ResumedIncident(At(db.audits, r)).Some? ==> ResumedIncident(At(db.audits, r)).value in ids
  {
    ResumedIsLogged(At(db.audits, r));
    hide ResumedIncident;
  }

  lemma BookTied(cfg: Config, db: Db, e: Event, r: Id, ids: seq<Id>)
    requires Tied(db, r, ids, 0)
    ensures Tied(Book(cfg, db, e), r, ids, 0)
  {
    hide Book, Tied, Adds, HasVerdict, LatestResume, ResumedIncident;
    var suffix := BookTrail(cfg, db, e);
    BookRows(cfg, db, e);
    ResumedIsKnown(db, r, ids, 0);
    TiedAdds(db, Book(cfg, db, e), e.run, suffix, r, ids, 0, 0);
  }

  lemma MoreIds(db: Db, r: Id, ids: seq<Id>, id: Id, owed: nat)
    requires Tied(db, r, ids, owed)
    ensures Tied(db, r, ids + [id], owed + 1)
  {}

  lemma RepeatTied(db: Db, q: Id, r: Id, ids: seq<Id>, owed: nat)
    requires Tied(db, r, ids, owed)
    ensures Tied(RepeatFailure(db, q), r, ids, owed)
  {
    hide Tied, Adds, RepeatFailure, HasVerdict, ResumedIncident;
    var suffix := RepeatTrail(db, q);
    ResumedIsKnown(db, r, ids, owed);
    TiedAdds(db, RepeatFailure(db, q), q, suffix, r, ids, owed, 0);
  }

  lemma EvaluateTied(cfg: Config, st: State, e: Event, which: Detector, id: Id, r: Id, ids: seq<Id>, owed: nat)
    requires Tied(st.db, r, ids, owed)
    ensures var (st1, x) := EvaluateOne(cfg, st, e, which, id);
      var more := if e.run == r then IdsOf(x) else [];
      Tied(st1.db, r, ids + more, owed + |more|)
  {
    hide Tied, EvaluateOne, RepeatFailure;
    var (st1, x) := EvaluateOne(cfg, st, e, which, id);
    EvaluateShape(cfg, st, e, which, id);
    RepeatTied(st.db, e.run, r, ids, owed);
    if e.run == r && x.Some? {
      MoreIds(st.db, r, ids, x.value.id, owed);
    } else {
      assert ids + [] == ids;
    }
  }

  lemma StoreTied(db: Db, x: Incident, r: Id, ids: seq<Id>, owed: nat)
    requires Tied(db, r, ids, owed) && (x.run == r ==> x.id in ids)
    ensures Tied(SaveIncident(db, x), r, ids, owed)
  {
    hide HasIncident, Known;
  }

  lemma PublishTied(cfg: Config, db: Db, x: Option<Incident>, r: Id, ids: seq<Id>, owed: nat)
    requires x.Some? && x.value.run == r ==> x.value.id in ids && owed > 0
    requires Tied(db, r, ids, owed)
    ensures Tied(Publish(cfg, db, x), r, ids, if x.Some? && x.value.run == r then owed - 1 else owed)
  {
    hide Tied, SaveIncident, OnIncident, Adds;
    if x.Some? {
      var db1 := SaveIncident(db, x.value);
      StoreTied(db, x.value, r, ids, owed);
      var suffix := IncidentTrail(cfg, db1, x.value);
      if x.value.run == r {
        TiedAdds(db1, OnIncident(cfg, db1, x.value), r, suffix, r, ids, owed - 1, 1);
      } else {
        TiedAdds(db1, OnIncident(cfg, db1, x.value), x.value.run, suffix, r, ids, owed, 0);
      }
    }
  }

  function OwnIds(e: Event, r: Id, x: Option<Incident>): seq<Id> {
    if e.run == r then IdsOf(x) else []
  }

  /** Both detectors' turns, and then both publications. */
  lemma DetectTied(cfg: Config, st: State, e: Event, ids: (Id, Id), r: Id, known: seq<Id>)
    requires Tied(st.db, r, known, 0)
    ensures var (st2, x, y) := EvaluateBoth(cfg, st, e, ids);
      Tied(Publish(cfg, Publish(cfg, st2.db, x), y), r, known + OwnIds(e, r, x) + OwnIds(e, r, y), 0)
  {
    hide Tied, EvaluateOne, Publish;
    var (st1, x) := EvaluateOne(cfg, st, e, StuckLoopDetector, ids.0);
    EvaluateTied(cfg, st, e, StuckLoopDetector, ids.0, r, known, 0);
    EvaluateShape(cfg, st, e, StuckLoopDetector, ids.0);
    var known1 := known + OwnIds(e, r, x);
    var (st2, y) := EvaluateOne(cfg, st1, e, BudgetDetector, ids.1);
    EvaluateTied(cfg, st1, e, BudgetDetector, ids.1, r, known1, |known1| - |known|);
    EvaluateShape(cfg, st1, e, BudgetDetector, ids.1);
    var known2 := known1 + OwnIds(e, r, y);
    PublishTied(cfg, st2.db, x, r, known2, |known2| - |known|);
    PublishTied(cfg, Publish(cfg, st2.db, x), y, r, known2, |known2| - |known1|);
  }

  lemma DeliverTied(cfg: Config, st: State, e: Event, ids: (Id, Id), r: Id, known: seq<Id>)
    requires Tied(st.db, r, known, 0)
    ensures Tied(ProcessEvent(cfg, st, e, ids).db, r, known + Emits(cfg, st, Deliver(e, ids), r), 0)
  {
    hide Tied, Book, EvaluateBoth, Publish;
    var db := Book(cfg, st.db, e);
    BookTied(cfg, st.db, e, r, known);
    BookRows(cfg, st.db, e);
    if e.key in st.db.keys {
      assert known + [] == known;
    } else {
      var st0 := st.(db := SaveEvent(db, e));
      TiedFrame(db, st0.db, r, known, 0);
      DetectTied(cfg, st0, e, ids, r, known);
      var (_, x, y) := EvaluateBoth(cfg, st0, e, ids);
      assert known + OwnIds(e, r, x) + OwnIds(e, r, y) == known + Emits(cfg, st, Deliver(e, ids), r);
    }
  }

  // ---- how many incidents are emitted ----

  /** How many kinds of failure the engine remembers for the run. */
  function Remembered(emitted: map<Key, int>, r: Id): nat {
    (if Key(r, StuckLoop, VERSION) in emitted then 1 else 0) +
    (if Key(r, BudgetExceeded, VERSION) in emitted then 1 else 0)
  }

  lemma EvaluateRemembers(cfg: Config, st: State, e: Event, which: Detector, id: Id, r: Id)
    ensures var (st1, x) := EvaluateOne(cfg, st, e, which, id);
      Remembered(st1.emitted, r) == Remembered(st.emitted, r) + if e.run == r then |IdsOf(x)| else 0
  {
    hide EvaluateOne;
    EvaluateKeys(cfg, st, e, which, id);
    var (st1, x) := EvaluateOne(cfg, st, e, which, id);
    if x.Some? {
      var k := Key(e.run, if which.StuckLoopDetector? then StuckLoop else BudgetExceeded, VERSION);
      assert KeyOf(x.value) == k;
      assert st1.emitted == st.emitted[k := e.seqNo];
    }
  }

  lemma StepRemembers(cfg: Config, st: State, step: Step, r: Id)
    ensures Remembered(Next(cfg, st, step).emitted, r) ==
            if step.Restart? then 0 else Remembered(st.emitted, r) + |Emits(cfg, st, step, r)|
  {
    hide Remembered;
    if step.Deliver? {
      hide Book, EvaluateOne, Publish;
      BookRows(cfg, st.db, step.e);
      if step.e.key !in st.db.keys {
        var st0 := st.(db := SaveEvent(Book(cfg, st.db, step.e), step.e));
        var (st1, x) := EvaluateOne(cfg, st0, step.e, StuckLoopDetector, step.ids.0);
        EvaluateRemembers(cfg, st0, step.e, StuckLoopDetector, step.ids.0, r);
        EvaluateRemembers(cfg, st1, step.e, BudgetDetector, step.ids.1, r);
      }
    } else if step.Restart? {
      assert Remembered(map[], r) == 0 by { NothingRemembered(r); }
    } else {
      hide Next;
      SameMemory(cfg, st, step);
    }
  }

  lemma NothingRemembered(r: Id)
    ensures Remembered(map[], r) == 0
  {}

  // ---- whole runs ----

  lemma StepTied(cfg: Config, st: State, step: Step, r: Id, known: seq<Id>)
    requires Tied(st.db, r, known, 0) && PlansInv(st.db) && Legal(st, step)
    ensures Tied(Next(cfg, st, step).db, r, known + Emits(cfg, st, step, r), 0)
  {
    hide Tied, PlansInv, ProcessEvent, PlanFor, Quiet, NewAction;
    if step.Deliver? {
      DeliverTied(cfg, st, step.e, step.ids, r, known);
    } else {
      assert known + [] == known;
      if step.MakePlan? {
        MakeTied(cfg, st.db, step.x, step.planId, step.actionId, step.ai, r, known);
      } else {
        OtherStepsQuiet(cfg, st, step);
        QuietTied(st.db, Next(cfg, st, step).db, r, known);
      }
    }
  }

  lemma MakeTied(
      cfg: Config, db: Db, x: Incident, planId: Id, actionId: Id, ai: Option<Analysis>, r: Id, known: seq<Id>)
    requires Tied(db, r, known, 0) && x in At(db.incidents, x.run)
    ensures Tied(PlanFor(cfg, db, x, planId, actionId, ai), r, known, 0)
  {
    hide Quiet, PlanFor, Automates, Drafted, Pauses, Repeats;
    var db1, db2, a := MakePlanTrail(cfg, db, x, planId, actionId, ai);
    QuietTied(db, db1, r, known);
    QuietIncidents(db, db1);
    AddsOne(db1, db1, x.run, a);
    TiedAdds(db1, Log(db1, x.run, a), x.run, [a], r, known, 0, 0);
    QuietTied(db2, PlanFor(cfg, db, x, planId, actionId, ai), r, known);
  }

  lemma {:induction false} TraceTied(cfg: Config, steps: seq<Step>, r: Id)
    requires LegalTrace(cfg, INITIAL, steps)
    ensures var st, ids := Trace(cfg, INITIAL, steps), Emitted(cfg, steps, r);
      Tied(st.db, r, ids, 0) && |ids| + 2 <= 2 * Lifetimes(steps) + Remembered(st.emitted, r)
  {
    if steps != [] {
      hide Legal, Next, PlansInv, Tied, Emits, Remembered;
      LegalPrefix(cfg, INITIAL, steps);
      var front := steps[..|steps| - 1];
      var st := Trace(cfg, INITIAL, front);
      TraceTied(cfg, front, r);
      ReachablePlans(cfg, front);
      StepTied(cfg, st, Last(steps), r, Emitted(cfg, front, r));
      StepRemembers(cfg, st, Last(steps), r);
      RememberedTwo(st.emitted, r);
      if Last(steps).Restart? { EmitsNothing(cfg, st, Last(steps), r); }
    }
  }

  lemma RememberedTwo(emitted: map<Key, int>, r: Id)
    ensures Remembered(emitted, r) <= 2
  {}

  lemma EmitsNothing(cfg: Config, st: State, step: Step, r: Id)
    requires step.Restart?
    ensures Emits(cfg, st, step, r) == []
  {}

  function RepeatIn(ids: seq<Id>): Audit -> bool {
    (a: Audit) => IsRepeat(a) && a.incident.Some? && a.incident.value in ids
  }

  lemma CountSplits(s: seq<Audit>, ids: seq<Id>, id: Id)
    ensures Count(s, RepeatIn(ids + [id])) <= Count(s, RepeatIn(ids)) + Count(s, RepeatOf(id))
  {
    if s != [] { CountSplits(s[..|s| - 1], ids, id); }
  }

  lemma CountNoneIn(s: seq<Audit>)
    ensures Count(s, RepeatIn([])) == 0
  {
    if s != [] { CountNoneIn(s[..|s| - 1]); }
  }

  lemma {:induction false} OneRepeatEach(s: seq<Audit>, ids: seq<Id>)
    requires VerdictsOk(s)
    ensures Count(s, RepeatIn(ids)) <= |ids|
  {
    hide VerdictsOk, RepeatIn;
    if ids == [] {
      CountNoneIn(s);
    } else {
      var front := ids[..|ids| - 1];
      OneRepeatEach(s, front);
      AtMostOneRepeat(s, Last(ids));
      assert ids == front + [Last(ids)];
      CountSplits(s, front, Last(ids));
    }
  }

  lemma AllRepeatsIn(s: seq<Audit>, ids: seq<Id>)
    requires forall a <- s :: Known(ids, a)
    ensures Count(s, IsRepeat) == Count(s, RepeatIn(ids))
  {
    if s != [] {
      AllRepeatsIn(s[..|s| - 1], ids);
      assert Known(ids, Last(s));
    }
  }

  /** Over k engine lifetimes a run has at most 2k incidents emitted and 4k successful pauses. */
  lemma InterventionPerLifetime(cfg: Config, steps: seq<Step>, r: Id)
    requires LegalTrace(cfg, INITIAL, steps)
    ensures |Emitted(cfg, steps, r)| <= 2 * Lifetimes(steps)
    ensures Pauses(Trace(cfg, INITIAL, steps).db, r) <= 4 * Lifetimes(steps)
  {
    hide Trace, LegalTrace, Emitted, Lifetimes, Known;
    TraceTied(cfg, steps, r);
    var st, ids := Trace(cfg, INITIAL, steps), Emitted(cfg, steps, r);
    RecoveryVerdicts(cfg, steps, r);
    OneRepeatEach(At(st.db.audits, r), ids);
    AllRepeatsIn(At(st.db.audits, r), ids);
  }

  // ---- the bound grows with the lifetimes ----

  /** Pauses overspending, watches no loops. */
  predicate WatchesBudget(cfg: Config) {
    !cfg.stuckEnabled && cfg.budgetEnabled && cfg.protectionEnabled && BudgetExceeded in cfg.autoPause
  }

  /** An event of a protected run that overspends by itself. */
  predicate Overspends(cfg: Config, e: Event) {
    && e.framework in {"langgraph", "autogen"} && e.kind != RunCompleted && e.kind != RunFailed
    && Costed(e) && e.cost.value >= cfg.maxCost
  }

  predicate Pausable(db: Db, r: Id) {
    r in db.runs ==> db.runs[r].mode == Active && db.runs[r].status in PAUSABLE
  }

  lemma BookedPausable(cfg: Config, db: Db, e: Event)
    requires Overspends(cfg, e) && Pausable(db, e.run)
    ensures var db1 := Book(cfg, db, e);
      && e.run in db1.runs && Pausable(db1, e.run)
      && At(db1.audits, e.run) == At(db.audits, e.run) && db1.keys == db.keys
  {
    hide Book, Adds, HasVerdict, LatestResume, ResumedIncident;
    BookRows(cfg, db, e);
    var suffix := BookTrail(cfg, db, e);
    assert Book(cfg, db, e).runs[e.run] == Booked(cfg, db, e);
    assert At(db.audits, e.run) + [] == At(db.audits, e.run);
    NoSuffix(db, Book(cfg, db, e), e.run, suffix);
  }

  lemma NoSuffix(db: Db, db1: Db, r: Id, suffix: seq<Audit>)
    requires Adds(db, db1, r, suffix) && suffix == []
    ensures At(db1.audits, r) == At(db.audits, r)
  {}

  lemma PausesOnce(db: Db, r: Id, incident: Id)
    requires r in db.runs && Pausable(db, r)
    ensures var db1 := PauseRun(db, r, incident);
      && r in db1.runs && db1.runs[r].status == PauseRequested && db1.runs[r].mode == Active
      && Pauses(db1, r) == Pauses(db, r) + 1 && db1.keys == db.keys
  {
    var a := Audit(PauseRequestedAudit, Success, Some(incident));
    var db1 := CasRunStatus(db, r, PauseRequested, PAUSABLE);
    assert db1 == db.(runs := db.runs[r := db.runs[r].(status := PauseRequested)]);
    assert PauseRun(db, r, incident) == Log(db1, r, a);
    hide Count, PauseRun, CasRunStatus;
    CountAppend(At(db.audits, r), a, IsPause);
    assert At(Log(db1, r, a).audits, r) == At(db.audits, r) + [a];
  }

  lemma ResumesOnce(db: Db, r: Id)
    requires r in db.runs && db.runs[r].status == PauseRequested && db.runs[r].mode == Active
    ensures var db1 := ResumeRun(db, r, None);
      && r in db1.runs && Pausable(db1, r) && Pauses(db1, r) == Pauses(db, r) && db1.keys == db.keys
  {
    hide Count, ResumeTarget;
    CountAppend(At(db.audits, r), Audit(ResumeRequestedAudit, Success, ResumeTarget(db, r, None)), IsPause);
  }

  /** An engine that has just been started emits the incident again and pauses the run again. */
  lemma FreshEnginePauses(cfg: Config, st: State, e: Event, ids: (Id, Id))
    requires WatchesBudget(cfg) && Overspends(cfg, e) && Pausable(st.db, e.run) && e.key !in st.db.keys
    requires st.emitted == map[] && st.cumulative == map[]
    ensures var db := ProcessEvent(cfg, st, e, ids).db;
      && e.run in db.runs && db.runs[e.run].status == PauseRequested && db.runs[e.run].mode == Active
      && Pauses(db, e.run) == Pauses(st.db, e.run) + 1 && db.keys == st.db.keys + {e.key}
  {
    hide Book, PauseRun, HasIncident, Window, RepeatFailure, Count;
    BookedPausable(cfg, st.db, e);
    var st0 := st.(db := SaveEvent(Book(cfg, st.db, e), e));
    var (st1, x) := EvaluateOne(cfg, st0, e, StuckLoopDetector, ids.0);
    assert x == None && st1 == st0;
    var (st2, y) := EvaluateOne(cfg, st1, e, BudgetDetector, ids.1);
    assert y.Some? && st2.db == st0.db && y.value.run == e.run && y.value.failure == BudgetExceeded;
    PausesOnce(SaveIncident(st2.db, y.value), e.run, y.value.id);
  }

  function Round(e: Event, ids: (Id, Id)): seq<Step> {
    [Restart, Deliver(e, ids), OperatorResume(e.run, None)]
  }

  function Rounds(es: seq<Event>, ids: (Id, Id)): seq<Step> {
    if es == [] then [] else Rounds(es[..|es| - 1], ids) + Round(Last(es), ids)
  }

  lemma LifetimesAppend(steps: seq<Step>, step: Step)
    ensures Lifetimes(steps + [step]) == Lifetimes(steps) + if step.Restart? then 1 else 0
  {
    assert (steps + [step])[..|steps|] == steps;
  }

  lemma PlayRound(cfg: Config, steps: seq<Step>, e: Event, ids: (Id, Id))
    requires LegalTrace(cfg, INITIAL, steps)
    ensures LegalTrace(cfg, INITIAL, steps + Round(e, ids))
    ensures Lifetimes(steps + Round(e, ids)) == Lifetimes(steps) + 1
    ensures var st := Trace(cfg, INITIAL, steps);
      var st1 := ProcessEvent(cfg, st.(emitted := map[], cumulative := map[]), e, ids);
      Trace(cfg, INITIAL, steps + Round(e, ids)).db == ResumeRun(st1.db, e.run, None)
  {
    hide ProcessEvent, ResumeRun, Trace, LegalTrace, Lifetimes;
    var a, b := steps + [Restart], steps + [Restart] + [Deliver(e, ids)];
    AppendLegal(cfg, INITIAL, steps, Restart);
    AppendLegal(cfg, INITIAL, a, Deliver(e, ids));
    AppendLegal(cfg, INITIAL, b, OperatorResume(e.run, None));
    LifetimesAppend(steps, Restart);
    LifetimesAppend(a, Deliver(e, ids));
    LifetimesAppend(b, OperatorResume(e.run, None));
    assert steps + Round(e, ids) == b + [OperatorResume(e.run, None)];
  }

  /** After one more round the run has been paused once more, and can be paused again. */
  lemma RoundPauses(cfg: Config, steps: seq<Step>, e: Event, ids: (Id, Id))
    requires LegalTrace(cfg, INITIAL, steps) && WatchesBudget(cfg) && Overspends(cfg, e)
    requires Pausable(Trace(cfg, INITIAL, steps).db, e.run) && e.key !in Trace(cfg, INITIAL, steps).db.keys
    ensures var db, db1 := Trace(cfg, INITIAL, steps).db, Trace(cfg, INITIAL, steps + Round(e, ids)).db;
      Pausable(db1, e.run) && Pauses(db1, e.run) == Pauses(db, e.run) + 1 && db1.keys == db.keys + {e.key}
  {
    hide Trace, LegalTrace, ProcessEvent, ResumeRun, Pauses, Lifetimes, Round, WatchesBudget, Overspends;
    PlayRound(cfg, steps, e, ids);
    var st := Trace(cfg, INITIAL, steps).(emitted := map[], cumulative := map[]);
    FreshEnginePauses(cfg, st, e, ids);
    ResumesOnce(ProcessEvent(cfg, st, e, ids).db, e.run);
  }

  ghost predicate DistinctKeys(es: seq<Event>) {
    forall i, j :: 0 <= i < j < |es| ==> es[i].key != es[j].key
  }

  function KeysUsed(es: seq<Event>): set<string> {
    if es == [] then {} else KeysUsed(es[..|es| - 1]) + {Last(es).key}
  }

  lemma UsedByOne(es: seq<Event>, key: string)
    requires key in KeysUsed(es)
    ensures exists i :: 0 <= i < |es| && es[i].key == key
  {
    if key != Last(es).key { UsedByOne(es[..|es| - 1], key); }
  }

  lemma LastIsNew(es: seq<Event>)
    requires es != [] && DistinctKeys(es)
    ensures DistinctKeys(es[..|es| - 1]) && Last(es).key !in KeysUsed(es[..|es| - 1])
  {
    if Last(es).key in KeysUsed(es[..|es| - 1]) { UsedByOne(es[..|es| - 1], Last(es).key); }
  }

  lemma {:induction false} RoundsPause(cfg: Config, es: seq<Event>, ids: (Id, Id), r: Id)
    requires WatchesBudget(cfg) && DistinctKeys(es)
    requires forall e <- es :: Overspends(cfg, e) && e.run == r
    ensures var steps := Rounds(es, ids);
      && LegalTrace(cfg, INITIAL, steps) && Lifetimes(steps) == |es| + 1
      && var db := Trace(cfg, INITIAL, steps).db;
         Pausable(db, r) && Pauses(db, r) == |es| && db.keys == KeysUsed(es)
  {
    if es != [] {
      var before, e := es[..|es| - 1], Last(es);
      assert es == before + [e];
      LastIsNew(es);
      hide DistinctKeys, WatchesBudget, Overspends, Pausable, Round;
      RoundsPause(cfg, before, ids, r);
      hide Trace, LegalTrace, Pauses, Lifetimes;
      PlayRound(cfg, Rounds(before, ids), e, ids);
      RoundPauses(cfg, Rounds(before, ids), e, ids);
    }
  }

  /** The bound of four is lost with restarts: a run that overspends once after each of n restarts,
      and is resumed each time, is paused n times. */
  lemma RestartsRearm(cfg: Config, es: seq<Event>, ids: (Id, Id), r: Id)
    requires WatchesBudget(cfg) && DistinctKeys(es)
    requires forall e <- es :: Overspends(cfg, e) && e.run == r
    ensures var steps := Rounds(es, ids);
      && LegalTrace(cfg, INITIAL, steps) && Lifetimes(steps) == |es| + 1
      && Pauses(Trace(cfg, INITIAL, steps).db, r) == |es|
  {
    RoundsPause(cfg, es, ids, r);
  }
}
