/** Cost accounting, and the moment of detection, over one engine lifetime: the detector's sums
    are the sums over stored events, the run totals exceed them by the delivered duplicates, and
    each detector's incident stands for the first stored event that satisfied it. */
module Accounting {
  import opened Records
  import opened Tables
  import opened Detectors
  import opened Protection
  import opened Collector
  import opened Recovery
  import opened ControlPlane
  import opened Trails
  import opened Lifecycle
  import opened Verdicts
  import opened Interventions
  import opened Staleness

  /** What an event costs: nothing if it says nothing, or less than nothing. */
  function Charge(e: Event): real {
    if e.cost.Some? && e.cost.value > 0.0 then e.cost.value else 0.0
  }

  function SumCost(s: seq<Event>): real {
    if s == [] then 0.0 else SumCost(s[..|s| - 1]) + Charge(Last(s))
  }

  // ---- the first match ----

  /** Whether a detector is satisfied by the newest event of a history that already holds it. */
  predicate Fires(cfg: Config, which: Detector, s: seq<Event>)
    requires s != []
  {
    match which
    case StuckLoopDetector => StuckDetect(cfg, s, Last(s)).Some?
    case BudgetDetector =>
      cfg.budgetEnabled && Last(s).cost.Some? && Last(s).cost.value >= 0.0 && SumCost(s) >= cfg.maxCost
  }

  function Observed(cfg: Config, which: Detector, s: seq<Event>): real {
    match which
    case StuckLoopDetector => cfg.threshold as real
    case BudgetDetector => SumCost(s)
  }

  /** The length of the shortest history on which a detector fires. */
  function First(cfg: Config, which: Detector, s: seq<Event>): Option<nat> {
    if s == [] then None
    else if First(cfg, which, s[..|s| - 1]).Some? then First(cfg, which, s[..|s| - 1])
    else if Fires(cfg, which, s) then Some(|s|)
    else None
  }

  function FailureOf(which: Detector): FailureType {
    if which.StuckLoopDetector? then StuckLoop else BudgetExceeded
  }

  function Watcher(f: FailureType): Detector {
    if f == StuckLoop then StuckLoopDetector else BudgetDetector
  }

  /** A stored incident is the record of a history. */
  ghost predicate Captures(cfg: Config, x: Incident, s: seq<Event>) {
    && s != []
    && x.open && x.version == "1.0"
    && x.trigger == Last(s).id
    && x.observed == Observed(cfg, Watcher(x.failure), s)
    && x.severity == (if x.failure == StuckLoop then Critical else High)
    && x.threshold == (if x.failure == StuckLoop then cfg.threshold as real else cfg.maxCost)
  }

  lemma {:induction false} FirstIsFirst(cfg: Config, which: Detector, s: seq<Event>)
    ensures First(cfg, which, s).Some? <==> exists n :: 0 < n <= |s| && Fires(cfg, which, s[..n])
    ensures First(cfg, which, s).Some? ==>
      var n := First(cfg, which, s).value;
      0 < n <= |s| && Fires(cfg, which, s[..n]) && forall m | 0 < m < n :: !Fires(cfg, which, s[..m])
  {
    hide Fires;
    if s != [] {
      var front := s[..|s| - 1];
      FirstIsFirst(cfg, which, front);
      forall n | 0 < n <= |front| ensures front[..n] == s[..n] {}
      assert s[..|s|] == s;
    }
  }

  // ---- the invariant ----

  /** The detector's sums are the sums over the stored events. */
  ghost predicate SumsOk(cfg: Config, st: State) {
    forall r :: Spent(st.cumulative, r) == if cfg.budgetEnabled then SumCost(At(st.db.events, r)) else 0.0
  }

  predicate HasFailure(t: seq<Incident>, f: FailureType) {
    exists x <- t :: x.failure == f
  }

  /** A run's incidents are the first matches in its stored events, one per detector that fired. */
  ghost predicate RunFirst(cfg: Config, s: seq<Event>, t: seq<Incident>) {
    && (forall which :: First(cfg, which, s).Some? <==> HasFailure(t, FailureOf(which)))
    && (forall x <- t ::
          var n := First(cfg, Watcher(x.failure), s);
          n.Some? && n.value <= |s| && Captures(cfg, x, s[..n.value]))
  }

  ghost predicate IncidentsFirst(cfg: Config, db: Db) {
    forall r :: RunFirst(cfg, At(db.events, r), At(db.incidents, r))
  }

  lemma {:induction false} FirstInRange(cfg: Config, which: Detector, s: seq<Event>)
    ensures First(cfg, which, s).Some? ==> 0 < First(cfg, which, s).value <= |s|
  {
    if s != [] { FirstInRange(cfg, which, s[..|s| - 1]); }
  }

  lemma FirstAppend(cfg: Config, which: Detector, s: seq<Event>, e: Event)
    ensures First(cfg, which, s).Some? ==> First(cfg, which, s + [e]) == First(cfg, which, s)
    ensures First(cfg, which, s).None? ==>
            First(cfg, which, s + [e]) == if Fires(cfg, which, s + [e]) then Some(|s| + 1) else None
  {
    hide Fires;
    assert (s + [e])[..|s|] == s;
  }

  lemma SumAppend(s: seq<Event>, e: Event)
    ensures SumCost(s + [e]) == SumCost(s) + Charge(e)
  {
    assert (s + [e])[..|s|] == s;
  }

  /** What a detector says about the newest stored event is what `Fires` says. */
  lemma DetectFires(cfg: Config, st: State, s: seq<Event>, e: Event, which: Detector)
    requires At(st.db.events, e.run) == s + [e]
    requires which.BudgetDetector? && cfg.budgetEnabled ==> Spent(st.cumulative, e.run) == SumCost(s)
    ensures Detect(cfg, st, e, which).Some? <==> Fires(cfg, which, s + [e])
    ensures Detect(cfg, st, e, which).Some? ==>
      var d := Detect(cfg, st, e, which).value;
      && d.failure == FailureOf(which) && d.trigger == e.id && d.observed == Observed(cfg, which, s + [e])
      && d.severity == (if which.StuckLoopDetector? then Critical else High)
      && d.threshold == (if which.StuckLoopDetector? then cfg.threshold as real else cfg.maxCost)
  {
    SumAppend(s, e);
    if Detect(cfg, st, e, which).Some? && which.StuckLoopDetector? {
      hide Window;
      MatchReportsThreshold(cfg, s + [e], e);
    }
  }

  /** What a detector contributes when the event is new: its first match, once. */
  ghost predicate Contribution(
      cfg: Config, which: Detector, s: seq<Event>, e: Event, t: seq<Incident>, x: Option<Incident>) {
    && (x.Some? <==> Fires(cfg, which, s + [e]) && !HasFailure(t, FailureOf(which)))
    && (x.Some? ==> x.value.failure == FailureOf(which) && Captures(cfg, x.value, s + [e]))
  }

  lemma HasFailureAppend(t: seq<Incident>, x: Option<Incident>, y: Option<Incident>, f: FailureType)
    ensures HasFailure(t + Listed(x) + Listed(y), f) <==>
            HasFailure(t, f) || (x.Some? && x.value.failure == f) || (y.Some? && y.value.failure == f)
  {
    var u := t + Listed(x) + Listed(y);
    forall z | z in t ensures z in u {}
    if x.Some? { assert u[|t|] == x.value; }
    if y.Some? { assert u[|u| - 1] == y.value; }
  }

  lemma RunFirstStep(cfg: Config, s: seq<Event>, t: seq<Incident>, e: Event, x: Option<Incident>, y: Option<Incident>)
    requires RunFirst(cfg, s, t)
    requires Contribution(cfg, StuckLoopDetector, s, e, t, x)
    requires Contribution(cfg, BudgetDetector, s, e, t, y)
    ensures RunFirst(cfg, s + [e], t + Listed(x) + Listed(y))
  {
    hide Fires, First, HasFailure;
    var u, s1 := t + Listed(x) + Listed(y), s + [e];
    forall which ensures First(cfg, which, s1).Some? <==> HasFailure(u, FailureOf(which)) {
      FirstAppend(cfg, which, s, e);
      HasFailureAppend(t, x, y, FailureOf(which));
      assert Contribution(cfg, which, s, e, t, if which.StuckLoopDetector? then x else y);
    }
    forall z | z in u
      ensures First(cfg, Watcher(z.failure), s1).Some? && First(cfg, Watcher(z.failure), s1).value <= |s1|
      ensures Captures(cfg, z, s1[..First(cfg, Watcher(z.failure), s1).value])
    {
      var which := Watcher(z.failure);
      FirstAppend(cfg, which, s, e);
      if z in t {
        var n := First(cfg, which, s).value;
        assert s1[..n] == s[..n];
      } else {
        assert x == Some(z) || y == Some(z);
        assert FailureOf(which) == z.failure;
        assert s1[..|s1|] == s1;
      }
    }
  }

  lemma StoredIsHasFailure(db: Db, r: Id, f: FailureType)
    requires IncidentsOk(db)
    ensures HasIncident(db, r, f, VERSION) <==> HasFailure(At(db.incidents, r), f)
  {}

  /** A detector's turn on a new event, in a state whose memory is exact. */
  lemma TurnContributes(cfg: Config, st: State, s: seq<Event>, e: Event, which: Detector, id: Id, pending: set<Key>)
    requires At(st.db.events, e.run) == s + [e]
    requires which.BudgetDetector? && cfg.budgetEnabled ==> Spent(st.cumulative, e.run) == SumCost(s)
    requires IncidentsOk(st.db) && MemoryOk(st, pending, true)
    requires Key(e.run, FailureOf(which), VERSION) !in pending
    ensures Contribution(cfg, which, s, e, At(st.db.incidents, e.run), EvaluateOne(cfg, st, e, which, id).1)
  {
    hide Fires, HasFailure, Detect, HasIncident;
    DetectFires(cfg, st, s, e, which);
    var key := Key(e.run, FailureOf(which), VERSION);
    assert key in st.emitted <==> Stored(st.db, key);
    StoredIsHasFailure(st.db, e.run, FailureOf(which));
  }

  lemma PublishStores(cfg: Config, db: Db, x: Option<Incident>)
    requires x.Some? ==> !HasIncident(db, x.value.run, x.value.failure, x.value.version)
    ensures var db1 := Publish(cfg, db, x);
      && db1.incidents == (if x.None? then db.incidents
                           else db.incidents[x.value.run := At(db.incidents, x.value.run) + [x.value]])
  {
    hide OnIncident, Adds;
    if x.Some? {
      var suffix := IncidentTrail(cfg, SaveIncident(db, x.value), x.value);
    }
  }

  lemma TurnRows(cfg: Config, st: State, e: Event, which: Detector, id: Id)
    ensures var st1 := EvaluateOne(cfg, st, e, which, id).0;
      && PausesOnly(st.db, st1.db, e.run)
      && st1.db.incidents == st.db.incidents
      && st1.cumulative == (if which.BudgetDetector? then Accumulate(cfg, st.cumulative, e) else st.cumulative)
  {
    hide RepeatFailure, Adds, HasVerdict, ResumedIncident, Detect;
    EvaluateShape(cfg, st, e, which, id);
    RepeatRows(st.db, e.run);
    var suffix := RepeatTrail(st.db, e.run);
  }

  /** Booking and storing a new event. */
  lemma StoredEvent(cfg: Config, st: State, e: Event) returns (st0: State)
    requires Inv(st, {}, true) && e.key !in st.db.keys
    ensures st0 == st.(db := SaveEvent(Book(cfg, st.db, e), e)) && e.key !in Book(cfg, st.db, e).keys
    ensures Inv(st0, {}, true)
    ensures st0.db.events == st.db.events[e.run := At(st.db.events, e.run) + [e]]
    ensures st0.db.incidents == st.db.incidents
  {
    hide Book, Inv;
    var booked := Book(cfg, st.db, e);
    BookRows(cfg, st.db, e);
    BookInv(cfg, st, e, {}, true);
    st0 := st.(db := SaveEvent(booked, e));
    AddsNothing(booked, st0.db, e.run);
    AddedKeeps(st.(db := booked), st0, {}, true, e.run, []);
  }

  /** Both detectors' turns on the stored event. */
  lemma BothTurns(cfg: Config, st: State, s: seq<Event>, e: Event, ids: (Id, Id))
    requires Inv(st, {}, true) && At(st.db.events, e.run) == s + [e]
    requires cfg.budgetEnabled ==> Spent(st.cumulative, e.run) == SumCost(s)
    ensures var (st2, x, y) := EvaluateBoth(cfg, st, e, ids);
      && st2.db.events == st.db.events && st2.db.incidents == st.db.incidents
      && st2.cumulative == Accumulate(cfg, st.cumulative, e)
      && Contribution(cfg, StuckLoopDetector, s, e, At(st.db.incidents, e.run), x)
      && Contribution(cfg, BudgetDetector, s, e, At(st.db.incidents, e.run), y)
      && (x.Some? ==> x.value.run == e.run && !Stored(st2.db, KeyOf(x.value)))
      && (y.Some? ==> y.value.run == e.run && !Stored(st2.db, KeyOf(y.value)))
  {
    hide EvaluateOne, Fires, Accumulate, SumCost, Captures, HasFailure, Stored;
    hide Inv, MemoryOk, IncidentsOk, HasIncident;
    var (st1, x) := EvaluateOne(cfg, st, e, StuckLoopDetector, ids.0);
    TurnRows(cfg, st, e, StuckLoopDetector, ids.0);
    EvaluateKeys(cfg, st, e, StuckLoopDetector, ids.0);
    EvaluateInv(cfg, st, e, StuckLoopDetector, ids.0, {}, true);
    InvMemory(st, {});
    TurnContributes(cfg, st, s, e, StuckLoopDetector, ids.0, {});
    var (st2, y) := EvaluateOne(cfg, st1, e, BudgetDetector, ids.1);
    TurnRows(cfg, st1, e, BudgetDetector, ids.1);
    EvaluateKeys(cfg, st1, e, BudgetDetector, ids.1);
    EvaluateInv(cfg, st1, e, BudgetDetector, ids.1, {} + KeysOf(x), true);
    InvMemory(st1, {} + KeysOf(x));
    InvMemory(st2, {} + KeysOf(x) + KeysOf(y));
    TurnContributes(cfg, st1, s, e, BudgetDetector, ids.1, {} + KeysOf(x));
    if x.Some? { NotStored(st2, KeyOf(x.value), {} + KeysOf(x) + KeysOf(y)); }
    if y.Some? { NotStored(st2, KeyOf(y.value), {} + KeysOf(x) + KeysOf(y)); }
  }

  lemma PublishBoth(cfg: Config, db: Db, x: Option<Incident>, y: Option<Incident>, r: Id)
    requires x.Some? ==> x.value.run == r && !Stored(db, KeyOf(x.value))
    requires y.Some? ==> y.value.run == r && !Stored(db, KeyOf(y.value))
    requires x.Some? && y.Some? ==> x.value.failure != y.value.failure
    ensures var db1 := Publish(cfg, Publish(cfg, db, x), y);
      && db1.events == db.events
      && (forall q | q != r :: At(db1.incidents, q) == At(db.incidents, q))
      && At(db1.incidents, r) == At(db.incidents, r) + Listed(x) + Listed(y)
  {
    hide Publish, HasIncident;
    PublishStores(cfg, db, x);
    var db1 := Publish(cfg, db, x);
    PublishRows(cfg, db, x, r);
    if y.Some? { StillMissing(db, db1, x, y.value); }
    PublishStores(cfg, db1, y);
    PublishRows(cfg, db1, y, r);
  }

  /** The rows a new event leaves behind. */
  lemma NewEventRows(cfg: Config, st: State, e: Event, ids: (Id, Id)) returns (x: Option<Incident>, y: Option<Incident>)
    requires Inv(st, {}, true) && SumsOk(cfg, st) && e.key !in st.db.keys
    ensures var st1 := ProcessEvent(cfg, st, e, ids);
      var s, t := At(st.db.events, e.run), At(st.db.incidents, e.run);
      && st1.db.events == st.db.events[e.run := s + [e]]
      && st1.cumulative == Accumulate(cfg, st.cumulative, e)
      && (forall q | q != e.run :: At(st1.db.incidents, q) == At(st.db.incidents, q))
      && At(st1.db.incidents, e.run) == t + Listed(x) + Listed(y)
      && Contribution(cfg, StuckLoopDetector, s, e, t, x)
      && Contribution(cfg, BudgetDetector, s, e, t, y)
  {
    hide Book, EvaluateBoth, Publish, Accumulate, SumCost, Stored, SaveEvent, Inv, Fires, HasFailure, Captures;
    var s := At(st.db.events, e.run);
    var st0 := StoredEvent(cfg, st, e);
    BothTurns(cfg, st0, s, e, ids);
    var (st2, x0, y0) := EvaluateBoth(cfg, st0, e, ids);
    x, y := x0, y0;
    PublishBoth(cfg, st2.db, x, y, e.run);
  }

  lemma InvMemory(st: State, pending: set<Key>)
    requires Inv(st, pending, true)
    ensures IncidentsOk(st.db) && MemoryOk(st, pending, true)
  {}

  lemma NotStored(st: State, k: Key, pending: set<Key>)
    requires MemoryOk(st, pending, true) && k in pending
    ensures !HasIncident(st.db, k.run, k.failure, k.version)
  {
    assert Stored(st.db, k) ==> k !in pending;
  }

  lemma StillMissing(db: Db, db1: Db, x: Option<Incident>, y: Incident)
    requires !HasIncident(db, y.run, y.failure, y.version)
    requires x.Some? ==> x.value.failure != y.failure
    requires db1.incidents == (if x.None? then db.incidents
                               else db.incidents[x.value.run := At(db.incidents, x.value.run) + [x.value]])
    ensures !HasIncident(db1, y.run, y.failure, y.version)
  {
    forall z | z in At(db1.incidents, y.run) ensures z.failure != y.failure || z.version != y.version {
      assert z in At(db.incidents, y.run) || (x.Some? && z == x.value);
    }
  }

  ghost predicate Accounted(cfg: Config, st: State) {
    SumsOk(cfg, st) && IncidentsFirst(cfg, st.db)
  }

  lemma SumsAfter(cfg: Config, st: State, st1: State, e: Event)
    requires SumsOk(cfg, st)
    requires st1.db.events == st.db.events[e.run := At(st.db.events, e.run) + [e]]
    requires st1.cumulative == Accumulate(cfg, st.cumulative, e)
    ensures SumsOk(cfg, st1)
  {
    hide SumCost;
    var s := At(st.db.events, e.run);
    SumAppend(s, e);
    forall r ensures Spent(st1.cumulative, r) == if cfg.budgetEnabled then SumCost(At(st1.db.events, r)) else 0.0 {
      assert Spent(st.cumulative, r) == if cfg.budgetEnabled then SumCost(At(st.db.events, r)) else 0.0;
      if r == e.run { assert At(st1.db.events, r) == s + [e]; }
    }
  }

  lemma FirstsAfter(cfg: Config, db: Db, db1: Db, e: Event, x: Option<Incident>, y: Option<Incident>)
    requires IncidentsFirst(cfg, db)
    requires db1.events == db.events[e.run := At(db.events, e.run) + [e]]
    requires forall q | q != e.run :: At(db1.incidents, q) == At(db.incidents, q)
    requires At(db1.incidents, e.run) == At(db.incidents, e.run) + Listed(x) + Listed(y)
    requires Contribution(cfg, StuckLoopDetector, At(db.events, e.run), e, At(db.incidents, e.run), x)
    requires Contribution(cfg, BudgetDetector, At(db.events, e.run), e, At(db.incidents, e.run), y)
    ensures IncidentsFirst(cfg, db1)
  {
    hide RunFirst, Contribution;
    assert RunFirst(cfg, At(db.events, e.run), At(db.incidents, e.run));
    RunFirstStep(cfg, At(db.events, e.run), At(db.incidents, e.run), e, x, y);
  }

  lemma AccountedFrame(cfg: Config, st: State, st1: State)
    requires Accounted(cfg, st)
    requires forall r ::
               At(st1.db.events, r) == At(st.db.events, r) && At(st1.db.incidents, r) == At(st.db.incidents, r)
    requires st1.cumulative == st.cumulative
    ensures Accounted(cfg, st1)
  {
    hide RunFirst, SumCost;
    forall r ensures RunFirst(cfg, At(st1.db.events, r), At(st1.db.incidents, r)) {
      assert RunFirst(cfg, At(st.db.events, r), At(st.db.incidents, r));
    }
  }

  lemma OtherStepsKeepIncidents(cfg: Config, st: State, step: Step)
    requires PlansInv(st.db) && Legal(st, step) && !step.Deliver?
    ensures Next(cfg, st, step).db.incidents == st.db.incidents
  {
    hide PlansInv, Quiet, PlanFor, NewAction, Automates;
    if step.MakePlan? {
      var db1, db2, a := MakePlanTrail(cfg, st.db, step.x, step.planId, step.actionId, step.ai);
      QuietIncidents(st.db, db1);
      QuietIncidents(db2, Next(cfg, st, step).db);
    } else {
      OtherStepsQuiet(cfg, st, step);
      QuietIncidents(st.db, Next(cfg, st, step).db);
    }
  }

  lemma StepAccounted(cfg: Config, st: State, step: Step)
    requires Accounted(cfg, st) && Inv(st, {}, true) && PlansInv(st.db) && Legal(st, step) && !step.Restart?
    ensures Accounted(cfg, Next(cfg, st, step))
  {
    hide Accounted, Inv, PlansInv, ProcessEvent, NewAction, Contribution, SumsOk, IncidentsFirst;
    var st1 := Next(cfg, st, step);
    if step.Deliver? {
      var e := step.e;
      assert SumsOk(cfg, st) && IncidentsFirst(cfg, st.db) by { AccountedParts(cfg, st); }
      if e.key in st.db.keys {
        DuplicateFrame(cfg, st, e, step.ids);
        AccountedFrame(cfg, st, st1);
      } else {
        var x, y := NewEventRows(cfg, st, e, step.ids);
        SumsAfter(cfg, st, st1, e);
        FirstsAfter(cfg, st.db, st1.db, e, x, y);
        AccountedOf(cfg, st1);
      }
    } else {
      OtherStepsKeepIncidents(cfg, st, step);
      SameMemory(cfg, st, step);
      forall r ensures At(st1.db.events, r) == At(st.db.events, r) {
        OtherStepsDrift(cfg, st, step, r);
      }
      AccountedFrame(cfg, st, st1);
    }
  }

  lemma AccountedParts(cfg: Config, st: State)
    requires Accounted(cfg, st)
    ensures SumsOk(cfg, st) && IncidentsFirst(cfg, st.db)
  {}

  lemma AccountedOf(cfg: Config, st: State)
    requires SumsOk(cfg, st) && IncidentsFirst(cfg, st.db)
    ensures Accounted(cfg, st)
  {}

  lemma DuplicateFrame(cfg: Config, st: State, e: Event, ids: (Id, Id))
    requires e.key in st.db.keys
    ensures var st1 := ProcessEvent(cfg, st, e, ids);
      st1.db.events == st.db.events && st1.db.incidents == st.db.incidents
      && st1.cumulative == st.cumulative && st1.emitted == st.emitted
  {
    hide Book, EvaluateBoth;
    BookRows(cfg, st.db, e);
  }

  lemma {:induction false} TraceAccounted(cfg: Config, steps: seq<Step>)
    requires LegalTrace(cfg, INITIAL, steps) && OneLifetime(steps)
    ensures Accounted(cfg, Trace(cfg, INITIAL, steps))
  {
    if steps == [] {
      assert Accounted(cfg, INITIAL);
    } else {
      hide Legal, Next, Inv, PlansInv, Accounted;
      var front := steps[..|steps| - 1];
      LegalPrefix(cfg, INITIAL, steps);
      TraceAccounted(cfg, front);
      ReachablePlans(cfg, front);
      TraceInv(cfg, front);
      StepAccounted(cfg, Trace(cfg, INITIAL, front), Last(steps));
    }
  }

  /** In one engine lifetime, a run has an incident of a kind exactly when some stored event,
      seen with the events stored before it, satisfied that detector; the incident was triggered
      by the first such event and reports what was observed there. */
  lemma IncidentsAreFirstMatches(cfg: Config, steps: seq<Step>, r: Id, which: Detector)
    requires LegalTrace(cfg, INITIAL, steps) && OneLifetime(steps)
    ensures var db := Trace(cfg, INITIAL, steps).db;
      var s, t := At(db.events, r), At(db.incidents, r);
      && (HasFailure(t, FailureOf(which)) <==> exists n :: 0 < n <= |s| && Fires(cfg, which, s[..n]))
      && forall x | x in t && x.failure == FailureOf(which) ::
           exists n | 0 < n <= |s| ::
             Fires(cfg, which, s[..n]) && Captures(cfg, x, s[..n]) && forall m | 0 < m < n :: !Fires(cfg, which, s[..m])
  {
    hide Trace, LegalTrace, SumsOk, Fires, Captures, HasFailure;
    TraceAccounted(cfg, steps);
    var db := Trace(cfg, INITIAL, steps).db;
    var s, t := At(db.events, r), At(db.incidents, r);
    assert RunFirst(cfg, s, t);
    FirstIsFirst(cfg, which, s);
    forall x | x in t && x.failure == FailureOf(which)
      ensures exists n | 0 < n <= |s| ::
        Fires(cfg, which, s[..n]) && Captures(cfg, x, s[..n]) && forall m | 0 < m < n :: !Fires(cfg, which, s[..m])
    {
      var n := First(cfg, Watcher(x.failure), s).value;
      assert Captures(cfg, x, s[..n]);
    }
  }

  // ---- run totals ----

  function Total(db: Db, r: Id): real {
    if r in db.runs then db.runs[r].cost.GetOr(0.0) else 0.0
  }

  /** The cost of the steps' deliveries to a run that the events table turned away. */
  function Duplicates(cfg: Config, st: State, steps: seq<Step>, r: Id): real {
    if steps == [] then 0.0
    else
      var front, step := steps[..|steps| - 1], Last(steps);
      Duplicates(cfg, st, front, r) +
      if step.Deliver? && step.e.run == r && step.e.key in Trace(cfg, st, front).db.keys then Charge(step.e) else 0.0
  }

  lemma AdvanceTotals(row: Run, e: Event)
    ensures MergeRun(row, Advance(row, e)).cost.GetOr(0.0) == row.cost.GetOr(0.0) + Charge(e)
  {}

  lemma DeliverTotals(cfg: Config, st: State, e: Event, ids: (Id, Id), r: Id)
    ensures var db := ProcessEvent(cfg, st, e, ids).db;
            Total(db, r) == Total(st.db, r) + if r == e.run then Charge(e) else 0.0
    ensures e.key in Book(cfg, st.db, e).keys <==> e.key in st.db.keys
  {
    hide Book, EvaluateBoth, Advance, MergeRun, Charge;
    var row := if e.run in st.db.runs then st.db.runs[e.run] else NewRun(cfg, e);
    BookRows(cfg, st.db, e);
    AdvanceTotals(row, e);
    DetectRows(cfg, st, e, ids);
  }

  lemma StepTotals(cfg: Config, st: State, step: Step, r: Id)
    requires SumsOk(cfg, st) && SumsOk(cfg, Next(cfg, st, step)) && cfg.budgetEnabled
    requires step.Deliver? && step.e.key !in st.db.keys ==>
      At(Next(cfg, st, step).db.events, r) == At(st.db.events, r) + if r == step.e.run then [step.e] else []
    requires !(step.Deliver? && step.e.key !in st.db.keys) ==>
               At(Next(cfg, st, step).db.events, r) == At(st.db.events, r)
    ensures var st1 := Next(cfg, st, step);
      Total(st1.db, r) - Spent(st1.cumulative, r) == Total(st.db, r) - Spent(st.cumulative, r) +
        if step.Deliver? && step.e.run == r && step.e.key in st.db.keys then Charge(step.e) else 0.0
  {
    hide Charge, Next, SumCost;
    var st1 := Next(cfg, st, step);
    if step.Deliver? {
      assert st1 == ProcessEvent(cfg, st, step.e, step.ids) by { DeliverNext(cfg, st, step); }
      DeliverTotals(cfg, st, step.e, step.ids, r);
      SumAppend(At(st.db.events, r), step.e);
      assert At(st.db.events, r) + [] == At(st.db.events, r);
    } else {
      OtherStepsDrift(cfg, st, step, r);
    }
  }

  lemma DeliverNext(cfg: Config, st: State, step: Step)
    requires step.Deliver?
    ensures Next(cfg, st, step) == ProcessEvent(cfg, st, step.e, step.ids)
  {}

  lemma EventsAfter(cfg: Config, st: State, step: Step, r: Id)
    requires Inv(st, {}, true) && SumsOk(cfg, st)
    ensures step.Deliver? && step.e.key !in st.db.keys ==>
      At(Next(cfg, st, step).db.events, r) == At(st.db.events, r) + if r == step.e.run then [step.e] else []
    ensures !(step.Deliver? && step.e.key !in st.db.keys) ==>
              At(Next(cfg, st, step).db.events, r) == At(st.db.events, r)
  {
    hide Inv, SumsOk, ProcessEvent, Contribution, Accumulate;
    if step.Deliver? {
      if step.e.key in st.db.keys {
        DuplicateFrame(cfg, st, step.e, step.ids);
      } else {
        var x, y := NewEventRows(cfg, st, step.e, step.ids);
        assert At(st.db.events, r) + [] == At(st.db.events, r);
      }
    } else {
      OtherStepsDrift(cfg, st, step, r);
    }
  }

  /** The detector's sum for a run is the cost of its stored events; the run's total exceeds it by
      exactly the cost of the duplicates that were delivered. */
  lemma {:induction false} CostAccounting(cfg: Config, steps: seq<Step>, r: Id)
    requires LegalTrace(cfg, INITIAL, steps) && OneLifetime(steps) && cfg.budgetEnabled
    ensures var st := Trace(cfg, INITIAL, steps);
      && Spent(st.cumulative, r) == SumCost(At(st.db.events, r))
      && Total(st.db, r) - Spent(st.cumulative, r) == Duplicates(cfg, INITIAL, steps, r)
  {
    TraceAccounted(cfg, steps);
    if steps != [] {
      hide Legal, Next, Inv, Charge, IncidentsFirst, Total, SumsOk;
      var front := steps[..|steps| - 1];
      var st := Trace(cfg, INITIAL, front);
      LegalPrefix(cfg, INITIAL, steps);
      CostAccounting(cfg, front, r);
      TraceInv(cfg, front);
      TraceAccounted(cfg, front);
      EventsAfter(cfg, st, Last(steps), r);
      StepTotals(cfg, st, Last(steps), r);
      SumsFor(cfg, Trace(cfg, INITIAL, steps), r);
    }
  }

  lemma SumsFor(cfg: Config, st: State, r: Id)
    requires SumsOk(cfg, st)
    ensures Spent(st.cumulative, r) == if cfg.budgetEnabled then SumCost(At(st.db.events, r)) else 0.0
  {}

  lemma {:induction false} SumGrows(s: seq<Event>, n: nat)
    requires n <= |s|
    ensures SumCost(s[..n]) <= SumCost(s)
  {
    if n == |s| {
      assert s[..n] == s;
    } else {
      SumGrows(s[..|s| - 1], n);
      assert s[..|s| - 1][..n] == s[..n];
    }
  }

  /** Once the limit is reached exactly the further events with a cost of zero or more match. */
  lemma BudgetKeepsMatching(cfg: Config, s: seq<Event>, n: nat, e: Event)
    requires 0 < n <= |s| && Fires(cfg, BudgetDetector, s[..n])
    ensures Fires(cfg, BudgetDetector, s + [e]) <==> e.cost.Some? && e.cost.value >= 0.0
  {
    SumGrows(s, n);
    SumAppend(s, e);
  }

  /** The newest event of a history completes a call of a named tool that is not ignored, and with it
      the history ends in threshold - 1 completed calls that agree in tool, arguments and response. */
  ghost predicate CompletesLoop(cfg: Config, s: seq<Event>)
    requires s != [] && cfg.threshold >= 1
  {
    var e := s[|s| - 1];
    && cfg.stuckEnabled
    && e.kind == ToolCompleted && e.tool.Some? && e.tool.value != "" && e.tool.value !in cfg.ignored
    && EndsInRepeats(s, cfg.threshold - 1, e)
  }

  /** With growing sequence numbers the loop detector fires on a stored event exactly if that
      completes a loop. */
  lemma LoopFiresOnStreak(cfg: Config, s: seq<Event>)
    requires s != [] && Increasing(s) && cfg.threshold >= 1
    ensures Fires(cfg, StuckLoopDetector, s) <==> CompletesLoop(cfg, s)
  {
    hide StuckDetect, EndsInRepeats;
    StuckLoopExactly(cfg, s, Last(s));
  }

  ghost predicate SomeLoop(cfg: Config, s: seq<Event>)
    requires cfg.threshold >= 1
  {
    exists n | 0 < n <= |s| :: CompletesLoop(cfg, s[..n])
  }

  /** Some event with a cost of zero or more finds the costs so far at the limit. */
  ghost predicate SomeOverspend(cfg: Config, s: seq<Event>) {
    exists n | 0 < n <= |s| ::
      s[..n][n - 1].cost.Some? && s[..n][n - 1].cost.value >= 0.0 && SumCost(s[..n]) >= cfg.maxCost
  }

  ghost predicate SomeFires(cfg: Config, which: Detector, s: seq<Event>) {
    exists n :: 0 < n <= |s| && Fires(cfg, which, s[..n])
  }

  lemma LoopHistories(cfg: Config, s: seq<Event>)
    requires Increasing(s) && cfg.threshold >= 1
    ensures SomeFires(cfg, StuckLoopDetector, s) <==> SomeLoop(cfg, s)
  {
    forall n | 0 < n <= |s| ensures Fires(cfg, StuckLoopDetector, s[..n]) <==> CompletesLoop(cfg, s[..n]) {
      hide Fires, CompletesLoop;
      LoopFiresOnStreak(cfg, s[..n]);
    }
    hide Fires, CompletesLoop;
  }

  lemma BudgetHistories(cfg: Config, s: seq<Event>)
    ensures SomeFires(cfg, BudgetDetector, s) <==> cfg.budgetEnabled && SomeOverspend(cfg, s)
  {
    forall n | 0 < n <= |s|
      ensures Fires(cfg, BudgetDetector, s[..n]) <==>
              cfg.budgetEnabled && s[..n][n - 1].cost.Some? && s[..n][n - 1].cost.value >= 0.0
              && SumCost(s[..n]) >= cfg.maxCost
    {
      assert Last(s[..n]) == s[..n][n - 1];
      hide SumCost;
    }
    hide Fires, SumCost;
  }

  /** Over one engine lifetime: a run whose events are numbered in order has a stuck-loop incident
      exactly if some stored event completed a loop, and has a budget incident exactly if some stored
      event with a cost of zero or more found the costs so far at the limit. */
  lemma IncidentsExactly(cfg: Config, steps: seq<Step>, r: Id)
    requires LegalTrace(cfg, INITIAL, steps) && OneLifetime(steps) && cfg.threshold >= 1
    requires Increasing(At(Trace(cfg, INITIAL, steps).db.events, r))
    ensures var s, t := At(Trace(cfg, INITIAL, steps).db.events, r), At(Trace(cfg, INITIAL, steps).db.incidents, r);
      && ((exists x <- t :: x.failure == StuckLoop) <==> SomeLoop(cfg, s))
      && ((exists x <- t :: x.failure == BudgetExceeded) <==> cfg.budgetEnabled && SomeOverspend(cfg, s))
  {
    var s, t := At(Trace(cfg, INITIAL, steps).db.events, r), At(Trace(cfg, INITIAL, steps).db.incidents, r);
    FiresMakeIncidents(cfg, steps, r, StuckLoopDetector);
    FiresMakeIncidents(cfg, steps, r, BudgetDetector);
    LoopHistories(cfg, s);
    BudgetHistories(cfg, s);
    assert forall f :: HasFailure(t, f) <==> exists x <- t :: x.failure == f;
    hide *;
  }

  lemma FiresMakeIncidents(cfg: Config, steps: seq<Step>, r: Id, which: Detector)
    requires LegalTrace(cfg, INITIAL, steps) && OneLifetime(steps)
    ensures var db := Trace(cfg, INITIAL, steps).db;
      HasFailure(At(db.incidents, r), if which.StuckLoopDetector? then StuckLoop else BudgetExceeded)
      <==> SomeFires(cfg, which, At(db.events, r))
  {
    IncidentsAreFirstMatches(cfg, steps, r, which);
    hide Trace, LegalTrace, Captures, HasFailure, Fires;
  }
}
