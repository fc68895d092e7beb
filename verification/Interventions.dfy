/** Dedup memory and bounded intervention: the engine remembers exactly the stored incidents, and
    a run is paused at most once per incident and once more per failed recovery. */
module Interventions {
  import opened Records
  import opened Tables
  import opened Detectors
  import opened Protection
  import opened Collector
  import opened Recovery
  import opened ControlPlane
  import opened Trails
  import opened Lifecycle
  import opened Verdicts

  // ---- the invariant ----

  /** One incident per run and kind of failure, of a severity the policy sends to the AI. */
  ghost predicate IncidentsOk(db: Db) {
    && (forall r, x | x in At(db.incidents, r) :: x.run == r && x.version == VERSION && ShouldInvokeAi(x))
    && (forall r, i, j | 0 <= i < j < |At(db.incidents, r)| ::
          At(db.incidents, r)[i].failure != At(db.incidents, r)[j].failure)
  }

  predicate Stored(db: Db, k: Key) {
    HasIncident(db, k.run, k.failure, k.version)
  }

  /** What the engine has emitted is stored or about to be; in the first lifetime it is exactly
      that, and what is about to be stored is new. */
  ghost predicate MemoryOk(st: State, pending: set<Key>, exact: bool) {
    && (forall k <- st.emitted :: Stored(st.db, k) || k in pending)
    && (exact ==> forall k :: Stored(st.db, k) ==> k in st.emitted && k !in pending)
  }

  /** Trails name their own run's incidents, and a repeated failure always names one. */
  ghost predicate TrailsOk(db: Db) {
    forall r, a | a in At(db.audits, r) :: Own(db, r, a.incident) && (IsRepeat(a) ==> a.incident.Some?)
  }

  function Pauses(db: Db, r: Id): nat {
    Count(At(db.audits, r), IsPause)
  }

  function Repeats(db: Db, r: Id): nat {
    Count(At(db.audits, r), IsRepeat)
  }

  /** Every successful pause is paid for by a stored incident or a repeated failure. */
  ghost predicate Paid(db: Db) {
    forall r :: Pauses(db, r) <= |At(db.incidents, r)| + Repeats(db, r)
  }

  ghost predicate Inv(st: State, pending: set<Key>, exact: bool) {
    && IncidentsOk(st.db)
    && MemoryOk(st, pending, exact)
    && (exact ==> TrailsOk(st.db) && Paid(st.db))
  }

  // ---- preservation ----

  lemma QuietKeeps(st: State, st1: State, pending: set<Key>, exact: bool)
    requires Inv(st, pending, exact)
    requires Quiet(st.db, st1.db) && st1.emitted == st.emitted
    ensures Inv(st1, pending, exact)
  {
    assert MemoryOk(st1, pending, exact) by { hide Quiet, Noise; QuietIncidents(st.db, st1.db); }
    QuietIncidents(st.db, st1.db);
    if exact {
      forall r ensures Pauses(st1.db, r) == Pauses(st.db, r) && Repeats(st1.db, r) == Repeats(st.db, r) {
        forall k | |At(st.db.audits, r)| <= k < |At(st1.db.audits, r)|
          ensures !IsPause(At(st1.db.audits, r)[k]) && !IsRepeat(At(st1.db.audits, r)[k])
        {
          assert Noise(st.db, r, At(st1.db.audits, r)[k]);
        }
        QuietCount(At(st.db.audits, r), At(st1.db.audits, r), IsPause);
        QuietCount(At(st.db.audits, r), At(st1.db.audits, r), IsRepeat);
      }
      forall r, a | a in At(st1.db.audits, r) ensures Own(st1.db, r, a.incident) && (IsRepeat(a) ==> a.incident.Some?) {
        var k :| 0 <= k < |At(st1.db.audits, r)| && At(st1.db.audits, r)[k] == a;
        if k < |At(st.db.audits, r)| {
          assert At(st.db.audits, r)[k] == a;
        } else {
          assert Noise(st.db, r, a);
        }
      }
    }
  }

  /** A suffix that adds no more pauses than verdicts of failure. */
  ghost predicate Balanced(db: Db, r: Id, suffix: seq<Audit>) {
    && |suffix| <= 2
    && (forall a <- suffix :: Own(db, r, a.incident) && (IsRepeat(a) ==> a.incident.Some?))
    && (suffix != [] ==> !IsPause(suffix[0]))
    && (|suffix| == 2 ==> IsRepeat(suffix[0]) && !IsRepeat(suffix[1]))
  }

  lemma CountTwo(s: seq<Audit>, t: seq<Audit>, p: Audit -> bool)
    requires |t| <= 2
    ensures Count(s + t, p) ==
            Count(s, p) + (if |t| > 0 && p(t[0]) then 1 else 0) + (if |t| > 1 && p(t[1]) then 1 else 0)
  {
    if |t| == 0 {
      assert s + t == s;
    } else {
      CountAppend(s, t[0], p);
      if |t| == 2 {
        assert s + t == (s + [t[0]]) + [t[1]];
        CountAppend(s + [t[0]], t[1], p);
      } else {
        assert s + t == s + [t[0]];
      }
    }
  }

  lemma AddedKeeps(st: State, st1: State, pending: set<Key>, exact: bool, r: Id, suffix: seq<Audit>)
    requires Inv(st, pending, exact)
    requires st1.db.incidents == st.db.incidents && st1.emitted == st.emitted
    requires Adds(st.db, st1.db, r, suffix)
    requires exact ==> Balanced(st.db, r, suffix)
    ensures Inv(st1, pending, exact)
  {
    hide Adds, Paid, TrailsOk, IncidentsOk, MemoryOk, Balanced;
    MemoryFrame(st, st1, pending, exact);
    assert IncidentsOk(st1.db) by { IncidentsFrame(st.db, st1.db); }
    if exact {
      PaidExtended(st.db, st1.db, r, suffix);
      assert forall a <- suffix :: Own(st.db, r, a.incident) && (IsRepeat(a) ==> a.incident.Some?) by {
        BalancedParts(st.db, r, suffix);
      }
      TrailsExtended(st.db, st1.db, r, suffix);
    }
  }

  lemma IncidentsFrame(db: Db, db1: Db)
    requires IncidentsOk(db) && db1.incidents == db.incidents
    ensures IncidentsOk(db1)
  {}

  lemma BalancedParts(db: Db, r: Id, suffix: seq<Audit>)
    requires Balanced(db, r, suffix)
    ensures forall a <- suffix :: Own(db, r, a.incident) && (IsRepeat(a) ==> a.incident.Some?)
  {}

  lemma PaidExtended(db: Db, db1: Db, r: Id, suffix: seq<Audit>)
    requires Paid(db) && Adds(db, db1, r, suffix) && Balanced(db, r, suffix) && db1.incidents == db.incidents
    ensures Paid(db1)
  {
    var s := At(db.audits, r);
    CountTwo(s, suffix, IsPause);
    CountTwo(s, suffix, IsRepeat);
    forall q ensures Pauses(db1, q) <= |At(db1.incidents, q)| + Repeats(db1, q) {
      if q != r { assert At(db1.audits, q) == At(db.audits, q); }
    }
  }

  lemma TrailsExtended(db: Db, db1: Db, r: Id, suffix: seq<Audit>)
    requires TrailsOk(db) && Adds(db, db1, r, suffix) && db1.incidents == db.incidents
    requires forall a <- suffix :: Own(db, r, a.incident) && (IsRepeat(a) ==> a.incident.Some?)
    ensures TrailsOk(db1)
  {
    forall q, a | a in At(db1.audits, q) ensures Own(db1, q, a.incident) && (IsRepeat(a) ==> a.incident.Some?) {
      assert a in At(db.audits, q) || (q == r && a in suffix);
    }
  }

  lemma ResumedIsOwn(db: Db, r: Id)
    requires TrailsOk(db)
    ensures Own(db, r, ResumedIncident(At(db.audits, r)))
  {
    ResumedIsLogged(At(db.audits, r));
  }

  lemma BookInv(cfg: Config, st: State, e: Event, pending: set<Key>, exact: bool)
    requires Inv(st, pending, exact)
    ensures Inv(st.(db := Book(cfg, st.db, e)), pending, exact)
  {
    hide Book, Inv, Adds, HasVerdict, LatestResume, ResumedIncident;
    var suffix := BookTrail(cfg, st.db, e);
    BookRows(cfg, st.db, e);
    if exact {
      assert TrailsOk(st.db) by { InvParts(st, pending, exact); }
      ResumedIsOwn(st.db, e.run);
    }
    AddedKeeps(st, st.(db := Book(cfg, st.db, e)), pending, exact, e.run, suffix);
  }

  lemma InvParts(st: State, pending: set<Key>, exact: bool)
    requires Inv(st, pending, exact)
    ensures MemoryOk(st, pending, exact)
    ensures exact ==> TrailsOk(st.db) && Paid(st.db)
  {}

  function KeyOf(x: Incident): Key {
    Key(x.run, x.failure, x.version)
  }

  function KeysOf(x: Option<Incident>): set<Key> {
    if x.Some? then {KeyOf(x.value)} else {}
  }

  /** A detector's turn: silence, a repeat, or one new incident whose key is now remembered. */
  lemma EvaluateKeys(cfg: Config, st: State, e: Event, which: Detector, id: Id)
    ensures var (st1, x) := EvaluateOne(cfg, st, e, which, id);
      && (x.None? ==> st1.emitted == st.emitted)
      && (x.Some? ==>
            && st1.db == st.db
            && x.value.run == e.run && x.value.version == VERSION && x.value.id == id
            && x.value.failure == (if which.StuckLoopDetector? then StuckLoop else BudgetExceeded)
            && ShouldInvokeAi(x.value)
            && KeyOf(x.value) !in st.emitted
            && st1.emitted == st.emitted[KeyOf(x.value) := e.seqNo])
  {
    hide Window, RepeatFailure;
  }

  lemma RemembersNew(st: State, st1: State, k: Key, n: int, pending: set<Key>, exact: bool)
    requires Inv(st, pending, exact)
    requires st1.db == st.db && k !in st.emitted && st1.emitted == st.emitted[k := n]
    ensures Inv(st1, pending + {k}, exact)
  {
    hide TrailsOk, Paid, IncidentsOk;
  }

  lemma EvaluateInv(cfg: Config, st: State, e: Event, which: Detector, id: Id, pending: set<Key>, exact: bool)
    requires Inv(st, pending, exact)
    ensures var (st1, x) := EvaluateOne(cfg, st, e, which, id);
            Inv(st1, pending + KeysOf(x), exact)
  {
    hide EvaluateOne, Inv, Adds, RepeatFailure, HasVerdict, ResumedIncident;
    var (st1, x) := EvaluateOne(cfg, st, e, which, id);
    EvaluateShape(cfg, st, e, which, id);
    EvaluateKeys(cfg, st, e, which, id);
    if x.Some? {
      RemembersNew(st, st1, KeyOf(x.value), e.seqNo, pending, exact);
    } else {
      assert pending + KeysOf(x) == pending;
      if st1.db == st.db {
        AddsNothing(st.db, st1.db, e.run);
        AddedKeeps(st, st1, pending, exact, e.run, []);
      } else {
        var suffix := RepeatTrail(st.db, e.run);
        if exact {
          assert TrailsOk(st.db) by { InvParts(st, pending, exact); }
          ResumedIsOwn(st.db, e.run);
        }
        AddedKeeps(st, st1, pending, exact, e.run, suffix);
      }
    }
  }

  lemma SaveIncidentKeeps(st: State, x: Incident, pending: set<Key>, exact: bool)
    requires Inv(st, pending, exact)
    requires x.version == VERSION && ShouldInvokeAi(x) && KeyOf(x) in pending
    requires exact ==> pending <= st.emitted.Keys
    ensures var st1 := st.(db := SaveIncident(st.db, x));
      && IncidentsOk(st1.db)
      && MemoryOk(st1, pending - {KeyOf(x)}, exact)
      && (exact ==>
            && TrailsOk(st1.db) && OwnIncident(st1.db, x.run, x.id)
            && |At(st1.db.incidents, x.run)| == |At(st.db.incidents, x.run)| + 1)
  {
    var db1 := SaveIncident(st.db, x);
    var s := At(st.db.incidents, x.run);
    assert db1.audits == st.db.audits;
    forall k ensures Stored(db1, k) <==> Stored(st.db, k) || k == KeyOf(x) {
      hide TrailsOk, Paid, MemoryOk;
      StoredAfterSave(st.db, x, k);
    }
    IncidentsOkAfterSave(st.db, x);
    if !Stored(st.db, KeyOf(x)) {
      assert At(db1.incidents, x.run) == s + [x];
      if exact {
        forall r, a | a in At(db1.audits, r) ensures Own(db1, r, a.incident) {
          assert Own(st.db, r, a.incident);
          OwnAfterSave(st.db, x, r, a.incident);
        }
        assert x in At(db1.incidents, x.run);
      }
    }
  }

  lemma IncidentsOkAfterSave(db: Db, x: Incident)
    requires IncidentsOk(db) && x.version == VERSION && ShouldInvokeAi(x)
    ensures IncidentsOk(SaveIncident(db, x))
  {
    var s := At(db.incidents, x.run);
    var db1 := SaveIncident(db, x);
    forall r, y | y in At(db1.incidents, r) ensures y.run == r && y.version == VERSION && ShouldInvokeAi(y) {
      assert y in At(db.incidents, r) || (r == x.run && y == x);
    }
    if !Stored(db, KeyOf(x)) {
      forall i | 0 <= i < |s| ensures s[i].failure != x.failure {
        assert s[i] in s;
      }
      forall r, i, j | 0 <= i < j < |At(db1.incidents, r)|
        ensures At(db1.incidents, r)[i].failure != At(db1.incidents, r)[j].failure
      {
        assert At(db1.incidents, r)[i] == At(db.incidents, r)[i];
      }
    }
  }

  lemma StoredAfterSave(db: Db, x: Incident, k: Key)
    ensures Stored(SaveIncident(db, x), k) <==> Stored(db, k) || k == KeyOf(x)
  {
    var s, t := At(db.incidents, k.run), At(SaveIncident(db, x).incidents, k.run);
    if k.run == x.run && !Stored(db, KeyOf(x)) {
      assert t == s + [x];
      assert x in t;
      forall y | y in s ensures y in t {}
    } else {
      assert t == s;
    }
  }

  lemma OwnAfterSave(db: Db, x: Incident, r: Id, incident: Option<Id>)
    requires Own(db, r, incident)
    ensures Own(SaveIncident(db, x), r, incident)
  {
    if incident.Some? {
      var y :| y in At(db.incidents, r) && y.id == incident.value;
      assert y in At(SaveIncident(db, x).incidents, r);
    }
  }

  lemma PublishInv(cfg: Config, st: State, x: Option<Incident>, pending: set<Key>, exact: bool)
    requires Inv(st, pending, exact)
    requires x.Some? ==> x.value.version == VERSION && ShouldInvokeAi(x.value) && KeyOf(x.value) in pending
    requires exact ==> pending <= st.emitted.Keys
    ensures Inv(st.(db := Publish(cfg, st.db, x)), pending - KeysOf(x), exact)
  {
    if x.None? {
      assert pending - KeysOf(x) == pending;
    } else {
      var r := x.value.run;
      SaveIncidentKeeps(st, x.value, pending, exact);
      var db1 := SaveIncident(st.db, x.value);
      var db2 := OnIncident(cfg, db1, x.value);
      hide Inv, OnIncident, SaveIncident, MemoryOk;
      var suffix := IncidentTrail(cfg, db1, x.value);
      assert MemoryOk(st.(db := db2), pending - KeysOf(x), exact) by {
        MemoryFrame(st.(db := db1), st.(db := db2), pending - KeysOf(x), exact);
      }
      assert IncidentsOk(db2) by { assert db2.incidents == db1.incidents; }
      if exact {
        TrailsExtended(db1, db2, r, suffix);
        PaidAfterPublish(st.db, db1, db2, r, suffix, st, pending);
      }
      InvOf(st.(db := db2), pending - KeysOf(x), exact);
    }
  }

  lemma MemoryFrame(st: State, st1: State, pending: set<Key>, exact: bool)
    requires MemoryOk(st, pending, exact)
    requires st1.emitted == st.emitted && st1.db.incidents == st.db.incidents
    ensures MemoryOk(st1, pending, exact)
  {}

  lemma InvOf(st: State, pending: set<Key>, exact: bool)
    requires IncidentsOk(st.db) && MemoryOk(st, pending, exact)
    requires exact ==> TrailsOk(st.db) && Paid(st.db)
    ensures Inv(st, pending, exact)
  {}

  lemma IncidentTrail(cfg: Config, db: Db, x: Incident) returns (suffix: seq<Audit>)
    ensures Adds(db, OnIncident(cfg, db, x), x.run, suffix)
    ensures OnIncident(cfg, db, x).incidents == db.incidents
    ensures |suffix| <= 1
    ensures forall a <- suffix :: !IsVerdict(a) && !IsAutomation(a) && a.incident == Some(x.id)
  {
    hide Adds, PauseRun;
    AddsNothing(db, db, x.run);
    suffix := PauseTrail(db, x.run, x.id);
    if OnIncident(cfg, db, x) == db { suffix := []; }
  }

  lemma PaidAfterPublish(db: Db, db1: Db, db2: Db, r: Id, suffix: seq<Audit>, st: State, pending: set<Key>)
    requires Inv(st, pending, true) && db == st.db
    requires db1.audits == db.audits && db2.incidents == db1.incidents
    requires |At(db1.incidents, r)| == |At(db.incidents, r)| + 1
    requires forall q | q != r :: At(db1.incidents, q) == At(db.incidents, q)
    requires Adds(db1, db2, r, suffix) && |suffix| <= 1
    ensures Paid(db2)
  {
    var s := At(db.audits, r);
    CountTwo(s, suffix, IsPause);
    CountTwo(s, suffix, IsRepeat);
    assert Paid(db) by { InvParts(st, pending, true); }
    forall q ensures Pauses(db2, q) <= |At(db2.incidents, q)| + Repeats(db2, q) {
      if q != r {
        assert At(db2.audits, q) == At(db.audits, q);
        assert Pauses(db, q) <= |At(db.incidents, q)| + Repeats(db, q);
      } else {
        assert Pauses(db, r) <= |At(db.incidents, r)| + Repeats(db, r);
      }
    }
  }

  lemma DeliverInv(cfg: Config, st: State, e: Event, ids: (Id, Id), exact: bool)
    requires Inv(st, {}, exact)
    ensures Inv(ProcessEvent(cfg, st, e, ids), {}, exact)
  {
    hide Inv, Book, EvaluateOne, Publish;
    var db := Book(cfg, st.db, e);
    BookInv(cfg, st, e, {}, exact);
    if e.key !in db.keys {
      var st0 := st.(db := SaveEvent(db, e));
      AddsNothing(db, st0.db, e.run);
      AddedKeeps(st.(db := db), st0, {}, exact, e.run, []);
      var (st1, x) := EvaluateOne(cfg, st0, e, StuckLoopDetector, ids.0);
      EvaluateInv(cfg, st0, e, StuckLoopDetector, ids.0, {}, exact);
      EvaluateKeys(cfg, st0, e, StuckLoopDetector, ids.0);
      var (st2, y) := EvaluateOne(cfg, st1, e, BudgetDetector, ids.1);
      EvaluateInv(cfg, st1, e, BudgetDetector, ids.1, {} + KeysOf(x), exact);
      EvaluateKeys(cfg, st1, e, BudgetDetector, ids.1);
      var both := {} + KeysOf(x) + KeysOf(y);
      PublishInv(cfg, st2, x, both, exact);
      var st3 := st2.(db := Publish(cfg, st2.db, x));
      PublishInv(cfg, st3, y, both - KeysOf(x), exact);
      assert both - KeysOf(x) - KeysOf(y) == {};
    }
  }

  lemma StepInv(cfg: Config, st: State, step: Step, exact: bool)
    requires Inv(st, {}, exact) && PlansInv(st.db) && Legal(st, step)
    ensures Inv(Next(cfg, st, step), {}, exact && !step.Restart?)
  {
    hide Inv, PlansInv, ProcessEvent, PlanFor, Quiet, NewAction;
    var st1 := Next(cfg, st, step);
    if step.Deliver? {
      DeliverInv(cfg, st, step.e, step.ids, exact);
    } else if step.Restart? {
      Forget(st, st1, exact);
    } else if step.MakePlan? {
      var r := step.x.run;
      var db1, db2, a := MakePlanTrail(cfg, st.db, step.x, step.planId, step.actionId, step.ai);
      QuietKeeps(st, st.(db := db1), {}, exact);
      if db2 != db1 {
        QuietIncidents(st.db, db1);
        AddsOne(db1, db1, r, a);
        AddedKeeps(st.(db := db1), st.(db := db2), {}, exact, r, [a]);
      }
      QuietKeeps(st.(db := db2), st1, {}, exact);
    } else {
      OtherStepsQuiet(cfg, st, step);
      SameMemory(cfg, st, step);
      QuietKeeps(st, st1, {}, exact);
    }
  }

  lemma Forget(st: State, st1: State, exact: bool)
    requires Inv(st, {}, exact)
    requires st1.db == st.db && st1.emitted == map[]
    ensures Inv(st1, {}, false)
  {}

  lemma SameMemory(cfg: Config, st: State, step: Step)
    requires !step.Deliver? && !step.Restart?
    ensures Next(cfg, st, step).emitted == st.emitted && Next(cfg, st, step).cumulative == st.cumulative
  {
    hide GateEntry, GateRelease, ResumeRun, ApprovePlan, DismissPlan, PlanFor, PlanOf;
  }

  ghost predicate OneLifetime(steps: seq<Step>) {
    forall i | 0 <= i < |steps| :: !steps[i].Restart?
  }

  lemma LifetimeSplits(steps: seq<Step>)
    requires steps != []
    ensures OneLifetime(steps) <==> OneLifetime(steps[..|steps| - 1]) && !Last(steps).Restart?
  {}

  lemma {:induction false} TraceInv(cfg: Config, steps: seq<Step>)
    requires LegalTrace(cfg, INITIAL, steps)
    ensures Inv(Trace(cfg, INITIAL, steps), {}, OneLifetime(steps))
  {
    if steps != [] {
      hide Legal, Next, Inv, PlansInv, OneLifetime, LegalTrace;
      var front := steps[..|steps| - 1];
      LifetimeSplits(steps);
      LegalPrefix(cfg, INITIAL, steps);
      TraceInv(cfg, front);
      ReachablePlans(cfg, front);
      StepInv(cfg, Trace(cfg, INITIAL, front), Last(steps), OneLifetime(front));
    }
  }

  // ---- what follows ----

  /** The engine's memory is the set of keys of the incidents table in its first lifetime, and
      among those keys after restarts; the table holds one row per key. */
  lemma DedupMemory(cfg: Config, steps: seq<Step>)
    requires LegalTrace(cfg, INITIAL, steps)
    ensures var st := Trace(cfg, INITIAL, steps);
      && (forall k <- st.emitted :: Stored(st.db, k))
      && (OneLifetime(steps) ==> forall k :: k in st.emitted <==> Stored(st.db, k))
      && IncidentsOk(st.db)
  {
    hide Trace, LegalTrace, HasIncident, TrailsOk, Paid;
    TraceInv(cfg, steps);
  }

  function RepeatOf(id: Id): Audit -> bool {
    (a: Audit) => IsRepeat(a) && a.incident == Some(id)
  }

  lemma {:induction false} AtMostOneRepeat(s: seq<Audit>, id: Id)
    requires VerdictsOk(s)
    ensures Count(s, RepeatOf(id)) <= 1
  {
    if s != [] {
      var front := s[..|s| - 1];
      forall j | 0 <= j < |front| && IsVerdict(front[j]) ensures exists i :: 0 <= i < j && IsResume(front[i]) {
        var i :| 0 <= i < j && IsResume(s[i]);
        assert front[i] == s[i];
      }
      AtMostOneRepeat(front, id);
      if RepeatOf(id)(Last(s)) {
        forall i | 0 <= i < |front| ensures !RepeatOf(id)(front[i]) {
          assert front[i] == s[i];
        }
        CountZero(front, RepeatOf(id));
      }
    }
  }

  lemma CountZero(s: seq<Audit>, p: Audit -> bool)
    requires forall i | 0 <= i < |s| :: !p(s[i])
    ensures Count(s, p) == 0
  {
    if s != [] { CountZero(s[..|s| - 1], p); }
  }

  lemma {:induction false} RepeatsSplit(s: seq<Audit>, a: Id, b: Id)
    requires forall x <- s :: IsRepeat(x) ==> x.incident in {Some(a), Some(b)}
    ensures Count(s, IsRepeat) <= Count(s, RepeatOf(a)) + Count(s, RepeatOf(b))
    ensures a == b ==> Count(s, IsRepeat) <= Count(s, RepeatOf(a))
  {
    if s != [] { RepeatsSplit(s[..|s| - 1], a, b); }
  }

  predicate Differ(t: seq<Incident>, i: nat, j: nat) {
    i < |t| && j < |t| ==> t[i].failure != t[j].failure
  }

  lemma RepeatsBounded(db: Db, r: Id)
    requires IncidentsOk(db) && TrailsOk(db) && VerdictsOk(At(db.audits, r))
    ensures |At(db.incidents, r)| <= 2
    ensures Repeats(db, r) <= |At(db.incidents, r)|
  {
    var s, t := At(db.audits, r), At(db.incidents, r);
    assert Differ(t, 0, 1) && Differ(t, 0, 2) && Differ(t, 1, 2);
    if t == [] {
      forall i | 0 <= i < |s| ensures !IsRepeat(s[i]) {
        assert s[i] in s;
      }
      CountZero(s, IsRepeat);
    } else {
      var a, b := t[0].id, Last(t).id;
      forall x | x in s && IsRepeat(x) ensures x.incident in {Some(a), Some(b)} {
        assert Own(db, r, x.incident);
      }
      AtMostOneRepeat(s, a);
      AtMostOneRepeat(s, b);
      RepeatsSplit(s, a, b);
    }
  }

  /** In one engine lifetime a run is successfully paused at most four times: once per incident,
      of which there are at most two, and once more per incident whose recovery failed. */
  lemma BoundedIntervention(cfg: Config, steps: seq<Step>, r: Id)
    requires LegalTrace(cfg, INITIAL, steps) && OneLifetime(steps)
    ensures var db := Trace(cfg, INITIAL, steps).db;
      && Pauses(db, r) <= |At(db.incidents, r)| + Repeats(db, r)
      && Repeats(db, r) <= |At(db.incidents, r)| <= 2
      && Pauses(db, r) <= 4
  {
    hide Trace, LegalTrace, MemoryOk, Pauses, Repeats, VerdictsOk;
    TraceInv(cfg, steps);
    RecoveryVerdicts(cfg, steps, r);
    RepeatsBounded(Trace(cfg, INITIAL, steps).db, r);
  }

  /** What becomes of an incident the engine emits: it is stored unless the run has one of its kind,
      and either way its run is paused exactly if the policy says so, the run is protected and it is
      going. */
  lemma PublishExactly(cfg: Config, db: Db, x: Incident)
    ensures var db1 := Publish(cfg, db, Some(x));
      && db1.incidents ==
         (if exists y <- At(db.incidents, x.run) :: y.failure == x.failure && y.version == x.version then db.incidents
          else db.incidents[x.run := At(db.incidents, x.run) + [x]])
      && db1.runs ==
         (if && cfg.protectionEnabled && x.failure in cfg.autoPause
             && x.run in db.runs && db.runs[x.run].mode == Active
             && db.runs[x.run].status in {Running, ResumeRequested}
          then db.runs[x.run := db.runs[x.run].(status := PauseRequested)] else db.runs)
  {
    var db1 := SaveIncident(db, x);
    assert db1.runs == db.runs;
    PauseExactly(db1, x.run, x.id);
    hide PauseRun;
  }
}
