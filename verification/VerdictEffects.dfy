/** When a delivered event books a recovery verdict, and what the verdict writes on the incident's
    plan and on its outcomes. */
module VerdictEffects {
  import opened Records
  import opened Tables
  import opened Detectors
  import opened Protection
  import opened Collector
  import opened Recovery
  import opened ControlPlane
  import opened Trails
  import opened Lifecycle
  import opened Verdicts
  import opened Staleness
  import opened PlanEffects

  // ---- which incident a resume was about ----

  /** The last incident a trail names, if it names any. */
  ghost predicate LastNamed(s: seq<Audit>, i: Option<Id>) {
    match i
    case None => forall a <- s :: a.incident == None
    case Some(_) => exists k | 0 <= k < |s| :: s[k].incident == i && forall j | k < j < |s| :: s[j].incident == None
  }

  /** The trail has a resume, and its last one is booked on the incident: its own, or else the last
      one the trail names. */
  ghost predicate ResumedOn(s: seq<Audit>, i: Option<Id>) {
    exists k | 0 <= k < |s| ::
      && s[k].action == ResumeRequestedAudit
      && (forall j | k < j < |s| :: s[j].action != ResumeRequestedAudit)
      && if s[k].incident != None then i == s[k].incident else LastNamed(s, i)
  }

  lemma {:induction false} LatestIncidentIs(s: seq<Audit>)
    ensures LastNamed(s, LatestIncident(s))
    ensures forall i | LastNamed(s, i) :: i == LatestIncident(s)
  {
    if s != [] {
      var front := s[..|s| - 1];
      assert s == front + [Last(s)] && Last(s) == s[|s| - 1];
      LatestIncidentIs(front);
      if Last(s).incident == None {
        forall i ensures LastNamed(s, i) <==> LastNamed(front, i) { NamedFront(s, i); }
      }
    }
  }

  lemma NamedFront(s: seq<Audit>, i: Option<Id>)
    requires s != [] && Last(s).incident == None
    ensures LastNamed(s, i) <==> LastNamed(s[..|s| - 1], i)
  {
    var front := s[..|s| - 1];
    assert s == front + [Last(s)];
    if i.Some? {
      if LastNamed(s, i) {
        var k :| 0 <= k < |s| && s[k].incident == i && forall j | k < j < |s| :: s[j].incident == None;
        assert front[k].incident == i;
      }
      if LastNamed(front, i) {
        var k :| 0 <= k < |front| && front[k].incident == i && forall j | k < j < |front| :: front[j].incident == None;
        assert s[k].incident == i;
      }
    }
  }

  lemma {:induction false} LatestResumeIs(s: seq<Audit>) returns (k: nat)
    requires LatestResume(s).Some?
    ensures k < |s| && s[k] == LatestResume(s).value && s[k].action == ResumeRequestedAudit
    ensures forall j | k < j < |s| :: s[j].action != ResumeRequestedAudit
  {
    if Last(s).action == ResumeRequestedAudit {
      k := |s| - 1;
    } else {
      k := LatestResumeIs(s[..|s| - 1]);
    }
  }

  lemma ResumedExactly(s: seq<Audit>, i: Option<Id>)
    ensures ResumedOn(s, i) <==> LatestResume(s).Some? && ResumedIncident(s) == i
  {
    LatestIncidentIs(s);
    ResumedIsLogged(s);
    hide LatestIncident, LastNamed;
    if ResumedOn(s, i) {
      var k :| 0 <= k < |s| && s[k].action == ResumeRequestedAudit
        && (forall j | k < j < |s| :: s[j].action != ResumeRequestedAudit)
        && if s[k].incident != None then i == s[k].incident else LastNamed(s, i);
      assert s[k] in s && IsResume(s[k]);
      var l := LatestResumeIs(s);
      assert k == l;
    } else if LatestResume(s).Some? {
      var l := LatestResumeIs(s);
      assert ResumedIncident(s) != i;
    }
  }

  /** A row booked on the resumed incident, and no resume itself, leaves that incident the resumed
      one. */
  lemma ResumedStays(s: seq<Audit>, a: Audit)
    requires a.incident == ResumedIncident(s) && !IsResume(a)
    ensures LatestResume(s + [a]) == LatestResume(s)
    ensures LatestResume(s).Some? ==> ResumedIncident(s + [a]) == ResumedIncident(s)
  {
    assert (s + [a])[..|s|] == s;
  }

  // ---- what a verdict writes ----

  /** The plans, with the verdict on the incident's newest one. */
  function MarkedPlans(db: Db, i: Id, v: Verification): map<Id, seq<Plan>> {
    var s := At(db.plans, i);
    if s == [] then db.plans else db.plans[i := s[..|s| - 1] + [Last(s).(verification := Some(v))]]
  }

  /** The outcomes, with the verdict on all of the incident's, if it has a plan. */
  function MarkedOutcomes(db: Db, i: Id, o: OutcomeVerification): seq<Outcome> {
    if At(db.plans, i) == [] then db.outcomes
    else seq(|db.outcomes|, k requires 0 <= k < |db.outcomes| =>
           if db.outcomes[k].incident == i then db.outcomes[k].(verification := o) else db.outcomes[k])
  }

  /** Every incident's newest plan is its own, and has an id of its own there. */
  ghost predicate OwnPlans(db: Db) {
    forall i | At(db.plans, i) != [] :: Last(At(db.plans, i)).incident == i && IsNewest(db, Last(At(db.plans, i)))
  }

  lemma MarkExactly(db: Db, i: Id, v: Verification, o: OutcomeVerification)
    requires OwnPlans(db)
    ensures var db1 := MarkPlan(db, i, v, o);
      db1.plans == MarkedPlans(db, i, v) && db1.outcomes == MarkedOutcomes(db, i, o) && OwnPlans(db1)
  {
    var s := At(db.plans, i);
    if s != [] {
      var p := Last(s);
      var q := p.(verification := Some(v));
      SaveNewest(db, p, q);
      assert VerifiedOutcomes(db.outcomes, i, o) == MarkedOutcomes(db, i, o);
      var db1 := MarkPlan(db, i, v, o);
      hide SavePlan, IsNewest, VerifiedOutcomes, MarkedOutcomes;
      forall j | At(db1.plans, j) != []
        ensures Last(At(db1.plans, j)).incident == j && IsNewest(db1, Last(At(db1.plans, j)))
      {
        if j == i {
          NewestAt(SavePlan(db, q), db1, q);
        } else {
          assert IsNewest(db, Last(At(db.plans, j)));
          NewestAt(db, db1, Last(At(db.plans, j)));
        }
      }
    }
  }

  lemma NewestAt(db: Db, db1: Db, p: Plan)
    requires IsNewest(db, p) && At(db1.plans, p.incident) == At(db.plans, p.incident)
    ensures IsNewest(db1, p)
  {}

  /** A second verdict on the same incident replaces the first. */
  lemma MarkedTwice(
      db: Db, db1: Db, i: Id, v: Verification, o: OutcomeVerification, w: Verification, u: OutcomeVerification)
    requires db1.plans == MarkedPlans(db, i, v) && db1.outcomes == MarkedOutcomes(db, i, o)
    ensures MarkedPlans(db1, i, w) == MarkedPlans(db, i, w)
    ensures MarkedOutcomes(db1, i, u) == MarkedOutcomes(db, i, u)
  {
    var s := At(db.plans, i);
    if s != [] {
      assert (s[..|s| - 1] + [Last(s).(verification := Some(v))])[..|s| - 1] == s[..|s| - 1];
    }
  }

  lemma SameOwnPlans(db: Db, db1: Db)
    requires OwnPlans(db) && db1.plans == db.plans
    ensures OwnPlans(db1)
  {
    forall i | At(db1.plans, i) != []
      ensures Last(At(db1.plans, i)).incident == i && IsNewest(db1, Last(At(db1.plans, i)))
    {
      assert IsNewest(db, Last(At(db.plans, i)));
      NewestAt(db, db1, Last(At(db.plans, i)));
    }
  }

  /** The completion of a run verifies the incident its last resume was about, once. */
  predicate Verifies(s: seq<Audit>) {
    && LatestResume(s).Some?
    && !HasVerdict(s, RepeatedFailure, ResumedIncident(s)) && !HasVerdict(s, Verified, ResumedIncident(s))
  }

  lemma VerifyEffect(db: Db, r: Id)
    requires OwnPlans(db)
    ensures var s, db1 := At(db.audits, r), VerifyRecovery(db, r);
      var i := ResumedIncident(s);
      && OwnPlans(db1) && db1.runs == db.runs
      && At(db1.audits, r) == s + (if Verifies(s) then [Audit(RecoveryVerification, Verified, i)] else [])
      && db1.plans == (if Verifies(s) && i.Some? then MarkedPlans(db, i.value, RecoveryVerified) else db.plans)
      && db1.outcomes == (if Verifies(s) && i.Some? then MarkedOutcomes(db, i.value, VerifiedSuccess) else db.outcomes)
  {
    var s := At(db.audits, r);
    var i := ResumedIncident(s);
    var db1 := Log(db, r, Audit(RecoveryVerification, Verified, i));
    assert s + [] == s;
    SameOwnPlans(db, db1);
    if i.Some? {
      MarkExactly(db1, i.value, RecoveryVerified, VerifiedSuccess);
      MarkSilent(db1, i.value, RecoveryVerified, VerifiedSuccess);
      assert MarkedPlans(db1, i.value, RecoveryVerified) == MarkedPlans(db, i.value, RecoveryVerified);
      assert MarkedOutcomes(db1, i.value, VerifiedSuccess) == MarkedOutcomes(db, i.value, VerifiedSuccess);
    }
    hide OwnPlans, MarkPlan, MarkedPlans, MarkedOutcomes, ResumedIncident, LatestResume, HasVerdict;
  }

  lemma BookEffect(cfg: Config, db: Db, e: Event)
    requires OwnPlans(db)
    ensures var s, db1 := At(db.audits, e.run), Book(cfg, db, e);
      var i, booked := ResumedIncident(s), e.kind == RunCompleted && Verifies(s);
      && OwnPlans(db1) && e.run in db1.runs
      && At(db1.audits, e.run) == s + (if booked then [Audit(RecoveryVerification, Verified, i)] else [])
      && db1.plans == (if booked && i.Some? then MarkedPlans(db, i.value, RecoveryVerified) else db.plans)
      && db1.outcomes == (if booked && i.Some? then MarkedOutcomes(db, i.value, VerifiedSuccess) else db.outcomes)
  {
    var db1 := EnsureRun(cfg, db, e);
    SavedRun(db, e.run, NewRun(cfg, e));
    SamePlanMarks(db, db1);
    VerifyEffect(db1, e.run);
    assert At(db.audits, e.run) + [] == At(db.audits, e.run);
    var db2 := if e.kind == RunCompleted then VerifyRecovery(db1, e.run) else db1;
    SavedRun(db2, e.run, Advance(db1.runs[e.run], e));
    hide OwnPlans, VerifyRecovery, Verifies, MarkedPlans, MarkedOutcomes, ResumedIncident, Advance, SaveRun, NewRun, At;
  }

  lemma SavedRun(db: Db, r: Id, row: Run)
    requires OwnPlans(db)
    ensures var db1 := SaveRun(db, r, row);
      && OwnPlans(db1) && r in db1.runs
      && db1.audits == db.audits && db1.plans == db.plans && db1.outcomes == db.outcomes
  {
    SameOwnPlans(db, SaveRun(db, r, row));
    hide OwnPlans, MergeRun;
  }

  lemma SamePlanMarks(db: Db, db1: Db)
    requires db1.plans == db.plans && db1.outcomes == db.outcomes
    ensures forall i, v :: MarkedPlans(db1, i, v) == MarkedPlans(db, i, v)
    ensures forall i, o :: MarkedOutcomes(db1, i, o) == MarkedOutcomes(db, i, o)
  {}

  /** A repeated match marks the recovery of the resumed incident failed, once. */
  predicate Fails(s: seq<Audit>) {
    ResumedIncident(s).Some? && !HasVerdict(s, RepeatedFailure, ResumedIncident(s))
  }

  /** What a failed recovery leaves: its verdict, at most one row of the renewed pause, and the marks. */
  ghost predicate FailureBooked(db: Db, db1: Db, r: Id, rest: seq<Audit>) {
    var s := At(db.audits, r);
    var i := ResumedIncident(s);
    && i.Some?
    && At(db1.audits, r) == s + [Audit(RecoveryVerification, RepeatedFailure, i)] + rest
    && |rest| <= 1 && (forall a <- rest :: a.incident == i && !IsVerdict(a) && !IsResume(a))
    && db1.plans == MarkedPlans(db, i.value, RecoveryRepeated)
    && db1.outcomes == MarkedOutcomes(db, i.value, VerifiedFailure)
  }

  lemma PauseKeepsOutcomes(db: Db, r: Id, incident: Id)
    ensures PauseRun(db, r, incident).outcomes == db.outcomes
  {
    PauseExactly(db, r, incident);
    hide PauseRun, At;
  }

  lemma RepeatEffect(db: Db, r: Id) returns (rest: seq<Audit>)
    requires OwnPlans(db) && r in db.runs
    ensures var s, db1 := At(db.audits, r), RepeatFailure(db, r);
      && OwnPlans(db1)
      && if Fails(s) then FailureBooked(db, db1, r, rest) else db1 == db
  {
    var s := At(db.audits, r);
    var i := ResumedIncident(s);
    rest := [];
    if Fails(s) {
      var verdict := Audit(RecoveryVerification, RepeatedFailure, i);
      var db1 := Log(db, r, verdict);
      SameOwnPlans(db, db1);
      SamePlanMarks(db, db1);
      MarkExactly(db1, i.value, RecoveryRepeated, VerifiedFailure);
      MarkSilent(db1, i.value, RecoveryRepeated, VerifiedFailure);
      var db2 := MarkPlan(db1, i.value, RecoveryRepeated, VerifiedFailure);
      var more := PauseTrail(db2, r, i.value);
      PauseKeepsOutcomes(db2, r, i.value);
      SameOwnPlans(db2, PauseRun(db2, r, i.value));
      hide OwnPlans, MarkPlan, PauseRun, ResumedIncident, HasVerdict, IsVerdict, IsResume;
      if PlanOf(db1, i.value).Some? {
        rest := more;
      } else {
        assert s + [verdict] + [] == s + [verdict];
        assert MarkedPlans(db, i.value, RecoveryRepeated) == db.plans;
        assert MarkedOutcomes(db, i.value, VerifiedFailure) == db.outcomes;
      }
    }
  }

  // ---- a whole delivery ----

  /** Some detector matches the newest stored event, and has emitted its incident before. */
  predicate Rematches(cfg: Config, s: seq<Event>, st: State, e: Event) {
    || (StuckDetect(cfg, s, e).Some? && Key(e.run, StuckLoop, "1.0") in st.emitted)
    || (BudgetDetect(cfg, st.cumulative, e).Some? && Key(e.run, BudgetExceeded, "1.0") in st.emitted)
  }

  lemma TurnEffect(cfg: Config, st: State, e: Event, which: Detector, id: Id)
    ensures var st1 := EvaluateOne(cfg, st, e, which, id).0;
      var d := if which.StuckLoopDetector? then StuckDetect(cfg, At(st.db.events, e.run), e)
               else BudgetDetect(cfg, st.cumulative, e);
      var key := Key(e.run, if which.StuckLoopDetector? then StuckLoop else BudgetExceeded, "1.0");
      && st1.db == (if d.Some? && key in st.emitted then RepeatFailure(st.db, e.run) else st.db)
      && (forall k: Key | k.failure != key.failure :: k in st1.emitted <==> k in st.emitted)
      && (which.StuckLoopDetector? ==> st1.cumulative == st.cumulative)
  {
    hide Window, RepeatFailure;
  }

  lemma FailureStands(s: seq<Audit>, rest: seq<Audit>)
    requires Fails(s) && |rest| <= 1
    requires forall a <- rest :: a.incident == ResumedIncident(s) && !IsVerdict(a) && !IsResume(a)
    ensures !Fails(s + [Audit(RecoveryVerification, RepeatedFailure, ResumedIncident(s))] + rest)
  {
    var v := Audit(RecoveryVerification, RepeatedFailure, ResumedIncident(s));
    ResumedIsLogged(s);
    ResumedStays(s, v);
    var t := s + [v];
    assert v in t + rest;
    if rest != [] {
      ResumedStays(t, rest[0]);
      assert t + rest == t + [rest[0]];
    } else {
      assert t + rest == t;
    }
    hide ResumedIncident, LatestResume;
  }

  /** Both detectors' turns: together they book at most one failed recovery. */
  lemma TurnsEffect(cfg: Config, st: State, e: Event, ids: (Id, Id)) returns (rest: seq<Audit>)
    requires OwnPlans(st.db) && e.run in st.db.runs
    ensures var db1 := EvaluateBoth(cfg, st, e, ids).0.db;
      if Rematches(cfg, At(st.db.events, e.run), st, e) && Fails(At(st.db.audits, e.run))
      then FailureBooked(st.db, db1, e.run, rest) else db1 == st.db
  {
    TurnEffect(cfg, st, e, StuckLoopDetector, ids.0);
    var st1 := EvaluateOne(cfg, st, e, StuckLoopDetector, ids.0).0;
    TurnEffect(cfg, st1, e, BudgetDetector, ids.1);
    hide OwnPlans, EvaluateOne, RepeatFailure, FailureBooked, StuckDetect, BudgetDetect, Fails;
    rest := RepeatEffect(st.db, e.run);
    if st1.db != st.db {
      RepeatRows(st.db, e.run);
      var more := RepeatEffect(st1.db, e.run);
      FailsNoMore(st.db, st1.db, e.run, rest);
    }
  }

  lemma FailsNoMore(db: Db, db1: Db, r: Id, rest: seq<Audit>)
    requires FailureBooked(db, db1, r, rest) && Fails(At(db.audits, r))
    ensures !Fails(At(db1.audits, r))
  {
    FailureStands(At(db.audits, r), rest);
    hide Fails, ResumedIncident;
  }

  lemma PublishEffect(cfg: Config, db: Db, x: Option<Incident>, r: Id) returns (rest: seq<Audit>)
    requires x.Some? ==> x.value.run == r
    ensures var db1 := Publish(cfg, db, x);
      && db1.plans == db.plans && db1.outcomes == db.outcomes
      && At(db1.audits, r) == At(db.audits, r) + rest && forall a <- rest :: !IsVerdict(a)
  {
    rest := [];
    assert At(db.audits, r) + [] == At(db.audits, r);
    if x.Some? {
      var db0 := SaveIncident(db, x.value);
      assert db0.audits == db.audits && db0.plans == db.plans && db0.outcomes == db.outcomes by { hide HasIncident; }
      hide SaveIncident, PauseRun, Adds;
      PauseKeepsOutcomes(db0, r, x.value.id);
      var more := PauseTrail(db0, r, x.value.id);
      if cfg.protectionEnabled && x.value.failure in cfg.autoPause {
        rest := more;
        AddedTo(db0, PauseRun(db0, r, x.value.id), r, more);
      }
    }
  }

  lemma AddedTo(db: Db, db1: Db, r: Id, suffix: seq<Audit>)
    requires Adds(db, db1, r, suffix)
    ensures At(db1.audits, r) == At(db.audits, r) + suffix
  {}

  /** The rows of a delivery: what booking adds, what a repeated match adds, and rows that are no
      verdicts. */
  ghost predicate Delivered(db: Db, db1: Db, r: Id, booked: bool, failed: bool, rest: seq<Audit>) {
    var s := At(db.audits, r);
    var i := ResumedIncident(s);
    && At(db1.audits, r) ==
       s + (if booked then [Audit(RecoveryVerification, Verified, i)] else []) +
       (if failed then [Audit(RecoveryVerification, RepeatedFailure, i)] else []) + rest
    && (forall a <- rest :: !IsVerdict(a))
    && (failed ==> i.Some?)
    && (db1.plans, db1.outcomes) ==
       if failed then (MarkedPlans(db, i.value, RecoveryRepeated), MarkedOutcomes(db, i.value, VerifiedFailure))
       else if booked && i.Some? then
         (MarkedPlans(db, i.value, RecoveryVerified), MarkedOutcomes(db, i.value, VerifiedSuccess))
       else (db.plans, db.outcomes)
  }

  lemma VerifiedFails(s: seq<Audit>)
    ensures Verifies(s) ==>
      var t := s + [Audit(RecoveryVerification, Verified, ResumedIncident(s))];
      ResumedIncident(t) == ResumedIncident(s) && (Fails(t) <==> Fails(s))
  {
    if Verifies(s) {
      ResumedStays(s, Audit(RecoveryVerification, Verified, ResumedIncident(s)));
      hide ResumedIncident, LatestResume;
    }
  }

  /** A failed recovery on top of a booking. */
  lemma FailureAfterBooking(db: Db, db0: Db, db1: Db, r: Id, booked: bool, rest: seq<Audit>)
    requires Delivered(db, db0, r, booked, false, [])
    requires FailureBooked(db0, db1, r, rest)
    requires ResumedIncident(At(db0.audits, r)) == ResumedIncident(At(db.audits, r))
    ensures Delivered(db, db1, r, booked, true, rest)
  {
    var i := ResumedIncident(At(db.audits, r));
    if booked {
      MarkedTwice(db, db0, i.value, RecoveryVerified, VerifiedSuccess, RecoveryRepeated, VerifiedFailure);
    } else {
      SamePlanMarks(db, db0);
    }
    hide ResumedIncident, MarkedPlans, MarkedOutcomes;
  }

  lemma PublishAfter(db: Db, db0: Db, db1: Db, r: Id, booked: bool, failed: bool, rest: seq<Audit>, more: seq<Audit>)
    requires Delivered(db, db0, r, booked, failed, rest)
    requires db1.plans == db0.plans && db1.outcomes == db0.outcomes
    requires At(db1.audits, r) == At(db0.audits, r) + more && forall a <- more :: !IsVerdict(a)
    ensures Delivered(db, db1, r, booked, failed, rest + more)
  {
    hide ResumedIncident, MarkedPlans, MarkedOutcomes;
  }

  lemma DetectedEffect(cfg: Config, db: Db, st0: State, e: Event, ids: (Id, Id), booked: bool)
      returns (rest: seq<Audit>)
    requires OwnPlans(st0.db) && e.run in st0.db.runs
    requires Delivered(db, st0.db, e.run, booked, false, [])
    requires ResumedIncident(At(st0.db.audits, e.run)) == ResumedIncident(At(db.audits, e.run))
    ensures var (st2, x, y) := EvaluateBoth(cfg, st0, e, ids);
      var failed := Rematches(cfg, At(st0.db.events, e.run), st0, e) && Fails(At(st0.db.audits, e.run));
      Delivered(db, Publish(cfg, Publish(cfg, st2.db, x), y), e.run, booked, failed, rest)
  {
    hide OwnPlans, EvaluateBoth, Publish, Rematches, Fails, Delivered, FailureBooked, ResumedIncident;
    var (st2, x, y) := EvaluateBoth(cfg, st0, e, ids);
    var failed := Rematches(cfg, At(st0.db.events, e.run), st0, e) && Fails(At(st0.db.audits, e.run));
    rest := TurnsEffect(cfg, st0, e, ids);
    if failed {
      FailureAfterBooking(db, st0.db, st2.db, e.run, booked, rest);
    } else {
      rest := [];
    }
    TurnsIncidents(cfg, st0, e, ids);
    var db3 := Publish(cfg, st2.db, x);
    var more := PublishEffect(cfg, st2.db, x, e.run);
    var last := PublishEffect(cfg, db3, y, e.run);
    PublishAfter(db, st2.db, db3, e.run, booked, failed, rest, more);
    PublishAfter(db, db3, Publish(cfg, db3, y), e.run, booked, failed, rest + more, last);
    rest := rest + more + last;
  }

  /** Booking and storing a new event. */
  lemma StoredEffect(cfg: Config, st: State, e: Event)
    requires OwnPlans(st.db) && e.key !in st.db.keys
    ensures var s, db1 := At(st.db.audits, e.run), SaveEvent(Book(cfg, st.db, e), e);
      && OwnPlans(db1) && e.run in db1.runs
      && Delivered(st.db, db1, e.run, e.kind == RunCompleted && Verifies(s), false, [])
      && At(db1.events, e.run) == At(st.db.events, e.run) + [e]
      && ResumedIncident(At(db1.audits, e.run)) == ResumedIncident(s)
      && (Fails(At(db1.audits, e.run)) <==> Fails(s))
  {
    BookEffect(cfg, st.db, e);
    BookRows(cfg, st.db, e);
    VerifiedFails(At(st.db.audits, e.run));
    hide Book, Verifies, ResumedIncident, Fails, MarkedPlans, MarkedOutcomes, OwnPlans;
    StoredRows(Book(cfg, st.db, e), e);
    SameOwnPlans(Book(cfg, st.db, e), SaveEvent(Book(cfg, st.db, e), e));
    assert At(st.db.audits, e.run) + [] == At(st.db.audits, e.run);
  }

  lemma DeliveryEffect(cfg: Config, st: State, e: Event, ids: (Id, Id)) returns (rest: seq<Audit>)
    requires OwnPlans(st.db)
    ensures var s := At(st.db.audits, e.run);
      var failed := e.key !in st.db.keys && Rematches(cfg, At(st.db.events, e.run) + [e], st, e) && Fails(s);
      Delivered(st.db, ProcessEvent(cfg, st, e, ids).db, e.run, e.kind == RunCompleted && Verifies(s), failed, rest)
  {
    var booked := e.kind == RunCompleted && Verifies(At(st.db.audits, e.run));
    BookRows(cfg, st.db, e);
    if e.key in st.db.keys {
      rest := [];
      BookEffect(cfg, st.db, e);
      hide Book, Verifies, ResumedIncident, MarkedPlans, MarkedOutcomes, EvaluateBoth, OwnPlans;
    } else {
      var st0 := st.(db := SaveEvent(Book(cfg, st.db, e), e));
      StoredEffect(cfg, st, e);
      rest := DetectedEffect(cfg, st.db, st0, e, ids, booked);
      assert Rematches(cfg, At(st0.db.events, e.run), st0, e) <==> Rematches(cfg, At(st.db.events, e.run) + [e], st, e)
        by { hide StuckDetect, BudgetDetect, Book, SaveEvent; }
      hide Book, SaveEvent, Verifies, Fails, Delivered, EvaluateBoth, Publish, Rematches, OwnPlans;
    }
  }

  lemma StoredRows(db: Db, e: Event)
    requires e.key !in db.keys
    ensures var db1 := SaveEvent(db, e);
      && db1.runs == db.runs && db1.audits == db.audits && db1.plans == db.plans && db1.outcomes == db.outcomes
      && At(db1.events, e.run) == At(db.events, e.run) + [e]
  {}

  lemma TurnsIncidents(cfg: Config, st: State, e: Event, ids: (Id, Id))
    ensures var (_, x, y) := EvaluateBoth(cfg, st, e, ids);
      (x.Some? ==> x.value.run == e.run) && (y.Some? ==> y.value.run == e.run)
  {
    EvaluateShape(cfg, st, e, StuckLoopDetector, ids.0);
    EvaluateShape(cfg, EvaluateOne(cfg, st, e, StuckLoopDetector, ids.0).0, e, BudgetDetector, ids.1);
    hide EvaluateOne;
  }

  // ---- in the terms of the rows ----

  lemma VerifiesExactly(s: seq<Audit>, i: Option<Id>)
    ensures Verifies(s) && i == ResumedIncident(s) <==>
      && ResumedOn(s, i)
      && Audit(RecoveryVerification, RepeatedFailure, i) !in s && Audit(RecoveryVerification, Verified, i) !in s
  {
    ResumedExactly(s, i);
    hide ResumedIncident, LatestResume, ResumedOn;
  }

  lemma FailsExactly(s: seq<Audit>, i: Id)
    ensures Fails(s) && ResumedIncident(s) == Some(i) <==>
      ResumedOn(s, Some(i)) && Audit(RecoveryVerification, RepeatedFailure, Some(i)) !in s
  {
    ResumedExactly(s, Some(i));
    ResumedIsLogged(s);
    hide ResumedIncident, LatestResume, ResumedOn;
  }

  /** The rows a delivery adds to the trail of its run. */
  function NewRows(db: Db, db1: Db, r: Id): seq<Audit> {
    var s, t := At(db.audits, r), At(db1.audits, r);
    if |s| <= |t| then t[|s|..] else []
  }

  lemma RowsOfDelivery(db: Db, db1: Db, r: Id, booked: bool, failed: bool, rest: seq<Audit>)
    requires Delivered(db, db1, r, booked, failed, rest)
    ensures At(db.audits, r) <= At(db1.audits, r)
    ensures var t, i := NewRows(db, db1, r), ResumedIncident(At(db.audits, r));
      forall j, result | result == Verified || result == RepeatedFailure ::
        Audit(RecoveryVerification, result, j) in t <==> j == i && if result == Verified then booked else failed
  {
    var s, i := At(db.audits, r), ResumedIncident(At(db.audits, r));
    var first := if booked then [Audit(RecoveryVerification, Verified, i)] else [];
    var second := if failed then [Audit(RecoveryVerification, RepeatedFailure, i)] else [];
    hide ResumedIncident, MarkedPlans, MarkedOutcomes;
    assert At(db1.audits, r) == s + (first + second + rest);
    assert NewRows(db, db1, r) == first + second + rest;
  }

  lemma ReachableOwnPlans(db: Db)
    requires PlansInv(db)
    ensures OwnPlans(db)
  {
    forall i | At(db.plans, i) != []
      ensures Last(At(db.plans, i)).incident == i && IsNewest(db, Last(At(db.plans, i)))
    {
      var s := At(db.plans, i);
      var n := |s| - 1;
      assert At?(db, i, n) && PlanAt(db, i, n) == Last(s);
      assert WellFormedPlan(db, i, PlanAt(db, i, n));
      forall k | 0 <= k < n ensures s[k].id != Last(s).id {
        assert At?(db, i, k) && PlanAt(db, i, k) == s[k];
      }
      hide PlansInv, WellFormedPlan;
    }
  }

  /** In every reachable state: a delivery books the verification of a recovery exactly if it
      completes the run, the run's last resume was about that incident, and the incident has no
      verdict; and a failed recovery exactly if the event is new, matches again what the engine has
      emitted, and the last resume was about an incident that has not failed yet. */
  lemma VerdictsExactly(cfg: Config, steps: seq<Step>, e: Event, ids: (Id, Id), i: Option<Id>)
    requires LegalTrace(cfg, INITIAL, steps)
    ensures var st := Trace(cfg, INITIAL, steps);
      var s, t := At(st.db.audits, e.run), NewRows(st.db, ProcessEvent(cfg, st, e, ids).db, e.run);
      var verified := Audit(RecoveryVerification, Verified, i);
      var failed := Audit(RecoveryVerification, RepeatedFailure, i);
      && At(ProcessEvent(cfg, st, e, ids).db.audits, e.run) == s + t
      && (verified in t <==> e.kind == RunCompleted && ResumedOn(s, i) && failed !in s && verified !in s)
      && (failed in t <==> e.key !in st.db.keys && Rematches(cfg, At(st.db.events, e.run) + [e], st, e)
                           && i != None && ResumedOn(s, i) && failed !in s)
  {
    ReachablePlans(cfg, steps);
    var st := Trace(cfg, INITIAL, steps);
    ReachableOwnPlans(st.db);
    hide Trace, LegalTrace, PlansInv, OwnPlans, ProcessEvent;
    var rest := DeliveryEffect(cfg, st, e, ids);
    VerdictRows(cfg, st, e, ProcessEvent(cfg, st, e, ids).db, rest, i);
  }

  lemma VerdictRows(cfg: Config, st: State, e: Event, db1: Db, rest: seq<Audit>, i: Option<Id>)
    requires var s := At(st.db.audits, e.run);
      var failed := e.key !in st.db.keys && Rematches(cfg, At(st.db.events, e.run) + [e], st, e) && Fails(s);
      Delivered(st.db, db1, e.run, e.kind == RunCompleted && Verifies(s), failed, rest)
    ensures var s, t := At(st.db.audits, e.run), NewRows(st.db, db1, e.run);
      var verified := Audit(RecoveryVerification, Verified, i);
      var failed := Audit(RecoveryVerification, RepeatedFailure, i);
      && At(db1.audits, e.run) == s + t
      && (verified in t <==> e.kind == RunCompleted && ResumedOn(s, i) && failed !in s && verified !in s)
      && (failed in t <==> e.key !in st.db.keys && Rematches(cfg, At(st.db.events, e.run) + [e], st, e)
                           && i != None && ResumedOn(s, i) && failed !in s)
  {
    var s := At(st.db.audits, e.run);
    var failed := e.key !in st.db.keys && Rematches(cfg, At(st.db.events, e.run) + [e], st, e) && Fails(s);
    RowsOfDelivery(st.db, db1, e.run, e.kind == RunCompleted && Verifies(s), failed, rest);
    VerifiesExactly(s, i);
    assert Fails(s) ==> ResumedIncident(s).Some?;
    if i.Some? { FailsExactly(s, i.value); }
    hide ResumedIncident, Verifies, Fails, Rematches, Delivered, ResumedOn;
  }

  lemma MarksOfDelivery(db: Db, db1: Db, r: Id, booked: bool, again: bool, rest: seq<Audit>, i: Id)
    requires Delivered(db, db1, r, booked, again, rest)
    ensures var t := NewRows(db, db1, r);
      var verified := Audit(RecoveryVerification, Verified, Some(i));
      var failed := Audit(RecoveryVerification, RepeatedFailure, Some(i));
      var marks := (db1.plans, db1.outcomes);
      && (failed in t ==> marks == (MarkedPlans(db, i, RecoveryRepeated), MarkedOutcomes(db, i, VerifiedFailure)))
      && (verified in t && failed !in t ==>
            marks == (MarkedPlans(db, i, RecoveryVerified), MarkedOutcomes(db, i, VerifiedSuccess)))
      && ((forall a <- t :: a.action != RecoveryVerification || a.incident == None) ==>
            marks == (db.plans, db.outcomes))
  {
    RowsOfDelivery(db, db1, r, booked, again, rest);
    hide ResumedIncident, MarkedPlans, MarkedOutcomes, NewRows;
  }

  /** What the verdicts write: a failed recovery marks the incident's newest plan and all of its
      outcomes failed, a verification without a failure marks them verified, and without either no
      plan and no outcome changes. */
  lemma VerdictsAreWritten(cfg: Config, steps: seq<Step>, e: Event, ids: (Id, Id), i: Id)
    requires LegalTrace(cfg, INITIAL, steps)
    ensures var db := Trace(cfg, INITIAL, steps).db;
      var db1 := ProcessEvent(cfg, Trace(cfg, INITIAL, steps), e, ids).db;
      var t := NewRows(db, db1, e.run);
      var verified := Audit(RecoveryVerification, Verified, Some(i));
      var failed := Audit(RecoveryVerification, RepeatedFailure, Some(i));
      var marks := (db1.plans, db1.outcomes);
      && (failed in t ==> marks == (MarkedPlans(db, i, RecoveryRepeated), MarkedOutcomes(db, i, VerifiedFailure)))
      && (verified in t && failed !in t ==>
            marks == (MarkedPlans(db, i, RecoveryVerified), MarkedOutcomes(db, i, VerifiedSuccess)))
      && ((forall a <- t :: a.action != RecoveryVerification || a.incident == None) ==>
            marks == (db.plans, db.outcomes))
  {
    ReachablePlans(cfg, steps);
    var st := Trace(cfg, INITIAL, steps);
    ReachableOwnPlans(st.db);
    hide *;
    var rest := DeliveryEffect(cfg, st, e, ids);
    var s := At(st.db.audits, e.run);
    var again := e.key !in st.db.keys && Rematches(cfg, At(st.db.events, e.run) + [e], st, e) && Fails(s);
    var booked, db1 := e.kind == RunCompleted && Verifies(s), ProcessEvent(cfg, st, e, ids).db;
    MarksOfDelivery(st.db, db1, e.run, booked, again, rest, i);
  }

  /** A failed recovery pauses its run again exactly if the incident has a plan, the run is protected
      and it is going. */
  lemma FailurePausesAgain(db: Db, r: Id, i: Id)
    requires r in db.runs && ResumedOn(At(db.audits, r), Some(i))
    requires Audit(RecoveryVerification, RepeatedFailure, Some(i)) !in At(db.audits, r)
    ensures var row := db.runs[r];
      RepeatFailure(db, r).runs ==
      if At(db.plans, i) != [] && row.mode == Active && (row.status == Running || row.status == ResumeRequested)
      then db.runs[r := row.(status := PauseRequested)] else db.runs
  {
    FailsExactly(At(db.audits, r), i);
    var db1 := Log(db, r, Audit(RecoveryVerification, RepeatedFailure, Some(i)));
    MarkSilent(db1, i, RecoveryRepeated, VerifiedFailure);
    PauseExactly(MarkPlan(db1, i, RecoveryRepeated, VerifiedFailure), r, i);
    hide ResumedIncident, LatestResume, HasVerdict, MarkPlan, PauseRun, ResumedOn;
  }
}
