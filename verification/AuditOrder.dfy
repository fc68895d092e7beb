/** What the audit trail shows of a run whose pauses and resumes interleave: each change of course
    takes effect in one statement and is logged in a later one. */
module AuditOrder {
  import opened Records
  import opened Tables
  import opened Detectors
  import opened Protection
  import opened Collector
  import opened Interleaving

  datatype Actor = ByWorker(w: nat) | ByOperator(o: nat)

  /** The position of the change whose row the actor still owes. */
  function Owed(s: World, a: Actor): Option<nat> {
    match a
    case ByWorker(w) => if WorkerAt(s, w).Unlogged? then Some(WorkerAt(s, w).at) else None
    case ByOperator(o) => if OperatorAt(s, o).Owing? then Some(OperatorAt(s, o).at) else None
  }

  /** Who writes a row with this move. */
  function Logger(m: Move): Option<Actor> {
    match m
    case LogPause(w) => Some(ByWorker(w))
    case LogResume(o) => Some(ByOperator(o))
    case _ => None
  }

  /** The move writes a row although somebody owes the row of an earlier change. */
  ghost predicate OutOfTurn(s: World, m: Move) {
    && Logger(m).Some? && Owed(s, Logger(m).value).Some?
    && exists b :: Owed(s, b).Some? && Owed(s, b).value < Owed(s, Logger(m).value).value
  }

  /** Nobody's row overtakes the row of an earlier change. */
  ghost predicate Orderly(cfg: Config, r: Id, s: World, moves: seq<Move>) {
    forall n :: 0 <= n < |moves| ==> !OutOfTurn(Play(cfg, r, s, moves[..n]), moves[n])
  }

  /** The rows are about the first changes, in the order in which these took effect. */
  ghost predicate Faithful(s: World) {
    |s.trail| <= |s.history| && forall i :: 0 <= i < |s.trail| ==> s.trail[i] == i
  }

  /** Every change is logged or owed by one actor, and nothing else is. */
  ghost predicate Ledger(s: World) {
    && (forall k <- s.trail :: k < |s.history|)
    && (forall a :: Owed(s, a).Some? ==> Owed(s, a).value < |s.history| && Owed(s, a).value !in s.trail)
    && (forall a, b :: Owed(s, a).Some? && Owed(s, a) == Owed(s, b) ==> a == b)
    && (forall k: nat :: k < |s.history| ==> k in s.trail || exists a :: Owed(s, a) == Some(k))
  }

  /** What a move can do to the records: nothing, one change taking effect, or one row written. */
  datatype Effect = Nothing | Takes(a: Actor) | Writes(a: Actor)

  ghost predicate Has(s: World, s1: World, f: Effect) {
    match f
    case Nothing =>
      s1.history == s.history && s1.trail == s.trail && forall b :: Owed(s1, b) == Owed(s, b)
    case Takes(a) =>
      && |s1.history| == |s.history| + 1 && s1.history[..|s.history|] == s.history && s1.trail == s.trail
      && Owed(s, a) == None
      && forall b :: Owed(s1, b) == if b == a then Some(|s.history|) else Owed(s, b)
    case Writes(a) =>
      && Owed(s, a).Some? && s1.history == s.history && s1.trail == s.trail + [Owed(s, a).value]
      && forall b :: Owed(s1, b) == if b == a then None else Owed(s, b)
  }

  lemma PauseTakesEffect(cfg: Config, r: Id, s: World, w: nat) returns (f: Effect)
    ensures Has(s, Do(cfg, r, s, Cas(w)), f) && !f.Writes?
  {
    hide At, CasRunStatus, RefusePause;
    f := if Do(cfg, r, s, Cas(w)).history == s.history then Nothing else Takes(ByWorker(w));
  }

  lemma ResumeTakesEffect(cfg: Config, r: Id, s: World, o: nat) returns (f: Effect)
    ensures Has(s, Do(cfg, r, s, CasResume(o)), f) && !f.Writes?
  {
    hide At, CasRunStatus, RefuseResume;
    f := if Do(cfg, r, s, CasResume(o)).history == s.history then Nothing else Takes(ByOperator(o));
  }

  lemma WritesRow(cfg: Config, r: Id, s: World, m: Move) returns (f: Effect)
    requires m.LogPause? || m.LogResume?
    ensures Has(s, Do(cfg, r, s, m), f) && !f.Takes?
    ensures if Owed(s, Logger(m).value).Some? then f == Writes(Logger(m).value) else f == Nothing
  {
    hide At;
    f := if Owed(s, Logger(m).value).Some? then Writes(Logger(m).value) else Nothing;
  }

  lemma CollectorRecordsNothing(cfg: Config, r: Id, s: World, m: Move)
    requires m.Fetch? || m.Insert? || m.Write? || m.Check? || m.Finish?
    ensures Has(s, Do(cfg, r, s, m), Nothing)
  {
    hide SaveRun, NewRun, Advance;
  }

  lemma OthersRecordNothing(cfg: Config, r: Id, s: World, m: Move)
    requires m.GateRead? || m.GateWrite? || m.WholeGate? || m.WholeRelease? || m.ReadForResume? || m.SetMode?
    ensures Has(s, Do(cfg, r, s, m), Nothing)
  {
    hide GateEntry, GateRelease, UpdateProtectionMode, UpdateRunStatus, ResumeTarget;
  }

  lemma EffectOf(cfg: Config, r: Id, s: World, m: Move) returns (f: Effect)
    ensures Has(s, Do(cfg, r, s, m), f)
    ensures if Logger(m).Some? && Owed(s, Logger(m).value).Some? then f == Writes(Logger(m).value) else !f.Writes?
  {
    hide Do, Has;
    if m.Cas? {
      f := PauseTakesEffect(cfg, r, s, m.w);
    } else if m.CasResume? {
      f := ResumeTakesEffect(cfg, r, s, m.o);
    } else if m.LogPause? || m.LogResume? {
      f := WritesRow(cfg, r, s, m);
    } else {
      f := Nothing;
      if m.Fetch? || m.Insert? || m.Write? || m.Check? || m.Finish? {
        CollectorRecordsNothing(cfg, r, s, m);
      } else {
        OthersRecordNothing(cfg, r, s, m);
      }
    }
  }

  lemma EffectKeepsLedger(s: World, s1: World, f: Effect)
    requires Ledger(s) && Has(s, s1, f)
    ensures Ledger(s1)
  {
    forall k: nat | k < |s1.history| ensures k in s1.trail || exists a :: Owed(s1, a) == Some(k) {
      if k < |s.history| {
        if k !in s.trail {
          var a :| Owed(s, a) == Some(k);
          assert Owed(s1, a) == Some(k) || f == Writes(a);
        }
      } else {
        assert Owed(s1, f.a) == Some(k);
      }
    }
  }

  lemma FaithfulHas(s: World, k: nat)
    requires Faithful(s)
    ensures k in s.trail <==> k < |s.trail|
  {
    if k < |s.trail| { assert s.trail[k] == k; }
  }

  /** A row keeps the trail faithful exactly when its writer owes the earliest row. */
  lemma EffectKeepsFaithful(s: World, s1: World, f: Effect)
    requires Ledger(s) && Has(s, s1, f)
    ensures Faithful(s1) <==>
            (Faithful(s) && !(f.Writes? && exists b :: Owed(s, b).Some? && Owed(s, b).value < Owed(s, f.a).value))
  {
    if Faithful(s1) {
      assert forall i :: 0 <= i < |s.trail| ==> s1.trail[i] == s.trail[i];
      if s.trail != [] { assert Last(s.trail) in s.trail; }
    }
    if f.Writes? && Faithful(s) {
      var n, k := |s.trail|, Owed(s, f.a).value;
      assert s1.trail[n] == k;
      forall b | Owed(s, b).Some? ensures Owed(s, b).value >= n {
        FaithfulHas(s, Owed(s, b).value);
      }
      if n < k {
        assert n !in s.trail;
        var b :| Owed(s, b) == Some(n);
      }
    }
  }

  lemma {:induction false} PlayKeepsLedger(cfg: Config, r: Id, s: World, moves: seq<Move>)
    requires Quiescent(s)
    ensures Ledger(Play(cfg, r, s, moves))
    ensures Faithful(Play(cfg, r, s, moves)) <==> Orderly(cfg, r, s, moves)
  {
    hide Do, Ledger, Faithful, OutOfTurn, Owed;
    if moves == [] {
      RestIsFaithful(s);
    } else {
      var before := moves[..|moves| - 1];
      assert forall n :: 0 <= n < |before| ==> before[..n] == moves[..n];
      PlayKeepsLedger(cfg, r, s, before);
      StepKeepsLedger(cfg, r, Play(cfg, r, s, before), Last(moves));
      OrderlySplits(cfg, r, s, moves);
    }
  }

  lemma RestIsFaithful(s: World)
    requires Quiescent(s)
    ensures Ledger(s) && Faithful(s)
  {}

  lemma StepKeepsLedger(cfg: Config, r: Id, s: World, m: Move)
    requires Ledger(s)
    ensures Ledger(Do(cfg, r, s, m))
    ensures Faithful(Do(cfg, r, s, m)) <==> Faithful(s) && !OutOfTurn(s, m)
  {
    hide Do, Has, Ledger, Faithful, Owed;
    var f := EffectOf(cfg, r, s, m);
    EffectKeepsLedger(s, Do(cfg, r, s, m), f);
    EffectKeepsFaithful(s, Do(cfg, r, s, m), f);
  }

  lemma OrderlySplits(cfg: Config, r: Id, s: World, moves: seq<Move>)
    requires moves != []
    ensures var before := moves[..|moves| - 1];
      Orderly(cfg, r, s, moves) <==> Orderly(cfg, r, s, before) && !OutOfTurn(Play(cfg, r, s, before), Last(moves))
  {
    hide OutOfTurn, Play;
    var before := moves[..|moves| - 1];
    assert forall n :: 0 <= n < |before| ==> before[..n] == moves[..n] && before[n] == moves[n];
    assert moves[|before|] == Last(moves) && moves[..|before|] == before;
  }

  /** The successful audit rows, in the order in which they were written. */
  function Audited(s: World): seq<Mark> {
    seq(|s.trail|, i requires 0 <= i < |s.trail| =>
      if s.trail[i] < |s.history| then s.history[s.trail[i]] else PauseMade)
  }

  /** With any number of collectors, gates and operators, the audit trail lists the changes in the
      order in which they took effect exactly when nobody's row overtakes the row of an earlier
      change. With one collector two successful pause rows then always have a successful resume
      row between them. */
  lemma TrailIsFaithfulExactly(cfg: Config, r: Id, s: World, moves: seq<Move>)
    requires Quiescent(s)
    ensures var t := Play(cfg, r, s, moves);
      && (Faithful(t) <==> Orderly(cfg, r, s, moves))
      && (Orderly(cfg, r, s, moves) ==>
            && Audited(t) <= t.history
            && ((forall m <- moves :: OneCollector(m)) ==> Alternates(Audited(t))))
  {
    hide Do, Play, Ledger, Orderly;
    PlayKeepsLedger(cfg, r, s, moves);
    var t := Play(cfg, r, s, moves);
    if Faithful(t) {
      assert Audited(t) == t.history[..|t.trail|];
      if forall m <- moves :: OneCollector(m) {
        PauseHoldsUntilResume(cfg, r, s, moves);
        assert forall i :: 0 <= i < |t.trail| ==> Audited(t)[i] == t.history[i];
      }
    }
  }

  // ---- a simple sufficient condition ----

  /** The move's compare-and-set applies while somebody owes a row. */
  ghost predicate TakesEarly(cfg: Config, r: Id, s: World, m: Move) {
    Do(cfg, r, s, m).history != s.history && exists b :: Owed(s, b).Some?
  }

  /** Each change takes effect with all earlier rows written. */
  ghost predicate Serial(cfg: Config, r: Id, s: World, moves: seq<Move>) {
    forall n :: 0 <= n < |moves| ==> !TakesEarly(cfg, r, Play(cfg, r, s, moves[..n]), moves[n])
  }

  ghost predicate OneOwes(s: World) {
    forall a, b :: Owed(s, a).Some? && Owed(s, b).Some? ==> a == b
  }

  lemma {:induction false} SerialMeansOneOwes(cfg: Config, r: Id, s: World, moves: seq<Move>)
    requires Quiescent(s) && Serial(cfg, r, s, moves)
    ensures OneOwes(Play(cfg, r, s, moves))
  {
    hide Do;
    if moves != [] {
      var before := moves[..|moves| - 1];
      assert forall n :: 0 <= n < |before| ==> before[..n] == moves[..n] && before[n] == moves[n];
      assert moves[..|before|] == before && moves[|before|] == Last(moves);
      SerialMeansOneOwes(cfg, r, s, before);
      var f := EffectOf(cfg, r, Play(cfg, r, s, before), Last(moves));
    }
  }

  /** If no change takes effect while somebody owes a row, every trail is faithful. */
  lemma SerialIsOrderly(cfg: Config, r: Id, s: World, moves: seq<Move>)
    requires Quiescent(s) && Serial(cfg, r, s, moves)
    ensures Orderly(cfg, r, s, moves) && Faithful(Play(cfg, r, s, moves))
  {
    forall n | 0 <= n < |moves| ensures !OutOfTurn(Play(cfg, r, s, moves[..n]), moves[n]) {
      hide Do, Play, TakesEarly, Owed;
      assert forall k :: 0 <= k < n ==> moves[..n][..k] == moves[..k] && moves[..n][k] == moves[k];
      SerialMeansOneOwes(cfg, r, s, moves[..n]);
    }
    PlayKeepsLedger(cfg, r, s, moves);
  }

  // ---- the two ways to overtake ----

  /** A resume takes effect and is logged before the pause it answers is logged. */
  function PauseOvertaken(e: Event): seq<Move> {
    Booking(e) + [Check(0, "incident"), Cas(0)] + RESUME + [LogPause(0)] + PAUSE
  }

  /** The next pause takes effect and is logged before the resume it follows is logged. */
  function ResumeOvertaken(e: Event): seq<Move> {
    Booking(e) + PAUSE + [ReadForResume(0, None), CasResume(0)] + PAUSE + [LogResume(0)]
  }

  lemma PlayTwo(cfg: Config, r: Id, s: World, moves: seq<Move>, a: Move, b: Move)
    ensures Play(cfg, r, s, moves + [a, b]) == Do(cfg, r, Do(cfg, r, Play(cfg, r, s, moves), a), b)
  {
    hide Do;
    PlayOne(cfg, r, s, moves, a);
    PlayOne(cfg, r, s, moves + [a], b);
    assert moves + [a, b] == moves + [a] + [b];
  }

  lemma PlayPauseOvertaken(cfg: Config, r: Id, e: Event)
    requires !Ends(e)
    ensures var t := Play(cfg, r, Started(r), Booking(e) + [Check(0, "incident"), Cas(0)]);
      && r in t.db.runs && t.db.runs[r].status == PauseRequested && t.db.runs[r].mode == Active
      && WorkerAt(t, 0) == Unlogged("incident", 0) && OperatorAt(t, 0) == Resting
      && t.history == [PauseMade] && t.trail == []
  {
    hide At, SaveRun, NewRun, Advance, GateEntry, GateRelease, UpdateProtectionMode, ResumeTarget;
    PlayBooking(cfg, r, e);
    PlayTwo(cfg, r, Started(r), Booking(e), Check(0, "incident"), Cas(0));
    hide Play;
    var t := Play(cfg, r, Started(r), Booking(e));
    assert WorkerAt(Do(cfg, r, t, Check(0, "incident")), 0) == Checked("incident", RowOf(t.db, r));
  }

  lemma LogsPause(cfg: Config, r: Id, t: World, incident: Id, at: nat)
    requires WorkerAt(t, 0) == Unlogged(incident, at)
    ensures var t1 := Do(cfg, r, t, LogPause(0));
      && t1.db.runs == t.db.runs && WorkerAt(t1, 0) == Booked && t1.operators == t.operators
      && t1.history == t.history && t1.trail == t.trail + [at]
  {
    hide At;
  }

  lemma PlayLateRow(cfg: Config, r: Id, e: Event)
    requires !Ends(e)
    ensures var t := Play(cfg, r, Started(r), Booking(e) + [Check(0, "incident"), Cas(0)] + RESUME + [LogPause(0)]);
      && r in t.db.runs && t.db.runs[r].status == ResumeRequested && t.db.runs[r].mode == Active
      && WorkerAt(t, 0) == Booked
      && t.history == [PauseMade, ResumeMade] && t.trail == [1, 0]
  {
    var s, moves := Started(r), Booking(e) + [Check(0, "incident"), Cas(0)];
    PlayPauseOvertaken(cfg, r, e);
    hide Do, Play;
    PlayResume(cfg, r, s, moves);
    PlayOne(cfg, r, s, moves + RESUME, LogPause(0));
    LogsPause(cfg, r, Play(cfg, r, s, moves + RESUME), "incident", 0);
  }

  lemma AllOfOneCollector(e: Event)
    ensures forall m <- PauseOvertaken(e) :: OneCollector(m)
    ensures forall m <- ResumeOvertaken(e) :: OneCollector(m)
  {}

  /** The first way: with one collector a resume row overtakes a pause row, and the next pause's row
      stands beside it. */
  lemma OvertakenPauseRow(cfg: Config, r: Id, e: Event)
    requires !Ends(e)
    ensures var t := Play(cfg, r, Started(r), PauseOvertaken(e));
      && Quiescent(Started(r)) && (forall m <- PauseOvertaken(e) :: OneCollector(m))
      && t.history == [PauseMade, ResumeMade, PauseMade]
      && Audited(t) == [ResumeMade, PauseMade, PauseMade]
  {
    AllOfOneCollector(e);
    PlayLateRow(cfg, r, e);
    hide Do, Play, OneCollector, Booking;
    PlayPause(cfg, r, Started(r), Booking(e) + [Check(0, "incident"), Cas(0)] + RESUME + [LogPause(0)]);
    assert Play(cfg, r, Started(r), PauseOvertaken(e)).trail == [1, 0, 2];
  }

  /** A resume takes effect, and its row is owed. */
  lemma ResumeInTwo(cfg: Config, r: Id, t: World)
    requires OperatorAt(t, 0) == Resting && WantsResume(RowOf(t.db, r))
    ensures var t1 := Do(cfg, r, t, ReadForResume(0, None));
      var t2 := Do(cfg, r, t1, CasResume(0));
      && t1.workers == t.workers && t1.history == t.history
      && OperatorAt(t2, 0).Owing? && OperatorAt(t2, 0).at == |t.history|
      && r in t2.db.runs && t2.db.runs[r] == t.db.runs[r].(status := ResumeRequested)
      && t2.workers == t.workers && t2.history == t.history + [ResumeMade] && t2.trail == t.trail
  {
    hide At, SaveRun, NewRun, Advance, GateEntry, GateRelease, UpdateProtectionMode, ResumeTarget, CasRunStatus;
    CasTakes(t.db, r, ResumeRequested, HELD);
    assert OperatorAt(Do(cfg, r, t, ReadForResume(0, None)), 0) ==
           Deciding(ResumeTarget(t.db, r, None), RowOf(t.db, r));
  }

  lemma PlayResumeOvertaken(cfg: Config, r: Id, e: Event)
    requires !Ends(e)
    ensures var t := Play(cfg, r, Started(r), Booking(e) + PAUSE + [ReadForResume(0, None), CasResume(0)]);
      && r in t.db.runs && t.db.runs[r].status == ResumeRequested && t.db.runs[r].mode == Active
      && WorkerAt(t, 0) == Booked && OperatorAt(t, 0).Owing? && OperatorAt(t, 0).at == 1
      && t.history == [PauseMade, ResumeMade] && t.trail == [0]
  {
    PlayBooking(cfg, r, e);
    hide Do, Play;
    PlayPause(cfg, r, Started(r), Booking(e));
    PlayTwo(cfg, r, Started(r), Booking(e) + PAUSE, ReadForResume(0, None), CasResume(0));
    ResumeInTwo(cfg, r, Play(cfg, r, Started(r), Booking(e) + PAUSE));
  }

  lemma LogsResume(cfg: Config, r: Id, t: World)
    requires OperatorAt(t, 0).Owing?
    ensures var t1 := Do(cfg, r, t, LogResume(0));
      t1.history == t.history && t1.trail == t.trail + [OperatorAt(t, 0).at]
  {
    hide At;
  }

  lemma PlayLateResumeRow(cfg: Config, r: Id, e: Event)
    requires !Ends(e)
    ensures var t := Play(cfg, r, Started(r), ResumeOvertaken(e));
      t.history == [PauseMade, ResumeMade, PauseMade] && t.trail == [0, 2, 1]
  {
    var s, moves := Started(r), Booking(e) + PAUSE + [ReadForResume(0, None), CasResume(0)];
    PlayResumeOvertaken(cfg, r, e);
    hide Do, Play, Booking, Started;
    PlayPause(cfg, r, s, moves);
    PlayOne(cfg, r, s, moves + PAUSE, LogResume(0));
    LogsResume(cfg, r, Play(cfg, r, s, moves + PAUSE));
  }

  /** The second way: no resume slips between a pause and its row, but a pause slips between a
      resume and its row. */
  lemma OvertakenResumeRow(cfg: Config, r: Id, e: Event)
    requires !Ends(e)
    ensures var t := Play(cfg, r, Started(r), ResumeOvertaken(e));
      && Quiescent(Started(r)) && (forall m <- ResumeOvertaken(e) :: OneCollector(m))
      && t.history == [PauseMade, ResumeMade, PauseMade]
      && Audited(t) == [PauseMade, PauseMade, ResumeMade]
  {
    AllOfOneCollector(e);
    PlayLateResumeRow(cfg, r, e);
    hide Play, OneCollector, ResumeOvertaken;
  }

  // ---- overlapping without overtaking ----

  function Overlapping(e: Event): seq<Move> {
    Booking(e) + [Check(0, "incident"), Cas(0)] + [ReadForResume(0, None), CasResume(0)] + [LogPause(0), LogResume(0)]
  }

  lemma PlayOverlapping(cfg: Config, r: Id, e: Event)
    requires !Ends(e)
    ensures var t := Play(cfg, r, Started(r), Overlapping(e));
      |t.history| == 2 && t.trail == [0, 1]
  {
    var s, moves := Started(r), Booking(e) + [Check(0, "incident"), Cas(0)];
    PlayPauseOvertaken(cfg, r, e);
    hide Do, Play, Booking, Started;
    ResumeInTwo(cfg, r, Play(cfg, r, s, moves));
    PlayTwo(cfg, r, s, moves, ReadForResume(0, None), CasResume(0));
    var t2 := Play(cfg, r, s, moves + [ReadForResume(0, None), CasResume(0)]);
    PlayTwo(cfg, r, s, moves + [ReadForResume(0, None), CasResume(0)], LogPause(0), LogResume(0));
    LogsPause(cfg, r, t2, "incident", 0);
    LogsResume(cfg, r, Do(cfg, r, t2, LogPause(0)));
  }

  lemma OverlapTakesEarly(cfg: Config, r: Id, e: Event)
    requires !Ends(e)
    ensures !Serial(cfg, r, Started(r), Overlapping(e))
  {
    var s, moves, n := Started(r), Booking(e) + [Check(0, "incident"), Cas(0)], 6;
    PlayPauseOvertaken(cfg, r, e);
    assert Overlapping(e)[..n] == moves + [ReadForResume(0, None)] && Overlapping(e)[n] == CasResume(0);
    hide Do, Play, Booking, Started, Overlapping;
    ResumeInTwo(cfg, r, Play(cfg, r, s, moves));
    PlayOne(cfg, r, s, moves, ReadForResume(0, None));
    assert Owed(Play(cfg, r, s, Overlapping(e)[..n]), ByWorker(0)).Some?;
    assert TakesEarly(cfg, r, Play(cfg, r, s, Overlapping(e)[..n]), Overlapping(e)[n]);
  }

  /** Taking effect while a row is owed is not the fault: both rows may still be written in order. */
  lemma OverlapCanBeFaithful(cfg: Config, r: Id, e: Event)
    requires !Ends(e)
    ensures Orderly(cfg, r, Started(r), Overlapping(e)) && !Serial(cfg, r, Started(r), Overlapping(e))
  {
    PlayOverlapping(cfg, r, e);
    OverlapTakesEarly(cfg, r, e);
    hide Play, Orderly, Overlapping, Serial;
    TrailIsFaithfulExactly(cfg, r, Started(r), Overlapping(e));
  }
}
