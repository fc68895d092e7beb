/** One run under fine-grained interleaving: collectors and operators whose read, write,
    compare-and-set and audit row are separate statements, and gates whose read and write may be
    separated. */
module Interleaving {
  import opened Records
  import opened Tables
  import opened Detectors
  import opened Protection
  import opened Collector
  import Trails

  /** Where a collector worker stands in processing an event of the run. */
  datatype Worker =
    | Idle
    | Fetched(e: Event, row: Option<Run>)
    | Loaded(e: Event, run: Run)
    | Booked
    | Checked(incident: Id, seen: Option<Run>)
    | Unlogged(incident: Id, at: nat)

  /** Where an operator stands in resuming the run. */
  datatype Operator =
    | Resting
    | Deciding(target: Option<Id>, seen: Option<Run>)
    | Owing(target: Option<Id>, at: nat)

  datatype Gate = Away | Saw(status: Status)

  /** A change of course that took effect. */
  datatype Mark = PauseMade | ResumeMade

  /** `history` records pauses and resumes as they take effect; `trail` lists, as the successful
      audit rows are written, which of them each row is about. Whoever still owes a row keeps that
      position. Neither record decides anything. */
  datatype World = World(
    db: Db,
    workers: map<nat, Worker>,
    operators: map<nat, Operator>,
    gates: map<nat, Gate>,
    history: seq<Mark>,
    trail: seq<nat>)

  datatype Move =
    | Fetch(w: nat, e: Event)
    | Insert(w: nat)
    | Write(w: nat)
    | Check(w: nat, incident: Id)
    | Cas(w: nat)
    | LogPause(w: nat)
    | Finish(w: nat)
    | GateRead(g: nat)
    | GateWrite(g: nat)
    | WholeGate
    | WholeRelease
    | ReadForResume(o: nat, target: Option<Id>)
    | CasResume(o: nat)
    | LogResume(o: nat)
    | SetMode(mode: Mode)

  function WorkerAt(s: World, w: nat): Worker {
    if w in s.workers then s.workers[w] else Idle
  }

  function OperatorAt(s: World, o: nat): Operator {
    if o in s.operators then s.operators[o] else Resting
  }

  function GateAt(s: World, g: nat): Gate {
    if g in s.gates then s.gates[g] else Away
  }

  function RowOf(db: Db, r: Id): Option<Run> {
    if r in db.runs then Some(db.runs[r]) else None
  }

  /** The pause request's guards, on the row it read. */
  predicate WantsPause(seen: Option<Run>) {
    seen.Some? && seen.value.mode == Active && seen.value.status in PAUSABLE
  }

  /** The audit row, if any, of a pause request that its guards stop. */
  function RefusePause(db: Db, r: Id, incident: Id, seen: Option<Run>): Db {
    if seen.None? || seen.value.mode != Active then db
    else if Terminal(seen.value.status) then Log(db, r, Audit(PauseFailedAudit, Failure, Some(incident)))
    else Log(db, r, Audit(PauseRequestedAudit, Idempotent, Some(incident)))
  }

  predicate WantsResume(seen: Option<Run>) {
    seen.Some? && seen.value.status in HELD
  }

  function RefuseResume(db: Db, r: Id, seen: Option<Run>): Db {
    if seen.None? then db
    else if Terminal(seen.value.status) then Log(db, r, Audit(ResumeFailedAudit, Failure, None))
    else Log(db, r, Audit(ResumeRequestedAudit, Idempotent, None))
  }

  function TryPause(r: Id, s: World, w: nat, incident: Id, seen: Option<Run>): World {
    if !WantsPause(seen) then
      s.(db := RefusePause(s.db, r, incident, seen), workers := s.workers[w := Booked])
    else if !CasApplies(s.db, r, PAUSABLE) then s.(workers := s.workers[w := Booked])
    else
      s.(db := CasRunStatus(s.db, r, PauseRequested, PAUSABLE),
         workers := s.workers[w := Unlogged(incident, |s.history|)],
         history := s.history + [PauseMade])
  }

  function TryResume(r: Id, s: World, o: nat, target: Option<Id>, seen: Option<Run>): World {
    if !WantsResume(seen) then s.(db := RefuseResume(s.db, r, seen), operators := s.operators[o := Resting])
    else if !CasApplies(s.db, r, HELD) then s.(operators := s.operators[o := Resting])
    else
      s.(db := CasRunStatus(s.db, r, ResumeRequested, HELD),
         operators := s.operators[o := Owing(target, |s.history|)],
         history := s.history + [ResumeMade])
  }

  /** One statement; a move that does not fit the mover's position changes nothing. */
  function Do(cfg: Config, r: Id, s: World, m: Move): World {
    match m
    case Fetch(w, e) =>
      if WorkerAt(s, w).Idle? then s.(workers := s.workers[w := Fetched(e, RowOf(s.db, r))]) else s
    case Insert(w) =>
      (match WorkerAt(s, w)
       case Fetched(e, None) =>
         s.(db := SaveRun(s.db, r, NewRun(cfg, e)), workers := s.workers[w := Loaded(e, NewRun(cfg, e))])
       case Fetched(e, Some(run)) => s.(workers := s.workers[w := Loaded(e, run)])
       case _ => s)
    case Write(w) =>
      (match WorkerAt(s, w)
       case Loaded(e, run) => s.(db := SaveRun(s.db, r, Advance(run, e)), workers := s.workers[w := Booked])
       case _ => s)
    case Check(w, incident) =>
      if WorkerAt(s, w).Booked? then s.(workers := s.workers[w := Checked(incident, RowOf(s.db, r))]) else s
    case Cas(w) =>
      (match WorkerAt(s, w)
       case Checked(incident, seen) => TryPause(r, s, w, incident, seen)
       case _ => s)
    case LogPause(w) =>
      (match WorkerAt(s, w)
       case Unlogged(incident, at) =>
         s.(db := Log(s.db, r, Audit(PauseRequestedAudit, Success, Some(incident))),
            workers := s.workers[w := Booked], trail := s.trail + [at])
       case _ => s)
    case Finish(w) =>
      if WorkerAt(s, w).Booked? then s.(workers := s.workers[w := Idle]) else s
    case GateRead(g) =>
      if r in s.db.runs then s.(gates := s.gates[g := Saw(s.db.runs[r].status)]) else s
    case GateWrite(g) =>
      (match GateAt(s, g)
       case Saw(PauseRequested) => s.(db := UpdateRunStatus(s.db, r, Paused), gates := s.gates[g := Away])
       case Saw(ResumeRequested) => s.(db := UpdateRunStatus(s.db, r, Running), gates := s.gates[g := Away])
       case _ => s.(gates := s.gates[g := Away]))
    case WholeGate => s.(db := GateEntry(s.db, r))
    case WholeRelease => s.(db := GateRelease(s.db, r))
    case ReadForResume(o, incident) =>
      if OperatorAt(s, o).Resting?
      then s.(operators := s.operators[o := Deciding(ResumeTarget(s.db, r, incident), RowOf(s.db, r))])
      else s
    case CasResume(o) =>
      (match OperatorAt(s, o)
       case Deciding(target, seen) => TryResume(r, s, o, target, seen)
       case _ => s)
    case LogResume(o) =>
      (match OperatorAt(s, o)
       case Owing(target, at) =>
         s.(db := Log(s.db, r, Audit(ResumeRequestedAudit, Success, target)),
            operators := s.operators[o := Resting], trail := s.trail + [at])
       case _ => s)
    case SetMode(mode) => s.(db := UpdateProtectionMode(s.db, r, mode))
  }

  function Play(cfg: Config, r: Id, s: World, moves: seq<Move>): World {
    if moves == [] then s else Do(cfg, r, Play(cfg, r, s, moves[..|moves| - 1]), Last(moves))
  }

  /** Nobody is in the middle of anything, and nothing has been recorded. */
  ghost predicate Quiescent(s: World) {
    && (forall w :: WorkerAt(s, w) == Idle)
    && (forall o :: OperatorAt(s, o) == Resting)
    && (forall g :: GateAt(s, g) == Away)
    && s.history == [] && s.trail == []
  }

  // ---- the statements in sequence are the handlers ----

  /** A collector left alone books the row the whole handler would. */
  lemma UninterruptedBooking(cfg: Config, r: Id, s: World, w: nat, e: Event)
    requires WorkerAt(s, w) == Idle && e.run == r
    ensures var s1 := Do(cfg, r, Do(cfg, r, Do(cfg, r, s, Fetch(w, e)), Insert(w)), Write(w));
      && WorkerAt(s1, w) == Booked
      && RowOf(s1.db, r) == RowOf(Book(cfg, s.db, e), r)
  {
    hide Advance, MergeRun, NewRun, Book;
    Trails.BookRows(cfg, s.db, e);
    var s2 := Do(cfg, r, Do(cfg, r, s, Fetch(w, e)), Insert(w));
    var run := if r in s.db.runs then s.db.runs[r] else NewRun(cfg, e);
    assert WorkerAt(s2, w) == Loaded(e, run) && RowOf(s2.db, r) == Some(run);
  }

  /** A pause request left alone is the whole pause, its audit row included. */
  lemma UninterruptedPause(cfg: Config, r: Id, s: World, w: nat, incident: Id)
    requires WorkerAt(s, w) == Booked
    ensures Do(cfg, r, Do(cfg, r, Do(cfg, r, s, Check(w, incident)), Cas(w)), LogPause(w)).db ==
            PauseRun(s.db, r, incident)
  {
    hide At, UpdateRunStatus;
    var seen := RowOf(s.db, r);
    var s1 := Do(cfg, r, s, Check(w, incident));
    assert WorkerAt(s1, w) == Checked(incident, seen) && s1.db == s.db;
    var s2 := Do(cfg, r, s1, Cas(w));
    if WantsPause(seen) {
      assert CasApplies(s.db, r, PAUSABLE) && WorkerAt(s2, w) == Unlogged(incident, |s.history|);
    } else {
      assert WorkerAt(s2, w) == Booked && s2.db == RefusePause(s.db, r, incident, seen);
    }
  }

  lemma ResumeByParts(db: Db, r: Id, incident: Option<Id>)
    ensures ResumeRun(db, r, incident) ==
            if WantsResume(RowOf(db, r))
            then Log(CasRunStatus(db, r, ResumeRequested, HELD), r,
                     Audit(ResumeRequestedAudit, Success, ResumeTarget(db, r, incident)))
            else RefuseResume(db, r, RowOf(db, r))
  {
    hide Log, CasRunStatus, ResumeTarget;
  }

  /** And a resume left alone is the whole resume. */
  lemma UninterruptedResume(cfg: Config, r: Id, s: World, o: nat, incident: Option<Id>)
    requires OperatorAt(s, o) == Resting
    ensures Do(cfg, r, Do(cfg, r, Do(cfg, r, s, ReadForResume(o, incident)), CasResume(o)), LogResume(o)).db ==
            ResumeRun(s.db, r, incident)
  {
    ResumeByParts(s.db, r, incident);
    hide Log, CasRunStatus, ResumeTarget, RefuseResume, ResumeRun;
    hide SaveRun, NewRun, Advance, GateEntry, GateRelease, UpdateProtectionMode, UpdateRunStatus, RefusePause;
    var seen, target := RowOf(s.db, r), ResumeTarget(s.db, r, incident);
    var s1 := Do(cfg, r, s, ReadForResume(o, incident));
    assert OperatorAt(s1, o) == Deciding(target, seen) && s1.db == s.db;
    var s2 := Do(cfg, r, s1, CasResume(o));
    if WantsResume(seen) {
      assert CasApplies(s.db, r, HELD) && OperatorAt(s2, o) == Owing(target, |s.history|);
    } else {
      assert OperatorAt(s2, o) == Resting && s2.db == RefuseResume(s.db, r, seen);
    }
  }

  /** A gate whose read and write are not separated takes the status where the AutoGen hook does. */
  lemma UninterruptedGate(cfg: Config, r: Id, s: World, g: nat)
    requires r in s.db.runs
    ensures var s1 := Do(cfg, r, Do(cfg, r, s, GateRead(g)), GateWrite(g));
      r in s1.db.runs && r in AutoGenGate(s.db, r).runs
      && s1.db.runs[r].status == AutoGenGate(s.db, r).runs[r].status
  {
    EntryMoves(s.db, r);
    ReleaseMoves(GateEntry(s.db, r), r);
    StatusMoves(s.db, r, Paused);
    StatusMoves(s.db, r, Running);
    hide GateEntry, GateRelease, UpdateRunStatus;
    assert GateAt(Do(cfg, r, s, GateRead(g)), g) == Saw(s.db.runs[r].status);
  }

  // ---- one collector ----

  lemma CasTakes(db: Db, r: Id, status: Status, expected: set<Status>)
    requires CasApplies(db, r, expected)
    ensures CasRunStatus(db, r, status, expected) == db.(runs := db.runs[r := db.runs[r].(status := status)])
  {}

  const SAFE: set<Status> := {PauseRequested, Paused, Completed, Failed}

  predicate OneCollector(m: Move) {
    match m
    case Fetch(w, _) => w == 0
    case Insert(w) => w == 0
    case Write(w) => w == 0
    case Check(w, _) => w == 0
    case Cas(w) => w == 0
    case LogPause(w) => w == 0
    case Finish(w) => w == 0
    case GateRead(_) => false
    case GateWrite(_) => false
    case _ => true
  }

  predicate Paused?(s: World) {
    s.history != [] && Last(s.history) == PauseMade
  }

  /** While the last thing done to the run is a pause, neither the row nor the collector's own
      snapshot of it can set it going again. */
  ghost predicate Held(r: Id, s: World) {
    Paused?(s) ==>
      && r in s.db.runs
      && s.db.runs[r].status in SAFE
      && match WorkerAt(s, 0)
         case Fetched(_, row) => row.Some? && row.value.status in SAFE
         case Loaded(_, run) => run.status in SAFE
         case _ => true
  }

  ghost predicate Alternates(h: seq<Mark>) {
    forall i :: 0 <= i < |h| - 1 && h[i] == PauseMade ==> h[i + 1] == ResumeMade
  }

  lemma AdvanceStaysSafe(run: Run, stored: Run, e: Event)
    requires run.status in SAFE && stored.status in SAFE
    ensures MergeRun(stored, Advance(run, e)).status in SAFE
  {}

  lemma WriterKeepsHeld(cfg: Config, r: Id, s: World, m: Move)
    requires Held(r, s) && OneCollector(m) && (m.Fetch? || m.Insert? || m.Write?)
    ensures Held(r, Do(cfg, r, s, m)) && Do(cfg, r, s, m).history == s.history
  {
    hide Advance, MergeRun, NewRun;
    if m.Write? && WorkerAt(s, 0).Loaded? && Paused?(s) {
      var worker := WorkerAt(s, 0);
      AdvanceStaysSafe(worker.run, s.db.runs[r], worker.e);
    }
  }

  lemma PauserKeepsHeld(cfg: Config, r: Id, s: World, m: Move)
    requires Held(r, s) && OneCollector(m) && (m.Check? || m.Cas? || m.LogPause? || m.Finish?)
    ensures Held(r, Do(cfg, r, s, m))
    ensures var s1 := Do(cfg, r, s, m);
      s1.history == s.history || (s1.history == s.history + [PauseMade] && !Paused?(s))
  {
    hide At, CasRunStatus, RefusePause;
    if CasApplies(s.db, r, PAUSABLE) { CasTakes(s.db, r, PauseRequested, PAUSABLE); }
    if m.Cas? && WorkerAt(s, 0).Checked? { RefusalKeepsRuns(s.db, r, WorkerAt(s, 0).incident, WorkerAt(s, 0).seen); }
  }

  lemma LogKeepsRuns(db: Db, r: Id, a: Audit)
    ensures Log(db, r, a).runs == db.runs
  {}

  lemma RefusalKeepsRuns(db: Db, r: Id, incident: Id, seen: Option<Run>)
    ensures RefusePause(db, r, incident, seen).runs == db.runs && RefuseResume(db, r, seen).runs == db.runs
  {
    hide Log;
    forall a ensures Log(db, r, a).runs == db.runs { LogKeepsRuns(db, r, a); }
  }

  lemma ResumerKeepsHeld(cfg: Config, r: Id, s: World, m: Move)
    requires Held(r, s) && (m.ReadForResume? || m.CasResume? || m.LogResume?)
    ensures Held(r, Do(cfg, r, s, m))
    ensures var s1 := Do(cfg, r, s, m); s1.history == s.history || s1.history == s.history + [ResumeMade]
  {
    hide At, ResumeTarget, CasRunStatus, RefuseResume;
    if m.CasResume? && OperatorAt(s, m.o).Deciding? { RefusalKeepsRuns(s.db, r, "", OperatorAt(s, m.o).seen); }
  }

  lemma GateKeepsHeld(cfg: Config, r: Id, s: World, m: Move)
    requires Held(r, s) && (m.WholeGate? || m.WholeRelease? || m.SetMode?)
    ensures Held(r, Do(cfg, r, s, m)) && Do(cfg, r, s, m).history == s.history
  {
    hide GateEntry, GateRelease;
    EntryMoves(s.db, r);
    ReleaseMoves(s.db, r);
  }

  lemma MoveKeepsHeld(cfg: Config, r: Id, s: World, m: Move)
    requires Held(r, s) && Alternates(s.history) && OneCollector(m)
    ensures Held(r, Do(cfg, r, s, m)) && Alternates(Do(cfg, r, s, m).history)
  {
    hide Do, Held;
    if m.Fetch? || m.Insert? || m.Write? {
      WriterKeepsHeld(cfg, r, s, m);
    } else if m.Check? || m.Cas? || m.LogPause? || m.Finish? {
      PauserKeepsHeld(cfg, r, s, m);
    } else if m.ReadForResume? || m.CasResume? || m.LogResume? {
      ResumerKeepsHeld(cfg, r, s, m);
    } else {
      GateKeepsHeld(cfg, r, s, m);
    }
  }

  lemma {:induction false} PlayKeepsHeld(cfg: Config, r: Id, s: World, moves: seq<Move>)
    requires Quiescent(s)
    requires forall m <- moves :: OneCollector(m)
    ensures Held(r, Play(cfg, r, s, moves)) && Alternates(Play(cfg, r, s, moves).history)
  {
    hide Do;
    if moves != [] {
      PlayKeepsHeld(cfg, r, s, moves[..|moves| - 1]);
      MoveKeepsHeld(cfg, r, Play(cfg, r, s, moves[..|moves| - 1]), Last(moves));
    }
  }

  /** With one collector, whose statements may be interleaved with any operators', and whole gates: from
      a successful pause until the next successful resume the run is paused, about to be, or over;
      and between two successful pauses there is a successful resume. */
  lemma PauseHoldsUntilResume(cfg: Config, r: Id, s: World, moves: seq<Move>)
    requires Quiescent(s)
    requires forall m <- moves :: OneCollector(m)
    ensures var t := Play(cfg, r, s, moves);
      && (Paused?(t) ==> r in t.db.runs && t.db.runs[r].status in SAFE)
      && Alternates(t.history)
  {
    PlayKeepsHeld(cfg, r, s, moves);
  }

  // ---- any number of collectors, before the first resume ----

  predicate Ends(e: Event) {
    e.kind == RunCompleted || e.kind == RunFailed
  }

  /** Neither a resume nor the end of the run. */
  predicate BeforeResume(m: Move) {
    match m
    case CasResume(_) => false
    case Fetch(_, e) => !Ends(e)
    case _ => true
  }

  const EARLY: set<Status> := {Running, PauseRequested, Paused}

  predicate Suspended(r: Id, db: Db) {
    r in db.runs && db.runs[r].status in HELD
  }

  /** A status read earlier, however early, says running or shows a pause that still stands. */
  ghost predicate Honest(r: Id, db: Db, status: Status) {
    status in EARLY && (status in HELD ==> Suspended(r, db))
  }

  ghost predicate HonestWorker(r: Id, db: Db, worker: Worker) {
    match worker
    case Fetched(e, row) => !Ends(e) && (row.Some? ==> Honest(r, db, row.value.status))
    case Loaded(e, run) => !Ends(e) && Honest(r, db, run.status)
    case _ => true
  }

  ghost predicate HonestGate(r: Id, db: Db, gate: Gate) {
    gate.Saw? ==> Honest(r, db, gate.status)
  }

  ghost predicate Snapshots(r: Id, s: World) {
    && (r in s.db.runs ==> s.db.runs[r].status in EARLY)
    && (forall w: nat :: HonestWorker(r, s.db, WorkerAt(s, w)))
    && (forall g: nat :: HonestGate(r, s.db, GateAt(s, g)))
  }

  lemma AdvanceKeepsStatus(run: Run, e: Event)
    requires !Ends(e)
    ensures Advance(run, e).status == run.status
  {}

  /** Writing an honest snapshot back: the upsert's guard keeps a stored pause. */
  lemma GuardKeepsPause(stored: Run, run: Run, e: Event)
    requires !Ends(e)
    requires stored.status in EARLY && run.status in EARLY
    ensures var merged := MergeRun(stored, Advance(run, e)).status;
      merged in EARLY && (stored.status in HELD || run.status in HELD ==> merged in HELD)
  {}

  lemma GuardKeepsPauseOnInsert(stored: Run, cfg: Config, e: Event)
    requires stored.status in EARLY
    ensures MergeRun(stored, NewRun(cfg, e)).status == stored.status
  {}

  /** The row may only move on within the early statuses and keep a pause; whoever moved holds
      something honest. */
  ghost predicate Careful(r: Id, s: World, s1: World) {
    && (r in s.db.runs ==> r in s1.db.runs)
    && (r in s1.db.runs ==> s1.db.runs[r].status in EARLY)
    && (Suspended(r, s.db) ==> Suspended(r, s1.db))
    && (forall w: nat :: WorkerAt(s1, w) == WorkerAt(s, w) || HonestWorker(r, s1.db, WorkerAt(s1, w)))
    && (forall g: nat :: GateAt(s1, g) == GateAt(s, g) || HonestGate(r, s1.db, GateAt(s1, g)))
  }

  lemma CarefulKeepsSnapshots(r: Id, s: World, s1: World)
    requires Snapshots(r, s) && Careful(r, s, s1)
    ensures Snapshots(r, s1)
  {
    forall w: nat
      ensures HonestWorker(r, s1.db, WorkerAt(s1, w))
    {
      assert HonestWorker(r, s.db, WorkerAt(s, w));
    }
    forall g: nat
      ensures HonestGate(r, s1.db, GateAt(s1, g))
    {
      assert HonestGate(r, s.db, GateAt(s, g));
    }
  }

  lemma MoveIsCareful(cfg: Config, r: Id, s: World, m: Move)
    requires Snapshots(r, s) && BeforeResume(m)
    ensures Careful(r, s, Do(cfg, r, s, m))
  {
    hide Snapshots, Careful, Do;
    match m {
      case Fetch(w, e) => ReaderIsCareful(cfg, r, s, m);
      case Insert(w) => InsertIsCareful(cfg, r, s, w);
      case Write(w) => WriteIsCareful(cfg, r, s, w);
      case Check(w, _) => ReaderIsCareful(cfg, r, s, m);
      case Cas(w) => CasIsCareful(cfg, r, s, w);
      case LogPause(w) => LogPauseIsCareful(cfg, r, s, w);
      case Finish(w) => ReaderIsCareful(cfg, r, s, m);
      case GateRead(g) => SplitGateIsCareful(cfg, r, s, m);
      case GateWrite(g) => SplitGateIsCareful(cfg, r, s, m);
      case WholeGate => WholeGateIsCareful(cfg, r, s, m);
      case WholeRelease => WholeGateIsCareful(cfg, r, s, m);
      case ReadForResume(o, target) => OperatorIsCareful(cfg, r, s, m);
      case LogResume(o) => OperatorIsCareful(cfg, r, s, m);
      case SetMode(mode) => SetModeIsCareful(cfg, r, s, mode);
    }
  }

  /** One worker moves on, to something honest, and the row stays as it should. */
  lemma WorkerIsCareful(r: Id, s: World, s1: World, w: nat, worker: Worker)
    requires Snapshots(r, s)
    requires s1.workers == s.workers[w := worker] && s1.gates == s.gates
    requires r in s.db.runs ==> r in s1.db.runs
    requires r in s1.db.runs ==> s1.db.runs[r].status in EARLY
    requires Suspended(r, s.db) ==> Suspended(r, s1.db)
    requires HonestWorker(r, s1.db, worker)
    ensures Careful(r, s, s1)
  {
    hide HonestWorker, HonestGate;
  }

  lemma StillIsCareful(r: Id, s: World)
    requires Snapshots(r, s)
    ensures Careful(r, s, s)
  {
    hide HonestWorker, HonestGate;
  }

  lemma ReaderIsCareful(cfg: Config, r: Id, s: World, m: Move)
    requires Snapshots(r, s) && BeforeResume(m)
    requires m.Fetch? || m.Check? || m.Finish?
    ensures Careful(r, s, Do(cfg, r, s, m))
  {
    hide Careful;
    var s1 := Do(cfg, r, s, m);
    if s1 == s { StillIsCareful(r, s); } else { WorkerIsCareful(r, s, s1, m.w, WorkerAt(s1, m.w)); }
  }

  lemma LogPauseIsCareful(cfg: Config, r: Id, s: World, w: nat)
    requires Snapshots(r, s)
    ensures Careful(r, s, Do(cfg, r, s, LogPause(w)))
  {
    hide At, Careful;
    var s1 := Do(cfg, r, s, LogPause(w));
    if s1 == s { StillIsCareful(r, s); } else { WorkerIsCareful(r, s, s1, w, Booked); }
  }

  lemma TryPauseIsCareful(r: Id, s: World, w: nat, incident: Id, seen: Option<Run>)
    requires Snapshots(r, s)
    ensures Careful(r, s, TryPause(r, s, w, incident, seen))
  {
    assert r in s.db.runs ==> s.db.runs[r].status in EARLY;
    hide Careful, CasRunStatus, RefusePause, HonestGate, Snapshots;
    if !WantsPause(seen) {
      RefusalKeepsRuns(s.db, r, incident, seen);
      WorkerIsCareful(r, s, TryPause(r, s, w, incident, seen), w, Booked);
    } else if !CasApplies(s.db, r, PAUSABLE) {
      WorkerIsCareful(r, s, TryPause(r, s, w, incident, seen), w, Booked);
    } else {
      CasTakes(s.db, r, PauseRequested, PAUSABLE);
      WorkerIsCareful(r, s, TryPause(r, s, w, incident, seen), w, Unlogged(incident, |s.history|));
    }
  }

  lemma CasIsCareful(cfg: Config, r: Id, s: World, w: nat)
    requires Snapshots(r, s)
    ensures Careful(r, s, Do(cfg, r, s, Cas(w)))
  {
    hide Careful, Snapshots, TryPause;
    match WorkerAt(s, w) {
      case Checked(incident, seen) => TryPauseIsCareful(r, s, w, incident, seen);
      case _ => StillIsCareful(r, s);
    }
  }

  /** One gate moves on, to something honest, and the row stays as it should. */
  lemma GateIsCareful(r: Id, s: World, s1: World, g: nat, gate: Gate)
    requires Snapshots(r, s)
    requires s1.workers == s.workers && s1.gates == s.gates[g := gate]
    requires r in s.db.runs ==> r in s1.db.runs
    requires r in s1.db.runs ==> s1.db.runs[r].status in EARLY
    requires Suspended(r, s.db) ==> Suspended(r, s1.db)
    requires HonestGate(r, s1.db, gate)
    ensures Careful(r, s, s1)
  {
    hide HonestWorker, HonestGate;
  }

  lemma OperatorIsCareful(cfg: Config, r: Id, s: World, m: Move)
    requires Snapshots(r, s)
    requires m.ReadForResume? || m.LogResume?
    ensures Careful(r, s, Do(cfg, r, s, m))
  {
    hide HonestWorker, HonestGate, ResumeTarget, At;
  }

  lemma SplitGateIsCareful(cfg: Config, r: Id, s: World, m: Move)
    requires Snapshots(r, s)
    requires m.GateRead? || m.GateWrite?
    ensures Careful(r, s, Do(cfg, r, s, m))
  {
    hide HonestWorker, Careful, UpdateRunStatus;
    var s1 := Do(cfg, r, s, m);
    assert HonestGate(r, s.db, GateAt(s, m.g));
    StatusMoves(s.db, r, Paused);
    StatusMoves(s.db, r, Running);
    if s1 == s { StillIsCareful(r, s); } else { GateIsCareful(r, s, s1, m.g, GateAt(s1, m.g)); }
  }

  lemma WholeGateIsCareful(cfg: Config, r: Id, s: World, m: Move)
    requires Snapshots(r, s)
    requires m.WholeGate? || m.WholeRelease?
    ensures Careful(r, s, Do(cfg, r, s, m))
  {
    hide HonestWorker, HonestGate, GateEntry, GateRelease;
    EntryMoves(s.db, r);
    ReleaseMoves(s.db, r);
  }

  lemma SetModeIsCareful(cfg: Config, r: Id, s: World, mode: Mode)
    requires Snapshots(r, s)
    ensures Careful(r, s, Do(cfg, r, s, SetMode(mode)))
  {
    hide HonestWorker, HonestGate;
  }

  lemma InsertIsCareful(cfg: Config, r: Id, s: World, w: nat)
    requires Snapshots(r, s)
    ensures Careful(r, s, Do(cfg, r, s, Insert(w)))
  {
    hide Advance, MergeRun;
    assert HonestWorker(r, s.db, WorkerAt(s, w));
    match WorkerAt(s, w) {
      case Fetched(e, None) => if r in s.db.runs { GuardKeepsPauseOnInsert(s.db.runs[r], cfg, e); }
      case _ =>
    }
  }

  lemma WriteIsCareful(cfg: Config, r: Id, s: World, w: nat)
    requires Snapshots(r, s)
    ensures Careful(r, s, Do(cfg, r, s, Write(w)))
  {
    hide Advance, MergeRun;
    assert HonestWorker(r, s.db, WorkerAt(s, w));
    match WorkerAt(s, w) {
      case Loaded(e, run) =>
        AdvanceKeepsStatus(run, e);
        if r in s.db.runs { GuardKeepsPause(s.db.runs[r], run, e); }
      case _ =>
    }
  }

  lemma MoveKeepsSuspended(cfg: Config, r: Id, s: World, m: Move)
    requires Snapshots(r, s) && BeforeResume(m)
    ensures Snapshots(r, Do(cfg, r, s, m))
    ensures Suspended(r, s.db) ==> Suspended(r, Do(cfg, r, s, m).db)
  {
    hide Do;
    MoveIsCareful(cfg, r, s, m);
    CarefulKeepsSnapshots(r, s, Do(cfg, r, s, m));
  }

  lemma {:induction false} PlayKeepsSuspended(cfg: Config, r: Id, s: World, moves: seq<Move>, n: nat)
    requires Quiescent(s) && (r in s.db.runs ==> s.db.runs[r].status in EARLY)
    requires n <= |moves| && forall m <- moves :: BeforeResume(m)
    ensures Snapshots(r, Play(cfg, r, s, moves))
    ensures Suspended(r, Play(cfg, r, s, moves[..n]).db) ==> Suspended(r, Play(cfg, r, s, moves).db)
  {
    hide Do;
    if moves == [] {
    } else if n == |moves| {
      assert moves[..n] == moves;
      PlayKeepsSuspended(cfg, r, s, moves[..n - 1], n - 1);
      MoveKeepsSuspended(cfg, r, Play(cfg, r, s, moves[..n - 1]), Last(moves));
    } else {
      var before := moves[..|moves| - 1];
      assert before[..n] == moves[..n];
      PlayKeepsSuspended(cfg, r, s, before, n);
      MoveKeepsSuspended(cfg, r, Play(cfg, r, s, before), Last(moves));
    }
  }

  /** With any number of collectors, however stale what they hold, and gates whose read and write
      are separated: before the first resume, and while the run does not end, a run once asked to
      pause is never set going again. */
  lemma PauseSurvivesStaleWriters(cfg: Config, r: Id, s: World, moves: seq<Move>, n: nat)
    requires Quiescent(s) && (r in s.db.runs ==> s.db.runs[r].status in EARLY)
    requires n <= |moves| && forall m <- moves :: BeforeResume(m)
    ensures Suspended(r, Play(cfg, r, s, moves[..n]).db) ==> Suspended(r, Play(cfg, r, s, moves).db)
  {
    PlayKeepsSuspended(cfg, r, s, moves, n);
  }

  // ---- where the guarantees end ----

  /** What exactly the upsert's guard protects: a stored pause survives every snapshot except one
      that shows a resume or an end. */
  lemma GuardKeepsPauseExactly(stored: Run, row: Run)
    requires stored.status in HELD
    ensures MergeRun(stored, row).status in HELD <==> row.status !in {ResumeRequested, Completed, Failed}
  {}

  /** So a collector's write lifts a standing pause exactly if its event ends the run, or its
      snapshot shows a resume or an end. */
  lemma WriteLiftsPauseExactly(cfg: Config, r: Id, s: World, w: nat)
    requires WorkerAt(s, w).Loaded? && Suspended(r, s.db)
    ensures Suspended(r, Do(cfg, r, s, Write(w)).db) <==>
            !Ends(WorkerAt(s, w).e) && WorkerAt(s, w).run.status in EARLY
  {
    GuardKeepsPauseExactly(s.db.runs[r], Advance(WorkerAt(s, w).run, WorkerAt(s, w).e));
  }

  function Started(r: Id): World {
    World(EMPTY_DB.(runs := map[r := Run(Running, None, 0, None, Active, "")]), map[], map[], map[], [], [])
  }

  /** Moves are played one after another. */
  lemma PlayOne(cfg: Config, r: Id, s: World, moves: seq<Move>, m: Move)
    ensures Play(cfg, r, s, moves + [m]) == Do(cfg, r, Play(cfg, r, s, moves), m)
  {
    assert (moves + [m])[..|moves|] == moves;
  }

  /** Worker 0 asks for a pause and logs it. */
  const PAUSE := [Check(0, "incident"), Cas(0), LogPause(0)]

  /** Operator 0 resumes the run and logs it. */
  const RESUME := [ReadForResume(0, None), CasResume(0), LogResume(0)]

  lemma PlayThree(cfg: Config, r: Id, s: World, moves: seq<Move>, a: Move, b: Move, c: Move)
    ensures Play(cfg, r, s, moves + [a, b, c]) ==
            Do(cfg, r, Do(cfg, r, Do(cfg, r, Play(cfg, r, s, moves), a), b), c)
  {
    hide Do;
    PlayOne(cfg, r, s, moves, a);
    PlayOne(cfg, r, s, moves + [a], b);
    PlayOne(cfg, r, s, moves + [a] + [b], c);
    assert moves + [a, b, c] == moves + [a] + [b] + [c];
  }

  /** What a change of course by an uninterrupted actor leaves. */
  ghost predicate Changed(r: Id, t: World, t1: World, status: Status, mark: Mark) {
    && r in t.db.runs && t1.db.runs == t.db.runs[r := t.db.runs[r].(status := status)]
    && t1.gates == t.gates
    && t1.history == t.history + [mark] && t1.trail == t.trail + [|t.history|]
  }

  lemma PauseInThree(cfg: Config, r: Id, t: World)
    requires WorkerAt(t, 0) == Booked && WantsPause(RowOf(t.db, r))
    ensures var t1 := Do(cfg, r, Do(cfg, r, Do(cfg, r, t, Check(0, "incident")), Cas(0)), LogPause(0));
      Changed(r, t, t1, PauseRequested, PauseMade)
      && t1.workers == t.workers[0 := Booked] && t1.operators == t.operators
  {
    hide At, SaveRun, NewRun, Advance, GateEntry, GateRelease, UpdateProtectionMode, ResumeTarget, CasRunStatus;
    CasTakes(t.db, r, PauseRequested, PAUSABLE);
    var t1 := Do(cfg, r, t, Check(0, "incident"));
    assert WorkerAt(t1, 0) == Checked("incident", RowOf(t.db, r));
    var t2 := Do(cfg, r, t1, Cas(0));
    assert WorkerAt(t2, 0) == Unlogged("incident", |t.history|);
    assert Do(cfg, r, t2, LogPause(0)).workers == t.workers[0 := Booked];
  }

  lemma PlayPause(cfg: Config, r: Id, s: World, moves: seq<Move>)
    requires var t := Play(cfg, r, s, moves); WorkerAt(t, 0) == Booked && WantsPause(RowOf(t.db, r))
    ensures var t, t1 := Play(cfg, r, s, moves), Play(cfg, r, s, moves + PAUSE);
      Changed(r, t, t1, PauseRequested, PauseMade)
      && t1.workers == t.workers[0 := Booked] && t1.operators == t.operators
  {
    hide Do, Play, Changed;
    PlayThree(cfg, r, s, moves, Check(0, "incident"), Cas(0), LogPause(0));
    PauseInThree(cfg, r, Play(cfg, r, s, moves));
  }

  lemma ResumeInThree(cfg: Config, r: Id, t: World)
    requires OperatorAt(t, 0) == Resting && WantsResume(RowOf(t.db, r))
    ensures var t1 := Do(cfg, r, Do(cfg, r, Do(cfg, r, t, ReadForResume(0, None)), CasResume(0)), LogResume(0));
      Changed(r, t, t1, ResumeRequested, ResumeMade)
      && t1.workers == t.workers && OperatorAt(t1, 0) == Resting
  {
    hide At, SaveRun, NewRun, Advance, GateEntry, GateRelease, UpdateProtectionMode, ResumeTarget, CasRunStatus;
    CasTakes(t.db, r, ResumeRequested, HELD);
    var t1 := Do(cfg, r, t, ReadForResume(0, None));
    assert OperatorAt(t1, 0) == Deciding(ResumeTarget(t.db, r, None), RowOf(t.db, r));
    var t2 := Do(cfg, r, t1, CasResume(0));
    assert OperatorAt(t2, 0) == Owing(ResumeTarget(t.db, r, None), |t.history|);
  }

  lemma PlayResume(cfg: Config, r: Id, s: World, moves: seq<Move>)
    requires var t := Play(cfg, r, s, moves); OperatorAt(t, 0) == Resting && WantsResume(RowOf(t.db, r))
    ensures var t, t1 := Play(cfg, r, s, moves), Play(cfg, r, s, moves + RESUME);
      Changed(r, t, t1, ResumeRequested, ResumeMade)
      && t1.workers == t.workers && OperatorAt(t1, 0) == Resting
  {
    hide Do, Play, Changed;
    PlayThree(cfg, r, s, moves, ReadForResume(0, None), CasResume(0), LogResume(0));
    ResumeInThree(cfg, r, Play(cfg, r, s, moves));
  }

  function Booking(e: Event): seq<Move> {
    [Fetch(0, e), Insert(0), Write(0)]
  }

  /** A run that is going, with worker 0 past its write. */
  ghost predicate Going(r: Id, s: World) {
    && r in s.db.runs && s.db.runs[r].status == Running && s.db.runs[r].mode == Active
    && s.workers == map[0 := Booked] && s.operators == map[] && s.gates == map[] && s.history == [] && s.trail == []
  }

  lemma BookInThree(cfg: Config, r: Id, e: Event)
    requires !Ends(e)
    ensures Going(r, Do(cfg, r, Do(cfg, r, Do(cfg, r, Started(r), Fetch(0, e)), Insert(0)), Write(0)))
  {
    hide NewRun, TryPause, TryResume, GateEntry, GateRelease, UpdateRunStatus, UpdateProtectionMode, Log, ResumeTarget;
    var s := Started(r);
    var s1 := Do(cfg, r, s, Fetch(0, e));
    assert WorkerAt(s1, 0) == Fetched(e, Some(s.db.runs[r]));
    var s2 := Do(cfg, r, s1, Insert(0));
    assert WorkerAt(s2, 0) == Loaded(e, s.db.runs[r]) && s2.db == s.db;
    assert Do(cfg, r, s2, Write(0)).workers == map[0 := Booked];
  }

  lemma PlayBooking(cfg: Config, r: Id, e: Event)
    requires !Ends(e)
    ensures Going(r, Play(cfg, r, Started(r), Booking(e)))
  {
    BookInThree(cfg, r, e);
    assert Play(cfg, r, Started(r), []) == Started(r);
    hide Do, Play, Going, Started;
    PlayThree(cfg, r, Started(r), [], Fetch(0, e), Insert(0), Write(0));
    assert [] + Booking(e) == Booking(e);
  }

  /** Paused, resumed, and `look` read the status before the next pause. */
  function SecondPause(e: Event, look: Move): seq<Move> {
    Booking(e) + PAUSE + RESUME + [look] + PAUSE
  }

  lemma LookAfterResume(cfg: Config, r: Id, e: Event, look: Move, t: World)
    requires look == Fetch(1, e) || look == GateRead(0)
    requires r in t.db.runs && t.db.runs[r].status == ResumeRequested && t.db.runs[r].mode == Active
    requires WorkerAt(t, 0) == Booked && WorkerAt(t, 1) == Idle
    ensures var t1 := Do(cfg, r, t, look);
      && t1.db == t.db && t1.history == t.history && WorkerAt(t1, 0) == Booked
      && (look.Fetch? ==> WorkerAt(t1, 1) == Fetched(e, Some(t.db.runs[r])))
      && (look.GateRead? ==> GateAt(t1, 0) == Saw(ResumeRequested))
  {
    hide TryPause, TryResume, SaveRun, NewRun, Advance, GateEntry, GateRelease, UpdateRunStatus, Log, ResumeTarget;
  }

  lemma PlaySecondPause(cfg: Config, r: Id, e: Event, look: Move)
    requires !Ends(e) && (look == Fetch(1, e) || look == GateRead(0))
    ensures var t := Play(cfg, r, Started(r), SecondPause(e, look));
      && r in t.db.runs && t.db.runs[r].status == PauseRequested && t.db.runs[r].mode == Active
      && WorkerAt(t, 0) == Booked
      && (look.Fetch? ==> WorkerAt(t, 1).Fetched? && WorkerAt(t, 1).e == e && WorkerAt(t, 1).row.Some?
                          && WorkerAt(t, 1).row.value.status == ResumeRequested
                          && WorkerAt(t, 1).row.value.mode == Active)
      && (look.GateRead? ==> GateAt(t, 0) == Saw(ResumeRequested))
      && t.history == [PauseMade, ResumeMade, PauseMade]
  {
    hide Do, Play;
    var s := Started(r);
    PlayBooking(cfg, r, e);
    PlayPause(cfg, r, s, Booking(e));
    PlayResume(cfg, r, s, Booking(e) + PAUSE);
    PlayOne(cfg, r, s, Booking(e) + PAUSE + RESUME, look);
    LookAfterResume(cfg, r, e, look, Play(cfg, r, s, Booking(e) + PAUSE + RESUME));
    PlayPause(cfg, r, s, Booking(e) + PAUSE + RESUME + [look]);
  }

  /** The second pause is gone from the row, and nobody knows. */
  ghost predicate Erased(r: Id, t: World, status: Status) {
    && r in t.db.runs && t.db.runs[r].status == status && t.db.runs[r].mode == Active
    && WorkerAt(t, 0) == Booked && t.history == [PauseMade, ResumeMade, PauseMade]
  }

  lemma PlayStaleWrite(cfg: Config, r: Id, e: Event)
    requires !Ends(e)
    ensures Erased(r, Play(cfg, r, Started(r), SecondPause(e, Fetch(1, e)) + [Insert(1)] + [Write(1)]), ResumeRequested)
  {
    var s, moves := Started(r), SecondPause(e, Fetch(1, e));
    PlaySecondPause(cfg, r, e, Fetch(1, e));
    PlayOne(cfg, r, s, moves, Insert(1));
    PlayOne(cfg, r, s, moves + [Insert(1)], Write(1));
    hide Play, SecondPause;
    var t := Play(cfg, r, s, moves);
    assert WorkerAt(Do(cfg, r, t, Insert(1)), 1) == Loaded(e, WorkerAt(t, 1).row.value);
  }

  lemma PlaySplitWrite(cfg: Config, r: Id, e: Event)
    requires !Ends(e)
    ensures Erased(r, Play(cfg, r, Started(r), SecondPause(e, GateRead(0)) + [GateWrite(0)]), Running)
  {
    PlaySecondPause(cfg, r, e, GateRead(0));
    PlayOne(cfg, r, Started(r), SecondPause(e, GateRead(0)), GateWrite(0));
    hide Play, SecondPause;
  }

  lemma ErasedPausesAgain(cfg: Config, r: Id, s: World, moves: seq<Move>, status: Status)
    requires Erased(r, Play(cfg, r, s, moves), status) && status in PAUSABLE
    ensures !Alternates(Play(cfg, r, s, moves + PAUSE).history)
  {
    PlayPause(cfg, r, s, moves);
    hide Play;
    var h := Play(cfg, r, s, moves + PAUSE).history;
    assert h[2] == PauseMade && h[3] == PauseMade;
  }

  /** With a second collector the guarantee is lost: it read the run after the resume and writes
      after the next pause, which is erased, and then made again with no resume in between. */
  lemma StaleResumeErasesPause(cfg: Config, r: Id, e: Event)
    requires !Ends(e)
    ensures var moves := SecondPause(e, Fetch(1, e)) + [Insert(1)] + [Write(1)];
      && Quiescent(Started(r))
      && Paused?(Play(cfg, r, Started(r), moves))
      && r in Play(cfg, r, Started(r), moves).db.runs
      && Play(cfg, r, Started(r), moves).db.runs[r].status == ResumeRequested
      && !Alternates(Play(cfg, r, Started(r), moves + PAUSE).history)
  {
    PlayStaleWrite(cfg, r, e);
    hide Play, SecondPause, Alternates;
    ErasedPausesAgain(cfg, r, Started(r), SecondPause(e, Fetch(1, e)) + [Insert(1)] + [Write(1)], ResumeRequested);
  }

  /** With one collector a gate whose read and write are separated does the same. */
  lemma SplitGateErasesPause(cfg: Config, r: Id, e: Event)
    requires !Ends(e)
    ensures var moves := SecondPause(e, GateRead(0)) + [GateWrite(0)];
      && Quiescent(Started(r))
      && Paused?(Play(cfg, r, Started(r), moves))
      && r in Play(cfg, r, Started(r), moves).db.runs
      && Play(cfg, r, Started(r), moves).db.runs[r].status == Running
      && !Alternates(Play(cfg, r, Started(r), moves + PAUSE).history)
  {
    PlaySplitWrite(cfg, r, e);
    hide Play, SecondPause, Alternates;
    ErasedPausesAgain(cfg, r, Started(r), SecondPause(e, GateRead(0)) + [GateWrite(0)], Running);
  }
}
