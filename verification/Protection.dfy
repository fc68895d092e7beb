/** The protection controller and the safety gates: everything that changes a run's status
    besides the collector's own writes. */
module Protection {
  import opened Records
  import opened Tables
  import opened Detectors
  import Storage

  const PAUSABLE: set<Status> := {Running, ResumeRequested}

  function PauseRun(db: Db, r: Id, incident: Id): Db {
    if r !in db.runs || db.runs[r].mode != Active then db
    else if Terminal(db.runs[r].status) then
      Log(db, r, Audit(PauseFailedAudit, Failure, Some(incident)))
    else if db.runs[r].status in HELD then
      Log(db, r, Audit(PauseRequestedAudit, Idempotent, Some(incident)))
    else
      Log(CasRunStatus(db, r, PauseRequested, PAUSABLE), r,
          Audit(PauseRequestedAudit, Success, Some(incident)))
  }

  function OnIncident(cfg: Config, db: Db, x: Incident): Db {
    if cfg.protectionEnabled && x.failure in cfg.autoPause then PauseRun(db, x.run, x.id) else db
  }

  /** A resume without an incident is booked on the run's newest open one. */
  function ResumeTarget(db: Db, r: Id, incident: Option<Id>): Option<Id> {
    if incident.Some? then incident else NewestOpen(At(db.incidents, r))
  }

  function ResumeRun(db: Db, r: Id, incident: Option<Id>): Db {
    if r !in db.runs then db
    else if Terminal(db.runs[r].status) then Log(db, r, Audit(ResumeFailedAudit, Failure, None))
    else if db.runs[r].status in PAUSABLE then Log(db, r, Audit(ResumeRequestedAudit, Idempotent, None))
    else
      Log(CasRunStatus(db, r, ResumeRequested, HELD), r,
          Audit(ResumeRequestedAudit, Success, ResumeTarget(db, r, incident)))
  }

  class Controller {
    const store: Storage.Database

    constructor (store: Storage.Database)
      ensures this.store == store
    {
      this.store := store;
    }

    method RequestPause(r: Id, incident: Id)
      modifies store
      ensures store.View() == PauseRun(old(store.View()), r, incident)
    {
      var row := store.GetRun(r);
      if row.None? || row.value.mode == Disabled || row.value.mode == Degraded {
        return;
      }
      if Terminal(row.value.status) {
        store.SaveAuditEvent(r, Audit(PauseFailedAudit, Failure, Some(incident)));
        return;
      }
      if row.value.status in HELD {
        store.SaveAuditEvent(r, Audit(PauseRequestedAudit, Idempotent, Some(incident)));
        return;
      }
      var updated := store.CasRunStatus(r, PauseRequested, PAUSABLE);
      if updated {
        store.SaveAuditEvent(r, Audit(PauseRequestedAudit, Success, Some(incident)));
      }
    }

    method HandleIncident(cfg: Config, x: Incident)
      modifies store
      ensures store.View() == OnIncident(cfg, old(store.View()), x)
    {
      if !cfg.protectionEnabled {
        return;
      }
      if x.failure in cfg.autoPause {
        RequestPause(x.run, x.id);
      }
    }

    method Resume(r: Id, incident: Option<Id>)
      modifies store
      ensures store.View() == ResumeRun(old(store.View()), r, incident)
    {
      var target := incident;
      if target.None? {
        target := NewestOpen(At(store.incidents, r));
      }
      var row := store.GetRun(r);
      if row.None? {
        return;
      }
      if Terminal(row.value.status) {
        store.SaveAuditEvent(r, Audit(ResumeFailedAudit, Failure, None));
        return;
      }
      if row.value.status in PAUSABLE {
        store.SaveAuditEvent(r, Audit(ResumeRequestedAudit, Idempotent, None));
        return;
      }
      var updated := store.CasRunStatus(r, ResumeRequested, HELD);
      if updated {
        store.SaveAuditEvent(r, Audit(ResumeRequestedAudit, Success, target));
      }
    }
  }

  // ---- gates ----

  /** What a gate tells the agent: go on, or stop until the graph is invoked again. */
  datatype Verdict = Proceed | Interrupt

  function GateEntry(db: Db, r: Id): Db {
    if r !in db.runs then db
    else
      var db1 := if db.runs[r].mode != Active then UpdateProtectionMode(db, r, Active) else db;
      if db.runs[r].status == PauseRequested
      then Log(UpdateRunStatus(db1, r, Paused), r, Audit(PausedAudit, Success, None))
      else db1
  }

  function GateRelease(db: Db, r: Id): Db {
    if r in db.runs && db.runs[r].status == ResumeRequested
    then Log(UpdateRunStatus(db, r, Running), r, Audit(ResumedAudit, Success, None))
    else db
  }

  /** The LangGraph node runs `GateEntry`; the lines after `interrupt` are `GateRelease`. */
  function GateVerdict(db: Db, r: Id): Verdict {
    if r in db.runs && db.runs[r].status == PauseRequested then Interrupt else Proceed
  }

  /** The AutoGen hook pauses like the LangGraph node, and releases within the same call. */
  function AutoGenGate(db: Db, r: Id): Db {
    GateRelease(GateEntry(db, r), r)
  }

  method LangGraphGate(store: Storage.Database, r: Id) returns (v: Verdict)
    modifies store
    ensures store.View() == GateEntry(old(store.View()), r)
    ensures v == GateVerdict(old(store.View()), r)
  {
    var row := store.GetRun(r);
    if row.None? {
      return Proceed;
    }
    if row.value.mode != Active {
      var _ := store.UpdateProtectionMode(r, Active);
    }
    if row.value.status == PauseRequested {
      var _ := store.UpdateRunStatus(r, Paused);
      store.SaveAuditEvent(r, Audit(PausedAudit, Success, None));
      return Interrupt;
    }
    return Proceed;
  }

  method LangGraphAfterInterrupt(store: Storage.Database, r: Id)
    modifies store
    ensures store.View() == GateRelease(old(store.View()), r)
  {
    var row := store.GetRun(r);
    if row.Some? && row.value.status == ResumeRequested {
      var _ := store.UpdateRunStatus(r, Running);
      store.SaveAuditEvent(r, Audit(ResumedAudit, Success, None));
    }
  }

  method AutoGenHook(store: Storage.Database, r: Id) returns (v: Verdict)
    modifies store
    ensures store.View() == AutoGenGate(old(store.View()), r)
    ensures v == GateVerdict(old(store.View()), r)
  {
    var row := store.GetRun(r);
    if row.None? {
      return Proceed;
    }
    if row.value.mode != Active {
      var _ := store.UpdateProtectionMode(r, Active);
    }
    if row.value.status == PauseRequested {
      var _ := store.UpdateRunStatus(r, Paused);
      store.SaveAuditEvent(r, Audit(PausedAudit, Success, None));
      return Interrupt;
    }
    if row.value.status == ResumeRequested {
      var _ := store.UpdateRunStatus(r, Running);
      store.SaveAuditEvent(r, Audit(ResumedAudit, Success, None));
    }
    return Proceed;
  }

  // ---- where the gates take a run's status ----

  lemma ModeMoves(db: Db, r: Id)
    ensures var db1 := UpdateProtectionMode(db, r, Active);
      (r in db1.runs <==> r in db.runs) && (r in db.runs ==> db1.runs[r].status == db.runs[r].status)
  {}

  lemma StatusMoves(db: Db, r: Id, status: Status)
    ensures var db1 := UpdateRunStatus(db, r, status);
      (r in db1.runs <==> r in db.runs) && (r in db.runs ==> db1.runs[r].status == status)
  {}

  lemma EntryMoves(db: Db, r: Id)
    ensures r in GateEntry(db, r).runs <==> r in db.runs
    ensures r in db.runs ==>
      GateEntry(db, r).runs[r].status == if db.runs[r].status == PauseRequested then Paused else db.runs[r].status
  {
    hide At, UpdateProtectionMode, UpdateRunStatus;
    var db1 := UpdateProtectionMode(db, r, Active);
    ModeMoves(db, r);
    StatusMoves(db, r, Paused);
    StatusMoves(db1, r, Paused);
  }

  lemma ReleaseMoves(db: Db, r: Id)
    ensures r in GateRelease(db, r).runs <==> r in db.runs
    ensures r in db.runs ==>
      GateRelease(db, r).runs[r].status == if db.runs[r].status == ResumeRequested then Running else db.runs[r].status
  {
    hide At, UpdateRunStatus;
    StatusMoves(db, r, Running);
  }

  // ---- pauses and resumes, case by case ----

  /** What a pause request does to the two tables it writes. */
  lemma PauseExactly(db: Db, r: Id, incident: Id)
    ensures var db1 := PauseRun(db, r, incident);
      if r !in db.runs || db.runs[r].mode != Active then db1 == db
      else
        var row := db.runs[r];
        var taken := row.status in {Running, ResumeRequested};
        var a := if taken then Audit(PauseRequestedAudit, Success, Some(incident))
                 else if row.status in {PauseRequested, Paused} then
                   Audit(PauseRequestedAudit, Idempotent, Some(incident))
                 else Audit(PauseFailedAudit, Failure, Some(incident));
        db1 == db.(runs := if taken then db.runs[r := row.(status := PauseRequested)] else db.runs,
                   audits := db.audits[r := At(db.audits, r) + [a]])
  {}

  /** What a gate does: it switches protection on, and stops the agent exactly at a pause request,
      which it marks and books. */
  lemma GateExactly(db: Db, r: Id)
    ensures var db1 := GateEntry(db, r);
      var stop := r in db.runs && db.runs[r].status == PauseRequested;
      && (GateVerdict(db, r) == Interrupt <==> stop)
      && (r !in db.runs ==> db1 == db)
      && (r in db.runs ==>
            var row := db.runs[r].(mode := Active, status := if stop then Paused else db.runs[r].status);
            db1 == db.(runs := db.runs[r := row],
                       audits := if stop then db.audits[r := At(db.audits, r) + [Audit(PausedAudit, Success, None)]]
                                 else db.audits))
  {
    if r in db.runs {
      var row := db.runs[r];
      assert row.mode == Active ==> db.runs[r := row.(mode := Active)] == db.runs;
      assert db.runs[r := row.(mode := Active)][r := row.(mode := Active, status := Paused)] ==
             db.runs[r := row.(mode := Active, status := Paused)];
    }
  }

  /** What follows an interrupt, or a message through the other gate: a resumed run is set running,
      and that is booked. */
  lemma ReleaseExactly(db: Db, r: Id)
    ensures GateRelease(db, r) ==
      if r in db.runs && db.runs[r].status == ResumeRequested
      then db.(runs := db.runs[r := db.runs[r].(status := Running)],
               audits := db.audits[r := At(db.audits, r) + [Audit(ResumedAudit, Success, None)]])
      else db
  {}

  lemma NewestOpenIs(s: seq<Incident>)
    ensures match NewestOpen(s)
            case None => forall x <- s :: !x.open
            case Some(id) => exists i | 0 <= i < |s| ::
                s[i].open && s[i].id == id && forall j | i < j < |s| :: !s[j].open
  {
    if s != [] {
      var front := s[..|s| - 1];
      NewestOpenIs(front);
      assert s == front + [Last(s)];
      if Last(s).open {
        assert s[|s| - 1].open;
      } else if NewestOpen(front).Some? {
        var i :| 0 <= i < |front| && front[i].open && front[i].id == NewestOpen(front).value
                 && forall j | i < j < |front| :: !front[j].open;
        assert s[i].open && s[i].id == NewestOpen(s).value;
      }
    }
  }

  /** A resume takes a held run, and books it on the given incident or else on the newest open one
      of the run. */
  lemma ResumeExactly(db: Db, r: Id, incident: Option<Id>) returns (target: Option<Id>)
    ensures incident.Some? ==> target == incident
    ensures incident.None? ==>
      var s := At(db.incidents, r);
      match target
      case None => forall x <- s :: !x.open
      case Some(id) => exists i | 0 <= i < |s| ::
          s[i].open && s[i].id == id && forall j | i < j < |s| :: !s[j].open
    ensures var db1 := ResumeRun(db, r, incident);
      if r !in db.runs then db1 == db
      else
        var row := db.runs[r];
        var taken := row.status in {PauseRequested, Paused};
        var a := if taken then Audit(ResumeRequestedAudit, Success, target)
                 else if row.status in {Running, ResumeRequested} then Audit(ResumeRequestedAudit, Idempotent, None)
                 else Audit(ResumeFailedAudit, Failure, None);
        db1 == db.(runs := if taken then db.runs[r := row.(status := ResumeRequested)] else db.runs,
                   audits := db.audits[r := At(db.audits, r) + [a]])
  {
    target := if incident.Some? then incident else NewestOpen(At(db.incidents, r));
    NewestOpenIs(At(db.incidents, r));
    hide NewestOpen;
  }
}
