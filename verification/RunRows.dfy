/** What a run's row holds besides its status, over any run of the system: whether there is one, its
    organisation, its tokens, its end and its protection. */
module RunRows {
  import opened Records
  import opened Tables
  import opened Detectors
  import opened Protection
  import opened Collector
  import opened Recovery
  import opened ControlPlane
  import opened Trails
  import opened Lifecycle
  import opened Verdicts
  import opened Staleness

  /** The events delivered for a run, duplicates included. */
  function DeliveredTo(steps: seq<Step>, r: Id): seq<Event> {
    if steps == [] then []
    else
      DeliveredTo(steps[..|steps| - 1], r) +
      if Last(steps).Deliver? && Last(steps).e.run == r then [Last(steps).e] else []
  }

  function TokensOf(s: seq<Event>): int {
    if s == [] then 0
    else
      TokensOf(s[..|s| - 1]) +
      match Last(s).tokens
      case None => 0
      case Some(n) => if n > 0 then n else 0
  }

  /** The time of the last event that ended the run. */
  function EndOf(s: seq<Event>): Option<int> {
    if s == [] then None
    else if Last(s).kind == RunCompleted || Last(s).kind == RunFailed then Some(Last(s).time)
    else EndOf(s[..|s| - 1])
  }

  predicate GatedFramework(e: Event) {
    e.framework == "langgraph" || e.framework == "autogen"
  }

  /** The first event of the run comes from a framework with a safety gate, or a gate has run since. */
  predicate Protected(steps: seq<Step>, r: Id) {
    if steps == [] then false
    else
      var front, step := steps[..|steps| - 1], Last(steps);
      || Protected(front, r)
      || (DeliveredTo(front, r) == [] && step.Deliver? && step.e.run == r && GatedFramework(step.e))
      || (DeliveredTo(front, r) != [] && (step == EnterGate(r) || step == AutoGen(r)))
  }

  /** The row accounts for the steps so far. */
  ghost predicate Accounts(cfg: Config, db: Db, steps: seq<Step>, r: Id) {
    var s := DeliveredTo(steps, r);
    && (r in db.runs <==> s != [])
    && (r in db.runs ==>
          && db.runs[r].org == cfg.org
          && db.runs[r].tokens == TokensOf(s)
          && db.runs[r].endTime == EndOf(s)
          && db.runs[r].mode == if Protected(steps, r) then Active else Disabled)
  }

  /** The columns no pause, resume or gate changes. */
  ghost predicate SameColumns(row: Run, row1: Run) {
    row1.org == row.org && row1.tokens == row.tokens && row1.endTime == row.endTime
  }

  lemma BookedColumns(cfg: Config, db: Db, e: Event)
    ensures var row := Booked(cfg, db, e);
      var was := if e.run in db.runs then db.runs[e.run] else NewRun(cfg, e);
      && row.org == was.org && row.mode == was.mode
      && row.tokens == was.tokens + (match e.tokens case None => 0 case Some(n) => if n > 0 then n else 0)
      && row.endTime == if e.kind == RunCompleted || e.kind == RunFailed then Some(e.time) else was.endTime
  {}

  lemma DeliverColumns(cfg: Config, st: State, e: Event, ids: (Id, Id), r: Id)
    ensures var db := ProcessEvent(cfg, st, e, ids).db;
      && (r in db.runs <==> r in st.db.runs || r == e.run)
      && (r in db.runs ==>
            var row := if r == e.run then Booked(cfg, st.db, e) else st.db.runs[r];
            SameColumns(row, db.runs[r]) && db.runs[r].mode == row.mode)
  {
    hide Book, Booked, EvaluateBoth;
    BookRows(cfg, st.db, e);
    DetectRows(cfg, st, e, ids);
  }

  lemma TotalsAppend(s: seq<Event>, e: Event)
    ensures TokensOf(s + [e]) == TokensOf(s) + (match e.tokens case None => 0 case Some(n) => if n > 0 then n else 0)
    ensures EndOf(s + [e]) == if e.kind == RunCompleted || e.kind == RunFailed then Some(e.time) else EndOf(s)
    ensures TokensOf([]) == 0 && EndOf([]) == None
  {
    assert (s + [e])[..|s|] == s;
  }

  lemma DeliverAccounts(cfg: Config, st: State, steps: seq<Step>, r: Id)
    requires steps != [] && Last(steps).Deliver? && Accounts(cfg, st.db, steps[..|steps| - 1], r)
    ensures Accounts(cfg, ProcessEvent(cfg, st, Last(steps).e, Last(steps).ids).db, steps, r)
  {
    var front, e := steps[..|steps| - 1], Last(steps).e;
    var s := DeliveredTo(front, r);
    assert DeliveredTo(steps, r) == s + if e.run == r then [e] else [];
    assert s + [] == s;
    assert Protected(steps, r) <==> Protected(front, r) || (s == [] && e.run == r && GatedFramework(e));
    DeliverColumns(cfg, st, e, Last(steps).ids, r);
    if e.run == r {
      BookedAccounts(cfg, st.db, front, e);
      TotalsAppend(s, e);
    }
    hide ProcessEvent, Booked, DeliveredTo, Protected, TokensOf, EndOf, GatedFramework;
  }

  /** The row a delivery books, from what the row before accounts for. */
  lemma BookedAccounts(cfg: Config, db: Db, front: seq<Step>, e: Event)
    requires Accounts(cfg, db, front, e.run)
    ensures var row, s := Booked(cfg, db, e), DeliveredTo(front, e.run);
      && row.org == cfg.org
      && row.tokens == TokensOf(s + [e]) && row.endTime == EndOf(s + [e])
      && row.mode == if Protected(front, e.run) || (s == [] && GatedFramework(e)) then Active else Disabled
  {
    BookedColumns(cfg, db, e);
    TotalsAppend(DeliveredTo(front, e.run), e);
    NobodyProtected(front, e.run);
    hide Booked, DeliveredTo, Protected, TokensOf, EndOf;
  }

  lemma {:induction false} NobodyProtected(steps: seq<Step>, r: Id)
    ensures DeliveredTo(steps, r) == [] ==> !Protected(steps, r)
  {
    if steps != [] { NobodyProtected(steps[..|steps| - 1], r); }
  }

  lemma OtherAccounts(cfg: Config, st: State, steps: seq<Step>, r: Id)
    requires steps != [] && !Last(steps).Deliver? && Accounts(cfg, st.db, steps[..|steps| - 1], r)
    ensures Accounts(cfg, Next(cfg, st, Last(steps)).db, steps, r)
  {
    var front, step := steps[..|steps| - 1], Last(steps);
    assert DeliveredTo(steps, r) == DeliveredTo(front, r) + [] == DeliveredTo(front, r);
    assert Protected(steps, r) <==> Protected(front, r) || (DeliveredTo(front, r) != [] && Claims(step, r));
    OtherStepsDrift(cfg, st, step, r);
    hide Next, TokensOf, EndOf, DeliveredTo, Protected, Phase;
  }

  /** Over any run of the system: a run has a row exactly if an event of it was delivered; its
      organisation is the collector's; its tokens are the positive ones of all delivered events and its
      end is that of the last final one, duplicates included; and it is protected exactly if its first
      event came from a framework with a gate or a gate has run for it since. */
  lemma {:induction false} RowsAccountForEvents(cfg: Config, steps: seq<Step>, r: Id)
    ensures Accounts(cfg, Trace(cfg, INITIAL, steps).db, steps, r)
  {
    if steps == [] {
      assert Trace(cfg, INITIAL, steps) == INITIAL;
    } else {
      var front := steps[..|steps| - 1];
      RowsAccountForEvents(cfg, front, r);
      hide Accounts;
      if Last(steps).Deliver? {
        DeliverAccounts(cfg, Trace(cfg, INITIAL, front), steps, r);
      } else {
        OtherAccounts(cfg, Trace(cfg, INITIAL, front), steps, r);
      }
    }
  }
}
