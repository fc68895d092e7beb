/** The table operations, statement by statement, as functions on the database value. The
    mutable `Storage.Database` performs them in place and is proved to equal them. */
module Tables {
  import opened Records

  const HELD: set<Status> := {PauseRequested, Paused}

  /** The upsert into `runs`: the stored pause survives a snapshot that still says running. */
  function MergeRun(stored: Run, row: Run): Run {
    Run(
      if stored.status in HELD && row.status == Running then stored.status else row.status,
      if row.endTime.Some? then row.endTime else stored.endTime,
      row.tokens,
      row.cost,
      row.mode,
      stored.org)
  }

  function SaveRun(db: Db, r: Id, row: Run): Db {
    db.(runs := db.runs[r := if r in db.runs then MergeRun(db.runs[r], row) else row])
  }

  /** What the upsert leaves of a known row: its organisation always, its end unless there is a new
      one, and a pause against a snapshot that says running. */
  lemma RunUpsert(db: Db, r: Id, row: Run)
    requires r in db.runs
    ensures var was, now := db.runs[r], SaveRun(db, r, row).runs[r];
      && now.org == was.org && now.tokens == row.tokens && now.cost == row.cost && now.mode == row.mode
      && now.endTime == (if row.endTime == None then was.endTime else row.endTime)
      && now.status == match (was.status, row.status)
                       case (PauseRequested, Running) => PauseRequested
                       case (Paused, Running) => Paused
                       case (_, status) => status
  {}

  function UpdateRunStatus(db: Db, r: Id, status: Status): Db {
    if r in db.runs then db.(runs := db.runs[r := db.runs[r].(status := status)]) else db
  }

  predicate CasApplies(db: Db, r: Id, expected: set<Status>) {
    r in db.runs && db.runs[r].status in expected
  }

  /** The conditional update: it applies only while the stored status is an expected one. */
  function CasRunStatus(db: Db, r: Id, status: Status, expected: set<Status>): Db {
    if CasApplies(db, r, expected) then UpdateRunStatus(db, r, status) else db
  }

  function UpdateProtectionMode(db: Db, r: Id, mode: Mode): Db {
    if r in db.runs then db.(runs := db.runs[r := db.runs[r].(mode := mode)]) else db
  }

  function SaveEvent(db: Db, e: Event): Db {
    if e.key in db.keys then db
    else db.(events := db.events[e.run := At(db.events, e.run) + [e]], keys := db.keys + {e.key})
  }

  predicate HasIncident(db: Db, r: Id, failure: FailureType, version: string) {
    exists x <- At(db.incidents, r) :: x.failure == failure && x.version == version
  }

  function SaveIncident(db: Db, x: Incident): Db {
    if HasIncident(db, x.run, x.failure, x.version) then db
    else db.(incidents := db.incidents[x.run := At(db.incidents, x.run) + [x]])
  }

  function FindIncident(s: seq<Incident>, id: Id): Option<Incident> {
    if s == [] then None else if s[0].id == id then Some(s[0]) else FindIncident(s[1..], id)
  }

  /** `get_incidents` lists the newest first, so the first open one is the last stored. */
  function NewestOpen(s: seq<Incident>): Option<Id> {
    if s == [] then None
    else if Last(s).open then Some(Last(s).id)
    else NewestOpen(s[..|s| - 1])
  }

  function Log(db: Db, r: Id, a: Audit): Db {
    db.(audits := db.audits[r := At(db.audits, r) + [a]])
  }

  function PlanOf(db: Db, incident: Id): Option<Plan> {
    var s := At(db.plans, incident);
    if s == [] then None else Some(Last(s))
  }

  /** The upsert into `recovery_plans`: only the two status columns of an existing row change. */
  function UpdatedPlans(s: seq<Plan>, p: Plan): seq<Plan> {
    seq(|s|, i requires 0 <= i < |s| =>
      if s[i].id == p.id then s[i].(status := p.status, verification := p.verification) else s[i])
  }

  predicate HasPlan(s: seq<Plan>, id: Id) {
    exists q <- s :: q.id == id
  }

  function SavePlan(db: Db, p: Plan): Db {
    var s := At(db.plans, p.incident);
    db.(plans := db.plans[p.incident := if HasPlan(s, p.id) then UpdatedPlans(s, p) else s + [p]])
  }

  function SaveAction(db: Db, row: ActionRow): Db {
    db.(actions := db.actions + [row])
  }

  /** The row the upserts into `recovery_actions` leave under an id. */
  function StoredAction(writes: seq<ActionRow>, id: Id): Option<ActionRow> {
    if writes == [] then None
    else
      var before := StoredAction(writes[..|writes| - 1], id);
      if Last(writes).id != id then before
      else if before.Some? then Some(before.value.(status := Last(writes).status))
      else Some(Last(writes))
  }

  /** The upsert inserts a new action and changes only the status of a known one. */
  lemma ActionUpsert(db: Db, row: ActionRow, id: Id)
    ensures var before, after := StoredAction(db.actions, id), StoredAction(SaveAction(db, row).actions, id);
            after == if id != row.id then before
                     else if before.Some? then Some(before.value.(status := row.status))
                     else Some(row)
  {
    assert (db.actions + [row])[..|db.actions|] == db.actions;
  }

  /** The upsert into `pattern_records`: a known pattern takes the given count only. */
  function SavePattern(db: Db, k: PatternKey, row: Pattern): Db {
    db.(patterns := db.patterns[k := if k in db.patterns
                                     then db.patterns[k].(occurrences := row.occurrences)
                                     else row])
  }

  /** A known pattern keeps its framework, whatever the saved row says. */
  lemma PatternUpsert(db: Db, k: PatternKey, row: Pattern)
    ensures SavePattern(db, k, row).patterns ==
            db.patterns[k := Pattern(if k in db.patterns then db.patterns[k].framework else row.framework,
                                     row.occurrences)]
  {}

  function SaveOutcome(db: Db, o: Outcome): Db {
    db.(outcomes := db.outcomes + [o])
  }

  function VerifiedOutcomes(s: seq<Outcome>, incident: Id, v: OutcomeVerification): seq<Outcome> {
    seq(|s|, i requires 0 <= i < |s| => if s[i].incident == incident then s[i].(verification := v) else s[i])
  }

  function VerifyOutcomes(db: Db, incident: Id, v: OutcomeVerification): Db {
    db.(outcomes := VerifiedOutcomes(db.outcomes, incident, v))
  }

  /** `get_outcomes_for_pattern`: newest first. */
  function OutcomesFor(s: seq<Outcome>, k: PatternKey): seq<Outcome> {
    if s == [] then []
    else (if Last(s).pattern == k then [Last(s)] else []) + OutcomesFor(s[..|s| - 1], k)
  }

  // ---- ORDER BY sequence_number ----

  function InsertBySeq(s: seq<Event>, e: Event): seq<Event> {
    if s == [] || Last(s).seqNo <= e.seqNo then s + [e]
    else InsertBySeq(s[..|s| - 1], e) + [Last(s)]
  }

  function OrderBySeq(s: seq<Event>): seq<Event> {
    if s == [] then [] else InsertBySeq(OrderBySeq(s[..|s| - 1]), Last(s))
  }

  /** The snapshot version of a run: the largest stored sequence number, 0 without events. */
  function LatestSeq(s: seq<Event>): int {
    var ordered := OrderBySeq(s);
    if ordered == [] then 0 else Last(ordered).seqNo
  }

  ghost predicate Increasing(s: seq<Event>) {
    forall i, j :: 0 <= i < j < |s| ==> s[i].seqNo < s[j].seqNo
  }

  ghost predicate Ascending(s: seq<Event>) {
    forall i, j :: 0 <= i < j < |s| ==> s[i].seqNo <= s[j].seqNo
  }

  lemma {:induction false} InsertKeeps(s: seq<Event>, e: Event)
    ensures multiset(InsertBySeq(s, e)) == multiset(s) + multiset{e}
    ensures forall x :: x in InsertBySeq(s, e) <==> x in s || x == e
  {
    if s != [] && Last(s).seqNo > e.seqNo {
      InsertKeeps(s[..|s| - 1], e);
      assert s == s[..|s| - 1] + [Last(s)];
    }
  }

  lemma {:induction false} InsertSorts(s: seq<Event>, e: Event)
    requires Ascending(s)
    ensures Ascending(InsertBySeq(s, e))
  {
    if s != [] && Last(s).seqNo > e.seqNo {
      InsertSorts(s[..|s| - 1], e);
      InsertKeeps(s[..|s| - 1], e);
      assert forall x <- s[..|s| - 1] :: x.seqNo <= Last(s).seqNo;
    }
  }

  /** The ordered read is an ascending permutation of the stored events. */
  lemma {:induction false} OrderSorts(s: seq<Event>)
    ensures Ascending(OrderBySeq(s)) && multiset(OrderBySeq(s)) == multiset(s)
  {
    if s != [] {
      OrderSorts(s[..|s| - 1]);
      InsertSorts(OrderBySeq(s[..|s| - 1]), Last(s));
      InsertKeeps(OrderBySeq(s[..|s| - 1]), Last(s));
      assert s == s[..|s| - 1] + [Last(s)];
    }
  }

  lemma InsertLast(s: seq<Event>, e: Event)
    ensures InsertBySeq(s, e) != []
    ensures Last(InsertBySeq(s, e)).seqNo ==
            if s == [] || Last(s).seqNo <= e.seqNo then e.seqNo else Last(s).seqNo
  {}

  lemma OrderNonempty(s: seq<Event>)
    ensures OrderBySeq(s) == [] <==> s == []
  {
    if s != [] { InsertLast(OrderBySeq(s[..|s| - 1]), Last(s)); }
  }

  /** Storing an event never lowers the snapshot version, and raises it to its own number
      when that number is the largest so far. */
  lemma LatestSeqAppend(s: seq<Event>, e: Event)
    ensures s != [] ==> LatestSeq(s) <= LatestSeq(s + [e])
    ensures (s == [] || LatestSeq(s) <= e.seqNo) ==> LatestSeq(s + [e]) == e.seqNo
  {
    assert (s + [e])[..|s|] == s;
    OrderNonempty(s);
    InsertLast(OrderBySeq(s), e);
  }

  lemma {:induction false} OrderOfIncreasing(s: seq<Event>)
    requires Increasing(s)
    ensures OrderBySeq(s) == s
  {
    if s != [] {
      OrderOfIncreasing(s[..|s| - 1]);
      assert s == s[..|s| - 1] + [Last(s)];
    }
  }
}
