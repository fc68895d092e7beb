/** The mutable database: every statement updates its table in place, and its contract says
    that the new tables are the table operation applied to the old ones. */
module Storage {
  import opened Records
  import T = Tables

  class Database {
    var runs: map<Id, Run>
    var events: map<Id, seq<Event>>
    var keys: set<string>
    var incidents: map<Id, seq<Incident>>
    var audits: map<Id, seq<Audit>>
    var plans: map<Id, seq<Plan>>
    var actions: seq<ActionRow>
    var patterns: map<PatternKey, Pattern>
    var outcomes: seq<Outcome>

    function View(): Db
      reads this
    {
      Db(runs, events, keys, incidents, audits, plans, actions, patterns, outcomes)
    }

    constructor ()
      ensures View() == EMPTY_DB
    {
      runs, events, keys, incidents, audits := map[], map[], {}, map[], map[];
      plans, actions, patterns, outcomes := map[], [], map[], [];
    }

    method GetRun(r: Id) returns (row: Option<Run>)
      ensures row == if r in View().runs then Some(View().runs[r]) else None
    {
      row := if r in runs then Some(runs[r]) else None;
    }

    method SaveRun(r: Id, row: Run)
      modifies this
      ensures View() == T.SaveRun(old(View()), r, row)
    {
      if r in runs {
        var stored := runs[r];
        var status := if stored.status in T.HELD && row.status == Running then stored.status else row.status;
        var end := if row.endTime.Some? then row.endTime else stored.endTime;
        runs := runs[r := Run(status, end, row.tokens, row.cost, row.mode, stored.org)];
      } else {
        runs := runs[r := row];
      }
    }

    method UpdateRunStatus(r: Id, status: Status) returns (updated: bool)
      modifies this
      ensures updated == (r in old(runs))
      ensures View() == T.UpdateRunStatus(old(View()), r, status)
    {
      updated := r in runs;
      if updated {
        runs := runs[r := runs[r].(status := status)];
      }
    }

    method CasRunStatus(r: Id, status: Status, expected: set<Status>) returns (updated: bool)
      modifies this
      ensures updated == T.CasApplies(old(View()), r, expected)
      ensures View() == T.CasRunStatus(old(View()), r, status, expected)
    {
      updated := r in runs && runs[r].status in expected;
      if updated {
        runs := runs[r := runs[r].(status := status)];
      }
    }

    method UpdateProtectionMode(r: Id, mode: Mode) returns (updated: bool)
      modifies this
      ensures updated == (r in old(runs))
      ensures View() == T.UpdateProtectionMode(old(View()), r, mode)
    {
      updated := r in runs;
      if updated {
        runs := runs[r := runs[r].(mode := mode)];
      }
    }

    method SaveEvent(e: Event) returns (inserted: bool)
      modifies this
      ensures inserted == (e.key !in old(keys))
      ensures View() == T.SaveEvent(old(View()), e)
    {
      inserted := e.key !in keys;
      if inserted {
        events := events[e.run := At(events, e.run) + [e]];
        keys := keys + {e.key};
      }
    }

    method SaveIncident(x: Incident) returns (inserted: bool)
      modifies this
      ensures inserted == !T.HasIncident(old(View()), x.run, x.failure, x.version)
      ensures View() == T.SaveIncident(old(View()), x)
    {
      inserted := !exists y <- At(incidents, x.run) :: y.failure == x.failure && y.version == x.version;
      if inserted {
        incidents := incidents[x.run := At(incidents, x.run) + [x]];
      }
    }

    method SaveAuditEvent(r: Id, a: Audit)
      modifies this
      ensures View() == T.Log(old(View()), r, a)
    {
      audits := audits[r := At(audits, r) + [a]];
    }

    method SaveRecoveryPlan(p: Plan)
      modifies this
      ensures View() == T.SavePlan(old(View()), p)
    {
      var s := At(plans, p.incident);
      if T.HasPlan(s, p.id) {
        plans := plans[p.incident := T.UpdatedPlans(s, p)];
      } else {
        plans := plans[p.incident := s + [p]];
      }
    }

    method SaveRecoveryAction(row: ActionRow)
      modifies this
      ensures View() == T.SaveAction(old(View()), row)
    {
      actions := actions + [row];
    }

    method SavePatternRecord(k: PatternKey, row: Pattern)
      modifies this
      ensures View() == T.SavePattern(old(View()), k, row)
    {
      if k in patterns {
        patterns := patterns[k := patterns[k].(occurrences := row.occurrences)];
      } else {
        patterns := patterns[k := row];
      }
    }

    method SaveRecoveryOutcome(o: Outcome)
      modifies this
      ensures View() == T.SaveOutcome(old(View()), o)
    {
      outcomes := outcomes + [o];
    }

    method UpdateOutcomeVerification(incident: Id, v: OutcomeVerification)
      modifies this
      ensures View() == T.VerifyOutcomes(old(View()), incident, v)
    {
      outcomes := T.VerifiedOutcomes(outcomes, incident, v);
    }
  }
}
