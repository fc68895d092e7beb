/** What drafting, automating, approving and rejecting a plan do, case by case, in terms of the rows
    before and after. */
module PlanEffects {
  import opened Records
  import opened Tables
  import opened Detectors
  import opened Protection
  import opened Collector
  import opened Learning
  import opened Recovery
  import opened ControlPlane
  import opened Trails
  import opened Lifecycle
  import opened Automation

  // ---- rows of a trail ----

  function Rows(s: seq<Audit>, action: AuditAction): nat {
    if s == [] then 0 else Rows(s[..|s| - 1], action) + if Last(s).action == action then 1 else 0
  }

  /** How many recoveries of the run have failed again. */
  function FailedRecoveries(s: seq<Audit>): nat {
    if s == [] then 0
    else
      FailedRecoveries(s[..|s| - 1]) +
      if Last(s).action == RecoveryVerification && Last(s).result == RepeatedFailure then 1 else 0
  }

  lemma {:induction false} RowsConcat(s: seq<Audit>, t: seq<Audit>, action: AuditAction)
    ensures Rows(s + t, action) == Rows(s, action) + Rows(t, action)
  {
    if t == [] {
      assert s + t == s;
    } else {
      RowsConcat(s, t[..|t| - 1], action);
      assert (s + t)[..|s + t| - 1] == s + t[..|t| - 1];
    }
  }

  lemma {:induction false} RowsAreAutomations(s: seq<Audit>)
    ensures Rows(s, AutomationExecuted) == Count(s, IsAutomation)
  {
    if s != [] { RowsAreAutomations(s[..|s| - 1]); }
  }

  lemma {:induction false} FailuresAreRepeats(s: seq<Audit>)
    ensures FailedRecoveries(s) == Count(s, IsRepeat)
  {
    if s != [] { FailuresAreRepeats(s[..|s| - 1]); }
  }

  lemma {:induction false} OtherRows(s: seq<Audit>, t: seq<Audit>)
    requires forall a <- t :: a.action != AutomationExecuted && a.action != RecoveryVerification
    ensures Count(s + t, IsAutomation) == Count(s, IsAutomation) && Count(s + t, IsRepeat) == Count(s, IsRepeat)
  {
    QuietCount(s, s + t, IsAutomation);
    QuietCount(s, s + t, IsRepeat);
  }

  // ---- drafting ----

  /** The rows of an AI consultation: which incidents are sent to the AI, and how it went. */
  function Consultation(x: Incident, ai: Option<Analysis>): seq<Audit> {
    var sent := (x.failure == StuckLoop && (x.severity == Critical || x.severity == High))
                || (x.failure == BudgetExceeded && x.severity == High);
    var i := Some(x.id);
    if !sent then []
    else
      [Audit(AiRequested, Success, i), Audit(AiStarted, Success, i)] +
      if ai.Some? then [Audit(AiCompleted, Success, i)]
      else [Audit(AiFailed, Failure, i), Audit(AiFallback, Success, i)]
  }

  lemma ConsultExactly(db: Db, x: Incident, ai: Option<Analysis>)
    ensures At(ConsultAi(db, x, ai).audits, x.run) == At(db.audits, x.run) + Consultation(x, ai)
  {
    if !ShouldInvokeAi(x) {
      assert At(db.audits, x.run) + [] == At(db.audits, x.run);
    } else {
      var i, s := Some(x.id), At(db.audits, x.run);
      var s2 := s + [Audit(AiRequested, Success, i)] + [Audit(AiStarted, Success, i)];
      if ai.Some? {
        assert s2 + [Audit(AiCompleted, Success, i)] == s + Consultation(x, ai);
      } else {
        assert s2 + [Audit(AiFailed, Failure, i)] + [Audit(AiFallback, Success, i)] == s + Consultation(x, ai);
      }
    }
  }

  /** The draft: when the AI answers, its risk, and its action if the executor knows it; otherwise
      the action and the risk that history leaves. */
  lemma DraftExactly(db: Db, x: Incident, planId: Id, actionId: Id, ai: Option<Analysis>)
    ensures var p := Draft(db, x, planId, actionId, ai);
      var answered := Consultation(x, ai) != [] && ai.Some?;
      var decided := answered && (ai.value.recommended == KeepPaused || ai.value.recommended == Resume);
      && p.id == planId && p.incident == x.id && p.run == x.run
      && p.status == Proposed && p.verification == None
      && p.snapStatus == (if x.run in db.runs then Some(db.runs[x.run].status) else None)
      && p.snapSeq == LatestSeq(At(db.events, x.run))
      && |p.actions| == 1 && p.actions[0].id == actionId
      && p.planner == (if answered then AiAssisted else Deterministic)
      && p.risk == (if answered then ai.value.risk else LowRisk)
      && (decided ==> p.actions[0].kind == ai.value.recommended && p.actions[0].risk == ai.value.risk)
      && (!decided ==> p.actions[0] == Draft(db, x, planId, actionId, None).actions[0]
                       && p.actions[0].risk == LowRisk)
  {
    LearnedIsSafe(db, x);
    hide Learned, LatestSeq;
  }

  lemma LearnedIsSafe(db: Db, x: Incident)
    ensures Learned(db, x).Some? ==> Learned(db, x).value.risk == LowRisk
  {
    hide HistoryOverride, TriggerEvent, Fingerprint, OutcomesFor;
    forall s, framework
      ensures HistoryOverride(s, framework).Some? ==> HistoryOverride(s, framework).value.risk == LowRisk
    {
      OverrideIsTrusted(s, framework);
    }
  }

  /** The event a plan or an outcome is fingerprinted by: the incident's own, or else the last one. */
  lemma TriggerExactly(s: seq<Event>, id: Id)
    ensures var e := TriggerEvent(s, id);
      && (e.None? <==> s == [])
      && (e.Some? ==> e.value in s)
      && ((exists y <- s :: y.id == id) ==> e.Some? && e.value.id == id)
      && (e.Some? && e.value.id != id ==> forall y <- s :: y.seqNo <= e.value.seqNo)
  {
    var ordered := OrderBySeq(s);
    OrderSorts(s);
    FindEventIs(ordered, id);
    forall y ensures y in s <==> y in ordered {
      assert y in multiset(s) <==> y in multiset(ordered);
    }
    hide FindEvent, OrderBySeq;
    if ordered != [] {
      assert Last(ordered) in ordered;
      forall y <- ordered ensures y.seqNo <= Last(ordered).seqNo {}
    }
  }

  lemma {:induction false} FindEventIs(s: seq<Event>, id: Id)
    ensures match FindEvent(s, id)
            case None => forall y <- s :: y.id != id
            case Some(e) => e in s && e.id == id
  {
    if s != [] {
      FindEventIs(s[1..], id);
      assert s == [s[0]] + s[1..];
    }
  }

  /** Some outcome of action a under the pattern was recorded after all those of action b. */
  ghost predicate MoreRecent(s: seq<Outcome>, k: PatternKey, a: ActionKind, b: ActionKind) {
    exists i | 0 <= i < |s| ::
      s[i].pattern == k && s[i].action == a &&
      forall j | i <= j < |s| && s[j].pattern == k :: s[j].action != b
  }

  lemma MoreRecentAppend(s: seq<Outcome>, o: Outcome, k: PatternKey, a: ActionKind, b: ActionKind)
    ensures o.pattern == k && o.action == a && a != b ==> MoreRecent(s + [o], k, a, b)
    ensures MoreRecent(s, k, a, b) && !(o.pattern == k && o.action == b) ==> MoreRecent(s + [o], k, a, b)
  {
    var t := s + [o];
    assert t[|s|] == o && forall j :: 0 <= j < |s| ==> t[j] == s[j];
  }

  lemma ReadAppend(s: seq<Outcome>, o: Outcome, k: PatternKey, a: ActionKind)
    ensures FirstOf(OutcomesFor(s + [o], k), a) ==
            if o.pattern != k then FirstOf(OutcomesFor(s, k), a)
            else if o.action == a then 0
            else 1 + FirstOf(OutcomesFor(s, k), a)
  {
    assert (s + [o])[..|s|] == s && Last(s + [o]) == o;
    assert o.pattern == k ==> OutcomesFor(s + [o], k)[1..] == OutcomesFor(s, k);
    assert o.pattern != k ==> OutcomesFor(s + [o], k) == OutcomesFor(s, k);
  }

  lemma {:induction false} FirstReadIsMoreRecent(s: seq<Outcome>, k: PatternKey, a: ActionKind, b: ActionKind)
    requires FirstOf(OutcomesFor(s, k), a) < FirstOf(OutcomesFor(s, k), b)
    ensures MoreRecent(s, k, a, b)
  {
    if s != [] {
      var front, o := s[..|s| - 1], Last(s);
      assert s == front + [o];
      hide FirstOf, OutcomesFor, MoreRecent;
      ReadAppend(front, o, k, a);
      ReadAppend(front, o, k, b);
      MoreRecentAppend(front, o, k, a, b);
      if !(o.pattern == k && o.action == a) { FirstReadIsMoreRecent(front, k, a, b); }
    }
  }

  /** The query for a pattern's outcomes returns these and no others. */
  lemma {:induction false} OutcomesForExactly(s: seq<Outcome>, k: PatternKey, p: Outcome -> bool)
    ensures Count(OutcomesFor(s, k), p) == Count(s, (o: Outcome) => o.pattern == k && p(o))
  {
    if s != [] {
      var front := s[..|s| - 1];
      OutcomesForExactly(front, k, p);
      if Last(s).pattern == k {
        CountFront(OutcomesFor(s, k), p);
        assert OutcomesFor(s, k)[1..] == OutcomesFor(front, k);
      } else {
        assert OutcomesFor(s, k) == OutcomesFor(front, k);
      }
    }
  }

  /** Without an answer from the AI the draft does what some trusted action does, among several
      the one with the most recent outcome, or else stays paused. */
  lemma DraftFromHistory(db: Db, x: Incident, e: Event, planId: Id, actionId: Id, other: ActionKind)
    requires x.run in db.runs && TriggerEvent(At(db.events, x.run), x.trigger) == Some(e)
    ensures var k := PatternKey(db.runs[x.run].org, Fingerprint(x, e));
      var framework := if k in db.patterns then db.patterns[k].framework else e.framework;
      var s, kind := OutcomesFor(db.outcomes, k), Draft(db, x, planId, actionId, None).actions[0].kind;
      && (if exists a :: Trusted(s, framework, a) then Trusted(s, framework, kind) else kind == KeepPaused)
      && (Trusted(s, framework, other) && other != kind ==> MoreRecent(db.outcomes, k, kind, other))
  {
    var k := PatternKey(db.runs[x.run].org, Fingerprint(x, e));
    var framework := if k in db.patterns then db.patterns[k].framework else e.framework;
    var s := OutcomesFor(db.outcomes, k);
    hide Fingerprint, TriggerEvent, LatestSeq, HistoryOverride, OutcomesFor, Trusted;
    assert Learned(db, x) == HistoryOverride(s, framework);
    OverrideIsTrusted(s, framework);
    var kind := Draft(db, x, planId, actionId, None).actions[0].kind;
    if Trusted(s, framework, other) && other != kind {
      OverrideIsFirst(s, framework, other);
      FirstReadIsMoreRecent(db.outcomes, k, kind, other);
    }
  }

  /** Without a run or any event there is no history to go by. */
  lemma DraftWithoutHistory(db: Db, x: Incident, planId: Id, actionId: Id)
    requires x.run !in db.runs || At(db.events, x.run) == []
    ensures Draft(db, x, planId, actionId, None).actions == [PlanAction(actionId, KeepPaused, LowRisk)]
  {
    TriggerExactly(At(db.events, x.run), x.trigger);
    hide TriggerEvent, Fingerprint, LatestSeq, HistoryOverride;
  }

  // ---- fingerprints ----

  predicate NoBar(s: string) {
    '|' !in s
  }

  lemma {:induction false} SplitAtBar(a: string, b: string, s: string, t: string)
    requires NoBar(a) && NoBar(b) && a + "|" + s == b + "|" + t
    ensures a == b && s == t
  {
    var u := a + "|" + s;
    assert u[0] == if a == "" then '|' else a[0];
    assert u[0] == if b == "" then '|' else b[0];
    if a == "" {
      assert u[1..] == s && u[1..] == t;
    } else {
      assert u[1..] == a[1..] + "|" + s && u[1..] == b[1..] + "|" + t;
      SplitAtBar(a[1..], b[1..], s, t);
      assert a == [a[0]] + a[1..] && b == [b[0]] + b[1..];
    }
  }

  /** An optional text, with an empty one taken for none. */
  function Shown(s: Option<string>): string {
    match s
    case None => "None"
    case Some(t) => if t == "" then "None" else t
  }

  /** What a fingerprint stands for. */
  function Traits(x: Incident, e: Event): (string, string, FailureType, string, string, string) {
    (e.framework, e.agent, x.failure, Shown(e.tool), Shown(e.args), Shown(e.resp))
  }

  ghost predicate Barless(e: Event) {
    NoBar(e.framework) && NoBar(e.agent) && NoBar(Shown(e.tool)) && NoBar(Shown(e.args)) && NoBar(Shown(e.resp))
  }

  /** Where no text holds the separator, fingerprints agree exactly when framework, agent, failure,
      tool, arguments and response do. */
  lemma FingerprintExactly(x: Incident, e: Event, y: Incident, f: Event)
    requires Barless(e) && Barless(f)
    ensures Fingerprint(x, e) == Fingerprint(y, f) <==> Traits(x, e) == Traits(y, f)
    ensures Fingerprint(x, e) ==
            e.framework + "|" + e.agent + "|" + (if x.failure == StuckLoop then "STUCK_LOOP" else "BUDGET_EXCEEDED") +
            "|" + Shown(e.tool) + "|" + Shown(e.args) + "|" + Shown(e.resp)
  {
    FingerprintText(x, e);
    FingerprintParts(x, e);
    FingerprintParts(y, f);
    hide Fingerprint, Shown, NoBar;
    if Fingerprint(x, e) == Fingerprint(y, f) {
      SplitAtBar(e.framework, f.framework, Rest(x, e, 1), Rest(y, f, 1));
      SplitAtBar(e.agent, f.agent, Rest(x, e, 2), Rest(y, f, 2));
      NamesHaveNoBar(x.failure);
      NamesHaveNoBar(y.failure);
      SplitAtBar(FailureName(x.failure), FailureName(y.failure), Rest(x, e, 3), Rest(y, f, 3));
      SplitAtBar(Shown(e.tool), Shown(f.tool), Rest(x, e, 4), Rest(y, f, 4));
      SplitAtBar(Shown(e.args), Shown(f.args), Shown(e.resp), Shown(f.resp));
    }
  }

  lemma FingerprintText(x: Incident, e: Event)
    ensures Fingerprint(x, e) ==
            e.framework + "|" + e.agent + "|" + (if x.failure == StuckLoop then "STUCK_LOOP" else "BUDGET_EXCEEDED") +
            "|" + Shown(e.tool) + "|" + Shown(e.args) + "|" + Shown(e.resp)
  {
    assert Text(e.tool) == Shown(e.tool) && Text(e.args) == Shown(e.args) && Text(e.resp) == Shown(e.resp);
    hide Text, Shown;
  }

  lemma NamesHaveNoBar(f: FailureType)
    ensures NoBar(FailureName(f))
    ensures forall g :: FailureName(f) == FailureName(g) ==> f == g
  {}

  /** What follows the n-th separator. */
  function Rest(x: Incident, e: Event, n: nat): string
    requires 1 <= n <= 4
    decreases 4 - n
  {
    if n == 4 then Shown(e.args) + "|" + Shown(e.resp)
    else
      (if n == 1 then e.agent else if n == 2 then FailureName(x.failure) else Shown(e.tool)) +
      "|" + Rest(x, e, n + 1)
  }

  lemma FingerprintParts(x: Incident, e: Event)
    ensures Fingerprint(x, e) == e.framework + "|" + Rest(x, e, 1)
    ensures Rest(x, e, 1) == e.agent + "|" + Rest(x, e, 2)
    ensures Rest(x, e, 2) == FailureName(x.failure) + "|" + Rest(x, e, 3)
    ensures Rest(x, e, 3) == Shown(e.tool) + "|" + Rest(x, e, 4)
    ensures Rest(x, e, 4) == Shown(e.args) + "|" + Shown(e.resp)
  {
    assert Text(e.tool) == Shown(e.tool) && Text(e.args) == Shown(e.args) && Text(e.resp) == Shown(e.resp);
    hide Text, Shown;
  }

  // ---- outcomes ----

  /** One outcome per action, not yet verified. */
  function OutcomesOf(p: Plan, k: PatternKey, approved: bool): seq<Outcome> {
    seq(|p.actions|, i requires 0 <= i < |p.actions| =>
      var kind := p.actions[i].kind;
      Outcome(p.incident, k, kind, approved, approved && (kind == KeepPaused || kind == Resume), Unverified))
  }

  lemma {:induction false} SavedOutcomes(db: Db, p: Plan, k: PatternKey, n: nat, approved: bool)
    requires n <= |p.actions|
    ensures SaveOutcomes(db, p, k, p.actions[..n], approved) ==
            db.(outcomes := db.outcomes + OutcomesOf(p, k, approved)[..n])
  {
    if n == 0 {
      assert db.outcomes + [] == db.outcomes;
    } else {
      SavedOutcomes(db, p, k, n - 1, approved);
      assert p.actions[..n][..n - 1] == p.actions[..n - 1];
      var os := OutcomesOf(p, k, approved);
      assert os[..n] == os[..n - 1] + [os[n - 1]];
      assert db.outcomes + os[..n] == (db.outcomes + os[..n - 1]) + [os[n - 1]];
    }
  }

  lemma {:induction false} FindIncidentIs(s: seq<Incident>, id: Id)
    ensures match FindIncident(s, id)
            case None => forall x <- s :: x.id != id
            case Some(x) => exists i | 0 <= i < |s| :: s[i] == x && x.id == id && forall j | 0 <= j < i :: s[j].id != id
  {
    if s != [] {
      FindIncidentIs(s[1..], id);
      assert s == [s[0]] + s[1..];
      if s[0].id != id && FindIncident(s[1..], id).Some? {
        var x := FindIncident(s[1..], id).value;
        var i :| 0 <= i < |s[1..]| && s[1..][i] == x && x.id == id && forall j | 0 <= j < i :: s[1..][j].id != id;
        assert s[i + 1] == x && forall j | 0 <= j < i + 1 :: s[j].id != id;
      }
    }
  }

  /** What a decision on a plan teaches: if the incident, its run and an event are stored, the
      pattern of the trigger event is counted once more and gains one outcome per action. */
  lemma LearnExactly(db: Db, p: Plan, approved: bool) returns (x: Option<Incident>, e: Option<Event>)
    ensures match x
            case None => forall y <- At(db.incidents, p.run) :: y.id != p.incident
            case Some(y) => y in At(db.incidents, p.run) && y.id == p.incident
    ensures x == FindIncident(At(db.incidents, p.run), p.incident)
    ensures e == if x.Some? then TriggerEvent(At(db.events, p.run), x.value.trigger) else None
    ensures Learn(db, p, approved) ==
      if e.None? || p.run !in db.runs then db
      else
        var k := PatternKey(db.runs[p.run].org, Fingerprint(x.value, e.value));
        db.(outcomes := db.outcomes + OutcomesOf(p, k, approved),
            patterns := db.patterns[k := if k in db.patterns
                                         then db.patterns[k].(occurrences := db.patterns[k].occurrences + 1)
                                         else Pattern(e.value.framework, 1)])
  {
    hide TriggerEvent, FindIncident, Fingerprint;
    x := FindIncident(At(db.incidents, p.run), p.incident);
    FindIncidentIs(At(db.incidents, p.run), p.incident);
    e := if x.Some? then TriggerEvent(At(db.events, p.run), x.value.trigger) else None;
    if e.Some? && p.run in db.runs {
      var k := PatternOf(db, p.run, x.value, e.value);
      var db1 := RecordPattern(db, k, e.value.framework);
      SavedOutcomes(db1, p, k, |p.actions|, approved);
      assert p.actions[..|p.actions|] == p.actions;
      assert OutcomesOf(p, k, approved)[..|p.actions|] == OutcomesOf(p, k, approved);
    }
  }

  /** Learning reads the incident, the events, the run's organisation, and the plan's actions. */
  lemma LearnReads(db: Db, db1: Db, p: Plan, q: Plan, approved: bool)
    requires db1.incidents == db.incidents && db1.events == db.events
    requires db1.patterns == db.patterns && db1.outcomes == db.outcomes
    requires p.run in db.runs <==> p.run in db1.runs
    requires p.run in db.runs ==> db1.runs[p.run].org == db.runs[p.run].org
    requires q.run == p.run && q.incident == p.incident && q.actions == p.actions
    ensures Learn(db1, q, approved).outcomes == Learn(db, p, approved).outcomes
    ensures Learn(db1, q, approved).patterns == Learn(db, p, approved).patterns
  {
    hide TriggerEvent, FindIncident, Fingerprint;
    var x, e := LearnExactly(db, p, approved);
    var y, f := LearnExactly(db1, q, approved);
    hide Learn;
  }

  // ---- approving and rejecting ----

  /** The plan is the newest of its incident, and no other of its plans has its id. */
  ghost predicate IsNewest(db: Db, p: Plan) {
    var s := At(db.plans, p.incident);
    s != [] && Last(s) == p && forall i | 0 <= i < |s| - 1 :: s[i].id != p.id
  }

  /** The plans with the newest one of its incident replaced. */
  function WithNewest(db: Db, p: Plan): map<Id, seq<Plan>>
    requires At(db.plans, p.incident) != []
  {
    var s := At(db.plans, p.incident);
    db.plans[p.incident := s[..|s| - 1] + [p]]
  }

  lemma SaveNewest(db: Db, p: Plan, q: Plan)
    requires IsNewest(db, p) && q == p.(status := q.status, verification := q.verification)
    ensures SavePlan(db, q) == db.(plans := WithNewest(db, q)) && IsNewest(SavePlan(db, q), q)
  {
    var s := At(db.plans, p.incident);
    var t := s[..|s| - 1] + [q];
    assert HasPlan(s, q.id) by { assert Last(s) in s; }
    assert UpdatedPlans(s, q) == t;
    hide UpdatedPlans, HasPlan;
    assert Last(t) == q && forall i | 0 <= i < |t| - 1 :: t[i] == s[i];
  }

  lemma NewestTwice(db: Db, db1: Db, p: Plan, q: Plan)
    requires At(db.plans, p.incident) != [] && q.incident == p.incident
    requires db1.plans == WithNewest(db, p)
    ensures At(db1.plans, q.incident) != [] && WithNewest(db1, q) == WithNewest(db, q)
  {
    var s := At(db.plans, p.incident);
    assert (s[..|s| - 1] + [p])[..|s| - 1] == s[..|s| - 1];
  }

  /** A refused approval writes one row and nothing else: a plan that is not open, or that the role
      or the policy does not let through. */
  lemma ApproveRefuses(db: Db, p: Plan, role: Role)
    requires p.status != Proposed || Current(db, p)
    requires p.status != Proposed || role == Viewer || exists a <- p.actions :: a.kind != KeepPaused && a.kind != Resume
    ensures ApprovePlan(db, p, role) ==
            db.(audits := db.audits[p.run := At(db.audits, p.run) + [Audit(PlanRejected, Failure, Some(p.incident))]])
  {
    hide LatestSeq, At;
  }

  /** The run is as the plan's snapshot says. */
  predicate Current(db: Db, p: Plan) {
    && p.run in db.runs
    && p.snapStatus == Some(db.runs[p.run].status)
    && p.snapSeq == LatestSeq(At(db.events, p.run))
  }

  /** An open plan whose run has changed is marked stale, whoever approves it. */
  lemma ApproveMarksStale(db: Db, p: Plan, role: Role)
    requires p.status == Proposed && !Current(db, p) && IsNewest(db, p)
    ensures ApprovePlan(db, p, role) ==
            db.(plans := WithNewest(db, p.(status := Stale)),
                audits := db.audits[p.run := At(db.audits, p.run) + [Audit(PlanRejected, Failure, Some(p.incident))]])
  {
    assert !Fresh(db, p) by { hide LatestSeq; }
    SaveNewest(db, p, p.(status := Stale));
    hide SavePlan, LatestSeq, WithNewest, IsNewest, Fresh;
  }

  /** The rows of a resume that a plan carries out. */
  function ResumeRows(db: Db, p: Plan): seq<Audit> {
    if p.run !in db.runs then []
    else match db.runs[p.run].status
         case PauseRequested => [Audit(ResumeRequestedAudit, Success, Some(p.incident))]
         case Paused => [Audit(ResumeRequestedAudit, Success, Some(p.incident))]
         case Running => [Audit(ResumeRequestedAudit, Idempotent, None)]
         case ResumeRequested => [Audit(ResumeRequestedAudit, Idempotent, None)]
         case Completed => [Audit(ResumeFailedAudit, Failure, None)]
         case Failed => [Audit(ResumeFailedAudit, Failure, None)]
  }

  function RunsAfterResume(db: Db, r: Id): map<Id, Run> {
    if r in db.runs && (db.runs[r].status == PauseRequested || db.runs[r].status == Paused)
    then db.runs[r := db.runs[r].(status := ResumeRequested)] else db.runs
  }

  /** One action: two writes, its audit row, and the resume if that is what it is. */
  lemma ActionExactly(db: Db, p: Plan, a: PlanAction)
    ensures var db1 := RunAction(db, p, a);
      var resumes, done := a.kind == Resume, a.kind == KeepPaused || a.kind == Resume;
      db1 == db.(
        runs := if resumes then RunsAfterResume(db, p.run) else db.runs,
        audits := db.audits[p.run := At(db.audits, p.run) + (if resumes then ResumeRows(db, p) else []) +
                            [Audit(ActionExecuted, if done then Success else Failure, Some(p.incident))]],
        actions := db.actions + [
          ActionRow(a.id, p.run, p.incident, a.kind, a.risk, ActionExecuting),
          ActionRow(a.id, p.run, p.incident, a.kind, a.risk, if done then ActionCompleted else ActionFailed)])
  {
    var first := ActionRow(a.id, p.run, p.incident, a.kind, a.risk, ActionExecuting);
    var ok, failed := first.(status := ActionCompleted), first.(status := ActionFailed);
    assert db.actions + [first] + [ok] == db.actions + [first, ok];
    assert db.actions + [first] + [failed] == db.actions + [first, failed];
    if a.kind == Resume {
      ResumeActionExactly(db, p, a);
      hide RunAction, ResumeRows, RunsAfterResume;
    } else {
      assert At(db.audits, p.run) + [] == At(db.audits, p.run);
    }
  }

  lemma ResumeActionExactly(db: Db, p: Plan, a: PlanAction)
    requires a.kind == Resume
    ensures RunAction(db, p, a) == db.(
      runs := RunsAfterResume(db, p.run),
      audits := db.audits[p.run := At(db.audits, p.run) + ResumeRows(db, p) +
                          [Audit(ActionExecuted, Success, Some(p.incident))]],
      actions := db.actions + [ActionRow(a.id, p.run, p.incident, a.kind, a.risk, ActionExecuting)] +
                 [ActionRow(a.id, p.run, p.incident, a.kind, a.risk, ActionCompleted)])
  {
    var db1 := WriteAction(db, p, a, ActionExecuting);
    ResumesAs(db1, p);
    hide ResumeRun;
    var rows := ResumeRows(db, p);
    assert rows == ResumeRows(db1, p) && RunsAfterResume(db, p.run) == RunsAfterResume(db1, p.run);
    assert p.run !in db.runs ==> rows == [];
    hide ResumeRows, RunsAfterResume;
    TwoRows(db.audits, p.run, rows, [PlanAudit(p, ActionExecuted, Success)]);
  }

  lemma ResumesAs(db: Db, p: Plan)
    ensures ResumeRun(db, p.run, Some(p.incident)) ==
            db.(runs := RunsAfterResume(db, p.run),
                audits := if p.run in db.runs then db.audits[p.run := At(db.audits, p.run) + ResumeRows(db, p)]
                          else db.audits)
  {
    var target := ResumeExactly(db, p.run, Some(p.incident));
    hide ResumeRun, At;
  }

  lemma TwoRows(audits: map<Id, seq<Audit>>, r: Id, s: seq<Audit>, t: seq<Audit>)
    ensures var once := audits[r := At(audits, r) + s];
      once[r := At(once, r) + t] == audits[r := At(audits, r) + s + t]
    ensures At(audits, r) + [] == At(audits, r)
  {}

  /** The database between the two saves of an approval and the actions. */
  lemma ApprovalOpens(db: Db, p: Plan)
    requires IsNewest(db, p)
    ensures var db1 := Log(SavePlan(db, p.(status := Approved)), p.run, PlanAudit(p, PlanApproved, Success));
      && SavePlan(db1, p.(status := Executing)) ==
         db.(plans := WithNewest(db, p.(status := Executing)),
             audits := db.audits[p.run := At(db.audits, p.run) + [PlanAudit(p, PlanApproved, Success)]])
      && IsNewest(SavePlan(db1, p.(status := Executing)), p.(status := Executing))
  {
    var approved, executing := p.(status := Approved), p.(status := Executing);
    SaveNewest(db, p, approved);
    var db0 := SavePlan(db, approved);
    var db1 := Log(db0, p.run, PlanAudit(p, PlanApproved, Success));
    assert db1.plans == WithNewest(db, approved) && IsNewest(db1, approved);
    hide SavePlan;
    SaveNewest(db1, approved, executing);
    NewestTwice(db, db1, approved, executing);
    hide WithNewest, IsNewest;
  }

  lemma ThreeRows(audits: map<Id, seq<Audit>>, r: Id, s: seq<Audit>, t: seq<Audit>, u: seq<Audit>)
    ensures var once := audits[r := At(audits, r) + s];
      once[r := At(once, r) + t + u] == audits[r := At(audits, r) + s + t + u]
  {}

  /** The action of a plan that has just been opened. */
  lemma ActionAfterApproval(db: Db, db2: Db, p: Plan, a: PlanAction)
    requires a.kind == KeepPaused || a.kind == Resume
    requires db2 == db.(plans := db2.plans,
                        audits := db.audits[p.run := At(db.audits, p.run) + [PlanAudit(p, PlanApproved, Success)]])
    ensures var rows := if a.kind == Resume then ResumeRows(db, p) else [];
      RunAction(db2, p, a) == db.(
        runs := if a.kind == Resume then RunsAfterResume(db, p.run) else db.runs,
        audits := db.audits[p.run := At(db.audits, p.run) + [PlanAudit(p, PlanApproved, Success)] + rows +
                            [PlanAudit(p, ActionExecuted, Success)]],
        actions := db.actions + [ActionOf(p, a, ActionExecuting), ActionOf(p, a, ActionCompleted)],
        plans := db2.plans)
  {
    var rows := if a.kind == Resume then ResumeRows(db, p) else [];
    ActionExactly(db2, p, a);
    assert ResumeRows(db2, p) == ResumeRows(db, p) && RunsAfterResume(db2, p.run) == RunsAfterResume(db, p.run);
    ThreeRows(db.audits, p.run, [PlanAudit(p, PlanApproved, Success)], rows, [PlanAudit(p, ActionExecuted, Success)]);
    hide RunAction, ResumeRows, RunsAfterResume, At;
  }

  /** The database after a plan's one action, before the plan is saved for the last time. */
  lemma OpenedAndDone(db: Db, p: Plan)
    requires IsNewest(db, p) && |p.actions| == 1
    requires p.actions[0].kind == KeepPaused || p.actions[0].kind == Resume
    ensures var a, q := p.actions[0], p.(status := Executing);
      var rows := if a.kind == Resume then ResumeRows(db, p) else [];
      var db1 := Log(SavePlan(db, p.(status := Approved)), p.run, PlanAudit(p, PlanApproved, Success));
      RunActions(SavePlan(db1, q), p, p.actions) == db.(
        runs := if a.kind == Resume then RunsAfterResume(db, p.run) else db.runs,
        audits := db.audits[p.run := At(db.audits, p.run) + [PlanAudit(p, PlanApproved, Success)] + rows +
                            [PlanAudit(p, ActionExecuted, Success)]],
        actions := db.actions + [ActionOf(p, a, ActionExecuting), ActionOf(p, a, ActionCompleted)],
        plans := WithNewest(db, q))
  {
    var a := p.actions[0];
    var db1 := Log(SavePlan(db, p.(status := Approved)), p.run, PlanAudit(p, PlanApproved, Success));
    var db2 := SavePlan(db1, p.(status := Executing));
    ApprovalOpens(db, p);
    OneAction(db2, p);
    hide *;
    ActionAfterApproval(db, db2, p, a);
  }

  lemma OneAction(db: Db, p: Plan)
    requires |p.actions| == 1
    ensures RunActions(db, p, p.actions) == RunAction(db, p, p.actions[0])
  {
    hide RunAction;
    assert p.actions[..0] == [] && RunActions(db, p, []) == db;
  }

  /** An approval that goes through carries the plan out: the plan is completed, its action done, and
      what was done is learned. */
  lemma ApproveExecutes(db: Db, p: Plan, role: Role)
    requires p.status == Proposed && Current(db, p) && IsNewest(db, p) && role != Viewer
    requires |p.actions| == 1 && (p.actions[0].kind == KeepPaused || p.actions[0].kind == Resume)
    ensures var a := p.actions[0];
      var resumes := a.kind == Resume;
      var done := p.(status := PlanCompleted,
                     verification := if resumes then Some(RecoveryUnverified) else p.verification);
      ApprovePlan(db, p, role) == db.(
        runs := if resumes then RunsAfterResume(db, p.run) else db.runs,
        audits := db.audits[p.run := At(db.audits, p.run) + [Audit(PlanApproved, Success, Some(p.incident))] +
                            (if resumes then ResumeRows(db, p) else []) +
                            [Audit(ActionExecuted, Success, Some(p.incident))]],
        actions := db.actions + [ActionRow(a.id, p.run, p.incident, a.kind, a.risk, ActionExecuting),
                                 ActionRow(a.id, p.run, p.incident, a.kind, a.risk, ActionCompleted)],
        plans := WithNewest(db, done),
        outcomes := Learn(db, p, true).outcomes,
        patterns := Learn(db, p, true).patterns)
  {
    ExecutedIs(p);
    assert Fresh(db, p) && MayExecute(p, role) by { hide LatestSeq; }
    OpenedAndDone(db, p);
    var db1 := Log(SavePlan(db, p.(status := Approved)), p.run, PlanAudit(p, PlanApproved, Success));
    var db3 := RunActions(SavePlan(db1, p.(status := Executing)), p, p.actions);
    assert IsNewest(db3, p.(status := Executing)) by {
      hide SavePlan, RunActions, RunsAfterResume, ResumeRows;
      StillNewest(db, db3, p);
    }
    CarriedRows(db, db3, p);
    hide SavePlan, RunActions, Learn, Fresh, MayExecute, WithNewest, IsNewest, ResumeRows, RunsAfterResume, Executed;
    hide At, Log;
  }

  lemma StillNewest(db: Db, db1: Db, p: Plan)
    requires IsNewest(db, p) && db1.plans == WithNewest(db, p.(status := Executing))
    ensures IsNewest(db1, p.(status := Executing))
  {
    var s := At(db.plans, p.incident);
    var t := s[..|s| - 1] + [p.(status := Executing)];
    assert At(db1.plans, p.incident) == t && forall i | 0 <= i < |t| - 1 :: t[i] == s[i];
  }

  lemma ExecutedIs(p: Plan)
    requires |p.actions| == 1 && (p.actions[0].kind == KeepPaused || p.actions[0].kind == Resume)
    ensures Executed(p) == p.(status := PlanCompleted,
              verification := if p.actions[0].kind == Resume then Some(RecoveryUnverified) else p.verification)
  {
    assert p.actions[..0] == [] && Count(p.actions[..0], Succeeds) == 0 && Count(p.actions[..0], Resumes) == 0;
  }

  /** Saving the finished plan and learning from it, after the action. */
  lemma CarriedRows(db: Db, db3: Db, p: Plan)
    requires IsNewest(db, p)
    requires db3.plans == WithNewest(db, p.(status := Executing)) && IsNewest(db3, p.(status := Executing))
    requires db3.incidents == db.incidents && db3.events == db.events
    requires db3.patterns == db.patterns && db3.outcomes == db.outcomes
    requires db3.runs == db.runs || db3.runs == RunsAfterResume(db, p.run)
    ensures var q := Executed(p);
      Learn(SavePlan(db3, q), q, true) ==
      db3.(plans := WithNewest(db, q), outcomes := Learn(db, p, true).outcomes, patterns := Learn(db, p, true).patterns)
  {
    var q := Executed(p);
    SaveNewest(db3, p.(status := Executing), q);
    NewestTwice(db, db3, p.(status := Executing), q);
    LearnReads(db, SavePlan(db3, q), p, q, true);
    LearnTouches(SavePlan(db3, q), q, true);
  }

  /** A rejection by an operator or an admin closes an open or stale plan and is learned from; any
      other changes nothing. */
  lemma DismissExactly(db: Db, p: Plan, role: Role)
    requires IsNewest(db, p)
    ensures DismissPlan(db, p, role) ==
      if role == Viewer || (p.status != Proposed && p.status != Stale) then db
      else db.(
        plans := WithNewest(db, p.(status := Rejected)),
        audits := db.audits[p.run := At(db.audits, p.run) + [Audit(PlanRejected, Success, Some(p.incident))]],
        outcomes := if p.actions == [] then db.outcomes else Learn(db, p, false).outcomes,
        patterns := if p.actions == [] then db.patterns else Learn(db, p, false).patterns)
  {
    var q := p.(status := Rejected);
    SaveNewest(db, p, q);
    var db1 := Log(SavePlan(db, q), p.run, PlanAudit(p, PlanRejected, Success));
    LearnReads(db, db1, p, q, false);
    LearnTouches(db1, q, false);
    hide SavePlan, Learn, WithNewest, IsNewest, At;
  }

  // ---- automation ----

  /** What must hold for a plan to be carried out at once. */
  predicate Safe(cfg: Config, db: Db, x: Incident, p: Plan) {
    && x.run in db.runs && x.failure == StuckLoop
    && p.risk == LowRisk
    && |p.actions| == 1 && (p.actions[0].kind == KeepPaused || p.actions[0].kind == Resume)
    && Rows(At(db.audits, x.run), AutomationExecuted) < cfg.maxAuto
    && FailedRecoveries(At(db.audits, x.run)) < 2
  }

  lemma SafeMayAutomate(cfg: Config, db: Db, db1: Db, p: Plan, x: Incident, t: seq<Audit>)
    requires db1.runs == db.runs && At(db1.audits, x.run) == At(db.audits, x.run) + t
    requires forall a <- t :: a.action != AutomationExecuted && a.action != RecoveryVerification
    ensures MayAutomate(cfg, db1, p, x) <==> Safe(cfg, db, x, p)
  {
    var s := At(db.audits, x.run);
    OtherRows(s, t);
    RowsAreAutomations(s);
    FailuresAreRepeats(s);
    hide At, Count, Rows, FailedRecoveries, IsAutomation, IsRepeat;
  }

  /** The database when automation is considered: the draft saved, the consultation booked. */
  lemma DraftedExactly(db: Db, x: Incident, planId: Id, actionId: Id, ai: Option<Analysis>)
    requires !HasPlan(At(db.plans, x.id), planId)
    ensures var db1 := Drafted(db, x, planId, actionId, ai);
      var p := Draft(db, x, planId, actionId, ai);
      && db1.runs == db.runs && db1.events == db.events && db1.incidents == db.incidents
      && At(db1.audits, x.run) == At(db.audits, x.run) + Consultation(x, ai)
      && db1.plans == db.plans[x.id := At(db.plans, x.id) + [p]]
      && IsNewest(db1, p)
  {
    DraftedPlans(db, x, planId, actionId, ai);
    DraftShape(db, x, planId, actionId, ai);
    var db1, p := Drafted(db, x, planId, actionId, ai), Draft(db, x, planId, actionId, ai);
    assert At(db1.audits, x.run) == At(db.audits, x.run) + Consultation(x, ai) by {
      hide Draft, TriggerEvent, PatternOf, Consultation, ConsultAi;
      ConsultExactly(Recall(db, x), x, ai);
    }
    assert IsNewest(db1, p) by {
      hide Drafted, Draft;
      var s := At(db.plans, x.id);
      assert forall i | 0 <= i < |s| :: s[i] in s;
    }
    hide Drafted, Draft, IsNewest, Consultation;
  }

  lemma OpenedTables(db: Db, p: Plan)
    ensures var db1 := Log(SavePlan(db, p.(status := Approved)), p.run, PlanAudit(p, PlanApproved, Success));
      var db2 := SavePlan(db1, p.(status := Executing));
      db2 == db.(plans := db2.plans,
                 audits := db.audits[p.run := At(db.audits, p.run) + [PlanAudit(p, PlanApproved, Success)]])
  {
    hide UpdatedPlans, HasPlan, At;
  }

  lemma ClosingKeepsTrail(db: Db, p: Plan)
    ensures Learn(SavePlan(db, p), p, true).audits == db.audits
  {
    LearnTouches(SavePlan(db, p), p, true);
    hide Learn, UpdatedPlans, HasPlan;
  }

  lemma CarryRows(db: Db, p: Plan)
    requires |p.actions| == 1
    ensures var db1 := Log(SavePlan(db, p.(status := Approved)), p.run, PlanAudit(p, PlanApproved, Success));
      Carry(db, p).audits == RunAction(SavePlan(db1, p.(status := Executing)), p, p.actions[0]).audits
  {
    var db1 := Log(SavePlan(db, p.(status := Approved)), p.run, PlanAudit(p, PlanApproved, Success));
    var db2 := SavePlan(db1, p.(status := Executing));
    OneAction(db2, p);
    ClosingKeepsTrail(RunAction(db2, p, p.actions[0]), Executed(p));
    hide SavePlan, RunAction, RunActions, Learn, Executed, Log;
  }

  /** The trail of the run after a plan of one known action is carried out. */
  lemma CarryTrail(db: Db, p: Plan)
    requires |p.actions| == 1 && (p.actions[0].kind == KeepPaused || p.actions[0].kind == Resume)
    ensures At(Carry(db, p).audits, p.run) ==
            At(db.audits, p.run) +
            ([Audit(PlanApproved, Success, Some(p.incident))] +
             (if p.actions[0].kind == Resume then ResumeRows(db, p) else []) +
             [Audit(ActionExecuted, Success, Some(p.incident))])
  {
    var a := p.actions[0];
    var db1 := Log(SavePlan(db, p.(status := Approved)), p.run, PlanAudit(p, PlanApproved, Success));
    OpenedTables(db, p);
    ActionAfterApproval(db, SavePlan(db1, p.(status := Executing)), p, a);
    CarryRows(db, p);
    var s, rows := At(db.audits, p.run), if a.kind == Resume then ResumeRows(db, p) else [];
    var first, last := [PlanAudit(p, PlanApproved, Success)], [PlanAudit(p, ActionExecuted, Success)];
    assert At(Carry(db, p).audits, p.run) == s + first + rows + last by {
      hide SavePlan, RunAction, ResumeRows, RunsAfterResume, Carry, Log;
    }
    Regroup(s, first, rows, last);
    hide *;
  }

  lemma Regroup(s: seq<Audit>, a: seq<Audit>, b: seq<Audit>, c: seq<Audit>)
    ensures s + a + b + c == s + (a + b + c)
  {}

  lemma ConsultationRows(x: Incident, ai: Option<Analysis>)
    ensures var t := Consultation(x, ai);
      && (forall a <- t :: a.action != AutomationExecuted && a.action != RecoveryVerification)
      && Rows(t, AutomationExecuted) == 0 && Rows(t, AutomationRejected) == 0
  {
    var t := Consultation(x, ai);
    forall a | a !in {AiRequested, AiStarted, AiCompleted, AiFailed, AiFallback} ensures Rows(t, a) == 0 {
      NoRows(t, a);
    }
  }

  lemma {:induction false} NoRows(s: seq<Audit>, action: AuditAction)
    requires forall a <- s :: a.action != action
    ensures Rows(s, action) == 0
  {
    if s != [] { NoRows(s[..|s| - 1], action); }
  }

  /** The rows plan generation adds: the consultation, the decision, and what carrying out adds. */
  lemma GenerationTrail(cfg: Config, db: Db, x: Incident, planId: Id, actionId: Id, ai: Option<Analysis>)
    requires !Settled(PlanOf(db, x.id))
    ensures var p, safe := Draft(db, x, planId, actionId, ai), Safe(cfg, db, x, Draft(db, x, planId, actionId, ai));
      At(PlanFor(cfg, db, x, planId, actionId, ai).audits, x.run) ==
        At(db.audits, x.run) + Consultation(x, ai) +
        [Audit(if safe then AutomationExecuted else AutomationRejected, Success, Some(x.id))] +
        if safe then
          [Audit(PlanApproved, Success, Some(x.id))] +
          (if p.actions[0].kind == Resume then ResumeRows(db, p) else []) +
          [Audit(ActionExecuted, Success, Some(x.id))]
        else []
    ensures GeneratedPlan(cfg, db, x, planId, actionId, ai).status ==
            if Safe(cfg, db, x, Draft(db, x, planId, actionId, ai)) then PlanCompleted else Proposed
  {
    var p, db1 := Draft(db, x, planId, actionId, ai), Drafted(db, x, planId, actionId, ai);
    DraftShape(db, x, planId, actionId, ai);
    DraftedRows(db, x, planId, actionId, ai);
    DraftedTrail(db, x, planId, actionId, ai);
    ConsultationRows(x, ai);
    SafeMayAutomate(cfg, db, db1, p, x, Consultation(x, ai));
    hide Drafted, Draft, MayAutomate, Consultation, Settled, PlanOf, Rows, FailedRecoveries;
    if Safe(cfg, db, x, p) {
      var db2 := Log(db1, x.run, Audit(AutomationExecuted, Success, Some(x.id)));
      AutomatedTrail(db, db2, p);
      hide ApprovePlan, AfterExecution, ResumeRows;
    } else {
      hide ApprovePlan, AfterExecution, ResumeRows;
    }
  }

  lemma DraftedTrail(db: Db, x: Incident, planId: Id, actionId: Id, ai: Option<Analysis>)
    ensures At(Drafted(db, x, planId, actionId, ai).audits, x.run) == At(db.audits, x.run) + Consultation(x, ai)
  {
    hide Draft, TriggerEvent, PatternOf, Consultation, ConsultAi;
    ConsultExactly(Recall(db, x), x, ai);
  }

  lemma AutomationPasses(db: Db, db2: Db, p: Plan)
    requires |p.actions| == 1 && (p.actions[0].kind == KeepPaused || p.actions[0].kind == Resume)
    requires p.status == Proposed && p.run in db.runs && Fresh(db, p)
    requires db2.runs == db.runs && db2.events == db.events
    ensures ApprovePlan(db2, p, Admin) == Carry(db2, p)
    ensures AfterExecution(db2, p, Admin).status == PlanCompleted
    ensures ResumeRows(db2, p) == ResumeRows(db, p)
  {
    ExecutedIs(p);
    assert MayExecute(p, Admin);
    assert Fresh(db2, p) && ResumeRows(db2, p) == ResumeRows(db, p) by { hide LatestSeq; }
    hide Carry, Executed, Fresh, MayExecute, ResumeRows;
  }

  /** What an approval by the automation adds. */
  lemma AutomatedTrail(db: Db, db2: Db, p: Plan)
    requires |p.actions| == 1 && (p.actions[0].kind == KeepPaused || p.actions[0].kind == Resume)
    requires p.status == Proposed && p.run in db.runs && Fresh(db, p)
    requires db2.runs == db.runs && db2.events == db.events
    ensures At(ApprovePlan(db2, p, Admin).audits, p.run) ==
            At(db2.audits, p.run) +
            ([Audit(PlanApproved, Success, Some(p.incident))] +
             (if p.actions[0].kind == Resume then ResumeRows(db, p) else []) +
             [Audit(ActionExecuted, Success, Some(p.incident))])
    ensures AfterExecution(db2, p, Admin).status == PlanCompleted
  {
    AutomationPasses(db, db2, p);
    CarryTrail(db2, p);
    hide *;
  }

  lemma ResumeRowsAre(db: Db, p: Plan)
    ensures forall a <- ResumeRows(db, p) :: a.action in {ResumeRequestedAudit, ResumeFailedAudit}
  {}

  lemma OneRow(a: Audit, action: AuditAction)
    ensures Rows([a], action) == if a.action == action then 1 else 0
  {
    assert [a][..0] == [];
  }

  /** Counting the two kinds of decision in the trail of a plan generation. */
  lemma DecisionRows(db: Db, p: Plan, x: Incident, ai: Option<Analysis>, safe: bool, action: AuditAction)
    requires action in {AutomationExecuted, AutomationRejected} && (safe ==> |p.actions| == 1)
    ensures var d := Audit(if safe then AutomationExecuted else AutomationRejected, Success, Some(x.id));
      var rest :=
        if safe then
          [Audit(PlanApproved, Success, Some(x.id))] +
          (if p.actions[0].kind == Resume then ResumeRows(db, p) else []) +
          [Audit(ActionExecuted, Success, Some(x.id))]
        else [];
      var s := At(db.audits, x.run);
      Rows(s + Consultation(x, ai) + [d] + rest, action) == Rows(s, action) + if d.action == action then 1 else 0
  {
    ResumeRowsAre(db, p);
    ConsultationRows(x, ai);
    hide Rows, Consultation, ResumeRows;
    var s := At(db.audits, x.run);
    var d := Audit(if safe then AutomationExecuted else AutomationRejected, Success, Some(x.id));
    var rest :=
      if safe then
        [Audit(PlanApproved, Success, Some(x.id))] +
        (if p.actions[0].kind == Resume then ResumeRows(db, p) else []) +
        [Audit(ActionExecuted, Success, Some(x.id))]
      else [];
    NoRows(rest, action);
    OneRow(d, action);
    RowsConcat(s, Consultation(x, ai), action);
    RowsConcat(s + Consultation(x, ai), [d], action);
    RowsConcat(s + Consultation(x, ai) + [d], rest, action);
  }

  /** When automation happens: for an incident without a settled plan, the new plan is carried out
      and booked as automated exactly when the run exists, the failure is a stuck loop, the plan is of
      low risk with one action that keeps paused or resumes, and the run has seen fewer automated
      recoveries than allowed and fewer than two failed ones. Otherwise the plan is left proposed and
      the automation booked as rejected. */
  lemma AutomationExactly(cfg: Config, db: Db, x: Incident, planId: Id, actionId: Id, ai: Option<Analysis>)
    requires At(db.plans, x.id) == [] || Last(At(db.plans, x.id)).status in {Stale, Rejected}
    ensures var safe := Safe(cfg, db, x, Draft(db, x, planId, actionId, ai));
      var s, t := At(db.audits, x.run), At(PlanFor(cfg, db, x, planId, actionId, ai).audits, x.run);
      && GeneratedPlan(cfg, db, x, planId, actionId, ai).status == (if safe then PlanCompleted else Proposed)
      && Rows(t, AutomationExecuted) == Rows(s, AutomationExecuted) + (if safe then 1 else 0)
      && Rows(t, AutomationRejected) == Rows(s, AutomationRejected) + (if safe then 0 else 1)
  {
    GenerationTrail(cfg, db, x, planId, actionId, ai);
    var p := Draft(db, x, planId, actionId, ai);
    var safe := Safe(cfg, db, x, p);
    assert safe ==> |p.actions| == 1;
    hide *;
    DecisionRows(db, p, x, ai, safe, AutomationExecuted);
    DecisionRows(db, p, x, ai, safe, AutomationRejected);
  }

  /** With the mock provider the first plan for a stuck loop is carried out at once: the run stays
      as it is, and one automated recovery is booked. */
  lemma MockAutomatesFirst(cfg: Config, db: Db, x: Incident, planId: Id, actionId: Id)
    requires x.run in db.runs && x.failure == StuckLoop && x.severity == Critical
    requires At(db.plans, x.id) == [] && cfg.maxAuto > 0
    requires Rows(At(db.audits, x.run), AutomationExecuted) == 0 && FailedRecoveries(At(db.audits, x.run)) < 2
    ensures var ai := Some(MockAnalysis(x));
      var db1 := PlanFor(cfg, db, x, planId, actionId, ai);
      && GeneratedPlan(cfg, db, x, planId, actionId, ai).status == PlanCompleted
      && GeneratedPlan(cfg, db, x, planId, actionId, ai).actions == [PlanAction(actionId, KeepPaused, LowRisk)]
      && Rows(At(db1.audits, x.run), AutomationExecuted) == 1
      && db1.runs == db.runs
  {
    var ai := Some(MockAnalysis(x));
    DraftExactly(db, x, planId, actionId, ai);
    AutomationExactly(cfg, db, x, planId, actionId, ai);
    GeneratedIsDraft(cfg, db, x, planId, actionId, ai);
    var p := Draft(db, x, planId, actionId, ai);
    assert p.actions == [PlanAction(actionId, KeepPaused, LowRisk)] && Safe(cfg, db, x, p) by { hide Draft, Rows; }
    KeepPausedRows(cfg, db, x, planId, actionId, ai);
    hide *;
  }

  lemma KeepPausedRows(cfg: Config, db: Db, x: Incident, planId: Id, actionId: Id, ai: Option<Analysis>)
    requires var p := Draft(db, x, planId, actionId, ai); |p.actions| == 1 && p.actions[0].kind == KeepPaused
    ensures PlanFor(cfg, db, x, planId, actionId, ai).runs == db.runs
  {
    DraftedRows(db, x, planId, actionId, ai);
    hide Drafted, Draft, ApprovePlan, MayAutomate, PlanOf, Settled, At;
    var started := Log(Drafted(db, x, planId, actionId, ai), x.run, Audit(AutomationExecuted, Success, Some(x.id)));
    KeepPausedChangesNoRun(started, Draft(db, x, planId, actionId, ai), Admin);
  }

  lemma GeneratedIsDraft(cfg: Config, db: Db, x: Incident, planId: Id, actionId: Id, ai: Option<Analysis>)
    requires At(db.plans, x.id) == [] || Last(At(db.plans, x.id)).status in {Stale, Rejected}
    ensures GeneratedPlan(cfg, db, x, planId, actionId, ai).actions == Draft(db, x, planId, actionId, ai).actions
  {
    hide Drafted, Draft, MayAutomate, Fresh, MayExecute;
  }

  /** Drafting a plan counts the pattern of the trigger event once more, and touches no outcome. */
  lemma DraftCountsPattern(db: Db, x: Incident, e: Event, planId: Id, actionId: Id, ai: Option<Analysis>)
    requires x.run in db.runs && TriggerEvent(At(db.events, x.run), x.trigger) == Some(e)
    ensures var k, db1 := PatternKey(db.runs[x.run].org, Fingerprint(x, e)), Drafted(db, x, planId, actionId, ai);
      && db1.outcomes == db.outcomes
      && db1.patterns == db.patterns[k := if k in db.patterns
                                          then db.patterns[k].(occurrences := db.patterns[k].occurrences + 1)
                                          else Pattern(e.framework, 1)]
  {
    hide Fingerprint, TriggerEvent, Draft, HasPlan, UpdatedPlans, ConsultAi;
    ConsultTouches(Recall(db, x), x, ai);
  }

  /** The plan that generation returns is the newest stored one. */
  lemma GenerationStores(cfg: Config, db: Db, x: Incident, planId: Id, actionId: Id, ai: Option<Analysis>)
    requires At(db.plans, x.id) == [] || Last(At(db.plans, x.id)).status in {Stale, Rejected}
    requires !HasPlan(At(db.plans, x.id), planId)
    ensures var s := At(PlanFor(cfg, db, x, planId, actionId, ai).plans, x.id);
      s != [] && Last(s) == GeneratedPlan(cfg, db, x, planId, actionId, ai)
  {
    var p, db1 := Draft(db, x, planId, actionId, ai), Drafted(db, x, planId, actionId, ai);
    DraftedExactly(db, x, planId, actionId, ai);
    DraftShape(db, x, planId, actionId, ai);
    hide Drafted, Draft, HasPlan, Consultation, ApprovePlan, AfterExecution;
    if Automates(cfg, db, x, planId, actionId, ai) {
      var db2 := Log(db1, x.run, Audit(AutomationExecuted, Success, Some(x.id)));
      LoggedDraft(db, db1, p, Audit(AutomationExecuted, Success, Some(x.id)));
      assert p.actions[0].kind == KeepPaused || p.actions[0].kind == Resume;
      hide MayAutomate, Fresh, Current, IsNewest;
      NewestExecuted(db2, p);
    }
    hide MayAutomate, Fresh, Current, IsNewest;
  }

  lemma LoggedDraft(db: Db, db1: Db, p: Plan, a: Audit)
    requires IsNewest(db1, p) && p.run in db.runs && Fresh(db, p)
    requires db1.runs == db.runs && db1.events == db.events
    ensures IsNewest(Log(db1, p.run, a), p) && Current(Log(db1, p.run, a), p)
  {
    hide LatestSeq;
  }

  lemma NewestExecuted(db: Db, p: Plan)
    requires p.status == Proposed && Current(db, p) && IsNewest(db, p)
    requires |p.actions| == 1 && (p.actions[0].kind == KeepPaused || p.actions[0].kind == Resume)
    ensures var s := At(ApprovePlan(db, p, Admin).plans, p.incident);
      s != [] && Last(s) == AfterExecution(db, p, Admin)
  {
    ExecutedIs(p);
    ApproveExecutes(db, p, Admin);
    assert Fresh(db, p) && MayExecute(p, Admin) by { hide LatestSeq; }
    hide ApprovePlan, Fresh, MayExecute, Executed, Current, Learn, ResumeRows, RunsAfterResume;
  }

  /** Asking again, with whatever AI answer, changes nothing and returns the plan that is stored. */
  lemma GenerationIsIdempotent(
      cfg: Config, db: Db, x: Incident, planId: Id, actionId: Id, ai: Option<Analysis>,
      planId1: Id, actionId1: Id, ai1: Option<Analysis>)
    requires !HasPlan(At(db.plans, x.id), planId)
    ensures var db1, p := PlanFor(cfg, db, x, planId, actionId, ai), GeneratedPlan(cfg, db, x, planId, actionId, ai);
      PlanFor(cfg, db1, x, planId1, actionId1, ai1) == db1 && GeneratedPlan(cfg, db1, x, planId1, actionId1, ai1) == p
  {
    if At(db.plans, x.id) == [] || Last(At(db.plans, x.id)).status in {Stale, Rejected} {
      GenerationStores(cfg, db, x, planId, actionId, ai);
      AutomationExactly(cfg, db, x, planId, actionId, ai);
      SettledStays(cfg, PlanFor(cfg, db, x, planId, actionId, ai), x, planId1, actionId1, ai1);
    } else {
      SettledStays(cfg, db, x, planId, actionId, ai);
      SettledStays(cfg, db, x, planId1, actionId1, ai1);
    }
    hide *;
  }

  lemma SettledStays(cfg: Config, db: Db, x: Incident, planId: Id, actionId: Id, ai: Option<Analysis>)
    requires At(db.plans, x.id) != [] && Last(At(db.plans, x.id)).status !in {Stale, Rejected}
    ensures PlanFor(cfg, db, x, planId, actionId, ai) == db
    ensures GeneratedPlan(cfg, db, x, planId, actionId, ai) == Last(At(db.plans, x.id))
  {}
}
