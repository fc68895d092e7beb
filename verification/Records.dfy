/** The rows of the control plane's tables, and the small vocabulary they are written in.
    Ids, hashes and timestamps are opaque tokens; money is an exact real. */
module Records {
  datatype Option<+T> = None | Some(value: T) {
    function GetOr(default: T): T {
      match this
      case Some(v) => v
      case None => default
    }
  }

  type Id = string

  datatype Status = Running | PauseRequested | Paused | ResumeRequested | Completed | Failed

  predicate Terminal(s: Status) {
    s == Completed || s == Failed
  }

  datatype Mode = Active | Disabled | Degraded

  /** A row of `runs`; the columns no decision reads are dropped. */
  datatype Run = Run(
    status: Status,
    endTime: Option<int>,
    tokens: int,
    cost: Option<real>,
    mode: Mode,
    org: string)

  datatype EventKind =
    | RunStarted | LlmStarted | LlmCompleted | ToolStarted | ToolCompleted | RunCompleted | RunFailed

  datatype Event = Event(
    id: Id,
    run: Id,
    agent: string,
    kind: EventKind,
    tool: Option<string>,
    args: Option<string>,
    resp: Option<string>,
    tokens: Option<int>,
    cost: Option<real>,
    seqNo: int,
    framework: string,
    key: string,
    time: int)

  datatype FailureType = StuckLoop | BudgetExceeded
  datatype Severity = Critical | High | Medium | Low

  datatype Incident = Incident(
    id: Id,
    run: Id,
    failure: FailureType,
    version: string,
    severity: Severity,
    open: bool,
    trigger: Id,
    observed: real,
    threshold: real)

  datatype AuditAction =
    | PauseRequestedAudit | PausedAudit | ResumeRequestedAudit | ResumedAudit
    | PauseFailedAudit | ResumeFailedAudit
    | PlanApproved | PlanRejected | ActionExecuted
    | AiRequested | AiStarted | AiCompleted | AiFailed | AiFallback
    | RecoveryVerification | AutomationExecuted | AutomationRejected
    | NotificationDispatched

  datatype AuditResult = Success | Failure | Idempotent | RepeatedFailure | Verified

  datatype Audit = Audit(action: AuditAction, result: AuditResult, incident: Option<Id>)

  /** The row the alert dispatcher writes for a webhook it has sent an incident to. */
  function Notification(incident: Id, delivered: bool): Audit {
    Audit(NotificationDispatched, if delivered then Success else Failure, Some(incident))
  }

  datatype ActionKind = KeepPaused | Resume | Other(name: string)
  datatype ActionStatus = Pending | ActionExecuting | ActionCompleted | ActionFailed
  datatype Risk = LowRisk | MediumRisk | HighRisk | UnknownRisk
  datatype PlanAction = PlanAction(id: Id, kind: ActionKind, risk: Risk)
  datatype Planner = Deterministic | AiAssisted

  datatype PlanStatus =
    | Proposed | Approved | Executing | PlanCompleted | PlanFailed | Stale | Rejected

  datatype Verification = RecoveryUnverified | RecoveryVerified | RecoveryRepeated

  datatype Plan = Plan(
    id: Id,
    incident: Id,
    run: Id,
    actions: seq<PlanAction>,
    risk: Risk,
    planner: Planner,
    status: PlanStatus,
    snapStatus: Option<Status>,
    snapSeq: int,
    verification: Option<Verification>)

  /** One upsert into `recovery_actions`. */
  datatype ActionRow = ActionRow(
    id: Id,
    run: Id,
    incident: Id,
    kind: ActionKind,
    risk: Risk,
    status: ActionStatus)

  datatype PatternKey = PatternKey(org: string, fingerprint: string)
  datatype Pattern = Pattern(framework: string, occurrences: int)

  datatype OutcomeVerification = Unverified | VerifiedSuccess | VerifiedFailure

  datatype Outcome = Outcome(
    incident: Id,
    pattern: PatternKey,
    action: ActionKind,
    approved: bool,
    executed: bool,
    verification: OutcomeVerification)

  datatype Role = Viewer | Operator | Admin

  /** The database. Each table is grouped by the column every query on it filters by, in
      insertion order; `keys` is the unique index on the events' idempotency keys, which
      spans all runs, and `actions` keeps the upserts in the order they were made. */
  datatype Db = Db(
    runs: map<Id, Run>,
    events: map<Id, seq<Event>>,
    keys: set<string>,
    incidents: map<Id, seq<Incident>>,
    audits: map<Id, seq<Audit>>,
    plans: map<Id, seq<Plan>>,
    actions: seq<ActionRow>,
    patterns: map<PatternKey, Pattern>,
    outcomes: seq<Outcome>)

  const EMPTY_DB := Db(map[], map[], {}, map[], map[], map[], [], map[], [])

  function At<K, V>(m: map<K, seq<V>>, k: K): seq<V> {
    if k in m then m[k] else []
  }

  function Last<T>(s: seq<T>): T
    requires s != []
  {
    s[|s| - 1]
  }

  function Count<T>(s: seq<T>, p: T -> bool): nat {
    if s == [] then 0 else Count(s[..|s| - 1], p) + if p(Last(s)) then 1 else 0
  }

  lemma CountAppend<T>(s: seq<T>, x: T, p: T -> bool)
    ensures Count(s + [x], p) == Count(s, p) + if p(x) then 1 else 0
  {
    assert (s + [x])[..|s|] == s;
  }
}
