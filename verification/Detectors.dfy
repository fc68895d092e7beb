/** The two detectors: a window over stored rows for stuck loops, and a running sum for cost. */
module Detectors {
  import opened Records
  import opened Tables
  import Storage

  const VERSION := "1.0"

  datatype Config = Config(
    stuckEnabled: bool,
    threshold: int,
    ignored: set<string>,
    budgetEnabled: bool,
    maxCost: real,
    protectionEnabled: bool,
    autoPause: set<FailureType>,
    maxAuto: int,
    org: string)

  datatype Detection = Detection(
    failure: FailureType, severity: Severity, observed: real, threshold: real, trigger: Id)

  // ---- stuck loops ----

  datatype Signature = Signature(tool: Option<string>, args: Option<string>, resp: Option<string>)

  function SignatureOf(e: Event): Signature {
    Signature(e.tool, e.args, e.resp)
  }

  predicate Eligible(cfg: Config, e: Event) {
    && cfg.stuckEnabled
    && e.kind == ToolCompleted
    && e.tool.Some? && e.tool.value != "" && e.tool.value !in cfg.ignored
  }

  function ToolRows(s: seq<Event>): seq<Event> {
    if s == [] then []
    else ToolRows(s[..|s| - 1]) + if Last(s).kind == ToolCompleted then [Last(s)] else []
  }

  function NewestFirst(s: seq<Event>, n: nat): seq<Event> {
    if s == [] || n == 0 then [] else [Last(s)] + NewestFirst(s[..|s| - 1], n - 1)
  }

  /** The rows of `SELECT ... ORDER BY sequence_number DESC LIMIT n`. */
  function Window(s: seq<Event>, n: nat): seq<Event> {
    NewestFirst(OrderBySeq(ToolRows(s)), n)
  }

  /** How many rows at the front of a window carry the signature. */
  function Leading(rows: seq<Event>, sig: Signature): nat {
    if rows == [] || SignatureOf(rows[0]) != sig then 0 else 1 + Leading(rows[1..], sig)
  }

  /** A negative LIMIT is an error in the database, which the engine swallows: no match. */
  function StuckDetect(cfg: Config, s: seq<Event>, e: Event): Option<Detection> {
    if !Eligible(cfg, e) || cfg.threshold < 1 then None
    else
      var count := 1 + Leading(Window(s, cfg.threshold - 1), SignatureOf(e));
      if count >= cfg.threshold
      then Some(Detection(StuckLoop, Critical, count as real, cfg.threshold as real, e.id))
      else None
  }

  /** How often the signature was repeated without interruption at the end of the run's
      completed tool calls: the quantity the detector is meant to watch, with no window. */
  function Streak(s: seq<Event>, sig: Signature): nat {
    if s == [] then 0
    else if Last(s).kind != ToolCompleted then Streak(s[..|s| - 1], sig)
    else if SignatureOf(Last(s)) != sig then 0
    else 1 + Streak(s[..|s| - 1], sig)
  }

  lemma {:induction false} ToolRowsIncreasing(s: seq<Event>)
    requires Increasing(s)
    ensures Increasing(ToolRows(s))
    ensures forall x <- ToolRows(s) :: x in s
  {
    if s != [] {
      ToolRowsIncreasing(s[..|s| - 1]);
      forall x | x in ToolRows(s[..|s| - 1]) ensures x.seqNo < Last(s).seqNo {
        var i :| 0 <= i < |s| - 1 && s[i] == x;
      }
    }
  }

  lemma {:induction false} StreakOfToolRows(s: seq<Event>, sig: Signature)
    ensures Streak(ToolRows(s), sig) == Streak(s, sig)
  {
    if s != [] {
      var front := ToolRows(s[..|s| - 1]);
      StreakOfToolRows(s[..|s| - 1], sig);
      if Last(s).kind == ToolCompleted {
        assert (front + [Last(s)])[..|front|] == front;
      } else {
        assert ToolRows(s) == front;
      }
    }
  }

  lemma {:induction false} LeadingIsCappedStreak(s: seq<Event>, n: nat, sig: Signature)
    requires forall x <- s :: x.kind == ToolCompleted
    ensures Leading(NewestFirst(s, n), sig) == if Streak(s, sig) < n then Streak(s, sig) else n
  {
    if s != [] && n != 0 {
      LeadingIsCappedStreak(s[..|s| - 1], n - 1, sig);
      assert NewestFirst(s, n)[1..] == NewestFirst(s[..|s| - 1], n - 1);
    }
  }

  lemma ToolRowsKind(s: seq<Event>)
    ensures forall x <- ToolRows(s) :: x.kind == ToolCompleted
  {}

  /** The window counts the trailing streak, capped at its own length. */
  lemma WindowCountsStreak(s: seq<Event>, n: nat, sig: Signature)
    requires Increasing(s)
    ensures Leading(Window(s, n), sig) == if Streak(s, sig) < n then Streak(s, sig) else n
  {
    ToolRowsIncreasing(s);
    ToolRowsKind(s);
    OrderOfIncreasing(ToolRows(s));
    LeadingIsCappedStreak(ToolRows(s), n, sig);
    StreakOfToolRows(s, sig);
  }

  lemma LeadingFitsWindow(rows: seq<Event>, sig: Signature)
    ensures Leading(rows, sig) <= |rows|
  {}

  lemma {:induction false} WindowSize(s: seq<Event>, n: nat)
    ensures |NewestFirst(s, n)| <= n
  {
    if s != [] && n != 0 { WindowSize(s[..|s| - 1], n - 1); }
  }

  /** Whatever the order of the rows, a match reports the configured number. */
  lemma MatchReportsThreshold(cfg: Config, s: seq<Event>, e: Event)
    requires StuckDetect(cfg, s, e).Some?
    ensures StuckDetect(cfg, s, e).value ==
            Detection(StuckLoop, Critical, cfg.threshold as real, cfg.threshold as real, e.id)
  {
    WindowSize(OrderBySeq(ToolRows(s)), cfg.threshold - 1);
    LeadingFitsWindow(Window(s, cfg.threshold - 1), SignatureOf(e));
  }

  /** The detector matches exactly on a streak of threshold - 1 stored calls, one less than the
      configured repetition. */
  lemma StuckLoopRefinement(cfg: Config, s: seq<Event>, e: Event)
    requires Increasing(s)
    requires cfg.threshold >= 1
    ensures StuckDetect(cfg, s, e).Some? <==>
            Eligible(cfg, e) && Streak(s, SignatureOf(e)) >= cfg.threshold - 1
  {
    WindowCountsStreak(s, cfg.threshold - 1, SignatureOf(e));
  }

  /** How many completed tool calls a history holds. */
  function Calls(s: seq<Event>): nat {
    if s == [] then 0 else Calls(s[..|s| - 1]) + if Last(s).kind == ToolCompleted then 1 else 0
  }

  /** The last n completed tool calls of the history exist, and each has the event's tool, arguments
      and response. */
  ghost predicate EndsInRepeats(s: seq<Event>, n: nat, e: Event) {
    exists b ::
      && 0 <= b <= |s| && Calls(s[b..]) == n
      && forall j | b <= j < |s| && s[j].kind == ToolCompleted ::
           s[j].tool == e.tool && s[j].args == e.args && s[j].resp == e.resp
  }

  lemma {:induction false} StreakEndsInRepeats(s: seq<Event>, n: nat, e: Event)
    requires Streak(s, SignatureOf(e)) >= n
    ensures EndsInRepeats(s, n, e)
  {
    if n == 0 {
      assert Calls(s[|s|..]) == 0;
    } else {
      var front := s[..|s| - 1];
      var m := if Last(s).kind == ToolCompleted then n - 1 else n;
      StreakEndsInRepeats(front, m, e);
      var b :| 0 <= b <= |front| && Calls(front[b..]) == m
        && forall j | b <= j < |front| && front[j].kind == ToolCompleted ::
             front[j].tool == e.tool && front[j].args == e.args && front[j].resp == e.resp;
      OneMoreCall(s, b);
      hide Calls, Streak;
      assert forall j :: b <= j < |front| ==> s[j] == front[j];
    }
  }

  lemma OneMoreCall(s: seq<Event>, b: nat)
    requires b < |s|
    ensures Calls(s[b..]) == Calls(s[..|s| - 1][b..]) + if Last(s).kind == ToolCompleted then 1 else 0
  {
    assert s[b..][..|s| - b - 1] == s[..|s| - 1][b..];
  }

  lemma {:induction false} RepeatsMakeStreak(s: seq<Event>, b: nat, e: Event)
    requires b <= |s|
    requires forall j | b <= j < |s| && s[j].kind == ToolCompleted ::
               s[j].tool == e.tool && s[j].args == e.args && s[j].resp == e.resp
    ensures Streak(s, SignatureOf(e)) >= Calls(s[b..])
  {
    if b < |s| {
      var front := s[..|s| - 1];
      assert forall j :: b <= j < |front| ==> s[j] == front[j];
      assert Last(s) == s[|s| - 1];
      OneMoreCall(s, b);
      RepeatsMakeStreak(front, b, e);
    }
  }

  /** When exactly the detector matches, in the terms of the stored history: it is switched on, the
      event completes a call of a named tool that is not ignored, and the last threshold - 1
      completed tool calls exist and agree with it in tool, arguments and response. */
  lemma StuckLoopExactly(cfg: Config, s: seq<Event>, e: Event)
    requires Increasing(s) && cfg.threshold >= 1
    ensures StuckDetect(cfg, s, e).Some? <==>
      && cfg.stuckEnabled
      && e.kind == ToolCompleted && e.tool.Some? && e.tool.value != "" && e.tool.value !in cfg.ignored
      && EndsInRepeats(s, cfg.threshold - 1, e)
  {
    StuckLoopRefinement(cfg, s, e);
    if Streak(s, SignatureOf(e)) >= cfg.threshold - 1 { StreakEndsInRepeats(s, cfg.threshold - 1, e); }
    if EndsInRepeats(s, cfg.threshold - 1, e) {
      var b :| 0 <= b <= |s| && Calls(s[b..]) == cfg.threshold - 1
        && forall j | b <= j < |s| && s[j].kind == ToolCompleted ::
             s[j].tool == e.tool && s[j].args == e.args && s[j].resp == e.resp;
      RepeatsMakeStreak(s, b, e);
    }
  }

  /** The reported repetition count is the true number of repeated calls exactly when the
      streak is the threshold: at the first match of a fresh loop it is one too many. */
  lemma ReportedRepetitions(cfg: Config, s: seq<Event>, e: Event)
    requires Increasing(s)
    requires StuckDetect(cfg, s, e).Some?
    ensures StuckDetect(cfg, s, e).value.observed == Streak(s, SignatureOf(e)) as real <==>
            Streak(s, SignatureOf(e)) == cfg.threshold
  {
    StuckLoopRefinement(cfg, s, e);
    MatchReportsThreshold(cfg, s, e);
  }

  function ToolCall(n: int): Event {
    Event("e", "r", "a", ToolCompleted, Some("search"), Some("x"), Some("y"), None, None, n,
          "langgraph", "k", 0)
  }

  /** Two stored calls are reported as three repetitions under a threshold of three. */
  lemma OverReportedLoop(cfg: Config)
    requires cfg.stuckEnabled && cfg.threshold == 3 && "search" !in cfg.ignored
    ensures var s := [ToolCall(1), ToolCall(2)];
            && Streak(s, SignatureOf(ToolCall(2))) == 2
            && StuckDetect(cfg, s, ToolCall(2)).Some?
            && StuckDetect(cfg, s, ToolCall(2)).value.observed == 3.0
  {
    var s := [ToolCall(1), ToolCall(2)];
    assert s[..1] == [ToolCall(1)];
    StuckLoopRefinement(cfg, s, ToolCall(2));
    MatchReportsThreshold(cfg, s, ToolCall(2));
  }

  method EvaluateStuckLoop(db: Storage.Database, cfg: Config, e: Event) returns (d: Option<Detection>)
    ensures d == StuckDetect(cfg, At(db.View().events, e.run), e)
  {
    if !cfg.stuckEnabled || e.kind != ToolCompleted {
      return None;
    }
    if e.tool.None? || e.tool.value == "" || e.tool.value in cfg.ignored {
      return None;
    }
    if cfg.threshold < 1 {
      return None;
    }
    var rows := Window(At(db.events, e.run), cfg.threshold - 1);
    var count := 1;
    var i := 0;
    while i < |rows|
      invariant 0 <= i <= |rows|
      invariant count == 1 + i
      invariant Leading(rows, SignatureOf(e)) == i + Leading(rows[i..], SignatureOf(e))
    {
      if SignatureOf(rows[i]) != SignatureOf(e) {
        break;
      }
      assert rows[i..][1..] == rows[i + 1..];
      count, i := count + 1, i + 1;
    }
    if count >= cfg.threshold {
      d := Some(Detection(StuckLoop, Critical, count as real, cfg.threshold as real, e.id));
    } else {
      d := None;
    }
  }

  // ---- budgets ----

  predicate Costed(e: Event) {
    e.cost.Some? && e.cost.value >= 0.0
  }

  function Spent(cumulative: map<Id, real>, r: Id): real {
    if r in cumulative then cumulative[r] else 0.0
  }

  function Accumulate(cfg: Config, cumulative: map<Id, real>, e: Event): map<Id, real> {
    if cfg.budgetEnabled && Costed(e)
    then cumulative[e.run := Spent(cumulative, e.run) + e.cost.value]
    else cumulative
  }

  function BudgetDetect(cfg: Config, cumulative: map<Id, real>, e: Event): Option<Detection> {
    var spent := Spent(Accumulate(cfg, cumulative, e), e.run);
    if cfg.budgetEnabled && Costed(e) && spent >= cfg.maxCost
    then Some(Detection(BudgetExceeded, High, spent, cfg.maxCost, e.id))
    else None
  }

  class BudgetDetector {
    var cumulative: map<Id, real>

    constructor ()
      ensures cumulative == map[]
    {
      cumulative := map[];
    }

    method Evaluate(cfg: Config, e: Event) returns (d: Option<Detection>)
      modifies this
      ensures cumulative == Accumulate(cfg, old(cumulative), e)
      ensures d == BudgetDetect(cfg, old(cumulative), e)
    {
      if !cfg.budgetEnabled || e.cost.None? || e.cost.value < 0.0 {
        return None;
      }
      var current := Spent(cumulative, e.run) + e.cost.value;
      cumulative := cumulative[e.run := current];
      if current >= cfg.maxCost {
        d := Some(Detection(BudgetExceeded, High, current, cfg.maxCost, e.id));
      } else {
        d := None;
      }
    }
  }
}
