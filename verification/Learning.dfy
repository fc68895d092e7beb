/** Trust counting over past recovery outcomes and the ranking of recovery actions by it. */
module Learning {
  import opened Records

  function OfAction(a: ActionKind): Outcome -> bool {
    (o: Outcome) => o.action == a
  }

  function Succeeded(a: ActionKind): Outcome -> bool {
    (o: Outcome) => o.action == a && o.verification == VerifiedSuccess
  }

  function FailedAgain(a: ActionKind): Outcome -> bool {
    (o: Outcome) => o.action == a && o.verification == VerifiedFailure
  }

  datatype Stats = Stats(attempted: nat, success: nat, failure: nat, rate: real, trust: real, risk: Risk) {
    function VerifiedAttempts(): nat { success + failure }
  }

  function Rate(success: nat, failure: nat): real {
    if success + failure > 0 then success as real / (success + failure) as real else 0.0
  }

  function RiskOf(verified: nat, rate: real): Risk {
    if verified < 3 then UnknownRisk
    else if rate >= 0.8 then LowRisk
    else if rate >= 0.5 then MediumRisk
    else HighRisk
  }

  /** Filter and count: what the evidence for one action amounts to. */
  function StatsOf(s: seq<Outcome>, a: ActionKind): Stats {
    var success, failure := Count(s, Succeeded(a)), Count(s, FailedAgain(a));
    var rate := Rate(success, failure);
    Stats(Count(s, OfAction(a)), success, failure, rate,
          if success + failure < 3 then 0.0 else rate, RiskOf(success + failure, rate))
  }

  /** The actions in the order a dictionary filled from the outcomes would list them. */
  function FirstSeen(s: seq<Outcome>): seq<ActionKind> {
    if s == [] then []
    else
      var front := FirstSeen(s[..|s| - 1]);
      if Last(s).action in front then front else front + [Last(s).action]
  }

  ghost predicate Tallied(st: Stats, s: seq<Outcome>, a: ActionKind) {
    && st.attempted == Count(s, OfAction(a))
    && st.success == Count(s, Succeeded(a))
    && st.failure == Count(s, FailedAgain(a))
  }

  function Bump(st: Stats, o: Outcome): Stats {
    st.(attempted := st.attempted + 1,
        success := st.success + (if o.verification == VerifiedSuccess then 1 else 0),
        failure := st.failure + (if o.verification == VerifiedFailure then 1 else 0))
  }

  lemma TallyStep(s: seq<Outcome>, i: nat, st: Stats, a: ActionKind)
    requires i < |s|
    requires Tallied(st, s[..i], a)
    ensures Tallied(if s[i].action == a then Bump(st, s[i]) else st, s[..i + 1], a)
  {
    CountStep(s, i, OfAction(a));
    CountStep(s, i, Succeeded(a));
    CountStep(s, i, FailedAgain(a));
  }

  const NO_STATS := Stats(0, 0, 0, 0.0, 0.0, UnknownRisk)

  method TallyOutcomes(outcomes: seq<Outcome>) returns (order: seq<ActionKind>, stats: map<ActionKind, Stats>)
    ensures order == FirstSeen(outcomes)
    ensures stats.Keys == set a | a in order
    ensures forall a <- stats :: Tallied(stats[a], outcomes, a)
  {
    order, stats := [], map[];
    var i := 0;
    while i < |outcomes|
      invariant 0 <= i <= |outcomes|
      invariant order == FirstSeen(outcomes[..i])
      invariant stats.Keys == set a | a in order
      invariant forall a <- stats :: Tallied(stats[a], outcomes[..i], a)
    {
      var a := outcomes[i].action;
      assert outcomes[..i + 1][..i] == outcomes[..i];
      ghost var before := stats;
      FirstSeenDistinct(outcomes[..i]);
      VerifiedAreAttempts(outcomes[..i], a);
      if a !in stats {
        order, stats := order + [a], stats[a := NO_STATS];
      }
      assert Tallied(stats[a], outcomes[..i], a);
      TallyStep(outcomes, i, stats[a], a);
      stats := stats[a := Bump(stats[a], outcomes[i])];
      forall b | b in stats ensures Tallied(stats[b], outcomes[..i + 1], b) {
        if b != a { TallyStep(outcomes, i, before[b], b); }
      }
      i := i + 1;
    }
    assert outcomes[..i] == outcomes;
  }

  function Score(st: Stats): Stats {
    var verified := st.VerifiedAttempts();
    var rate := Rate(st.success, st.failure);
    st.(rate := rate, trust := if verified < 3 then 0.0 else rate, risk := RiskOf(verified, rate))
  }

  lemma ScoreOfTally(st: Stats, s: seq<Outcome>, a: ActionKind)
    requires Tallied(st, s, a)
    ensures Score(st) == StatsOf(s, a)
  {}

  method CalculateTrust(outcomes: seq<Outcome>) returns (order: seq<ActionKind>, stats: map<ActionKind, Stats>)
    ensures order == FirstSeen(outcomes)
    ensures stats.Keys == set a | a in order
    ensures forall a <- stats :: stats[a] == StatsOf(outcomes, a)
  {
    order, stats := TallyOutcomes(outcomes);
    FirstSeenDistinct(outcomes);
    hide FirstSeen, Tallied, Score, StatsOf, Count;
    var i := 0;
    while i < |order|
      invariant 0 <= i <= |order|
      invariant stats.Keys == set a | a in order
      invariant forall k :: 0 <= k < i ==> stats[order[k]] == StatsOf(outcomes, order[k])
      invariant forall k :: i <= k < |order| ==> Tallied(stats[order[k]], outcomes, order[k])
    {
      ScoreOfTally(stats[order[i]], outcomes, order[i]);
      stats := stats[order[i] := Score(stats[order[i]])];
      i := i + 1;
    }
  }

  lemma CountStep(s: seq<Outcome>, i: nat, p: Outcome -> bool)
    requires i < |s|
    ensures Count(s[..i + 1], p) == Count(s[..i], p) + if p(s[i]) then 1 else 0
  {
    assert s[..i + 1] == s[..i] + [s[i]];
    CountAppend(s[..i], s[i], p);
  }

  lemma {:induction false} VerifiedAreAttempts(s: seq<Outcome>, a: ActionKind)
    ensures Count(s, Succeeded(a)) + Count(s, FailedAgain(a)) <= Count(s, OfAction(a))
  {
    if s != [] { VerifiedAreAttempts(s[..|s| - 1], a); }
  }

  lemma {:induction false} FirstSeenDistinct(s: seq<Outcome>)
    ensures forall i, j :: 0 <= i < j < |FirstSeen(s)| ==> FirstSeen(s)[i] != FirstSeen(s)[j]
    ensures forall a :: a in FirstSeen(s) <==> Count(s, OfAction(a)) > 0
  {
    if s != [] {
      FirstSeenDistinct(s[..|s| - 1]);
    }
  }

  // ---- trust ----

  lemma {:induction false} CountWithout(s: seq<Outcome>, i: nat, p: Outcome -> bool)
    requires i < |s|
    ensures Count(s, p) == Count(s[..i] + s[i + 1..], p) + if p(s[i]) then 1 else 0
  {
    var rest := s[..i] + s[i + 1..];
    if i == |s| - 1 {
      assert rest == s[..|s| - 1];
    } else {
      CountWithout(s[..|s| - 1], i, p);
      assert rest[..|rest| - 1] == s[..|s| - 1][..i] + s[..|s| - 1][i + 1..];
      assert s[..|s| - 1][i] == s[i];
    }
  }

  lemma Without<T>(s: seq<T>, i: nat)
    requires i < |s|
    ensures multiset(s[..i] + s[i + 1..]) == multiset(s) - multiset{s[i]}
  {
    assert s == s[..i] + [s[i]] + s[i + 1..];
  }

  lemma {:induction false} CountPermuted(s: seq<Outcome>, t: seq<Outcome>, p: Outcome -> bool)
    requires multiset(s) == multiset(t)
    ensures Count(s, p) == Count(t, p)
  {
    if s == [] {
      assert |t| == |multiset(t)| == 0;
    } else {
      var x := Last(s);
      assert s == s[..|s| - 1] + [x];
      assert x in multiset(t);
      var i :| 0 <= i < |t| && t[i] == x;
      Without(s, |s| - 1);
      Without(t, i);
      assert s[..|s| - 1] + s[|s|..] == s[..|s| - 1];
      CountPermuted(s[..|s| - 1], t[..i] + t[i + 1..], p);
      CountWithout(t, i, p);
    }
  }

  /** The order in which outcomes are read does not matter. */
  lemma TrustIsOrderFree(s: seq<Outcome>, t: seq<Outcome>, a: ActionKind)
    requires multiset(s) == multiset(t)
    ensures StatsOf(s, a) == StatsOf(t, a)
  {
    CountPermuted(s, t, OfAction(a));
    CountPermuted(s, t, Succeeded(a));
    CountPermuted(s, t, FailedAgain(a));
  }

  function Attempts(order: seq<ActionKind>, s: seq<Outcome>): nat {
    if order == [] then 0
    else Attempts(order[..|order| - 1], s) + StatsOf(s, Last(order)).attempted
  }

  lemma {:induction false} AttemptsStep(order: seq<ActionKind>, s: seq<Outcome>, o: Outcome)
    requires forall i, j :: 0 <= i < j < |order| ==> order[i] != order[j]
    ensures Attempts(order, s + [o]) == Attempts(order, s) + if o.action in order then 1 else 0
  {
    if order != [] {
      AttemptsStep(order[..|order| - 1], s, o);
      CountAppend(s, o, OfAction(Last(order)));
    }
  }

  lemma AttemptsMore(order: seq<ActionKind>, a: ActionKind, s: seq<Outcome>)
    ensures Attempts(order + [a], s) == Attempts(order, s) + StatsOf(s, a).attempted
  {
    assert (order + [a])[..|order|] == order;
  }

  /** Every outcome is an attempt of exactly one action. */
  lemma {:induction false} AttemptsSumToOccurrences(s: seq<Outcome>)
    ensures Attempts(FirstSeen(s), s) == |s|
  {
    if s != [] {
      var front, o := s[..|s| - 1], Last(s);
      var order := FirstSeen(front);
      AttemptsSumToOccurrences(front);
      FirstSeenDistinct(front);
      AttemptsStep(order, front, o);
      assert front + [o] == s;
      if o.action !in order {
        assert FirstSeen(s) == order + [o.action];
        hide FirstSeen, Count;
        CountAppend(front, o, OfAction(o.action));
        AttemptsMore(order, o.action, s);
      }
    }
  }

  lemma QuotientsOrdered(a: real, b: real, c: real, d: real)
    requires b > 0.0 && d > 0.0
    ensures a * d <= c * b <==> a / b <= c / d
  {
    var x, y := a / b, c / d;
    assert x * b == a && y * d == c;
    assert a * d == x * (b * d) && c * b == y * (b * d);
    assert b * d > 0.0;
  }

  lemma RateMonotone(success: nat, failure: nat)
    ensures Rate(success, failure + 1) <= Rate(success, failure) <= Rate(success + 1, failure)
  {
    if success + failure > 0 {
      var s, n := success as real, (success + failure) as real;
      assert 0.0 <= s <= n;
      QuotientsOrdered(s, n + 1.0, s, n);
      QuotientsOrdered(s, n, s + 1.0, n + 1.0);
      assert s * (n + 1.0) <= (s + 1.0) * n;
    }
  }

  /** A verified failure never makes an action look better, a verified success never worse, and
      an unverified outcome changes neither. */
  lemma OutcomeMovesRate(s: seq<Outcome>, o: Outcome)
    ensures var before, after := StatsOf(s, o.action).rate, StatsOf(s + [o], o.action).rate;
            && (o.verification == VerifiedFailure ==> after <= before)
            && (o.verification == VerifiedSuccess ==> before <= after)
            && (o.verification == Unverified ==> after == before)
  {
    CountAppend(s, o, Succeeded(o.action));
    CountAppend(s, o, FailedAgain(o.action));
    RateMonotone(Count(s, Succeeded(o.action)), Count(s, FailedAgain(o.action)));
  }

  // ---- ranking ----

  datatype Level = HighTrust | MediumTrust | LowTrust | InsufficientEvidence

  datatype Recommendation = Recommendation(action: ActionKind, rate: real, verified: nat, risk: Risk, level: Level)

  function Supported(framework: string): seq<ActionKind> {
    if framework == "cortex" then [KeepPaused, Resume, Other("REVERT_STATE"), Other("MODIFY_STATE")]
    else if framework == "langgraph" || framework == "autogen" then [KeepPaused, Resume]
    else []
  }

  function LevelOf(verified: nat, trust: real): Level {
    if verified < 3 then InsufficientEvidence
    else if trust >= 0.8 then HighTrust
    else if trust >= 0.5 then MediumTrust
    else LowTrust
  }

  function Recommend(s: seq<Outcome>, a: ActionKind): Recommendation {
    var st := StatsOf(s, a);
    Recommendation(a, st.rate, st.VerifiedAttempts(), st.risk, LevelOf(st.VerifiedAttempts(), st.trust))
  }

  function Recommendations(s: seq<Outcome>, order: seq<ActionKind>, framework: string): seq<Recommendation> {
    if order == [] then []
    else
      Recommendations(s, order[..|order| - 1], framework) +
      if Last(order) in Supported(framework) then [Recommend(s, Last(order))] else []
  }

  predicate AtLeast(x: Recommendation, y: Recommendation) {
    x.rate > y.rate || (x.rate == y.rate && x.verified >= y.verified)
  }

  function InsertRanked(s: seq<Recommendation>, x: Recommendation): seq<Recommendation> {
    if s == [] || AtLeast(Last(s), x) then s + [x] else InsertRanked(s[..|s| - 1], x) + [Last(s)]
  }

  /** The stable descending sort of the recommendations. */
  function Ranked(s: seq<Recommendation>): seq<Recommendation> {
    if s == [] then [] else InsertRanked(Ranked(s[..|s| - 1]), Last(s))
  }

  ghost predicate Descending(s: seq<Recommendation>) {
    forall i, j :: 0 <= i < j < |s| ==> AtLeast(s[i], s[j])
  }

  lemma {:induction false} InsertRankedSorts(s: seq<Recommendation>, x: Recommendation)
    requires Descending(s)
    ensures Descending(InsertRanked(s, x))
    ensures multiset(InsertRanked(s, x)) == multiset(s) + multiset{x}
  {
    if s != [] && !AtLeast(Last(s), x) {
      var front := s[..|s| - 1];
      assert s == front + [Last(s)];
      InsertRankedSorts(front, x);
      var r := InsertRanked(front, x);
      forall i | 0 <= i < |r| ensures AtLeast(r[i], Last(s)) {
        assert r[i] in multiset(r);
        assert r[i] in multiset(front) || r[i] == x;
        if r[i] != x {
          assert r[i] in front;
        }
      }
    }
  }

  /** Ranking is a descending permutation. */
  lemma {:induction false} RankedSorts(s: seq<Recommendation>)
    ensures Descending(Ranked(s))
    ensures multiset(Ranked(s)) == multiset(s)
  {
    if s != [] {
      RankedSorts(s[..|s| - 1]);
      InsertRankedSorts(Ranked(s[..|s| - 1]), Last(s));
      assert s == s[..|s| - 1] + [Last(s)];
    }
  }

  function RankActions(s: seq<Outcome>, framework: string): seq<Recommendation> {
    Ranked(Recommendations(s, FirstSeen(s), framework))
  }

  method RankingOf(outcomes: seq<Outcome>, framework: string) returns (recs: seq<Recommendation>)
    ensures recs == RankActions(outcomes, framework)
  {
    var order, stats := CalculateTrust(outcomes);
    recs := [];
    var i := 0;
    while i < |order|
      invariant 0 <= i <= |order|
      invariant recs == Recommendations(outcomes, order[..i], framework)
    {
      assert order[..i + 1][..i] == order[..i];
      if order[i] in Supported(framework) {
        var st := stats[order[i]];
        var verified := st.VerifiedAttempts();
        var level := if verified < 3 then InsufficientEvidence
                     else if st.trust >= 0.8 then HighTrust
                     else if st.trust >= 0.5 then MediumTrust
                     else LowTrust;
        recs := recs + [Recommendation(order[i], st.rate, verified, st.risk, level)];
      }
      i := i + 1;
    }
    assert order[..i] == order;
    recs := Ranked(recs);
  }

  /** The action history puts in place of the default: the top recommendation, if fully trusted. */
  function HistoryOverride(s: seq<Outcome>, framework: string): Option<Recommendation> {
    var recs := RankActions(s, framework);
    if recs != [] && recs[0].level == HighTrust then Some(recs[0]) else None
  }

  ghost predicate Candidate(s: seq<Outcome>, framework: string, a: ActionKind) {
    a in Supported(framework) && Count(s, OfAction(a)) > 0
  }

  /** Enough evidence, at least four successes in five, and no better-ranked supported rival. */
  ghost predicate Trusted(s: seq<Outcome>, framework: string, a: ActionKind) {
    var success, failure := Count(s, Succeeded(a)), Count(s, FailedAgain(a));
    && Candidate(s, framework, a)
    && success + failure >= 3
    && 5 * success >= 4 * (success + failure)
    && forall b | Candidate(s, framework, b) :: AtLeast(Recommend(s, a), Recommend(s, b))
  }

  lemma {:induction false} RecommendationsAre(s: seq<Outcome>, order: seq<ActionKind>, framework: string)
    ensures forall x :: x in Recommendations(s, order, framework) <==>
            x.action in order && x.action in Supported(framework) && x == Recommend(s, x.action)
  {
    if order != [] {
      RecommendationsAre(s, order[..|order| - 1], framework);
    }
  }

  lemma RankedMembers(s: seq<Outcome>, framework: string)
    ensures var recs := RankActions(s, framework);
            && Descending(recs)
            && (forall x :: x in recs <==> Candidate(s, framework, x.action) && x == Recommend(s, x.action))
  {
    var listed := Recommendations(s, FirstSeen(s), framework);
    FirstSeenDistinct(s);
    RecommendationsAre(s, FirstSeen(s), framework);
    RankedSorts(listed);
    forall x ensures x in RankActions(s, framework) <==> x in listed {
      assert x in multiset(listed) <==> x in multiset(Ranked(listed));
    }
  }

  lemma FourInFive(success: nat, failure: nat)
    requires success + failure >= 3
    ensures Rate(success, failure) >= 0.8 <==> 5 * success >= 4 * (success + failure)
  {
    QuotientsOrdered(4.0, 5.0, success as real, (success + failure) as real);
  }

  /** History overrides the default exactly when some action is trusted, and with such an action. */
  lemma OverrideIsTrusted(s: seq<Outcome>, framework: string)
    ensures HistoryOverride(s, framework).Some? <==> exists a :: Trusted(s, framework, a)
    ensures HistoryOverride(s, framework).Some? ==>
            var best := HistoryOverride(s, framework).value;
            Trusted(s, framework, best.action) && best == Recommend(s, best.action) && best.risk == LowRisk
  {
    RankedMembers(s, framework);
    var recs := RankActions(s, framework);
    if recs != [] && recs[0].level == HighTrust {
      var a := recs[0].action;
      assert recs[0] in recs;
      FourInFive(Count(s, Succeeded(a)), Count(s, FailedAgain(a)));
      forall b | Candidate(s, framework, b) ensures AtLeast(Recommend(s, a), Recommend(s, b)) {
        assert Recommend(s, b) in recs;
      }
      assert Trusted(s, framework, a);
    }
    forall a | Trusted(s, framework, a) ensures recs != [] && recs[0].level == HighTrust {
      var x := Recommend(s, a);
      assert x in recs;
      FourInFive(Count(s, Succeeded(a)), Count(s, FailedAgain(a)));
      assert recs[0] in recs;
      assert AtLeast(x, recs[0]) && AtLeast(recs[0], x);
    }
  }

  // ---- the same in whole numbers ----

  lemma RatesCompare(a: nat, n: nat, b: nat, m: nat)
    requires n > 0 && m > 0
    ensures a as real / n as real <= b as real / m as real <==> a * m <= b * n
  {
    QuotientsOrdered(a as real, n as real, b as real, m as real);
    assert (a * m) as real == a as real * m as real;
    assert (b * n) as real == b as real * n as real;
  }

  lemma RateExactly(success: nat, failure: nat)
    ensures Rate(success, failure) * (success + failure) as real == success as real
    ensures success == 0 ==> Rate(success, failure) == 0.0
  {
    if success + failure > 0 {
      var n := (success + failure) as real;
      assert success as real / n * n == success as real;
      if success == 0 { assert 0.0 / n == 0.0; }
    }
  }

  lemma GradeExactly(success: nat, failure: nat)
    ensures var n, rate := success + failure, Rate(success, failure);
      (RiskOf(n, rate), LevelOf(n, if n < 3 then 0.0 else rate)) ==
        if n < 3 then (UnknownRisk, InsufficientEvidence)
        else if 5 * success >= 4 * n then (LowRisk, HighTrust)
        else if 2 * success >= n then (MediumRisk, MediumTrust)
        else (HighRisk, LowTrust)
  {
    if success + failure >= 3 {
      FourInFive(success, failure);
      HalfOrMore(success, failure);
    }
    hide Rate;
  }

  /** What the evidence for an action amounts to. */
  lemma StandingExactly(s: seq<Outcome>, a: ActionKind)
    ensures var st, level := StatsOf(s, a), Recommend(s, a).level;
      var success, verified := Count(s, Succeeded(a)), Count(s, Succeeded(a)) + Count(s, FailedAgain(a));
      && st.success == success && st.VerifiedAttempts() == verified
      && st.rate * verified as real == success as real && (success == 0 ==> st.rate == 0.0)
      && st.trust == (if verified < 3 then 0.0 else st.rate)
      && (st.risk, level) ==
           if verified < 3 then (UnknownRisk, InsufficientEvidence)
           else if 5 * success >= 4 * verified then (LowRisk, HighTrust)
           else if 2 * success >= verified then (MediumRisk, MediumTrust)
           else (HighRisk, LowTrust)
  {
    var success, failure := Count(s, Succeeded(a)), Count(s, FailedAgain(a));
    RateExactly(success, failure);
    GradeExactly(success, failure);
    hide Rate, RiskOf, LevelOf, Count;
  }

  lemma HalfOrMore(success: nat, failure: nat)
    requires success + failure >= 3
    ensures Rate(success, failure) >= 0.5 <==> 2 * success >= success + failure
  {
    RatesCompare(1, 2, success, success + failure);
  }

  /** The actions each framework can carry out. */
  predicate Carries(framework: string, a: ActionKind) {
    || ((framework == "langgraph" || framework == "autogen") && (a == KeepPaused || a == Resume))
    || (framework == "cortex"
        && (a == KeepPaused || a == Resume || a == Other("REVERT_STATE") || a == Other("MODIFY_STATE")))
  }

  /** Action a has the better success rate, or the same and no fewer verified outcomes. */
  ghost predicate Outdoes(s: seq<Outcome>, a: ActionKind, b: ActionKind) {
    var p, q := Count(s, Succeeded(a)), Count(s, Succeeded(b));
    var v, w := p + Count(s, FailedAgain(a)), q + Count(s, FailedAgain(b));
    p * w > q * v || (p * w == q * v && v >= w)
  }

  lemma RivalExactly(s: seq<Outcome>, a: ActionKind, b: ActionKind)
    requires Count(s, Succeeded(a)) > 0
    ensures AtLeast(Recommend(s, a), Recommend(s, b)) <==> Outdoes(s, a, b)
  {
    var p, q := Count(s, Succeeded(a)), Count(s, Succeeded(b));
    var v, w := p + Count(s, FailedAgain(a)), q + Count(s, FailedAgain(b));
    hide Count, RiskOf, LevelOf;
    if w > 0 {
      RatesCompare(p, v, q, w);
      RatesCompare(q, w, p, v);
    } else {
      assert p * w == 0 && q * v == 0;
      assert p as real / v as real > 0.0;
    }
  }

  /** An action is trusted when its framework carries it, at least three of its outcomes are verified
      and four in five of these are successes, and no other carried action outdoes it. */
  lemma TrustedExactly(s: seq<Outcome>, framework: string, a: ActionKind)
    ensures var success, verified := Count(s, Succeeded(a)), Count(s, Succeeded(a)) + Count(s, FailedAgain(a));
      Trusted(s, framework, a) <==>
        && Carries(framework, a) && verified >= 3 && 5 * success >= 4 * verified
        && forall b | Carries(framework, b) && Count(s, OfAction(b)) > 0 :: Outdoes(s, a, b)
  {
    VerifiedAreAttempts(s, a);
    forall b ensures b in Supported(framework) <==> Carries(framework, b) {}
    hide Supported, Carries, Recommend, AtLeast, Outdoes, Count;
    if Count(s, Succeeded(a)) > 0 {
      forall b ensures AtLeast(Recommend(s, a), Recommend(s, b)) <==> Outdoes(s, a, b) { RivalExactly(s, a, b); }
    }
  }

  // ---- ties ----

  /** The first of the best entries. */
  function Top(l: seq<Recommendation>): Recommendation
    requires l != []
  {
    if |l| == 1 then l[0]
    else
      var best := Top(l[..|l| - 1]);
      if AtLeast(best, Last(l)) then best else Last(l)
  }

  lemma {:induction false} HeadOfInsert(s: seq<Recommendation>, x: Recommendation)
    requires s != [] && Descending(s)
    ensures InsertRanked(s, x)[0] == if AtLeast(s[0], x) then s[0] else x
  {
    if !AtLeast(Last(s), x) && |s| > 1 {
      HeadOfInsert(s[..|s| - 1], x);
    }
  }

  lemma {:induction false} HeadIsTop(l: seq<Recommendation>)
    requires l != []
    ensures Ranked(l) != [] && Ranked(l)[0] == Top(l)
  {
    var front := l[..|l| - 1];
    if front == [] {
      assert l == [l[0]] && Ranked(front) == [];
    } else {
      HeadIsTop(front);
      RankedSorts(front);
      HeadOfInsert(Ranked(front), Last(l));
    }
  }

  lemma {:induction false} TopIsFirst(l: seq<Recommendation>) returns (i: nat)
    requires l != []
    ensures i < |l| && l[i] == Top(l)
    ensures forall j | 0 <= j < |l| :: AtLeast(l[i], l[j]) && (j < i ==> !AtLeast(l[j], l[i]))
  {
    if |l| == 1 {
      i := 0;
    } else {
      i := TopIsFirst(l[..|l| - 1]);
      if !AtLeast(l[i], Last(l)) { i := |l| - 1; }
    }
  }

  /** Where an action first occurs. */
  function FirstOf(s: seq<Outcome>, a: ActionKind): nat {
    if s == [] || s[0].action == a then 0 else 1 + FirstOf(s[1..], a)
  }

  lemma {:induction false} FirstOfAppend(s: seq<Outcome>, o: Outcome, a: ActionKind)
    ensures FirstOf(s, a) <= |s|
    ensures FirstOf(s, a) < |s| <==> Count(s, OfAction(a)) > 0
    ensures FirstOf(s + [o], a) ==
            if FirstOf(s, a) < |s| then FirstOf(s, a) else if o.action == a then |s| else |s| + 1
  {
    if s == [] {
      assert [o][1..] == [];
    } else {
      assert (s + [o])[1..] == s[1..] + [o];
      FirstOfAppend(s[1..], o, a);
      CountFront(s, OfAction(a));
    }
  }

  lemma {:induction false} CountFront(s: seq<Outcome>, p: Outcome -> bool)
    requires s != []
    ensures Count(s, p) == (if p(s[0]) then 1 else 0) + Count(s[1..], p)
  {
    CountWithout(s, 0, p);
    assert s[..0] + s[1..] == s[1..];
  }

  lemma {:induction false} SeenInOrder(s: seq<Outcome>)
    ensures forall i, j | 0 <= i < j < |FirstSeen(s)| :: FirstOf(s, FirstSeen(s)[i]) < FirstOf(s, FirstSeen(s)[j])
    ensures forall a <- FirstSeen(s) :: FirstOf(s, a) < |s|
  {
    if s != [] {
      var front := s[..|s| - 1];
      assert s == front + [Last(s)];
      SeenInOrder(front);
      FirstSeenDistinct(front);
      forall a { FirstOfAppend(front, Last(s), a); }
    }
  }

  ghost predicate InOrderOf(s: seq<Outcome>, l: seq<Recommendation>) {
    forall i, j | 0 <= i < j < |l| :: FirstOf(s, l[i].action) < FirstOf(s, l[j].action)
  }

  lemma ExtendsOrder(s: seq<Outcome>, l: seq<Recommendation>, x: Recommendation)
    requires InOrderOf(s, l) && forall y <- l :: FirstOf(s, y.action) < FirstOf(s, x.action)
    ensures InOrderOf(s, l + [x])
  {
    hide FirstOf;
  }

  lemma {:induction false} ListedInOrder(s: seq<Outcome>, order: seq<ActionKind>, framework: string)
    requires forall i, j | 0 <= i < j < |order| :: FirstOf(s, order[i]) < FirstOf(s, order[j])
    ensures InOrderOf(s, Recommendations(s, order, framework))
  {
    if order != [] {
      var front := order[..|order| - 1];
      ListedInOrder(s, front, framework);
      RecommendationsAre(s, front, framework);
      hide FirstOf, StatsOf, Supported, InOrderOf;
      var l := Recommendations(s, front, framework);
      forall y <- l ensures FirstOf(s, y.action) < FirstOf(s, Last(order)) {
        var i :| 0 <= i < |front| && front[i] == y.action;
        assert order[i] == y.action;
      }
      assert Recommend(s, Last(order)).action == Last(order);
      ExtendsOrder(s, l, Recommend(s, Last(order)));
      assert l + [] == l;
    }
  }

  lemma RankedNonempty(l: seq<Recommendation>)
    ensures Ranked(l) == [] <==> l == []
  {
    RankedSorts(l);
    assert |multiset(Ranked(l))| == |Ranked(l)| && |multiset(l)| == |l|;
  }

  /** The top entry of a list in order comes before every other one that ranks as high. */
  lemma TopOccursFirst(s: seq<Outcome>, l: seq<Recommendation>, y: Recommendation)
    requires l != [] && InOrderOf(s, l) && y in l && AtLeast(y, Top(l)) && y.action != Top(l).action
    ensures FirstOf(s, Top(l).action) < FirstOf(s, y.action)
  {
    var i := TopIsFirst(l);
    var j :| 0 <= j < |l| && l[j] == y;
    hide Top, FirstOf, AtLeast;
    assert i < j;
  }

  /** Among trusted actions history takes the one that occurs first: the ranking is stable. */
  lemma OverrideIsFirst(s: seq<Outcome>, framework: string, b: ActionKind)
    requires HistoryOverride(s, framework).Some? && Trusted(s, framework, b)
    requires HistoryOverride(s, framework).value.action != b
    ensures FirstOf(s, HistoryOverride(s, framework).value.action) < FirstOf(s, b)
  {
    var order := FirstSeen(s);
    var l := Recommendations(s, order, framework);
    RankedNonempty(l);
    HeadIsTop(l);
    assert HistoryOverride(s, framework).value == Top(l);
    OverrideIsTrusted(s, framework);
    assert AtLeast(Recommend(s, b), Top(l));
    SeenInOrder(s);
    ListedInOrder(s, order, framework);
    FirstSeenDistinct(s);
    RecommendationsAre(s, order, framework);
    assert Recommend(s, b) in l && Recommend(s, b).action == b;
    hide *;
    TopOccursFirst(s, l, Recommend(s, b));
  }
}
