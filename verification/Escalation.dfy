/** The poller that escalates incidents nobody has acknowledged. */
module Escalation {
  import opened Records

  /** The columns of an incident the poller reads; a trigger time that is missing or cannot be
      parsed is `None`. */
  datatype Case = Case(id: Id, run: Id, severity: Severity, open: bool, triggeredAt: Option<real>)

  datatype Config = Config(id: Id, org: string, url: string, enabled: bool, timeoutMinutes: int)

  datatype NoteKind = InitialAlert | Escalated

  /** A notification record; it is written whether or not the target answered. */
  datatype Note = Note(incident: Id, run: Id, url: string, kind: NoteKind, polledAt: real, delivered: bool)

  /** Whether the webhook, called by its id, answers with success when it is sent the incident. */
  type Targets = (Id, Id) -> bool

  const DEFAULT_ORG := "default_org"

  predicate Qualifies(x: Case) {
    x.open && x.severity in {High, Critical}
  }

  function Qualifying(xs: seq<Case>): seq<Case> {
    if xs == [] then []
    else Qualifying(xs[..|xs| - 1]) + if Qualifies(Last(xs)) then [Last(xs)] else []
  }

  /** Incidents carry no organisation, so the default one's webhooks are the ones asked for. */
  function ActiveConfigs(configs: seq<Config>): seq<Config> {
    if configs == [] then []
    else
      ActiveConfigs(configs[..|configs| - 1]) +
      if Last(configs).org == DEFAULT_ORG && Last(configs).enabled then [Last(configs)] else []
  }

  predicate Due(x: Case, c: Config, now: real) {
    now - x.triggeredAt.GetOr(now) >= c.timeoutMinutes as real * 60.0
  }

  predicate IsEscalation(n: Note, incident: Id, url: string) {
    n.kind == Escalated && n.incident == incident && n.url == url
  }

  function EscalatedUrls(notes: seq<Note>, incident: Id): set<string> {
    set n <- notes | n.kind == Escalated && n.incident == incident :: n.url
  }

  function Escalation(x: Case, c: Config, now: real, ok: Targets): Note {
    Note(x.id, x.run, c.url, Escalated, now, ok(x.id, c.id))
  }

  /** What one incident adds: `done` was read once, before the first webhook. */
  function Sent(configs: seq<Config>, x: Case, done: set<string>, now: real, ok: Targets): seq<Note> {
    if configs == [] then []
    else
      var c := Last(configs);
      Sent(configs[..|configs| - 1], x, done, now, ok) +
      if c.url !in done && Due(x, c, now) then [Escalation(x, c, now, ok)] else []
  }

  function SentForAll(notes: seq<Note>, xs: seq<Case>, configs: seq<Config>, now: real, ok: Targets): seq<Note> {
    if xs == [] then []
    else
      var sent := SentForAll(notes, xs[..|xs| - 1], configs, now, ok);
      sent + Sent(configs, Last(xs), EscalatedUrls(notes + sent, Last(xs).id), now, ok)
  }

  type Trails = map<Id, seq<Audit>>

  /** The audit row that goes with a notification, in the trail of the incident's run. */
  function Announce(trails: Trails, n: Note): Trails {
    trails[n.run := At(trails, n.run) + [Notification(n.incident, n.delivered)]]
  }

  function AnnounceAll(trails: Trails, notes: seq<Note>): Trails {
    if notes == [] then trails else Announce(AnnounceAll(trails, notes[..|notes| - 1]), Last(notes))
  }

  class AlertDispatcher {
    var incidents: seq<Case>
    var configs: seq<Config>
    var notes: seq<Note>
    var audits: Trails

    method DispatchAlertToConfig(c: Config, x: Case, now: real, ok: Targets) returns (n: Note)
      modifies `notes, `audits
      ensures n == Escalation(x, c, now, ok)
      ensures notes == old(notes) + [n] && audits == Announce(old(audits), n)
    {
      var delivered := ok(x.id, c.id);
      n := Note(x.id, x.run, c.url, Escalated, now, delivered);
      notes := notes + [n];
      audits := audits[x.run := At(audits, x.run) + [Notification(x.id, delivered)]];
    }

    /** The webhooks for one incident, given the notifications read before the first of them. */
    method EscalateIncident(x: Case, active: seq<Config>, now: real, ok: Targets) returns (sent: seq<Note>)
      modifies `notes, `audits
      ensures sent == Sent(active, x, EscalatedUrls(old(notes), x.id), now, ok)
      ensures notes == old(notes) + sent && audits == AnnounceAll(old(audits), sent)
    {
      hide Due, EscalatedUrls;
      var done := EscalatedUrls(notes, x.id);
      sent := [];
      var j := 0;
      while j < |active|
        invariant 0 <= j <= |active|
        invariant sent == Sent(active[..j], x, done, now, ok)
        invariant notes == old(notes) + sent
        invariant audits == AnnounceAll(old(audits), sent)
      {
        assert active[..j + 1][..j] == active[..j];
        if active[j].url !in done {
          if Due(x, active[j], now) {
            var n := DispatchAlertToConfig(active[j], x, now, ok);
            assert (sent + [n])[..|sent|] == sent;
            sent := sent + [n];
          }
        }
        j := j + 1;
      }
      assert active[..j] == active;
    }

    method CheckAndDispatchEscalations(now: real, ok: Targets) returns (escalated: seq<Note>)
      modifies `notes, `audits
      ensures escalated == SentForAll(old(notes), Qualifying(incidents), ActiveConfigs(configs), now, ok)
      ensures notes == old(notes) + escalated && audits == AnnounceAll(old(audits), escalated)
    {
      hide EscalatedUrls, Qualifying, ActiveConfigs, Sent, AnnounceAll;
      var open := Qualifying(incidents);
      escalated := [];
      AnnounceInTurn(audits, escalated, []);
      var i := 0;
      while i < |open|
        invariant 0 <= i <= |open|
        invariant escalated == SentForAll(old(notes), open[..i], ActiveConfigs(configs), now, ok)
        invariant notes == old(notes) + escalated
        invariant audits == AnnounceAll(old(audits), escalated)
      {
        assert open[..i + 1][..i] == open[..i];
        var active := ActiveConfigs(configs);
        if active == [] {
          assert Sent([], open[i], EscalatedUrls(notes, open[i].id), now, ok) == [] by {
            NoWebhooks(open[i], EscalatedUrls(notes, open[i].id), now, ok);
          }
          assert escalated + [] == escalated;
          i := i + 1;
          continue;
        }
        var sent := EscalateIncident(open[i], active, now, ok);
        AnnounceInTurn(old(audits), escalated, sent);
        escalated := escalated + sent;
        i := i + 1;
      }
      assert open[..i] == open;
    }
  }

  lemma NoWebhooks(x: Case, done: set<string>, now: real, ok: Targets)
    ensures Sent([], x, done, now, ok) == []
  {}

  lemma {:induction false} AnnounceInTurn(trails: Trails, s: seq<Note>, t: seq<Note>)
    ensures AnnounceAll(trails, []) == trails
    ensures AnnounceAll(AnnounceAll(trails, s), t) == AnnounceAll(trails, s + t)
  {
    if t == [] {
      assert s + t == s;
    } else {
      AnnounceInTurn(trails, s, t[..|t| - 1]);
      assert (s + t)[..|s + t| - 1] == s + t[..|t| - 1];
    }
  }

  // ---- one poll, counted ----

  ghost function Escalations(notes: seq<Note>, incident: Id, url: string): nat {
    Count(notes, n => IsEscalation(n, incident, url))
  }

  ghost function DueConfigs(configs: seq<Config>, x: Case, url: string, now: real): nat {
    Count(configs, (c: Config) => c.url == url && Due(x, c, now))
  }

  lemma CountConcat<T>(s: seq<T>, t: seq<T>, p: T -> bool)
    ensures Count(s + t, p) == Count(s, p) + Count(t, p)
  {
    if t == [] {
      assert s + t == s;
    } else {
      CountConcat(s, t[..|t| - 1], p);
      assert s + t == (s + t[..|t| - 1]) + [Last(t)];
      CountAppend(s + t[..|t| - 1], Last(t), p);
    }
  }

  lemma CountPositive<T(!new)>(s: seq<T>, p: T -> bool)
    ensures Count(s, p) > 0 <==> exists x <- s :: p(x)
  {
    if s != [] {
      CountPositive(s[..|s| - 1], p);
      assert s == s[..|s| - 1] + [Last(s)];
    }
  }

  lemma SentCounts(configs: seq<Config>, x: Case, done: set<string>, now: real, ok: Targets, incident: Id, url: string)
    ensures Escalations(Sent(configs, x, done, now, ok), incident, url) ==
            if incident == x.id && url !in done then DueConfigs(configs, x, url, now) else 0
  {
    if configs != [] {
      var before, c := configs[..|configs| - 1], Last(configs);
      SentCounts(before, x, done, now, ok, incident, url);
      var p := (n: Note) => IsEscalation(n, incident, url);
      CountAppend(Sent(before, x, done, now, ok), Escalation(x, c, now, ok), p);
      assert Sent(before, x, done, now, ok) + [] == Sent(before, x, done, now, ok);
    }
  }

  ghost predicate DistinctIds(xs: seq<Case>) {
    forall i, j :: 0 <= i < j < |xs| ==> xs[i].id != xs[j].id
  }

  ghost predicate DistinctUrls(configs: seq<Config>) {
    forall i, j :: 0 <= i < j < |configs| ==> configs[i].url != configs[j].url
  }

  lemma EscalatedUrlsCount(notes: seq<Note>, incident: Id, url: string)
    ensures url in EscalatedUrls(notes, incident) <==> Escalations(notes, incident, url) > 0
  {
    CountPositive(notes, n => IsEscalation(n, incident, url));
  }

  lemma {:induction false} OthersSendNothing(
      notes: seq<Note>, xs: seq<Case>, configs: seq<Config>, now: real, ok: Targets, incident: Id, url: string)
    requires forall x <- xs :: x.id != incident
    ensures Escalations(SentForAll(notes, xs, configs, now, ok), incident, url) == 0
  {
    if xs != [] {
      var before := xs[..|xs| - 1];
      OthersSendNothing(notes, before, configs, now, ok, incident, url);
      var sent := SentForAll(notes, before, configs, now, ok);
      var more := Sent(configs, Last(xs), EscalatedUrls(notes + sent, Last(xs).id), now, ok);
      SentCounts(configs, Last(xs), EscalatedUrls(notes + sent, Last(xs).id), now, ok, incident, url);
      CountConcat(sent, more, n => IsEscalation(n, incident, url));
    }
  }

  lemma EscalationsConcat(s: seq<Note>, t: seq<Note>, incident: Id, url: string)
    ensures Escalations(s + t, incident, url) == Escalations(s, incident, url) + Escalations(t, incident, url)
  {
    CountConcat(s, t, n => IsEscalation(n, incident, url));
  }

  lemma SentForLast(notes: seq<Note>, xs: seq<Case>, configs: seq<Config>, now: real, ok: Targets)
    requires xs != []
    ensures var sent := SentForAll(notes, xs[..|xs| - 1], configs, now, ok);
      SentForAll(notes, xs, configs, now, ok) ==
      sent + Sent(configs, Last(xs), EscalatedUrls(notes + sent, Last(xs).id), now, ok)
  {}

  /** One poll adds, for an incident and a URL, as many escalations as there are due webhooks with
      that URL, if there was none before, and nothing otherwise. */
  lemma {:induction false} PollCounts(
      notes: seq<Note>, xs: seq<Case>, configs: seq<Config>, now: real, ok: Targets, x: Case, url: string)
    requires DistinctIds(xs) && x in xs
    ensures Escalations(SentForAll(notes, xs, configs, now, ok), x.id, url) ==
            if Escalations(notes, x.id, url) > 0 then 0 else DueConfigs(configs, x, url, now)
  {
    SentForLast(notes, xs, configs, now, ok);
    hide Escalations, DueConfigs, Sent, SentForAll, EscalatedUrls;
    var before := xs[..|xs| - 1];
    var sent := SentForAll(notes, before, configs, now, ok);
    var done := EscalatedUrls(notes + sent, Last(xs).id);
    var more := Sent(configs, Last(xs), done, now, ok);
    EscalationsConcat(sent, more, x.id, url);
    EscalationsConcat(notes, sent, x.id, url);
    SentCounts(configs, Last(xs), done, now, ok, x.id, url);
    assert xs == before + [Last(xs)];
    if x in before {
      assert DistinctIds(before) && Last(xs).id != x.id;
      PollCounts(notes, before, configs, now, ok, x, url);
    } else {
      assert x == Last(xs);
      forall y | y in before ensures y.id != x.id {
        var i :| 0 <= i < |before| && before[i] == y;
        assert xs[i] == y;
      }
      OthersSendNothing(notes, before, configs, now, ok, x.id, url);
      EscalatedUrlsCount(notes + sent, x.id, url);
    }
  }

  // ---- any number of polls ----

  datatype Step =
    | Poll(incidents: seq<Case>, configs: seq<Config>, now: real, ok: Targets)
    | Alert(incident: Id, run: Id, url: string, now: real, delivered: bool)

  function Next(notes: seq<Note>, step: Step): seq<Note> {
    match step
    case Poll(xs, configs, now, ok) => notes + SentForAll(notes, Qualifying(xs), ActiveConfigs(configs), now, ok)
    case Alert(incident, run, url, now, delivered) =>
      notes + [Note(incident, run, url, InitialAlert, now, delivered)]
  }

  function After(steps: seq<Step>): seq<Note> {
    if steps == [] then [] else Next(After(steps[..|steps| - 1]), Last(steps))
  }

  lemma QualifyingAre(xs: seq<Case>)
    ensures forall x :: x in Qualifying(xs) <==> x in xs && Qualifies(x)
    ensures DistinctIds(xs) ==> DistinctIds(Qualifying(xs))
  {
    if xs != [] {
      var before := xs[..|xs| - 1];
      QualifyingAre(before);
      assert xs == before + [Last(xs)];
      if DistinctIds(xs) {
        assert DistinctIds(before) && forall y <- before :: y.id != Last(xs).id;
        assert forall i :: 0 <= i < |Qualifying(before)| ==> Qualifying(before)[i] in before;
      }
    }
  }

  lemma ActiveConfigsAre(configs: seq<Config>)
    ensures forall c :: c in ActiveConfigs(configs) <==> c in configs && c.org == DEFAULT_ORG && c.enabled
  {
    if configs != [] {
      ActiveConfigsAre(configs[..|configs| - 1]);
      assert configs == configs[..|configs| - 1] + [Last(configs)];
    }
  }

  lemma {:induction false} AtMostOneWithUrl(configs: seq<Config>, x: Case, url: string, now: real)
    requires DistinctUrls(configs)
    ensures DueConfigs(configs, x, url, now) <= 1
  {
    if configs != [] {
      var before := configs[..|configs| - 1];
      AtMostOneWithUrl(before, x, url, now);
      if Last(configs).url == url {
        forall c <- before ensures c.url != url {}
        CountPositive(before, (c: Config) => c.url == url && Due(x, c, now));
      }
    }
  }

  /** Incident ids are unique, and at each poll no two active webhooks share a URL. */
  ghost predicate WellFormed(steps: seq<Step>) {
    forall s <- steps :: s.Poll? ==> DistinctIds(s.incidents) && DistinctUrls(ActiveConfigs(s.configs))
  }

  /** Over any sequence of polls, with other alerts in between, each incident is escalated to each
      URL at most once. */
  lemma {:induction false} EscalatesOnce(steps: seq<Step>, incident: Id, url: string)
    requires WellFormed(steps)
    ensures Escalations(After(steps), incident, url) <= 1
  {
    if steps != [] {
      var before, step := steps[..|steps| - 1], Last(steps);
      EscalatesOnce(before, incident, url);
      var notes := After(before);
      var p := (n: Note) => IsEscalation(n, incident, url);
      match step {
        case Alert(i, r, u, now, delivered) => CountAppend(notes, Note(i, r, u, InitialAlert, now, delivered), p);
        case Poll(xs, configs, now, ok) =>
          var open, active := Qualifying(xs), ActiveConfigs(configs);
          QualifyingAre(xs);
          CountConcat(notes, SentForAll(notes, open, active, now, ok), p);
          if x :| x in open && x.id == incident {
            PollCounts(notes, open, active, now, ok, x, url);
            AtMostOneWithUrl(active, x, url, now);
          } else {
            OthersSendNothing(notes, open, active, now, ok, incident, url);
          }
      }
    }
  }

  /** The incident is open, of high severity, and known for at least the webhook's timeout. */
  predicate Overdue(x: Case, c: Config, now: real) {
    && x.open && (x.severity == High || x.severity == Critical)
    && (match x.triggeredAt
        case None => c.timeoutMinutes <= 0
        case Some(t) => t + 60.0 * c.timeoutMinutes as real <= now)
  }

  lemma OverdueIsDue(x: Case, c: Config, now: real)
    ensures Overdue(x, c, now) <==> Qualifies(x) && Due(x, c, now)
  {}

  /** After a poll every open incident of high severity that is past an active webhook's timeout
      has an escalation to that webhook's URL. */
  lemma PollIsComplete(
      notes: seq<Note>, xs: seq<Case>, configs: seq<Config>, now: real, ok: Targets, x: Case, c: Config)
    requires DistinctIds(xs) && x in xs && Overdue(x, c, now)
    requires c in configs && c.org == "default_org" && c.enabled
    ensures exists n <- Next(notes, Poll(xs, configs, now, ok)) ::
              n.kind == Escalated && n.incident == x.id && n.url == c.url
  {
    var open, active := Qualifying(xs), ActiveConfigs(configs);
    OverdueIsDue(x, c, now);
    QualifyingAre(xs);
    ActiveConfigsAre(configs);
    PollCounts(notes, open, active, now, ok, x, c.url);
    CountConcat(notes, SentForAll(notes, open, active, now, ok), n => IsEscalation(n, x.id, c.url));
    CountPositive(active, (d: Config) => d.url == c.url && Due(x, d, now));
    CountPositive(Next(notes, Poll(xs, configs, now, ok)), n => IsEscalation(n, x.id, c.url));
    var n :| n in Next(notes, Poll(xs, configs, now, ok)) && IsEscalation(n, x.id, c.url);
  }

  /** The poll that wrote an escalation saw its incident overdue for an active webhook with that URL,
      and recorded whether that answered. */
  ghost predicate Justified(n: Note, step: Step) {
    step.Poll? && n.polledAt == step.now &&
    exists x, c :: x in step.incidents && c in step.configs && c.org == "default_org" && c.enabled
                   && Overdue(x, c, step.now)
                   && n.incident == x.id && n.run == x.run && n.url == c.url && n.delivered == step.ok(x.id, c.id)
  }

  lemma {:induction false} SentIsDue(configs: seq<Config>, x: Case, done: set<string>, now: real, ok: Targets, n: Note)
    requires n in Sent(configs, x, done, now, ok)
    ensures n.incident == x.id && n.run == x.run && n.polledAt == now
    ensures exists c <- configs :: c.url == n.url && Due(x, c, now) && n.delivered == ok(x.id, c.id)
  {
    var before := configs[..|configs| - 1];
    if n in Sent(before, x, done, now, ok) {
      SentIsDue(before, x, done, now, ok, n);
      var c :| c in before && c.url == n.url && Due(x, c, now) && n.delivered == ok(x.id, c.id);
      assert c in configs;
    } else {
      assert Last(configs) in configs;
    }
  }

  lemma {:induction false} SentForAllIsDue(
      notes: seq<Note>, xs: seq<Case>, configs: seq<Config>, now: real, ok: Targets, n: Note)
    requires n in SentForAll(notes, xs, configs, now, ok)
    ensures n.polledAt == now
    ensures exists x, c :: x in xs && c in configs && n.incident == x.id && n.run == x.run && n.url == c.url
                           && Due(x, c, now) && n.delivered == ok(x.id, c.id)
  {
    var before := xs[..|xs| - 1];
    if n in SentForAll(notes, before, configs, now, ok) {
      SentForAllIsDue(notes, before, configs, now, ok, n);
    } else {
      var done := EscalatedUrls(notes + SentForAll(notes, before, configs, now, ok), Last(xs).id);
      SentIsDue(configs, Last(xs), done, now, ok, n);
      assert Last(xs) in xs;
    }
  }

  /** No escalation is early: each was written by a poll that found it due. */
  lemma {:induction false} EscalationsAreDue(steps: seq<Step>, n: Note)
    requires n in After(steps) && n.kind == Escalated
    ensures exists step <- steps :: Justified(n, step)
  {
    var before, step := steps[..|steps| - 1], Last(steps);
    if n in After(before) {
      EscalationsAreDue(before, n);
    } else {
      assert step in steps;
      QualifyingAre(step.incidents);
      ActiveConfigsAre(step.configs);
      SentForAllIsDue(After(before), Qualifying(step.incidents), ActiveConfigs(step.configs), step.now, step.ok, n);
      forall x, c ensures Overdue(x, c, step.now) <==> Qualifies(x) && Due(x, c, step.now) {
        OverdueIsDue(x, c, step.now);
      }
      hide Overdue, Qualifies, Due;
    }
  }

  /** Two active webhooks with one URL are both sent the same escalation by the same poll. */
  lemma SharedUrlEscalatesTwice(x: Case, c: Config, d: Config, now: real, ok: Targets)
    requires Overdue(x, c, now) && Overdue(x, d, now) && c.url == d.url
    requires c.org == d.org == "default_org" && c.enabled && d.enabled
    ensures Escalations(After([Poll([x], [c, d], now, ok)]), x.id, c.url) == 2
  {
    var sent := SentForAll([], [x], [c, d], now, ok);
    assert [Poll([x], [c, d], now, ok)][..0] == [] && [c, d][..1] == [c] && [c][..0] == [] && [x][..0] == [];
    assert ActiveConfigs([]) == [] && ActiveConfigs([c]) == [c] && ActiveConfigs([c, d]) == [c, d];
    assert Qualifying([]) == [] && Qualifying([x]) == [x];
    assert DueConfigs([], x, c.url, now) == 0 && DueConfigs([c], x, c.url, now) == 1;
    PollCounts([], [x], [c, d], now, ok, x, c.url);
    CountConcat([], sent, n => IsEscalation(n, x.id, c.url));
    assert [] + sent == sent;
  }

  /** The notifications about one run, as audit rows. */
  function RowsOf(notes: seq<Note>, r: Id): seq<Audit> {
    if notes == [] then []
    else
      RowsOf(notes[..|notes| - 1], r) +
      if Last(notes).run == r then
        [Audit(NotificationDispatched, if Last(notes).delivered then Success else Failure, Some(Last(notes).incident))]
      else []
  }

  /** Each notification leaves one row in its run's trail, in order, and none anywhere else. */
  lemma {:induction false} EachIsAnnounced(trails: Trails, notes: seq<Note>, r: Id)
    ensures At(AnnounceAll(trails, notes), r) == At(trails, r) + RowsOf(notes, r)
  {
    if notes != [] {
      EachIsAnnounced(trails, notes[..|notes| - 1], r);
    } else {
      assert At(trails, r) + [] == At(trails, r);
    }
  }
}
