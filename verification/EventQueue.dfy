/** The bounded queue between the agents' threads and the collector's worker, with its counters. */
module EventQueue {
  import opened Records

  /** What the queue and its metrics hold between calls; an unprocessable event is only counted. */
  datatype Line = Line(queue: seq<Event>, received: nat, dropped: nat, processed: nat, failed: nat)

  const EMPTY_LINE := Line([], 0, 0, 0, 0)

  /** A capacity that is not positive means no bound. */
  predicate Full(capacity: int, queue: seq<Event>) {
    capacity > 0 && |queue| >= capacity
  }

  function Ingest(capacity: int, s: Line, e: Event): Line {
    var s1 := s.(received := s.received + 1);
    if Full(capacity, s.queue) then s1.(dropped := s.dropped + 1) else s1.(queue := s.queue + [e])
  }

  /** An arriving event is counted, and dropped exactly if the queue holds its capacity. */
  lemma IngestExactly(capacity: int, s: Line, e: Event)
    requires capacity > 0 ==> |s.queue| <= capacity
    ensures Ingest(capacity, s, e) ==
            if capacity > 0 && |s.queue| == capacity
            then s.(received := s.received + 1, dropped := s.dropped + 1)
            else s.(received := s.received + 1, queue := s.queue + [e])
  {}

  /** One round of the worker; `ok` tells whether processing raised nothing. An empty queue is a
      timeout. */
  function Work(s: Line, ok: bool): Line {
    if s.queue == [] then s
    else if ok then s.(queue := s.queue[1..], processed := s.processed + 1)
    else s.(queue := s.queue[1..], failed := s.failed + 1)
  }

  function WorkAll(s: Line, rounds: seq<bool>): Line {
    if rounds == [] then s else Work(WorkAll(s, rounds[..|rounds| - 1]), Last(rounds))
  }

  class Intake {
    const capacity: int
    var queue: seq<Event>
    var received: nat
    var dropped: nat
    var processed: nat
    var failed: nat

    constructor (capacity: int)
      ensures this.capacity == capacity && View() == EMPTY_LINE
    {
      this.capacity := capacity;
      queue := [];
      received, dropped, processed, failed := 0, 0, 0, 0;
    }

    function View(): Line
      reads this
    {
      Line(queue, received, dropped, processed, failed)
    }

    method IngestEvent(e: Event)
      modifies this
      ensures View() == Ingest(capacity, old(View()), e)
    {
      received := received + 1;
      if Full(capacity, queue) {
        dropped := dropped + 1;
        return;
      }
      queue := queue + [e];
    }

    method ProcessQueue(rounds: seq<bool>)
      modifies this
      ensures View() == WorkAll(old(View()), rounds)
    {
      var i := 0;
      while i < |rounds|
        invariant 0 <= i <= |rounds|
        invariant View() == WorkAll(old(View()), rounds[..i])
      {
        assert rounds[..i + 1][..i] == rounds[..i];
        if queue != [] {
          queue := queue[1..];
          if rounds[i] {
            processed := processed + 1;
          } else {
            failed := failed + 1;
          }
        }
        i := i + 1;
      }
      assert rounds[..i] == rounds;
    }
  }

  // ---- many producers and the worker, statement by statement ----

  /** `holding` are the events of producers that have counted them as received but not yet offered
      them; `refused` those that met a full queue and are not yet counted as dropped. The last five
      fields record what happened and decide nothing. */
  datatype World = World(
    line: Line,
    holding: multiset<Event>,
    refused: multiset<Event>,
    inFlight: Option<Event>,
    arrivals: seq<Event>,
    accepted: seq<Event>,
    lost: seq<Event>,
    finished: seq<Event>,
    results: seq<bool>)

  datatype Move =
    | Receive(e: Event)
    | Put(e: Event)
    | CountDrop(e: Event)
    | Take
    | Finish(ok: bool)

  const START := World(EMPTY_LINE, multiset{}, multiset{}, None, [], [], [], [], [])

  /** The effect of one statement; one that does not apply does nothing. */
  function Do(capacity: int, s: World, m: Move): World {
    match m
    case Receive(e) =>
      s.(line := s.line.(received := s.line.received + 1),
         holding := s.holding + multiset{e}, arrivals := s.arrivals + [e])
    case Put(e) =>
      if e !in s.holding then s
      else if Full(capacity, s.line.queue)
      then s.(holding := s.holding - multiset{e}, refused := s.refused + multiset{e})
      else s.(line := s.line.(queue := s.line.queue + [e]),
              holding := s.holding - multiset{e}, accepted := s.accepted + [e])
    case CountDrop(e) =>
      if e !in s.refused then s
      else s.(line := s.line.(dropped := s.line.dropped + 1),
              refused := s.refused - multiset{e}, lost := s.lost + [e])
    case Take =>
      if s.inFlight.Some? || s.line.queue == [] then s
      else s.(line := s.line.(queue := s.line.queue[1..]), inFlight := Some(s.line.queue[0]))
    case Finish(ok) =>
      if s.inFlight.None? then s
      else s.(line := if ok then s.line.(processed := s.line.processed + 1) else s.line.(failed := s.line.failed + 1),
              inFlight := None, finished := s.finished + [s.inFlight.value], results := s.results + [ok])
  }

  function Play(capacity: int, moves: seq<Move>): World {
    if moves == [] then START else Do(capacity, Play(capacity, moves[..|moves| - 1]), Last(moves))
  }

  function Working(s: World): seq<Event> {
    if s.inFlight.Some? then [s.inFlight.value] else []
  }

  ghost predicate KeptEach(s: World, x: Event) {
    multiset(s.arrivals)[x] == s.holding[x] + s.refused[x] + multiset(s.accepted)[x] + multiset(s.lost)[x]
  }

  ghost predicate Kept(s: World) {
    forall x :: KeptEach(s, x)
  }

  ghost predicate InLine(capacity: int, s: World) {
    && s.accepted == s.finished + Working(s) + s.line.queue
    && (if capacity > 0 then |s.line.queue| <= capacity else s.refused == multiset{} && s.lost == [])
  }

  function Times(s: seq<bool>, b: bool): nat {
    if s == [] then 0 else Times(s[..|s| - 1], b) + if Last(s) == b then 1 else 0
  }

  lemma TimesAppend(s: seq<bool>, x: bool)
    ensures Times(s + [x], true) == Times(s, true) + if x then 1 else 0
    ensures Times(s + [x], false) == Times(s, false) + if x then 0 else 1
  {
    assert (s + [x])[..|s|] == s;
  }

  lemma {:induction false} TimesAll(s: seq<bool>)
    ensures Times(s, true) + Times(s, false) == |s|
  {
    if s != [] { TimesAll(s[..|s| - 1]); }
  }

  ghost predicate Counted(s: World) {
    && s.line.received == |s.arrivals|
    && s.line.dropped == |s.lost|
    && |s.results| == |s.finished|
    && s.line.processed == Times(s.results, true) && s.line.failed == Times(s.results, false)
  }

  ghost predicate Conserved(capacity: int, s: World) {
    Kept(s) && InLine(capacity, s) && Counted(s)
  }

  /** Producers and the worker left alone do what the whole calls do. */
  lemma UninterruptedIngest(capacity: int, s: World, e: Event)
    requires s.holding == multiset{} && s.refused == multiset{}
    ensures var s1 := Do(capacity, Do(capacity, Do(capacity, s, Receive(e)), Put(e)), CountDrop(e));
      s1.line == Ingest(capacity, s.line, e) && s1.holding == multiset{} && s1.refused == multiset{}
  {}

  lemma UninterruptedWork(capacity: int, s: World, ok: bool)
    requires s.inFlight == None
    ensures var s1 := Do(capacity, Do(capacity, s, Take), Finish(ok));
      s1.line == Work(s.line, ok) && s1.inFlight == None
  {}

  lemma CountOfAppend(s: seq<Event>, e: Event, x: Event)
    ensures multiset(s + [e])[x] == multiset(s)[x] + if x == e then 1 else 0
  {
    assert multiset(s + [e]) == multiset(s) + multiset{e};
  }

  lemma CountOfMove(from: multiset<Event>, to: multiset<Event>, e: Event, x: Event)
    requires e in from
    ensures (from - multiset{e})[x] == from[x] - if x == e then 1 else 0
    ensures (to + multiset{e})[x] == to[x] + if x == e then 1 else 0
  {}

  lemma MoveKeepsEach(capacity: int, s: World, m: Move, x: Event)
    requires KeptEach(s, x)
    ensures KeptEach(Do(capacity, s, m), x)
  {
    match m {
      case Receive(e) =>
        CountOfAppend(s.arrivals, e, x);
        CountOfMove(multiset{e}, s.holding, e, x);
      case Put(e) =>
        CountOfAppend(s.accepted, e, x);
        if e in s.holding { CountOfMove(s.holding, s.refused, e, x); }
      case CountDrop(e) =>
        CountOfAppend(s.lost, e, x);
        if e in s.refused { CountOfMove(s.refused, s.refused, e, x); }
      case _ =>
    }
  }

  lemma MoveKeeps(capacity: int, s: World, m: Move)
    requires Kept(s)
    ensures Kept(Do(capacity, s, m))
  {
    hide Do, KeptEach;
    forall x: Event
      ensures KeptEach(Do(capacity, s, m), x)
    {
      MoveKeepsEach(capacity, s, m, x);
    }
  }

  lemma MoveKeepsLine(capacity: int, s: World, m: Move)
    requires InLine(capacity, s)
    ensures InLine(capacity, Do(capacity, s, m))
  {
    var front, queue := s.finished + Working(s), s.line.queue;
    match m {
      case Take => if queue != [] { assert queue == [queue[0]] + queue[1..]; }
      case Put(e) => assert (front + queue) + [e] == front + (queue + [e]);
      case Finish(_) => assert front == s.finished + Working(s) + [];
      case _ =>
    }
  }

  lemma MoveConserves(capacity: int, s: World, m: Move)
    requires Conserved(capacity, s)
    ensures Conserved(capacity, Do(capacity, s, m))
  {
    hide Kept, InLine;
    MoveKeeps(capacity, s, m);
    MoveKeepsLine(capacity, s, m);
    if m.Finish? { TimesAppend(s.results, m.ok); }
  }

  lemma {:induction false} PlayConserves(capacity: int, moves: seq<Move>)
    ensures Conserved(capacity, Play(capacity, moves))
  {
    hide Conserved, Do;
    if moves == [] {
      StartConserves(capacity);
    } else {
      PlayConserves(capacity, moves[..|moves| - 1]);
      MoveConserves(capacity, Play(capacity, moves[..|moves| - 1]), Last(moves));
    }
  }

  lemma StartConserves(capacity: int)
    ensures Conserved(capacity, START)
  {}

  lemma KeptIsSum(s: World)
    requires Kept(s)
    ensures multiset(s.arrivals) == s.holding + s.refused + multiset(s.accepted) + multiset(s.lost)
  {
    forall x: Event
      ensures multiset(s.arrivals)[x] == (s.holding + s.refused + multiset(s.accepted) + multiset(s.lost))[x]
    {
      assert KeptEach(s, x);
    }
  }

  lemma SumOfSizes(all: seq<Event>, a: multiset<Event>, b: multiset<Event>, c: seq<Event>, d: seq<Event>)
    requires multiset(all) == a + b + multiset(c) + multiset(d)
    ensures |all| == |a| + |b| + |c| + |d|
  {
    assert |multiset(all)| == |all|;
  }

  /** Over every interleaving each event that arrived is in exactly one place: with its producer,
      dropped, queued, being processed, or finished; the counters add up, and the worker's two tell
      how its rounds ended. */
  lemma EventsAreConserved(capacity: int, moves: seq<Move>)
    ensures var s := Play(capacity, moves);
      && multiset(s.arrivals) == s.holding + s.refused + multiset(s.finished + Working(s) + s.line.queue)
                                 + multiset(s.lost)
      && s.line.received == |s.holding| + |s.refused| + s.line.dropped + |s.line.queue| + |Working(s)|
                            + s.line.processed + s.line.failed
      && |s.results| == |s.finished|
      && s.line.processed == Times(s.results, true) && s.line.failed == Times(s.results, false)
  {
    hide Kept, Play, Do;
    PlayConserves(capacity, moves);
    var s := Play(capacity, moves);
    KeptIsSum(s);
    SumOfSizes(s.arrivals, s.holding, s.refused, s.accepted, s.lost);
    TimesAll(s.results);
  }

  /** The queue stays within a positive capacity, without one nothing is dropped, and events leave
      it in the order in which they were accepted, none skipped. */
  lemma QueueIsBoundedFifo(capacity: int, moves: seq<Move>)
    ensures var s := Play(capacity, moves);
      && (if capacity > 0 then |s.line.queue| <= capacity else s.lost == [] && s.line.dropped == 0)
      && s.finished + Working(s) <= s.accepted
      && s.accepted[|s.finished + Working(s)|..] == s.line.queue
  {
    PlayConserves(capacity, moves);
    var s := Play(capacity, moves);
    assert s.accepted == (s.finished + Working(s)) + s.line.queue;
  }
}
