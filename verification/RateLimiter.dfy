/** The API's in-memory rate limit: a list of recent requests per client, pruned on every call. */
module RateLimiter {
  import opened Records

  const WINDOW := 60.0

  datatype Reply = Admitted | TooMany(retryAfter: int) | Crashed

  type Store = map<string, seq<real>>

  /** The requests of the last minute, in order. */
  function Recent(s: seq<real>, now: real): seq<real> {
    if s == [] then []
    else Recent(s[..|s| - 1], now) + if now - Last(s) < WINDOW then [Last(s)] else []
  }

  function Stored(store: Store, c: string): seq<real> {
    if c in store then store[c] else []
  }

  /** `int(...)` truncates a number that is never negative. */
  function RetryAfter(now: real, oldest: real): int {
    var wait := (WINDOW - (now - oldest)).Floor;
    if wait < 1 then 1 else wait
  }

  /** A full list with nothing in it has no oldest request to look at. */
  function Serve(limit: int, store: Store, c: string, now: real): (Store, Reply) {
    var recent := Recent(Stored(store, c), now);
    if |recent| < limit then (store[c := recent + [now]], Admitted)
    else (store[c := recent], if recent == [] then Crashed else TooMany(RetryAfter(now, recent[0])))
  }

  class Limiter {
    const limit: int
    var store: Store

    constructor (limit: int)
      ensures this.limit == limit && store == map[]
    {
      this.limit := limit;
      store := map[];
    }

    method RateLimit(client: Option<string>, now: real) returns (reply: Reply)
      modifies this
      ensures (store, reply) ==
              Serve(limit, old(store), match client case Some(host) => host case None => "unknown", now)
    {
      var c := client.GetOr("unknown");
      if c !in store {
        store := store[c := []];
      }
      store := store[c := Recent(store[c], now)];
      assert store == old(store)[c := Recent(Stored(old(store), c), now)];
      if |store[c]| >= limit {
        if store[c] == [] {
          return Crashed;
        }
        var oldest := store[c][0];
        return TooMany(RetryAfter(now, oldest));
      }
      store := store[c := store[c] + [now]];
      assert store == old(store)[c := Recent(Stored(old(store), c), now) + [now]];
      return Admitted;
    }
  }

  // ---- runs ----

  datatype Call = Call(client: string, time: real)

  function After(limit: int, calls: seq<Call>): Store {
    if calls == [] then map[]
    else Serve(limit, After(limit, calls[..|calls| - 1]), Last(calls).client, Last(calls).time).0
  }

  function ReplyTo(limit: int, calls: seq<Call>, call: Call): Reply {
    Serve(limit, After(limit, calls), call.client, call.time).1
  }

  /** The times at which a client's requests were let in. */
  function Accepted(limit: int, calls: seq<Call>, c: string): seq<real> {
    if calls == [] then []
    else
      var before := calls[..|calls| - 1];
      Accepted(limit, before, c) +
      if Last(calls).client == c && ReplyTo(limit, before, Last(calls)) == Admitted then [Last(calls).time] else []
  }

  /** No client sees the clock run backwards. */
  ghost predicate Ordered(calls: seq<Call>) {
    forall i, j :: 0 <= i < j < |calls| && calls[i].client == calls[j].client ==> calls[i].time <= calls[j].time
  }

  /** Within the minute from x on. */
  function InWindow(x: real): real -> bool {
    t => x < t <= x + 60.0
  }

  lemma CountImplies<T(!new)>(s: seq<T>, p: T -> bool, q: T -> bool)
    requires forall t <- s :: p(t) ==> q(t)
    ensures Count(s, p) <= Count(s, q)
  {
    if s != [] { CountImplies(s[..|s| - 1], p, q); }
  }

  lemma {:induction false} CountLess<T(!new)>(s: seq<T>, p: T -> bool, q: T -> bool, o: T)
    requires forall t <- s :: p(t) ==> q(t)
    requires o in s && q(o) && !p(o)
    ensures Count(s, p) < Count(s, q)
  {
    CountImplies(s[..|s| - 1], p, q);
    if o in s[..|s| - 1] { CountLess(s[..|s| - 1], p, q, o); }
  }

  ghost predicate NotAfter(s: seq<real>, now: real) {
    forall i :: 0 <= i < |s| ==> s[i] <= now
  }

  ghost predicate InOrder(s: seq<real>) {
    forall i, j :: 0 <= i < j < |s| ==> s[i] <= s[j]
  }

  lemma RecentCounts(s: seq<real>, now: real)
    requires NotAfter(s, now)
    ensures |Recent(s, now)| == Count(s, InWindow(now - WINDOW))
  {
    if s != [] {
      RecentCounts(s[..|s| - 1], now);
    }
  }

  lemma RecentAppend(s: seq<real>, t: real, now: real)
    ensures Recent(s + [t], now) == Recent(s, now) + if now - t < WINDOW then [t] else []
  {
    assert (s + [t])[..|s|] == s;
  }

  lemma {:induction false} RecentAgain(s: seq<real>, earlier: real, now: real)
    requires earlier <= now
    ensures Recent(Recent(s, earlier), now) == Recent(s, now)
  {
    if s != [] {
      RecentAgain(s[..|s| - 1], earlier, now);
      RecentAppend(Recent(s[..|s| - 1], earlier), Last(s), now);
      assert Recent(s[..|s| - 1], earlier) + [] == Recent(s[..|s| - 1], earlier);
    }
  }

  lemma RecentIn(s: seq<real>, now: real)
    ensures forall t <- Recent(s, now) :: t in s && now - t < WINDOW
  {}

  /** The first of the recent requests is the oldest in the window. */
  lemma {:induction false} RecentOldest(s: seq<real>, now: real, t: real)
    requires InOrder(s) && t in s && now - t < WINDOW
    ensures Recent(s, now) != [] && Recent(s, now)[0] <= t
  {
    var before := s[..|s| - 1];
    if t in before {
      RecentOldest(before, now, t);
    } else {
      assert s == before + [Last(s)] && t == Last(s);
      RecentIn(before, now);
      assert forall first <- before :: first <= t;
      if Recent(before, now) != [] {
        assert Recent(before, now)[0] in Recent(before, now);
      }
    }
  }

  lemma AcceptedStep(limit: int, before: seq<Call>, k: Call, c: string)
    ensures Accepted(limit, before + [k], c) == Accepted(limit, before, c) +
              if k.client == c && ReplyTo(limit, before, k) == Admitted then [k.time] else []
  {
    hide ReplyTo;
    assert (before + [k])[..|before|] == before && Last(before + [k]) == k;
  }

  lemma AppendInOrder(a: seq<real>, t: real, now: real)
    requires NotAfter(a, t) && InOrder(a) && t <= now
    ensures NotAfter(a + [t], now) && InOrder(a + [t])
  {}

  lemma {:induction false} AcceptedInOrder(limit: int, calls: seq<Call>, c: string, now: real)
    requires Ordered(calls)
    requires forall k <- calls :: k.client == c ==> k.time <= now
    ensures NotAfter(Accepted(limit, calls, c), now) && InOrder(Accepted(limit, calls, c))
  {
    hide ReplyTo;
    if calls != [] {
      hide Accepted, Ordered;
      var before, k := calls[..|calls| - 1], Last(calls);
      assert calls == before + [k];
      Prefix(before, k);
      AcceptedStep(limit, before, k, c);
      if k.client == c {
        assert k in calls;
        AcceptedInOrder(limit, before, c, k.time);
        AppendInOrder(Accepted(limit, before, c), k.time, now);
      } else {
        AcceptedInOrder(limit, before, c, now);
      }
    }
  }

  lemma AfterStep(limit: int, before: seq<Call>, k: Call, c: string)
    ensures Stored(After(limit, before + [k]), c) ==
            if k.client != c then Stored(After(limit, before), c)
            else Recent(Stored(After(limit, before), c), k.time) +
                 if ReplyTo(limit, before, k) == Admitted then [k.time] else []
  {
    hide Recent, RetryAfter;
    assert (before + [k])[..|before|] == before && Last(before + [k]) == k;
  }

  lemma RecentStep(stored: seq<real>, a: seq<real>, more: seq<real>, t: real, now: real)
    requires Recent(stored, t) == Recent(a, t) && t <= now
    requires more == [t] || more == []
    ensures Recent(Recent(stored, t) + more, now) == Recent(a + more, now)
  {
    hide Recent;
    RecentAgain(a, t, now);
    RecentAppend(a, t, now);
    RecentAppend(Recent(stored, t), t, now);
    assert a + [] == a && Recent(stored, t) + [] == Recent(stored, t);
  }

  /** What the limiter remembers of a client at its next call is what it let in during the last
      minute. */
  lemma {:induction false} RemembersRecent(limit: int, calls: seq<Call>, c: string, now: real)
    requires Ordered(calls)
    requires forall k <- calls :: k.client == c ==> k.time <= now
    ensures Recent(Stored(After(limit, calls), c), now) == Recent(Accepted(limit, calls, c), now)
  {
    if calls != [] {
      hide Recent, ReplyTo, Accepted, After, Ordered, Stored;
      var before, k := calls[..|calls| - 1], Last(calls);
      assert calls == before + [k] && k in calls;
      Prefix(before, k);
      AfterStep(limit, before, k, c);
      AcceptedStep(limit, before, k, c);
      var stored, a := Stored(After(limit, before), c), Accepted(limit, before, c);
      if k.client == c {
        RemembersRecent(limit, before, c, k.time);
        RecentStep(stored, a, if ReplyTo(limit, before, k) == Admitted then [k.time] else [], k.time, now);
      } else {
        RemembersRecent(limit, before, c, now);
        assert a + [] == a;
      }
    }
  }

  lemma Prefix(calls: seq<Call>, call: Call)
    requires Ordered(calls + [call])
    ensures Ordered(calls)
    ensures forall k <- calls :: k.client == call.client ==> k.time <= call.time
  {
    var all := calls + [call];
    assert forall i :: 0 <= i < |calls| ==> all[i] == calls[i];
    assert all[|calls|] == call;
  }

  /** A request is let in exactly when fewer than `limit` of the client's requests were let in
      during the minute up to it. */
  lemma AdmitsBySlidingWindow(limit: int, calls: seq<Call>, c: string, now: real)
    requires Ordered(calls + [Call(c, now)])
    ensures ReplyTo(limit, calls, Call(c, now)) == Admitted
            <==> Count(Accepted(limit, calls, c), InWindow(now - 60.0)) < limit
  {
    Prefix(calls, Call(c, now));
    RemembersRecent(limit, calls, c, now);
    AcceptedInOrder(limit, calls, c, now);
    RecentCounts(Accepted(limit, calls, c), now);
  }

  lemma NewestWindowHolds(a: seq<real>, x: real, now: real)
    requires NotAfter(a, now) && x < now <= x + WINDOW
    ensures Count(a, InWindow(x)) <= Count(a, InWindow(now - WINDOW))
  {
    CountImplies(a, InWindow(x), InWindow(now - WINDOW));
  }

  /** Whoever is let in finds room in every minute that covers the request. */
  lemma AdmittedFindsRoom(limit: int, before: seq<Call>, k: Call, x: real)
    requires Ordered(before + [k]) && ReplyTo(limit, before, k) == Admitted && x < k.time <= x + WINDOW
    ensures Count(Accepted(limit, before, k.client), InWindow(x)) < limit
  {
    Prefix(before, k);
    hide Accepted, Ordered, Count, ReplyTo;
    AdmitsBySlidingWindow(limit, before, k.client, k.time);
    AcceptedInOrder(limit, before, k.client, k.time);
    NewestWindowHolds(Accepted(limit, before, k.client), x, k.time);
  }

  /** No client gets more than `limit` requests in during any minute, however it is placed. */
  lemma {:induction false} AtMostLimitPerMinute(limit: int, calls: seq<Call>, c: string, x: real)
    requires limit >= 0 && Ordered(calls)
    ensures Count(Accepted(limit, calls, c), InWindow(x)) <= limit
  {
    if calls != [] {
      hide Accepted, Ordered, Count, ReplyTo;
      var before, k := calls[..|calls| - 1], Last(calls);
      assert calls == before + [k];
      Prefix(before, k);
      AcceptedStep(limit, before, k, c);
      AtMostLimitPerMinute(limit, before, c, x);
      var a := Accepted(limit, before, c);
      CountAppend(a, k.time, InWindow(x));
      assert a + [] == a;
      if k.client == c && ReplyTo(limit, before, k) == Admitted && x < k.time <= x + WINDOW {
        AdmittedFindsRoom(limit, before, k, x);
      }
    }
  }

  /** Without a positive limit nobody is ever let in, and nobody is told to retry either: the
      list of past requests stays empty and looking up its oldest entry fails. */
  lemma {:induction false} NonPositiveLimitCrashes(limit: int, calls: seq<Call>, call: Call)
    requires limit <= 0
    ensures ReplyTo(limit, calls, call) == Crashed
  {
    StaysEmpty(limit, calls);
  }

  lemma StaysEmpty(limit: int, calls: seq<Call>)
    requires limit <= 0
    ensures forall c <- After(limit, calls) :: After(limit, calls)[c] == []
  {
    if calls != [] { StaysEmpty(limit, calls[..|calls| - 1]); }
  }

  // ---- retrying ----

  /** The client's call at `now` was refused after `calls`; `more` lets nothing of it in, and it
      calls again at `again`. */
  ghost predicate Retries(limit: int, calls: seq<Call>, c: string, now: real, more: seq<Call>, again: real) {
    && limit >= 1
    && Ordered(calls + [Call(c, now)] + more + [Call(c, again)])
    && ReplyTo(limit, calls, Call(c, now)).TooMany?
    && Accepted(limit, calls + [Call(c, now)] + more, c) == Accepted(limit, calls, c)
  }

  /** When the refusal's oldest request was made. */
  function Oldest(limit: int, calls: seq<Call>, c: string, now: real): real
    requires ReplyTo(limit, calls, Call(c, now)).TooMany?
  {
    Recent(Stored(After(limit, calls), c), now)[0]
  }

  lemma OrderedPrefix(calls: seq<Call>, more: seq<Call>)
    requires Ordered(calls + more)
    ensures Ordered(calls)
  {
    assert forall i :: 0 <= i < |calls| ==> (calls + more)[i] == calls[i];
  }

  /** A refusal's hint is between one second and one minute. */
  lemma RetryAfterInRange(limit: int, calls: seq<Call>, c: string, now: real)
    requires limit >= 1 && Ordered(calls + [Call(c, now)])
    ensures !ReplyTo(limit, calls, Call(c, now)).Crashed?
    ensures ReplyTo(limit, calls, Call(c, now)).TooMany? ==>
              && 1 <= ReplyTo(limit, calls, Call(c, now)).retryAfter <= 60
              && 0.0 <= now - Oldest(limit, calls, c, now) < 60.0
              && Oldest(limit, calls, c, now) in Accepted(limit, calls, c)
              && Recent(Accepted(limit, calls, c), now) != []
              && Oldest(limit, calls, c, now) == Recent(Accepted(limit, calls, c), now)[0]
  {
    hide Recent, Accepted, After;
    Prefix(calls, Call(c, now));
    RemembersRecent(limit, calls, c, now);
    AcceptedInOrder(limit, calls, c, now);
    RecentIn(Accepted(limit, calls, c), now);
    if ReplyTo(limit, calls, Call(c, now)).TooMany? {
      assert Oldest(limit, calls, c, now) in Recent(Accepted(limit, calls, c), now);
    }
  }

  /** The refused client is let in again exactly from one minute after its oldest request on. */
  lemma RetryAdmittedExactly(limit: int, calls: seq<Call>, c: string, now: real, more: seq<Call>, again: real)
    requires Retries(limit, calls, c, now, more, again)
    ensures ReplyTo(limit, calls + [Call(c, now)] + more, Call(c, again)) == Admitted
            <==> again - Oldest(limit, calls, c, now) >= 60.0
  {
    hide Recent, Accepted, After, Serve;
    var all := calls + [Call(c, now)] + more;
    var a := Accepted(limit, calls, c);
    Prefix(all, Call(c, again));
    assert all[|calls|] == Call(c, now) && Call(c, now) in all;
    OrderedPrefix(calls + [Call(c, now)], more);
    Prefix(calls, Call(c, now));
    RemembersRecent(limit, calls, c, now);
    AdmitsBySlidingWindow(limit, all, c, again);
    AdmitsBySlidingWindow(limit, calls, c, now);
    AtMostLimitPerMinute(limit, calls, c, now - WINDOW);
    RecentIn(a, now);
    AcceptedInOrder(limit, calls, c, now);
    RetryAfterInRange(limit, calls, c, now);
    var oldest := Oldest(limit, calls, c, now);
    if again - oldest >= WINDOW {
      CountLess(a, InWindow(again - WINDOW), InWindow(now - WINDOW), oldest);
    } else {
      forall t <- a | InWindow(now - WINDOW)(t)
        ensures InWindow(again - WINDOW)(t)
      {
        RecentOldest(a, now, t);
      }
      CountImplies(a, InWindow(now - WINDOW), InWindow(again - WINDOW));
    }
  }

  /** The hint rounds the wait down, but not below one. */
  lemma HintAgainstWait(now: real, oldest: real)
    requires now - oldest < WINDOW
    ensures var hint, wait := RetryAfter(now, oldest), WINDOW - (now - oldest);
      && wait < (hint + 1) as real
      && (wait <= hint as real <==> wait <= 1.0 || wait == wait.Floor as real)
  {}

  /** Waiting one second longer than told is always enough. */
  lemma RetryAfterSuffices(limit: int, calls: seq<Call>, c: string, now: real, more: seq<Call>, again: real)
    requires Retries(limit, calls, c, now, more, again)
    requires again >= now + (ReplyTo(limit, calls, Call(c, now)).retryAfter + 1) as real
    ensures ReplyTo(limit, calls + [Call(c, now)] + more, Call(c, again)) == Admitted
  {
    HintIs(limit, calls, c, now, more, again);
    hide RetryAfter, ReplyTo, Oldest, Retries;
    RetryAdmittedExactly(limit, calls, c, now, more, again);
    HintAgainstWait(now, Oldest(limit, calls, c, now));
  }

  lemma HintIs(limit: int, calls: seq<Call>, c: string, now: real, more: seq<Call>, again: real)
    requires Retries(limit, calls, c, now, more, again)
    ensures ReplyTo(limit, calls, Call(c, now)).TooMany?
    ensures ReplyTo(limit, calls, Call(c, now)).retryAfter == RetryAfter(now, Oldest(limit, calls, c, now))
    ensures now - Oldest(limit, calls, c, now) < WINDOW
  {
    hide Recent, RetryAfter, After, Accepted;
    OrderedPrefix(calls + [Call(c, now)], more + [Call(c, again)]);
    assert calls + [Call(c, now)] + (more + [Call(c, again)]) == calls + [Call(c, now)] + more + [Call(c, again)];
    RetryAfterInRange(limit, calls, c, now);
  }

  /** Waiting exactly as long as told is enough only if the true wait is a whole number of
      seconds or at most one. */
  lemma RetryAfterExactness(limit: int, calls: seq<Call>, c: string, now: real, more: seq<Call>, again: real)
    requires Retries(limit, calls, c, now, more, again)
    requires again == now + ReplyTo(limit, calls, Call(c, now)).retryAfter as real
    ensures var wait := 60.0 - (now - Oldest(limit, calls, c, now));
            ReplyTo(limit, calls + [Call(c, now)] + more, Call(c, again)) == Admitted
            <==> wait <= 1.0 || wait == wait.Floor as real
  {
    HintIs(limit, calls, c, now, more, again);
    hide RetryAfter, ReplyTo, Oldest, Retries;
    RetryAdmittedExactly(limit, calls, c, now, more, again);
    HintAgainstWait(now, Oldest(limit, calls, c, now));
  }

  /** One request a minute allowed: half a second after the first, the second is told to come
      back in 59 seconds, and is refused when it does. */
  lemma RetryAfterCanFallShort()
    ensures var calls := [Call("c", 0.0)];
      && ReplyTo(1, calls, Call("c", 0.5)) == TooMany(59)
      && ReplyTo(1, calls + [Call("c", 0.5)], Call("c", 59.5)).TooMany?
  {
    var first, second := Call("c", 0.0), Call("c", 0.5);
    assert [first][..0] == [] && [first, second][..1] == [first] && [0.0][..0] == [];
    assert After(1, []) == map[];
    assert Recent([], 0.0) == [] && Recent([0.0], 0.5) == [0.0] && Recent([0.0], 59.5) == [0.0];
    assert Serve(1, map[], "c", 0.0).0 == map["c" := [0.0]];
    assert Serve(1, map["c" := [0.0]], "c", 0.5).0 == map["c" := [0.0]];
  }
}
