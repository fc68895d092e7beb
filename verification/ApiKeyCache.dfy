/** API keys behind a cache whose entries live thirty seconds, looked up and revoked by many
    threads. */
module ApiKeyCache {
  import opened Records

  const TTL := 30.0

  datatype Key = Key(id: Id, hash: string, org: string, role: Role, lastUsed: Option<real>, revoked: Option<real>)

  /** The rows of `api_keys`. */
  type Rows = seq<Key>

  datatype Entry = Entry(key: Key, at: real)

  type Cache = map<string, Entry>

  function ByHash(rows: Rows, hash: string): Option<Key> {
    if rows == [] then None
    else if Last(rows).hash == hash then Some(Last(rows))
    else ByHash(rows[..|rows| - 1], hash)
  }

  function ById(rows: Rows, id: Id): Option<Key> {
    if rows == [] then None
    else if Last(rows).id == id then Some(Last(rows))
    else ById(rows[..|rows| - 1], id)
  }

  function Update(rows: Rows, change: Key -> Key): Rows {
    if rows == [] then [] else Update(rows[..|rows| - 1], change) + [change(Last(rows))]
  }

  function Revoked(id: Id, org: string, time: real): Key -> Key {
    (k: Key) => if k.id == id && k.org == org && k.revoked.None? then k.(revoked := Some(time)) else k
  }

  function Used(id: Id, time: real): Key -> Key {
    (k: Key) => if k.id == id then k.(lastUsed := Some(time)) else k
  }

  function Resaved(key: Key): Key -> Key {
    (k: Key) => if k.id == key.id then k.(lastUsed := key.lastUsed, revoked := key.revoked) else k
  }

  /** The upsert by id; a hash that another id holds violates the unique constraint. */
  function Upsert(rows: Rows, key: Key): Option<Rows> {
    if ById(rows, key.id).Some? then Some(Update(rows, Resaved(key)))
    else if ByHash(rows, key.hash).Some? then None
    else Some(rows + [key])
  }

  predicate Fresh(cache: Cache, hash: string, now: real) {
    hash in cache && now - cache[hash].at < TTL
  }

  // ---- one call after another ----

  datatype Keys = Keys(rows: Rows, cache: Cache)

  function SaveKey(s: Keys, key: Key, now: real): Keys {
    match Upsert(s.rows, key)
    case None => s
    case Some(rows) => Keys(rows, s.cache[key.hash := Entry(key, now)])
  }

  function LookUp(s: Keys, hash: string, now: real): (Keys, Option<Key>) {
    if Fresh(s.cache, hash, now) then (s, Some(s.cache[hash].key))
    else match ByHash(s.rows, hash)
         case None => (s, None)
         case Some(key) => (s.(cache := s.cache[hash := Entry(key, now)]), Some(key))
  }

  function RevokeKey(s: Keys, id: Id, org: string, now: real): Keys {
    Keys(Update(s.rows, Revoked(id, org, now)), map[])
  }

  /** Nobody but the owner of the id and of the hash may be saved under them. */
  predicate Faithful(rows: Rows, key: Key) {
    match ById(rows, key.id)
    case None => true
    case Some(k) => k.hash == key.hash && k.org == key.org && k.role == key.role
  }

  ghost predicate Unique(rows: Rows) {
    forall i, j :: 0 <= i < j < |rows| ==> rows[i].id != rows[j].id && rows[i].hash != rows[j].hash
  }

  /** The same key, but for when it was last used. */
  predicate SameKey(a: Key, b: Key) {
    a.id == b.id && a.hash == b.hash && a.org == b.org && a.role == b.role && a.revoked == b.revoked
  }

  /** What the cache says about a key is what the table says. */
  ghost predicate Coherent(s: Keys) {
    && Unique(s.rows)
    && forall h <- s.cache :: ByHash(s.rows, h).Some? && SameKey(s.cache[h].key, ByHash(s.rows, h).value)
  }

  class KeyStore {
    var rows: Rows
    var cache: Cache

    constructor ()
      ensures View() == Keys([], map[])
    {
      rows := [];
      cache := map[];
    }

    function View(): Keys
      reads this
    {
      Keys(rows, cache)
    }

    method SaveApiKey(key: Key, now: real) returns (saved: bool)
      modifies this
      ensures View() == SaveKey(old(View()), key, now)
      ensures saved == Upsert(old(rows), key).Some?
    {
      var written := Upsert(rows, key);
      if written.None? {
        return false;
      }
      rows := written.value;
      cache := cache[key.hash := Entry(key, now)];
      return true;
    }

    method GetApiKeyByHash(hash: string, now: real) returns (key: Option<Key>)
      modifies `cache
      ensures (View(), key) == LookUp(old(View()), hash, now)
    {
      if hash in cache {
        var entry := cache[hash];
        if now - entry.at < TTL {
          return Some(entry.key);
        }
      }
      key := ByHash(rows, hash);
      if key.None? {
        return;
      }
      cache := cache[hash := Entry(key.value, now)];
    }

    method RevokeApiKey(id: Id, org: string, now: real) returns (revoked: bool)
      modifies this
      ensures View() == RevokeKey(old(View()), id, org, now)
      ensures revoked <==> exists k <- old(rows) :: k.id == id && k.org == org && k.revoked.None?
    {
      revoked := exists k <- rows :: k.id == id && k.org == org && k.revoked.None?;
      rows := Update(rows, Revoked(id, org, now));
      cache := map[];
    }
  }

  // ---- table facts ----

  lemma UpdateAt(rows: Rows, change: Key -> Key)
    ensures |Update(rows, change)| == |rows|
    ensures forall i :: 0 <= i < |rows| ==> Update(rows, change)[i] == change(rows[i])
  {}

  lemma UpdateByHash(rows: Rows, change: Key -> Key, hash: string)
    requires forall k :: change(k).hash == k.hash
    ensures ByHash(Update(rows, change), hash) ==
            match ByHash(rows, hash) case None => None case Some(k) => Some(change(k))
  {}

  lemma UpdateKeepsUnique(rows: Rows, change: Key -> Key)
    requires Unique(rows) && forall k :: change(k).hash == k.hash && change(k).id == k.id
    ensures Unique(Update(rows, change))
  {
    UpdateAt(rows, change);
  }

  lemma {:induction false} ByHashAt(rows: Rows, hash: string)
    ensures match ByHash(rows, hash)
            case None => forall k <- rows :: k.hash != hash
            case Some(k) => k in rows && k.hash == hash
  {
    if rows != [] {
      ByHashAt(rows[..|rows| - 1], hash);
      assert rows == rows[..|rows| - 1] + [Last(rows)];
    }
  }

  lemma {:induction false} ByIdAt(rows: Rows, id: Id)
    ensures match ById(rows, id)
            case None => forall k <- rows :: k.id != id
            case Some(k) => k in rows && k.id == id
  {
    if rows != [] {
      ByIdAt(rows[..|rows| - 1], id);
      assert rows == rows[..|rows| - 1] + [Last(rows)];
    }
  }

  /** A faithful save is read back as it was written, and touches no other key. */
  lemma UpsertReadsBack(rows: Rows, key: Key, hash: string)
    requires Unique(rows) && Upsert(rows, key).Some? && Faithful(rows, key)
    ensures Unique(Upsert(rows, key).value)
    ensures ByHash(Upsert(rows, key).value, hash) == if hash == key.hash then Some(key) else ByHash(rows, hash)
  {
    ByIdAt(rows, key.id);
    ByHashAt(rows, hash);
    ByHashAt(rows, key.hash);
    if ById(rows, key.id).Some? {
      UpdateByHash(rows, Resaved(key), hash);
      UpdateKeepsUnique(rows, Resaved(key));
    } else {
      assert (rows + [key])[..|rows|] == rows;
    }
  }

  /** A faithful save leaves the cache in agreement with the table. */
  lemma SaveKeepsCoherent(s: Keys, key: Key, now: real)
    requires Coherent(s) && Faithful(s.rows, key)
    ensures Coherent(SaveKey(s, key, now))
  {
    if Upsert(s.rows, key).Some? {
      UpsertReadsBack(s.rows, key, key.hash);
      forall h <- SaveKey(s, key, now).cache
        ensures ByHash(SaveKey(s, key, now).rows, h).Some?
        ensures SameKey(SaveKey(s, key, now).cache[h].key, ByHash(SaveKey(s, key, now).rows, h).value)
      {
        UpsertReadsBack(s.rows, key, h);
      }
    }
  }

  datatype Call =
    | CallSave(key: Key, now: real)
    | CallLookUp(hash: string, now: real)
    | CallRevoke(id: Id, org: string, now: real)
    | CallUsed(id: Id, now: real)

  function After(calls: seq<Call>): Keys {
    if calls == [] then Keys([], map[])
    else
      var s := After(calls[..|calls| - 1]);
      match Last(calls)
      case CallSave(key, now) => SaveKey(s, key, now)
      case CallLookUp(hash, now) => LookUp(s, hash, now).0
      case CallRevoke(id, org, now) => RevokeKey(s, id, org, now)
      case CallUsed(id, now) => s.(rows := Update(s.rows, Used(id, now)))
  }

  ghost predicate FaithfulCalls(calls: seq<Call>) {
    forall i :: 0 <= i < |calls| && calls[i].CallSave? ==> Faithful(After(calls[..i]).rows, calls[i].key)
  }

  lemma {:induction false} StaysCoherent(calls: seq<Call>)
    requires FaithfulCalls(calls)
    ensures Coherent(After(calls))
  {
    if calls != [] {
      var before := calls[..|calls| - 1];
      assert forall i :: 0 <= i < |before| ==> before[i] == calls[i] && before[..i] == calls[..i];
      StaysCoherent(before);
      var s := After(before);
      match Last(calls) {
        case CallSave(key, now) =>
          assert calls[|before|] == Last(calls);
          SaveKeepsCoherent(s, key, now);
        case CallLookUp(hash, now) =>
        case CallRevoke(id, org, now) => UpdateKeepsUnique(s.rows, Revoked(id, org, now));
        case CallUsed(id, now) =>
          UpdateKeepsUnique(s.rows, Used(id, now));
          forall h <- s.cache { UpdateByHash(s.rows, Used(id, now), h); }
      }
    }
  }

  /** In sequential use a lookup agrees with the table on everything but the last use, whatever the
      clock does: a revoked key is never returned as live. */
  lemma SequentialLookupsAreLive(calls: seq<Call>, hash: string, now: real)
    requires FaithfulCalls(calls)
    ensures var s, found := After(calls), LookUp(After(calls), hash, now).1;
      && (found.Some? <==> ByHash(s.rows, hash).Some?)
      && (found.Some? ==> found.value.hash == hash && SameKey(found.value, ByHash(s.rows, hash).value))
  {
    StaysCoherent(calls);
    ByHashAt(After(calls).rows, hash);
  }

  /** Recording a use touches the time of that key alone. */
  lemma UseExactly(rows: Rows, id: Id, now: real)
    ensures var rows1 := Update(rows, Used(id, now));
      |rows1| == |rows| && forall i | 0 <= i < |rows| ::
        rows1[i] == if rows[i].id == id then rows[i].(lastUsed := Some(now)) else rows[i]
  {
    UpdateAt(rows, Used(id, now));
  }

  /** What a revocation does to the rows and the cache: the organisation's live key of that id is
      revoked, all other rows stay, and nothing stays cached. */
  lemma RevokeExactly(s: Keys, id: Id, org: string, now: real)
    ensures var s1 := RevokeKey(s, id, org, now);
      && s1.cache == map[] && |s1.rows| == |s.rows|
      && forall i | 0 <= i < |s.rows| ::
           var k := s.rows[i];
           s1.rows[i] == if k.id == id && k.org == org && k.revoked == None then k.(revoked := Some(now)) else k
  {
    UpdateAt(s.rows, Revoked(id, org, now));
  }

  /** Saving a known id under a hash nobody has leaves the row's hash alone but caches the key under
      the new one, so a lookup finds a key the table does not have. */
  lemma UnfaithfulSaveIsServed(s: Keys, key: Key, now: real)
    requires ById(s.rows, key.id).Some? && ByHash(s.rows, key.hash).None?
    ensures var s1 := SaveKey(s, key, now);
      !Faithful(s.rows, key) && ByHash(s1.rows, key.hash) == None && LookUp(s1, key.hash, now).1 == Some(key)
  {
    ByIdAt(s.rows, key.id);
    ByHashAt(s.rows, key.hash);
    UpdateByHash(s.rows, Resaved(key), key.hash);
  }

  // ---- many threads ----

  datatype Thread =
    | Out
    | Asked(hash: string, now: real)
    | Missed(hash: string, now: real)
    | Holding(hash: string, now: real, key: Key)

  /** The table as it was at an instant. */
  datatype Snapshot = Snapshot(time: real, rows: Rows)

  datatype Answer = Answer(hash: string, asked: real, key: Option<Key>)

  datatype World = World(
    clock: real,
    rows: Rows,
    cache: Cache,
    threads: map<nat, Thread>,
    log: seq<Snapshot>,
    answers: seq<Answer>)

  datatype Move =
    | Ask(t: nat, hash: string)
    | CheckCache(t: nat)
    | Select(t: nat)
    | Fill(t: nat)
    | Save(key: Key)
    | WriteRevocation(id: Id, org: string)
    | ClearCache
    | Touch(id: Id)
    | Tick(seconds: real)

  function ThreadAt(s: World, t: nat): Thread {
    if t in s.threads then s.threads[t] else Out
  }

  function Answered(s: World, t: nat, key: Option<Key>): World
    requires !ThreadAt(s, t).Out?
  {
    s.(threads := s.threads[t := Out],
       answers := s.answers + [Answer(ThreadAt(s, t).hash, ThreadAt(s, t).now, key)])
  }

  /** The effect of one statement; a move that does not fit the thread's position does nothing. */
  function Act(s: World, m: Move): World {
    match m
    case Ask(t, hash) =>
      if ThreadAt(s, t).Out? then s.(threads := s.threads[t := Asked(hash, s.clock)]) else s
    case CheckCache(t) =>
      (match ThreadAt(s, t)
       case Asked(hash, now) =>
         if Fresh(s.cache, hash, now) then Answered(s, t, Some(s.cache[hash].key))
         else s.(threads := s.threads[t := Missed(hash, now)])
       case _ => s)
    case Select(t) =>
      (match ThreadAt(s, t)
       case Missed(hash, now) =>
         (match ByHash(s.rows, hash)
          case None => Answered(s, t, None)
          case Some(key) => s.(threads := s.threads[t := Holding(hash, now, key)]))
       case _ => s)
    case Fill(t) =>
      (match ThreadAt(s, t)
       case Holding(hash, now, key) => Answered(s, t, Some(key)).(cache := s.cache[hash := Entry(key, now)])
       case _ => s)
    case Save(key) =>
      (match Upsert(s.rows, key)
       case None => s
       case Some(rows) => s.(rows := rows, cache := s.cache[key.hash := Entry(key, s.clock)]))
    case WriteRevocation(id, org) => s.(rows := Update(s.rows, Revoked(id, org, s.clock)))
    case ClearCache => s.(cache := map[])
    case Touch(id) => s.(rows := Update(s.rows, Used(id, s.clock)))
    case Tick(seconds) => if seconds >= 0.0 then s.(clock := s.clock + seconds) else s
  }

  function Do(s: World, m: Move): World {
    var s1 := Act(s, m);
    s1.(log := s.log + [Snapshot(s1.clock, s1.rows)])
  }

  function Play(s: World, moves: seq<Move>): World {
    if moves == [] then s else Do(Play(s, moves[..|moves| - 1]), Last(moves))
  }

  function Start(clock: real): World {
    World(clock, [], map[], map[], [], [])
  }

  /** A lookup left alone does what the whole call does. */
  lemma UninterruptedLookUp(s: World, t: nat, hash: string)
    requires ThreadAt(s, t) == Out
    ensures var s1 := Do(Do(Do(Do(s, Ask(t, hash)), CheckCache(t)), Select(t)), Fill(t));
      var (keys, found) := LookUp(Keys(s.rows, s.cache), hash, s.clock);
      Keys(s1.rows, s1.cache) == keys && s1.answers == s.answers + [Answer(hash, s.clock, found)]
  {
    hide ByHash;
    var s1 := Do(s, Ask(t, hash));
    assert ThreadAt(s1, t) == Asked(hash, s.clock) && s1.rows == s.rows && s1.cache == s.cache;
    var s2 := Do(s1, CheckCache(t));
    assert Fresh(s.cache, hash, s.clock) ==> ThreadAt(s2, t) == Out;
    assert !Fresh(s.cache, hash, s.clock) ==> ThreadAt(s2, t) == Missed(hash, s.clock);
  }

  ghost predicate Seen(log: seq<Snapshot>, hash: string, key: Option<Key>, from: real) {
    exists i :: 0 <= i < |log| && log[i].time >= from && ByHash(log[i].rows, hash) == key
  }

  ghost predicate Sound(s: World) {
    && Unique(s.rows)
    && (forall i :: 0 <= i < |s.log| ==> s.log[i].time <= s.clock)
    && (forall h <- s.cache :: Seen(s.log, h, Some(s.cache[h].key), s.cache[h].at))
    && (forall t <- s.threads :: SoundThread(s, s.threads[t]))
    && (forall a <- s.answers :: SoundAnswer(s.log, a))
  }

  ghost predicate SoundThread(s: World, thread: Thread) {
    && (!thread.Out? ==> thread.now <= s.clock)
    && (thread.Holding? ==> Seen(s.log, thread.hash, Some(thread.key), thread.now))
  }

  ghost predicate SoundAnswer(log: seq<Snapshot>, a: Answer) {
    exists i :: 0 <= i < |log| && log[i].time > a.asked - TTL && ByHash(log[i].rows, a.hash) == a.key
  }

  ghost predicate FaithfulMoves(s: World, moves: seq<Move>) {
    forall i :: 0 <= i < |moves| && moves[i].Save? ==> Faithful(Play(s, moves[..i]).rows, moves[i].key)
  }

  lemma SeenGrows(log: seq<Snapshot>, more: seq<Snapshot>, hash: string, key: Option<Key>, from: real)
    requires Seen(log, hash, key, from)
    ensures Seen(log + more, hash, key, from)
  {
    var i :| 0 <= i < |log| && log[i].time >= from && ByHash(log[i].rows, hash) == key;
    assert (log + more)[i] == log[i];
  }

  lemma SoundAnswerGrows(log: seq<Snapshot>, more: seq<Snapshot>, a: Answer)
    requires SoundAnswer(log, a)
    ensures SoundAnswer(log + more, a)
  {
    var i :| 0 <= i < |log| && log[i].time > a.asked - TTL && ByHash(log[i].rows, a.hash) == a.key;
    assert (log + more)[i] == log[i];
  }

  lemma SeenNow(s: World, s1: World, hash: string, key: Option<Key>)
    requires s1.log == s.log + [Snapshot(s1.clock, s1.rows)] && ByHash(s1.rows, hash) == key
    ensures Seen(s1.log, hash, key, s1.clock)
  {
    assert s1.log[|s.log|] == Snapshot(s1.clock, s1.rows);
  }

  lemma ClockAndTableStaySound(s: World, m: Move)
    requires Sound(s) && (m.Save? ==> Faithful(s.rows, m.key))
    ensures Unique(Do(s, m).rows) && s.clock <= Do(s, m).clock
    ensures forall i :: 0 <= i < |Do(s, m).log| ==> Do(s, m).log[i].time <= Do(s, m).clock
  {
    match m {
      case Save(key) => if Upsert(s.rows, key).Some? { UpsertReadsBack(s.rows, key, key.hash); }
      case WriteRevocation(id, org) => UpdateKeepsUnique(s.rows, Revoked(id, org, s.clock));
      case Touch(id) => UpdateKeepsUnique(s.rows, Used(id, s.clock));
      case _ =>
    }
  }

  lemma CacheStaysSound(s: World, m: Move, h: string)
    requires Sound(s) && (m.Save? ==> Faithful(s.rows, m.key)) && h in Do(s, m).cache
    ensures Seen(Do(s, m).log, h, Some(Do(s, m).cache[h].key), Do(s, m).cache[h].at)
  {
    hide Seen, Update, Upsert, Unique, ByHash;
    var s1 := Do(s, m);
    if h in s.cache && s1.cache[h] == s.cache[h] {
      SeenGrows(s.log, [Snapshot(s1.clock, s1.rows)], h, Some(s.cache[h].key), s.cache[h].at);
    } else if m.Fill? {
      var thread := ThreadAt(s, m.t);
      assert SoundThread(s, thread);
      SeenGrows(s.log, [Snapshot(s1.clock, s1.rows)], h, Some(thread.key), thread.now);
    } else if m.Save? {
      UpsertReadsBack(s.rows, m.key, h);
      SeenNow(s, s1, h, Some(m.key));
    }
  }

  lemma ThreadsStaySound(s: World, m: Move, t: nat)
    requires Sound(s) && t in Do(s, m).threads
    requires s.clock <= Do(s, m).clock
    ensures SoundThread(Do(s, m), Do(s, m).threads[t])
  {
    hide Seen, Update, Upsert, Unique, ByHash;
    var s1 := Do(s, m);
    var thread := s1.threads[t];
    if t in s.threads && thread == s.threads[t] {
      assert SoundThread(s, thread);
      if thread.Holding? {
        SeenGrows(s.log, [Snapshot(s1.clock, s1.rows)], thread.hash, Some(thread.key), thread.now);
      }
    } else if m.Select? && thread.Holding? {
      SeenNow(s, s1, thread.hash, Some(thread.key));
      assert SoundThread(s, ThreadAt(s, t));
      SeenEarlier(s1.log, thread.hash, Some(thread.key), s1.clock, thread.now);
    } else if m.CheckCache? && !thread.Out? {
      assert SoundThread(s, ThreadAt(s, t));
    }
  }

  lemma SeenEarlier(log: seq<Snapshot>, hash: string, key: Option<Key>, from: real, earlier: real)
    requires Seen(log, hash, key, from) && earlier <= from
    ensures Seen(log, hash, key, earlier)
  {}

  lemma SeenAnswers(log: seq<Snapshot>, a: Answer, from: real)
    requires Seen(log, a.hash, a.key, from) && from > a.asked - TTL
    ensures SoundAnswer(log, a)
  {}

  lemma AnswersStaySound(s: World, m: Move, a: Answer)
    requires Sound(s) && a in Do(s, m).answers
    ensures SoundAnswer(Do(s, m).log, a)
  {
    hide Seen, Update, Upsert, Unique, ByHash, SoundAnswer;
    var s1 := Do(s, m);
    var more := [Snapshot(s1.clock, s1.rows)];
    if a in s.answers {
      SoundAnswerGrows(s.log, more, a);
    } else {
      var thread := ThreadAt(s, m.t);
      assert SoundThread(s, thread);
      match m {
        case CheckCache(_) =>
          SeenGrows(s.log, more, a.hash, a.key, s.cache[a.hash].at);
          SeenAnswers(s1.log, a, s.cache[a.hash].at);
        case Select(_) =>
          SeenNow(s, s1, a.hash, a.key);
          SeenAnswers(s1.log, a, s1.clock);
        case Fill(_) =>
          SeenGrows(s.log, more, a.hash, a.key, thread.now);
          SeenAnswers(s1.log, a, thread.now);
      }
    }
  }

  lemma MoveKeepsSound(s: World, m: Move)
    requires Sound(s) && (m.Save? ==> Faithful(s.rows, m.key))
    ensures Sound(Do(s, m))
  {
    hide Do, Seen, SoundThread, SoundAnswer, Unique;
    ClockAndTableStaySound(s, m);
    forall h <- Do(s, m).cache
      ensures Seen(Do(s, m).log, h, Some(Do(s, m).cache[h].key), Do(s, m).cache[h].at)
    {
      CacheStaysSound(s, m, h);
    }
    forall t <- Do(s, m).threads
      ensures SoundThread(Do(s, m), Do(s, m).threads[t])
    {
      ThreadsStaySound(s, m, t);
    }
    forall a <- Do(s, m).answers
      ensures SoundAnswer(Do(s, m).log, a)
    {
      AnswersStaySound(s, m, a);
    }
  }

  lemma {:induction false} PlayKeepsSound(s: World, moves: seq<Move>)
    requires Sound(s) && FaithfulMoves(s, moves)
    ensures Sound(Play(s, moves))
  {
    hide Sound, Do;
    if moves != [] {
      var before := moves[..|moves| - 1];
      assert forall i :: 0 <= i < |before| ==> before[i] == moves[i] && before[..i] == moves[..i];
      PlayKeepsSound(s, before);
      assert moves[|before|] == Last(moves);
      MoveKeepsSound(Play(s, before), Last(moves));
    }
  }

  /** However lookups, saves and revocations interleave, a lookup that took the time `asked`
      returns the key's row as it was in the table at some instant later than `asked` - 30 s. */
  lemma AnswersAreRecent(clock: real, moves: seq<Move>, a: Answer)
    requires FaithfulMoves(Start(clock), moves) && a in Play(Start(clock), moves).answers
    ensures var log := Play(Start(clock), moves).log;
            exists i :: 0 <= i < |log| && log[i].time > a.asked - 30.0 && ByHash(log[i].rows, a.hash) == a.key
  {
    PlayKeepsSound(Start(clock), moves);
    assert SoundAnswer(Play(Start(clock), moves).log, a);
  }

  // ---- revocation ----

  predicate Dead(rows: Rows, hash: string) {
    ByHash(rows, hash).Some? && ByHash(rows, hash).value.revoked.Some?
  }

  /** Since `time` the table has shown the key as revoked. */
  ghost predicate DeadSince(s: World, hash: string, time: real) {
    Dead(s.rows, hash) && forall i :: 0 <= i < |s.log| && s.log[i].time > time ==> Dead(s.log[i].rows, hash)
  }

  lemma MoveKeepsDead(s: World, m: Move, hash: string, time: real)
    requires DeadSince(s, hash, time) && Sound(s)
    requires m.Save? ==> Faithful(s.rows, m.key) && m.key.hash != hash
    ensures DeadSince(Do(s, m), hash, time)
  {
    match m {
      case Save(key) => if Upsert(s.rows, key).Some? { UpsertReadsBack(s.rows, key, hash); }
      case WriteRevocation(id, org) => UpdateByHash(s.rows, Revoked(id, org, s.clock), hash);
      case Touch(id) => UpdateByHash(s.rows, Used(id, s.clock), hash);
      case _ =>
    }
  }

  lemma {:induction false} PlayKeepsDead(s: World, moves: seq<Move>, n: nat, hash: string, time: real)
    requires n <= |moves| && Sound(s) && FaithfulMoves(s, moves)
    requires DeadSince(Play(s, moves[..n]), hash, time)
    requires forall i :: n <= i < |moves| && moves[i].Save? ==> moves[i].key.hash != hash
    ensures DeadSince(Play(s, moves), hash, time)
    decreases |moves|
  {
    hide Do, DeadSince, Sound;
    if n == |moves| {
      assert moves[..n] == moves;
    } else {
      var before := moves[..|moves| - 1];
      assert forall i :: 0 <= i < |before| ==> before[i] == moves[i] && before[..i] == moves[..i];
      assert before[..n] == moves[..n];
      PlayKeepsSound(s, before);
      PlayKeepsDead(s, before, n, hash, time);
      assert moves[|before|] == Last(moves);
      MoveKeepsDead(Play(s, before), Last(moves), hash, time);
    }
  }

  predicate Revokes(rows: Rows, m: Move, hash: string) {
    m.WriteRevocation? && ByHash(rows, hash).Some?
    && ByHash(rows, hash).value.id == m.id && ByHash(rows, hash).value.org == m.org
  }

  lemma RevocationKills(s: World, m: Move, hash: string)
    requires Sound(s) && Revokes(s.rows, m, hash)
    ensures DeadSince(Do(s, m), hash, s.clock)
  {
    UpdateByHash(s.rows, Revoked(m.id, m.org, s.clock), hash);
  }

  lemma PrefixIsFaithful(s: World, moves: seq<Move>, n: nat)
    requires n <= |moves| && FaithfulMoves(s, moves)
    ensures FaithfulMoves(s, moves[..n])
  {
    assert forall i :: 0 <= i < n ==> moves[..n][i] == moves[i] && moves[..n][..i] == moves[..i];
  }

  /** A key is revoked in the table by the n-th move, and not saved again. A lookup that took its
      time thirty seconds later or more returns it as revoked. */
  lemma RevokedKeysExpire(clock: real, moves: seq<Move>, n: nat, a: Answer)
    requires n < |moves| && FaithfulMoves(Start(clock), moves)
    requires Revokes(Play(Start(clock), moves[..n]).rows, moves[n], a.hash)
    requires a.asked >= Play(Start(clock), moves[..n]).clock + 30.0
    requires forall i :: n < i < |moves| && moves[i].Save? ==> moves[i].key.hash != a.hash
    requires a in Play(Start(clock), moves).answers
    ensures a.key.Some? && a.key.value.revoked.Some?
  {
    hide Do, Sound, FaithfulMoves, ByHash;
    var s := Play(Start(clock), moves[..n]);
    assert moves[..n + 1][..n] == moves[..n] && Last(moves[..n + 1]) == moves[n];
    assert Play(Start(clock), moves[..n + 1]) == Do(s, moves[n]);
    assert Sound(Start(clock)) by { StartIsSound(clock); }
    PrefixIsFaithful(Start(clock), moves, n);
    PlayKeepsSound(Start(clock), moves[..n]);
    RevocationKills(s, moves[n], a.hash);
    PlayKeepsDead(Start(clock), moves, n + 1, a.hash, s.clock);
    AnswersAreRecent(clock, moves, a);
  }

  lemma StartIsSound(clock: real)
    ensures Sound(Start(clock))
  {}

  lemma {:induction false} PlayFrom(s: World, m: Move, moves: seq<Move>)
    ensures Play(s, [m] + moves) == Play(Do(s, m), moves)
  {
    hide Do;
    if moves == [] {
      assert [m] + moves == [m] && [m][..0] == [];
    } else {
      assert ([m] + moves)[..|moves|] == [m] + moves[..|moves| - 1];
      PlayFrom(s, m, moves[..|moves| - 1]);
    }
  }

  /** Saved, looked up by thread 0, revoked and cleared before thread 0 stores what it read, and
      looked up by thread 1 some seconds later. */
  function StaleFill(key: Key, delay: real): seq<Move> {
    [Save(key)] + ([ClearCache] + ([Ask(0, key.hash)] + ([CheckCache(0)] + ([Select(0)] +
    ([WriteRevocation(key.id, key.org)] + ([ClearCache] + ([Fill(0)] + ([Tick(delay)] +
    ([Ask(1, key.hash)] + ([CheckCache(1)] + []))))))))))
  }

  lemma PlayStaleFill(key: Key, clock: real, delay: real)
    ensures var s1 := Do(Do(Start(clock), Save(key)), ClearCache);
      var s2 := Do(Do(Do(s1, Ask(0, key.hash)), CheckCache(0)), Select(0));
      var s3 := Do(Do(s2, WriteRevocation(key.id, key.org)), ClearCache);
      Play(Start(clock), StaleFill(key, delay)) ==
      Do(Do(Do(Do(s3, Fill(0)), Tick(delay)), Ask(1, key.hash)), CheckCache(1))
  {
    hide Do, Play;
    forall s: World, m: Move, moves: seq<Move>
      ensures Play(s, [m] + moves) == Play(Do(s, m), moves)
    {
      PlayFrom(s, m, moves);
    }
    PlayNothing();
  }

  lemma PlayNothing()
    ensures forall s :: Play(s, []) == s
  {}

  /** Thread 0 has read the live row of a table that holds only this key. */
  ghost predicate ReadLive(s: World, key: Key) {
    && s.rows == [key] && s.answers == [] && ThreadAt(s, 1) == Out
    && ThreadAt(s, 0) == Holding(key.hash, s.clock, key)
  }

  lemma LookUpReadsLive(key: Key, clock: real)
    ensures var s1 := Do(Do(Start(clock), Save(key)), ClearCache);
      var s2 := Do(Do(Do(s1, Ask(0, key.hash)), CheckCache(0)), Select(0));
      ReadLive(s2, key) && s2.clock == clock
  {
    var s1 := Do(Do(Start(clock), Save(key)), ClearCache);
    assert [key][..0] == [];
    assert s1.rows == [key] && s1.cache == map[] && s1.answers == [] && s1.threads == map[];
  }

  lemma RevocationLeavesReader(s: World, key: Key)
    requires ReadLive(s, key) && key.revoked.None?
    ensures var s1 := Do(Do(s, WriteRevocation(key.id, key.org)), ClearCache);
      && Dead(s1.rows, key.hash) && s1.answers == [] && s1.clock == s.clock && s1.threads == s.threads
  {
    UpdateAt([key], Revoked(key.id, key.org, s.clock));
    UpdateByHash([key], Revoked(key.id, key.org, s.clock), key.hash);
  }

  lemma FillServesLive(s: World, key: Key, delay: real)
    requires ThreadAt(s, 1) == Out && ThreadAt(s, 0) == Holding(key.hash, s.clock, key) && s.answers == []
    requires 0.0 <= delay < TTL
    ensures var s1 := Do(Do(Do(Do(s, Fill(0)), Tick(delay)), Ask(1, key.hash)), CheckCache(1));
      && s1.rows == s.rows
      && |s1.answers| == 2 && s1.answers[1] == Answer(key.hash, s.clock + delay, Some(key))
  {
    hide ByHash, Update, Upsert;
    var s1 := Do(Do(s, Fill(0)), Tick(delay));
    assert s1.cache[key.hash] == Entry(key, s.clock) && s1.clock == s.clock + delay;
  }

  lemma {:induction false} OnlyTicksMoveTime(s: World, moves: seq<Move>)
    requires forall m <- moves :: !m.Tick?
    ensures Play(s, moves).clock == s.clock
  {
    if moves != [] { OnlyTicksMoveTime(s, moves[..|moves| - 1]); }
  }

  lemma RevocationComesSixth(key: Key, clock: real, delay: real)
    ensures var moves := StaleFill(key, delay);
      |moves| > 5 && moves[5] == WriteRevocation(key.id, key.org) && Play(Start(clock), moves[..5]).clock == clock
  {
    hide Play, Do;
    var before := [Save(key), ClearCache, Ask(0, key.hash), CheckCache(0), Select(0)];
    assert StaleFill(key, delay)[..5] == before;
    OnlyTicksMoveTime(Start(clock), before);
  }

  /** Thirty seconds is exact: a lookup that read the row before the revocation and stores it after
      the cache was cleared makes another lookup, less than thirty seconds after the revocation,
      return the revoked key as live. */
  lemma RevokedKeyCanBeServed(key: Key, clock: real, delay: real)
    requires key.revoked.None? && 0.0 <= delay < 30.0
    ensures var moves := StaleFill(key, delay);
      var s := Play(Start(clock), moves);
      && |moves| > 5 && moves[5] == WriteRevocation(key.id, key.org) && Play(Start(clock), moves[..5]).clock == clock
      && Dead(s.rows, key.hash)
      && |s.answers| == 2 && s.answers[1] == Answer(key.hash, clock + delay, Some(key))
  {
    var s1 := Do(Do(Start(clock), Save(key)), ClearCache);
    var s2 := Do(Do(Do(s1, Ask(0, key.hash)), CheckCache(0)), Select(0));
    LookUpReadsLive(key, clock);
    RevocationLeavesReader(s2, key);
    hide Do, Play, StaleFill;
    FillServesLive(Do(Do(s2, WriteRevocation(key.id, key.org)), ClearCache), key, delay);
    PlayStaleFill(key, clock, delay);
    RevocationComesSixth(key, clock, delay);
  }
}
