/** Deterministic hashing: sort every object by key, print, digest. */
module Hashing {
  import opened Records
  import opened Json

  // ---- sorting by key ----

  /** Strings compare character by character, a prefix before what it starts. */
  predicate KeyLe(a: string, b: string) {
    a == "" || (b != "" && (a[0] < b[0] || (a[0] == b[0] && KeyLe(a[1..], b[1..]))))
  }

  function Insert(m: Member, ms: seq<Member>): seq<Member> {
    if ms == [] then [m]
    else if KeyLe(m.key, ms[0].key) then [m] + ms
    else [ms[0]] + Insert(m, ms[1..])
  }

  function Sort(ms: seq<Member>): seq<Member> {
    if ms == [] then [] else Insert(ms[0], Sort(ms[1..]))
  }

  ghost predicate Sorted(ms: seq<Member>) {
    forall i, j :: 0 <= i < j < |ms| ==> KeyLe(ms[i].key, ms[j].key) && ms[i].key != ms[j].key
  }

  ghost predicate SameMembers(ms: seq<Member>, ns: seq<Member>) {
    forall m :: m in ms <==> m in ns
  }

  lemma {:induction false} KeyOrder(a: string, b: string)
    ensures KeyLe(a, b) || KeyLe(b, a)
    ensures KeyLe(a, b) && KeyLe(b, a) ==> a == b
  {
    if a != "" && b != "" && a[0] == b[0] {
      KeyOrder(a[1..], b[1..]);
      assert a == [a[0]] + a[1..] && b == [b[0]] + b[1..];
    }
  }

  lemma {:induction false} KeyTransitive(a: string, b: string, c: string)
    requires KeyLe(a, b) && KeyLe(b, c)
    ensures KeyLe(a, c)
  {
    if a != "" && a[0] == b[0] == c[0] { KeyTransitive(a[1..], b[1..], c[1..]); }
  }

  lemma {:induction false} InsertMembers(m: Member, ms: seq<Member>)
    ensures |Insert(m, ms)| == |ms| + 1
    ensures forall n :: n in Insert(m, ms) <==> n == m || n in ms
  {
    if ms != [] && !KeyLe(m.key, ms[0].key) {
      InsertMembers(m, ms[1..]);
      assert ms == [ms[0]] + ms[1..];
    }
  }

  lemma {:induction false} SortMembers(ms: seq<Member>)
    ensures |Sort(ms)| == |ms| && SameMembers(Sort(ms), ms)
  {
    if ms != [] {
      SortMembers(ms[1..]);
      InsertMembers(ms[0], Sort(ms[1..]));
      assert ms == [ms[0]] + ms[1..];
    }
  }

  lemma {:induction false} InsertSorted(m: Member, ms: seq<Member>)
    requires Sorted(ms) && forall n <- ms :: n.key != m.key
    ensures Sorted(Insert(m, ms))
  {
    if ms != [] {
      KeyOrder(m.key, ms[0].key);
      if KeyLe(m.key, ms[0].key) {
        forall n <- ms ensures KeyLe(m.key, n.key) {
          if n != ms[0] { KeyTransitive(m.key, ms[0].key, n.key); }
        }
      } else {
        InsertSorted(m, ms[1..]);
        InsertMembers(m, ms[1..]);
        forall n <- Insert(m, ms[1..]) ensures KeyLe(ms[0].key, n.key) && n.key != ms[0].key {}
      }
    }
  }

  lemma {:induction false} SortSorted(ms: seq<Member>)
    requires DistinctKeys(ms)
    ensures Sorted(Sort(ms))
  {
    if ms != [] {
      SortSorted(ms[1..]);
      SortMembers(ms[1..]);
      InsertSorted(ms[0], Sort(ms[1..]));
    }
  }

  lemma SameHead(ms: seq<Member>, ns: seq<Member>)
    requires Sorted(ms) && Sorted(ns) && SameMembers(ms, ns) && ms != []
    ensures ns != [] && ms[0] == ns[0] && SameMembers(ms[1..], ns[1..])
  {
    assert ms[0] in ns;
    assert ns[0] in ms;
    KeyOrder(ms[0].key, ns[0].key);
    hide KeyLe;
    assert ms == [ms[0]] + ms[1..] && ns == [ns[0]] + ns[1..];
    assert ms[0] == ns[0];
    assert forall m <- ms[1..] :: m.key != ms[0].key;
    assert forall n <- ns[1..] :: n.key != ns[0].key;
    forall m ensures m in ms[1..] <==> m in ns[1..] {
      assert m in ms <==> m in ns;
    }
  }

  /** A set of members has one sorted order. */
  lemma {:induction false} SortedUnique(ms: seq<Member>, ns: seq<Member>)
    requires Sorted(ms) && Sorted(ns) && SameMembers(ms, ns)
    ensures ms == ns
  {
    hide KeyLe;
    assert ns == [] || ns[0] in ms;
    if ms != [] {
      SameHead(ms, ns);
      assert ms == [ms[0]] + ms[1..] && ns == [ns[0]] + ns[1..];
      SortedUnique(ms[1..], ns[1..]);
    }
  }

  // ---- canonical forms ----

  function Canon(j: Json): Json {
    match j
    case List(items) => List(seq(|items|, i requires 0 <= i < |items| => Canon(items[i])))
    case Obj(members) => Obj(Sort(CanonMembers(members)))
    case _ => j
  }

  /** The members of an object, their values made canonical, before sorting. */
  function CanonMembers(members: seq<Member>): (ms: seq<Member>)
    ensures |ms| == |members|
  {
    seq(|members|, i requires 0 <= i < |members| => Member(members[i].key, Canon(members[i].value)))
  }

  /** Every object's members are sorted by key. */
  ghost predicate Ordered(j: Json) {
    match j
    case List(items) => forall i :: 0 <= i < |items| ==> Ordered(items[i])
    case Obj(members) => Sorted(members) && forall i :: 0 <= i < |members| ==> Ordered(members[i].value)
    case _ => true
  }

  /** Looking a key up. */
  function Find(ms: seq<Member>, key: string): (r: Option<Json>)
    ensures match r
            case None => forall m <- ms :: m.key != key
            case Some(v) => exists i :: 0 <= i < |ms| && ms[i] == Member(key, v)
  {
    if ms == [] then None else if ms[0].key == key then Some(ms[0].value) else Find(ms[1..], key)
  }

  /** Equality of values in which objects are dictionaries: the order of keys does not matter, at
      any depth. */
  ghost predicate Equivalent(a: Json, b: Json) {
    match a
    case List(items) =>
      b.List? && |items| == |b.items| && forall i :: 0 <= i < |items| ==> Equivalent(items[i], b.items[i])
    case Obj(members) =>
      b.Obj? && forall key: string ::
        (match Find(members, key)
         case None => Find(b.members, key).None?
         case Some(v) => Find(b.members, key).Some? && Equivalent(v, Find(b.members, key).value))
    case _ => a == b
  }

  lemma {:induction false} CanonIsOrdered(j: Json)
    requires WellFormed(j)
    ensures WellFormed(Canon(j)) && Ordered(Canon(j))
  {
    match j {
      case List(items) =>
        forall i | 0 <= i < |items| ensures WellFormed(Canon(items[i])) && Ordered(Canon(items[i])) {
          CanonIsOrdered(items[i]);
        }
      case Obj(members) =>
        forall i | 0 <= i < |members| ensures WellFormed(Canon(members[i].value)) && Ordered(Canon(members[i].value)) {
          CanonIsOrdered(members[i].value);
        }
        var ms := CanonMembers(members);
        SortSorted(ms);
        SortMembers(ms);
        assert forall m <- Sort(ms) :: m in ms;
        assert forall m <- ms :: WellFormed(m.value) && Ordered(m.value);
      case _ =>
    }
  }

  lemma {:induction false} OrderedIsCanonical(j: Json)
    requires WellFormed(j) && Ordered(j)
    ensures Canon(j) == j
  {
    match j {
      case List(items) =>
        forall i | 0 <= i < |items| ensures Canon(items[i]) == items[i] {
          OrderedIsCanonical(items[i]);
        }
      case Obj(members) =>
        forall i | 0 <= i < |members| ensures Canon(members[i].value) == members[i].value {
          OrderedIsCanonical(members[i].value);
        }
        assert CanonMembers(members) == members;
        SortSorted(members);
        SortMembers(members);
        SortedUnique(Sort(members), members);
      case _ =>
    }
  }

  /** Making a value canonical twice is making it canonical once. */
  lemma CanonIdempotent(j: Json)
    requires WellFormed(j)
    ensures Canon(Canon(j)) == Canon(j)
  {
    CanonIsOrdered(j);
    OrderedIsCanonical(Canon(j));
  }

  lemma FindDistinct(ms: seq<Member>, m: Member)
    requires DistinctKeys(ms)
    ensures m in ms <==> Find(ms, m.key) == Some(m.value)
  {}

  lemma FindCanon(ms: seq<Member>, key: string)
    requires DistinctKeys(ms)
    ensures Find(CanonMembers(ms), key) == match Find(ms, key) case None => None case Some(v) => Some(Canon(v))
  {
    var cs := CanonMembers(ms);
    match Find(ms, key) {
      case None => assert forall m <- cs :: m.key != key;
      case Some(v) =>
        var i :| 0 <= i < |ms| && ms[i] == Member(key, v);
        assert cs[i] == Member(key, Canon(v));
        FindDistinct(cs, cs[i]);
    }
  }

  lemma SameFindSameOrder(ms: seq<Member>, ns: seq<Member>)
    requires DistinctKeys(ms) && DistinctKeys(ns) && forall key :: Find(ms, key) == Find(ns, key)
    ensures Sort(ms) == Sort(ns)
  {
    SortSorted(ms);
    SortSorted(ns);
    SortMembers(ms);
    SortMembers(ns);
    forall m: Member ensures m in ms <==> m in ns {
      FindDistinct(ms, m);
      FindDistinct(ns, m);
    }
    SortedUnique(Sort(ms), Sort(ns));
  }

  lemma SameOrderSameFind(ms: seq<Member>, ns: seq<Member>, key: string)
    requires DistinctKeys(ms) && DistinctKeys(ns) && Sort(ms) == Sort(ns)
    ensures Find(ms, key) == Find(ns, key)
  {
    hide Sort, DistinctKeys;
    SortMembers(ms);
    SortMembers(ns);
    if v: Json :| Find(ms, key) == Some(v) || Find(ns, key) == Some(v) {
      var m := Member(key, v);
      FindDistinct(ms, m);
      FindDistinct(ns, m);
      assert m in ms <==> m in Sort(ms);
      assert m in ns <==> m in Sort(ns);
    }
  }

  lemma {:induction false} EquivalentHaveOneCanon(a: Json, b: Json)
    requires WellFormed(a) && WellFormed(b) && Equivalent(a, b)
    ensures Canon(a) == Canon(b)
  {
    match a {
      case List(items) =>
        forall i | 0 <= i < |items| ensures Canon(items[i]) == Canon(b.items[i]) {
          EquivalentHaveOneCanon(items[i], b.items[i]);
        }
      case Obj(members) =>
        forall key ensures Find(CanonMembers(members), key) == Find(CanonMembers(b.members), key) {
          FindCanon(members, key);
          FindCanon(b.members, key);
          if Find(members, key).Some? {
            EquivalentHaveOneCanon(Find(members, key).value, Find(b.members, key).value);
          }
        }
        SameFindSameOrder(CanonMembers(members), CanonMembers(b.members));
      case _ =>
    }
  }

  lemma {:induction false} OneCanonMeansEquivalent(a: Json, b: Json)
    requires WellFormed(a) && WellFormed(b) && Canon(a) == Canon(b)
    ensures Equivalent(a, b)
  {
    match a {
      case List(items) =>
        forall i | 0 <= i < |items| ensures Equivalent(items[i], b.items[i]) {
          assert Canon(items[i]) == Canon(a).items[i] == Canon(b).items[i] == Canon(b.items[i]);
          OneCanonMeansEquivalent(items[i], b.items[i]);
        }
      case Obj(members) =>
        forall key
          ensures match Find(members, key)
                  case None => Find(b.members, key).None?
                  case Some(v) => Find(b.members, key).Some? && Equivalent(v, Find(b.members, key).value)
        {
          FindCanon(members, key);
          FindCanon(b.members, key);
          SameOrderSameFind(CanonMembers(members), CanonMembers(b.members), key);
          if Find(members, key).Some? {
            OneCanonMeansEquivalent(Find(members, key).value, Find(b.members, key).value);
          }
        }
      case _ =>
    }
  }

  // ---- serializing and hashing ----

  /** `_sort_dict` sorts, and printing with sorted keys sorts again. */
  function Serialize(j: Json): string {
    Print(Canon(Canon(j)))
  }

  /** The SHA-256 digest of a text is represented by the text, which makes it injective. */
  datatype Hash = NullHash | EmptyHash | Sha256(text: string)

  function DeterministicHash(j: Json): Hash {
    if j.Null? then NullHash
    else if Serialize(j) in {"{}", "[]", "\"\""} then EmptyHash
    else Sha256(Serialize(j))
  }

  predicate IsEmpty(j: Json) {
    j == Obj([]) || j == List([]) || j == Str("")
  }

  /** The serialized text is JSON for the value it came from, up to the order of keys. */
  lemma SerializeDecodes(j: Json)
    requires WellFormed(j)
    ensures ReadValue(Serialize(j)) == Some((Canon(j), "")) && Equivalent(j, Canon(j))
  {
    CanonIdempotent(j);
    CanonIsOrdered(j);
    RoundTrip(Canon(j), "");
    assert Print(Canon(j)) + "" == Print(Canon(j));
    OneCanonMeansEquivalent(j, Canon(j));
  }

  /** Two values serialize to one text exactly when they differ only in the order of keys. */
  lemma SerializedEqualExactly(a: Json, b: Json)
    requires WellFormed(a) && WellFormed(b)
    ensures Serialize(a) == Serialize(b) <==> Equivalent(a, b)
  {
    if Serialize(a) == Serialize(b) {
      SerializeDecodes(a);
      SerializeDecodes(b);
      OneCanonMeansEquivalent(a, b);
    }
    if Equivalent(a, b) { EquivalentHaveOneCanon(a, b); }
  }

  lemma EmptyTexts(j: Json)
    requires WellFormed(j)
    ensures Serialize(j) in {"{}", "[]", "\"\""} <==> IsEmpty(j)
  {
    CanonIdempotent(j);
    CanonIsOrdered(j);
    assert Quoted("") == "\"" && Print(Str("")) == "\"\"";
    if Print(Canon(j)) in {"{}", "[]", "\"\""} {
      var e := if Print(Canon(j)) == "{}" then Obj([]) else if Print(Canon(j)) == "[]" then List([]) else Str("");
      assert Print(e) == Print(Canon(j)) && WellFormed(e);
      PrintInjective(e, Canon(j));
      if j.Obj? { SortMembers(CanonMembers(j.members)); }
    }
  }

  /** Two hashes are equal exactly when the values differ only in the order of keys, or both are an
      empty object, list or string. */
  lemma HashesEqualExactly(a: Json, b: Json)
    requires WellFormed(a) && WellFormed(b)
    ensures DeterministicHash(a) == DeterministicHash(b) <==> Equivalent(a, b) || (IsEmpty(a) && IsEmpty(b))
  {
    EmptyTexts(a);
    EmptyTexts(b);
    SerializedEqualExactly(a, b);
  }

  // ---- the order of keys ----

  /** The first string is a proper prefix of the second, or has the smaller character where they
      first differ. */
  ghost predicate Precedes(a: string, b: string) {
    exists k ::
      && 0 <= k <= |a| && k <= |b| && a[..k] == b[..k]
      && (k == |a| < |b| || (k < |a| && k < |b| && a[k] < b[k]))
  }

  /** In every object, at any depth, each key precedes all later ones. */
  ghost predicate KeysAscend(j: Json) {
    match j
    case List(items) => forall i :: 0 <= i < |items| ==> KeysAscend(items[i])
    case Obj(members) =>
      && (forall i, l :: 0 <= i < l < |members| ==> Precedes(members[i].key, members[l].key))
      && forall i :: 0 <= i < |members| ==> KeysAscend(members[i].value)
    case _ => true
  }

  lemma {:induction false} SmallerPrecedes(a: string, b: string)
    requires KeyLe(a, b) && a != b
    ensures Precedes(a, b)
  {
    if a == "" {
      assert a[..0] == b[..0];
    } else if a[0] < b[0] {
      assert a[..0] == b[..0];
    } else {
      assert a == [a[0]] + a[1..] && b == [b[0]] + b[1..];
      SmallerPrecedes(a[1..], b[1..]);
      var k :| 0 <= k <= |a[1..]| && k <= |b[1..]| && a[1..][..k] == b[1..][..k]
        && (k == |a[1..]| < |b[1..]| || (k < |a[1..]| && k < |b[1..]| && a[1..][k] < b[1..][k]));
      assert a[..k + 1] == [a[0]] + a[1..][..k] && b[..k + 1] == [b[0]] + b[1..][..k];
      assert a[..k + 1] == b[..k + 1];
    }
  }

  lemma {:induction false} OrderedAscends(j: Json)
    requires Ordered(j)
    ensures KeysAscend(j)
  {
    match j {
      case List(items) => forall i | 0 <= i < |items| ensures KeysAscend(items[i]) { OrderedAscends(items[i]); }
      case Obj(members) =>
        forall i | 0 <= i < |members| ensures KeysAscend(members[i].value) { OrderedAscends(members[i].value); }
        forall i, l | 0 <= i < l < |members| ensures Precedes(members[i].key, members[l].key) {
          SmallerPrecedes(members[i].key, members[l].key);
        }
      case _ =>
    }
  }

  /** The serialized text reads back as the value with the keys of every object ascending. */
  lemma SerializeSortsKeys(j: Json)
    requires WellFormed(j)
    ensures KeysAscend(Canon(j)) && ReadValue(Serialize(j)) == Some((Canon(j), "")) && Equivalent(j, Canon(j))
  {
    CanonIsOrdered(j);
    OrderedAscends(Canon(j));
    SerializeDecodes(j);
  }

  /** What the hash is a digest of, and when it is one of the two fixed answers. */
  lemma HashExactly(j: Json)
    requires WellFormed(j)
    ensures DeterministicHash(j) ==
            if j == Null then NullHash
            else if j in {Obj([]), List([]), Str("")} then EmptyHash
            else Sha256(Serialize(j))
  {
    EmptyTexts(j);
  }
}
