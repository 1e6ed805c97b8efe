/**
 * Parsed JSON values as the handler sees them after `JSON.parse`.
 * An object is the list of its own properties in property order, so that
 * `obj[k] = v` and `delete obj[k]` can be modelled as the engine performs them.
 */
module Json {
  import opened Wrappers

  /** Numbers are kept as integers: the core never computes with them. */
  datatype Json =
    | JNull
    | JBool(b: bool)
    | JNumber(n: int)
    | JString(s: string)
    | JArray(elements: seq<Json>)
    | JObject(members: seq<Member>)

  /** One own property of an object. */
  datatype Member = Member(key: string, value: Json)

  /** The own keys of an object, in property order (what `for (k in obj)` enumerates). */
  function KeysOf(ms: seq<Member>): seq<string>
  {
    seq(|ms|, i requires 0 <= i < |ms| => ms[i].key)
  }

  /** A JavaScript object never has two own properties with the same key. */
  predicate DistinctKeys(ms: seq<Member>)
  {
    forall i, j :: 0 <= i < j < |ms| ==> ms[i].key != ms[j].key
  }

  /** `obj[k]`, with `None` for a key that is not an own property. */
  function Get(ms: seq<Member>, k: string): (r: Option<Json>)
    ensures r.Some? <==> exists i :: 0 <= i < |ms| && ms[i].key == k
    ensures r.Some? ==> Member(k, r.value) in ms
  {
    if ms == [] then None
    else if ms[0].key == k then Some(ms[0].value)
    else Get(ms[1..], k)
  }

  /**
   * `obj[k] = v`: an existing property keeps its place and takes the new
   * value, a new one is appended as the last property.
   */
  function Set(ms: seq<Member>, k: string, v: Json): (r: seq<Member>)
    ensures forall t :: Get(r, t) == if t == k then Some(v) else Get(ms, t)
    ensures DistinctKeys(ms) ==> DistinctKeys(r)
    ensures forall m :: m in r ==> m in ms || m == Member(k, v)
  {
    if ms == [] then [Member(k, v)]
    else if ms[0].key == k then [Member(k, v)] + ms[1..]
    else
      var rest := Set(ms[1..], k, v);
      assert forall t :: t != ms[0].key ==> Get([ms[0]] + rest, t) == Get(rest, t);
      if DistinctKeys(ms) then DistinctCons(ms, ms[0], rest); [ms[0]] + rest
      else [ms[0]] + rest
  }

  /** `obj[k] = v` for a key the object lacks appends the property last. */
  lemma SetAppendsNewKey(ms: seq<Member>, k: string, v: Json)
    requires Get(ms, k).None?
    ensures Set(ms, k, v) == ms + [Member(k, v)]
  {
    SetAppendsAbsent(ms, k, v);
  }

  lemma {:induction false} SetAppendsAbsent(ms: seq<Member>, k: string, v: Json)
    requires forall i :: 0 <= i < |ms| ==> ms[i].key != k
    ensures Set(ms, k, v) == ms + [Member(k, v)]
  {
    if ms != [] {
      var tail := ms[1..];
      assert forall i :: 0 <= i < |tail| ==> tail[i] == ms[i + 1];
      SetAppendsAbsent(tail, k, v);
      assert Set(ms, k, v) == [ms[0]] + Set(tail, k, v);
      assert [ms[0]] + tail == ms;
    }
  }

  /** `obj[k] = v` never moves a property: the keys stay in their places. */
  lemma {:induction false} SetKeepsKeys(ms: seq<Member>, k: string, v: Json)
    requires Get(ms, k).Some?
    ensures |Set(ms, k, v)| == |ms|
    ensures forall i :: 0 <= i < |ms| ==> Set(ms, k, v)[i].key == ms[i].key
  {
    if ms[0].key != k {
      assert Get(ms[1..], k).Some?;
      SetKeepsKeys(ms[1..], k, v);
      var r := Set(ms, k, v);
      assert r == [ms[0]] + Set(ms[1..], k, v);
      forall i | 0 < i < |ms| ensures r[i].key == ms[i].key {
        assert r[i] == Set(ms[1..], k, v)[i - 1];
      }
    }
  }

  /** `delete obj[k]`: the property disappears, the others keep their order. */
  function Remove(ms: seq<Member>, k: string): (r: seq<Member>)
    ensures forall t :: Get(r, t) == if t == k then None else Get(ms, t)
    ensures DistinctKeys(ms) ==> DistinctKeys(r)
    ensures forall m :: m in r ==> m in ms
  {
    if ms == [] then []
    else if ms[0].key == k then Remove(ms[1..], k)
    else
      var rest := Remove(ms[1..], k);
      assert forall t :: t != ms[0].key ==> Get([ms[0]] + rest, t) == Get(rest, t);
      if DistinctKeys(ms) then DistinctCons(ms, ms[0], rest); [ms[0]] + rest
      else [ms[0]] + rest
  }

  /** Putting a property in front of a list that lacks its key keeps keys distinct. */
  lemma DistinctCons(ms: seq<Member>, m: Member, rest: seq<Member>)
    requires DistinctKeys(ms) && ms != [] && m == ms[0]
    requires DistinctKeys(rest) && Get(rest, m.key) == Get(ms[1..], m.key)
    ensures DistinctKeys([m] + rest)
  {
    assert Get(ms[1..], m.key) == None by {
      assert forall i :: 0 <= i < |ms[1..]| ==> ms[1..][i].key == ms[i + 1].key;
    }
    var r := [m] + rest;
    forall i, j | 0 <= i < j < |r| ensures r[i].key != r[j].key {
      if i == 0 {
        assert r[j] == rest[j - 1];
      } else {
        assert r[i] == rest[i - 1] && r[j] == rest[j - 1];
      }
    }
  }

  /** Keys the reviver rewrites: those matching `/^[A-Z]/`. */
  predicate IsUpperStart(k: string)
  {
    |k| > 0 && 'A' <= k[0] <= 'Z'
  }

  /** `c.toLowerCase()` on a letter `A`..`Z`. */
  function ToLower(c: char): (r: char)
    requires 'A' <= c <= 'Z'
    ensures 'a' <= r <= 'z'
  {
    (c as int - 'A' as int + 'a' as int) as char
  }

  /**
   * The key an upper-case key is moved to: `ID` becomes `id`, any other
   * key has its first character lower-cased.
   */
  function RenamedKey(k: string): (t: string)
    requires IsUpperStart(k)
    ensures !IsUpperStart(t) && |t| == |k|
  {
    if k == "ID" then "id" else [ToLower(k[0])] + k[1..]
  }

  /**
   * Two different keys are moved onto the same key only when they are
   * `ID` and `Id`: in every other case the renaming is one-to-one.
   */
  lemma RenamedKeyCollision(a: string, b: string)
    requires IsUpperStart(a) && IsUpperStart(b) && a != b
    requires RenamedKey(a) == RenamedKey(b)
    ensures (a == "ID" && b == "Id") || (a == "Id" && b == "ID")
  {
    if a == "ID" {
      IdOnlyFrom(b);
    } else if b == "ID" {
      IdOnlyFrom(a);
    } else {
      LowerFirstInjective(a, b);
      assert false;
    }
  }

  /** Away from `ID`, lower-casing the first character is one-to-one. */
  lemma LowerFirstInjective(a: string, b: string)
    requires IsUpperStart(a) && IsUpperStart(b) && a != "ID" && b != "ID"
    requires RenamedKey(a) == RenamedKey(b)
    ensures a == b
  {
    var ta, tb := [ToLower(a[0])] + a[1..], [ToLower(b[0])] + b[1..];
    assert ta[0] == tb[0] && ta[1..] == tb[1..];
    assert a == [a[0]] + a[1..] && b == [b[0]] + b[1..];
  }

  /** Besides `ID`, only `Id` is moved onto `id`. */
  lemma IdOnlyFrom(k: string)
    requires IsUpperStart(k) && k != "ID" && RenamedKey(k) == "id"
    ensures k == "Id"
  {
    var t := [ToLower(k[0])] + k[1..];
    assert t == "id";
    assert t[0] == 'i' && t[1..] == k[1..];
    assert k[0] == 'I';
    assert k == [k[0]] + k[1..];
  }

  /** No object anywhere in the tree has two properties with the same key. */
  predicate WellFormed(j: Json)
  {
    match j
    case JArray(xs) => forall i :: 0 <= i < |xs| ==> WellFormed(xs[i])
    case JObject(ms) =>
      && DistinctKeys(ms)
      && forall i :: 0 <= i < |ms| ==> WellFormed(ms[i].value)
    case _ => true
  }

  /** Well formed, and no key anywhere in the tree starts with `A`..`Z`. */
  predicate Normalized(j: Json)
  {
    match j
    case JArray(xs) => forall i :: 0 <= i < |xs| ==> Normalized(xs[i])
    case JObject(ms) =>
      && DistinctKeys(ms)
      && forall i :: 0 <= i < |ms| ==> !IsUpperStart(ms[i].key) && Normalized(ms[i].value)
    case _ => true
  }
}
