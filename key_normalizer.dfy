/**
 * The `normalizeKeys` reviver that both handler revisions pass to
 * `JSON.parse`, and the bottom-up walk with which `JSON.parse` applies it
 * to every value of the parsed document (section 25.5.1.1 of ECMA-262,
 * InternalizeJSONProperty).
 */
module KeyNormalizer {
  import opened Wrappers
  import opened Json

  /**
   * One turn of the reviver's `for (var k in value)` loop: an own key that
   * starts with `A`..`Z` has its value copied to the renamed key, then is
   * deleted. Any other key is left alone.
   */
  function Visit(ms: seq<Member>, k: string): seq<Member>
  {
    if IsUpperStart(k) && Get(ms, k).Some? then
      Remove(Set(ms, RenamedKey(k), Get(ms, k).value), k)
    else
      ms
  }

  /**
   * The loop over the keys `ks` that `for-in` enumerated when it started,
   * first key first. Keys the loop adds are not visited.
   */
  function VisitAll(ms: seq<Member>, ks: seq<string>): seq<Member>
    decreases |ks|
  {
    if ks == [] then ms else Visit(VisitAll(ms, ks[..|ks| - 1]), ks[|ks| - 1])
  }

  /**
   * What `normalizeKeys(key, value)` returns. `null` and the primitives pass
   * through; `for-in` over an array enumerates only index keys, none of which
   * starts with `A`..`Z`, so arrays pass through as well.
   */
  function Reviver(value: Json): (r: Json)
    ensures r.JObject? <==> value.JObject?
    ensures !value.JObject? ==> r == value
  {
    match value
    case JObject(ms) => JObject(VisitAll(ms, KeysOf(ms)))
    case _ => value
  }

  /**
   * The reviver as the handler runs it: a loop that writes and deletes
   * properties of the object in place.
   */
  method NormalizeKeys(value: Json) returns (r: Json)
    ensures r == Reviver(value)
    ensures !value.JObject? ==> r == value
  {
    if !value.JObject? {
      return value;
    }
    var obj := value.members;
    var keys := KeysOf(obj);
    for i := 0 to |keys|
      invariant obj == VisitAll(value.members, keys[..i])
    {
      var k := keys[i];
      assert keys[..i + 1][..i] == keys[..i];
      if IsUpperStart(k) && Get(obj, k).Some? {
        var v := Get(obj, k).value;
        if k == "ID" {
          obj := Set(obj, "id", v);
        } else {
          obj := Set(obj, [ToLower(k[0])] + k[1..], v);
        }
        obj := Remove(obj, k);
      }
    }
    assert keys[..|keys|] == keys;
    r := JObject(obj);
  }

  /** The last key of `ks` that the reviver moves onto `t`, if any. */
  function LastMovedOnto(ks: seq<string>, t: string): (r: Option<string>)
    ensures r.Some? ==> r.value in ks && IsUpperStart(r.value) && RenamedKey(r.value) == t
    ensures r.None? ==> forall u :: u in ks && IsUpperStart(u) ==> RenamedKey(u) != t
  {
    if ks == [] then None
    else
      var u := ks[|ks| - 1];
      assert ks == ks[..|ks| - 1] + [u];
      if IsUpperStart(u) && RenamedKey(u) == t then Some(u)
      else LastMovedOnto(ks[..|ks| - 1], t)
  }

  /**
   * What `value[t]` holds after the reviver has visited the first `n` keys of
   * the object `ms`: a visited upper-case key is gone, an unvisited one still
   * has its value, and any other key holds the value of the last visited key
   * moved onto it, or else its own.
   */
  function AfterVisits(ms: seq<Member>, n: nat, t: string): Option<Json>
    requires n <= |ms|
  {
    var visited := KeysOf(ms)[..n];
    if IsUpperStart(t) then
      (if t in visited then None else Get(ms, t))
    else
      match LastMovedOnto(visited, t)
      case Some(u) => Get(ms, u)
      case None => Get(ms, t)
  }

  /** What `value[t]` holds once the reviver has returned. */
  function Expected(ms: seq<Member>, t: string): Option<Json>
  {
    if IsUpperStart(t) then None
    else
      match LastMovedOnto(KeysOf(ms), t)
      case Some(u) => Get(ms, u)
      case None => Get(ms, t)
  }

  lemma {:induction false} VisitPrefix(ms: seq<Member>, n: nat)
    requires DistinctKeys(ms) && n <= |ms|
    ensures DistinctKeys(VisitAll(ms, KeysOf(ms)[..n]))
    ensures forall t :: Get(VisitAll(ms, KeysOf(ms)[..n]), t) == AfterVisits(ms, n, t)
  {
    var keys := KeysOf(ms);
    if n == 0 {
      assert keys[..0] == [];
    } else {
      VisitPrefix(ms, n - 1);
      assert keys[..n][..n - 1] == keys[..n - 1];
      VisitStep(ms, n, VisitAll(ms, keys[..n - 1]));
    }
  }

  /** The turn of the loop that visits the n-th key. */
  lemma VisitStep(ms: seq<Member>, n: nat, cur: seq<Member>)
    requires DistinctKeys(ms) && 0 < n <= |ms|
    requires DistinctKeys(cur)
    requires forall t :: Get(cur, t) == AfterVisits(ms, n - 1, t)
    ensures DistinctKeys(Visit(cur, KeysOf(ms)[n - 1]))
    ensures forall t :: Get(Visit(cur, KeysOf(ms)[n - 1]), t) == AfterVisits(ms, n, t)
  {
    var keys := KeysOf(ms);
    var k := keys[n - 1];
    var before, after := keys[..n - 1], keys[..n];
    assert after == before + [k];
    assert after[..n - 1] == before;
    assert k == ms[n - 1].key;
    assert k !in before by {
      forall i | 0 <= i < |before| ensures before[i] != k {
        assert before[i] == ms[i].key;
      }
    }
    if IsUpperStart(k) {
      assert Get(cur, k) == Get(ms, k);
      assert Get(ms, k).Some?;
      forall t ensures Get(Visit(cur, k), t) == AfterVisits(ms, n, t) {
        if t == k {
        } else if t == RenamedKey(k) {
          assert LastMovedOnto(after, t) == Some(k);
        } else if IsUpperStart(t) {
          assert t in after <==> t in before;
        } else {
          assert LastMovedOnto(after, t) == LastMovedOnto(before, t);
        }
      }
    } else {
      forall t ensures Get(Visit(cur, k), t) == AfterVisits(ms, n, t) {
        if IsUpperStart(t) {
          assert t in after <==> t in before;
        } else {
          assert LastMovedOnto(after, t) == LastMovedOnto(before, t);
        }
      }
    }
  }

  /**
   * The reviver on an object: afterwards every key holds what `Expected`
   * says, and the keys are still distinct.
   */
  lemma ReviverMeaning(ms: seq<Member>)
    requires DistinctKeys(ms)
    ensures Reviver(JObject(ms)).JObject?
    ensures DistinctKeys(Reviver(JObject(ms)).members)
    ensures forall t :: Get(Reviver(JObject(ms)).members, t) == Expected(ms, t)
  {
    var keys := KeysOf(ms);
    VisitPrefix(ms, |ms|);
    assert keys[..|ms|] == keys;
    forall t ensures AfterVisits(ms, |ms|, t) == Expected(ms, t) {
      if IsUpperStart(t) && t !in keys {
        assert forall i :: 0 <= i < |ms| ==> ms[i].key == keys[i];
      }
    }
  }

  /** No own key of the reviver's result starts with `A`..`Z`. */
  lemma ReviverLeavesNoUpperKey(ms: seq<Member>)
    requires DistinctKeys(ms)
    ensures forall m :: m in Reviver(JObject(ms)).members ==> !IsUpperStart(m.key)
  {
    ReviverMeaning(ms);
    var out := Reviver(JObject(ms)).members;
    forall m | m in out ensures !IsUpperStart(m.key) {
      var i :| 0 <= i < |out| && out[i] == m;
      assert Get(out, m.key).Some?;
    }
  }

  /**
   * An upper-case key is removed and its value reappears under the renamed
   * key (`id` for `ID`, the first letter lower-cased otherwise), overwriting
   * any value the object already had there. The only exception is an object
   * holding both `ID` and `Id`, see `ReviverIdAndId`.
   */
  lemma ReviverMovesValue(ms: seq<Member>, u: string)
    requires DistinctKeys(ms) && IsUpperStart(u) && Get(ms, u).Some?
    requires (u == "ID" || u == "Id") ==> !(Get(ms, "ID").Some? && Get(ms, "Id").Some?)
    ensures Get(Reviver(JObject(ms)).members, u) == None
    ensures Get(Reviver(JObject(ms)).members, RenamedKey(u)) == Get(ms, u)
  {
    ReviverMeaning(ms);
    var keys := KeysOf(ms);
    var t := RenamedKey(u);
    assert u in keys by {
      var i :| 0 <= i < |ms| && ms[i].key == u;
      assert keys[i] == u;
    }
    match LastMovedOnto(keys, t)
    case None =>
    case Some(w) =>
      if w != u {
        RenamedKeyCollision(w, u);
        KeyOfKeysOf(ms, w);
        assert false;
      }
  }

  /** Keys of the list of keys are own keys. */
  lemma KeyOfKeysOf(ms: seq<Member>, k: string)
    requires k in KeysOf(ms)
    ensures Get(ms, k).Some?
  {
    var i :| 0 <= i < |KeysOf(ms)| && KeysOf(ms)[i] == k;
    assert ms[i].key == k;
  }

  /**
   * With both `ID` and `Id` present, `id` ends up with the value of the one
   * the loop visits last, that is, the later one in property order.
   */
  lemma ReviverIdAndId(ms: seq<Member>, i: nat, j: nat)
    requires DistinctKeys(ms) && i < j < |ms|
    requires {ms[i].key, ms[j].key} == {"ID", "Id"}
    ensures Get(Reviver(JObject(ms)).members, "id") == Some(ms[j].value)
  {
    ReviverMeaning(ms);
    var keys := KeysOf(ms);
    var w := LastMovedOnto(keys, "id");
    assert keys[j] == ms[j].key;
    assert ms[j].key in keys && RenamedKey(ms[j].key) == "id";
    LastMovedOntoIsLast(keys, "id", j);
    assert Get(ms, ms[j].key) == Some(ms[j].value) by {
      GetDistinct(ms, j);
    }
  }

  /** The key `LastMovedOnto` picks is the one at the highest index. */
  lemma {:induction false} LastMovedOntoIsLast(ks: seq<string>, t: string, j: nat)
    requires j < |ks| && IsUpperStart(ks[j]) && RenamedKey(ks[j]) == t
    requires forall i :: j < i < |ks| ==> !(IsUpperStart(ks[i]) && RenamedKey(ks[i]) == t)
    ensures LastMovedOnto(ks, t) == Some(ks[j])
  {
    if j < |ks| - 1 {
      var pre := ks[..|ks| - 1];
      assert forall i :: j < i < |pre| ==> pre[i] == ks[i];
      LastMovedOntoIsLast(pre, t, j);
    }
  }

  /** In an object with distinct keys, the member at index j is what `Get` finds. */
  lemma {:induction false} GetDistinct(ms: seq<Member>, j: nat)
    requires DistinctKeys(ms) && j < |ms|
    ensures Get(ms, ms[j].key) == Some(ms[j].value)
  {
    if j > 0 {
      assert DistinctKeys(ms[1..]);
      assert ms[1..][j - 1] == ms[j];
      GetDistinct(ms[1..], j - 1);
    }
  }

  /**
   * A key that does not start with `A`..`Z` and that no upper-case key is
   * moved onto keeps its value; in particular it is not removed.
   */
  lemma ReviverKeepsOtherKeys(ms: seq<Member>, t: string)
    requires DistinctKeys(ms) && !IsUpperStart(t)
    requires forall u :: Get(ms, u).Some? && IsUpperStart(u) ==> RenamedKey(u) != t
    ensures Get(Reviver(JObject(ms)).members, t) == Get(ms, t)
  {
    ReviverMeaning(ms);
    match LastMovedOnto(KeysOf(ms), t)
    case None =>
    case Some(w) =>
      KeyOfKeysOf(ms, w);
  }

  /** Visiting keys none of which starts with `A`..`Z` changes nothing. */
  lemma {:induction false} VisitAllOtherKeys(ms: seq<Member>, ks: seq<string>)
    requires forall k :: k in ks ==> !IsUpperStart(k)
    ensures VisitAll(ms, ks) == ms
  {
    if ks != [] {
      VisitAllOtherKeys(ms, ks[..|ks| - 1]);
    }
  }

  /** Running the reviver on its own result changes nothing. */
  lemma ReviverIdempotent(value: Json)
    requires value.JObject? ==> DistinctKeys(value.members)
    ensures Reviver(Reviver(value)) == Reviver(value)
  {
    if value.JObject? {
      var out := Reviver(value).members;
      ReviverLeavesNoUpperKey(value.members);
      forall k | k in KeysOf(out) ensures !IsUpperStart(k) {
        var i :| 0 <= i < |KeysOf(out)| && KeysOf(out)[i] == k;
        assert out[i] in out;
      }
      VisitAllOtherKeys(out, KeysOf(out));
    }
  }

  /** The reviver only moves values around: every value it leaves was a value before. */
  lemma {:induction false} VisitAllKeepsValues(ms: seq<Member>, ks: seq<string>)
    requires forall m :: m in ms ==> Normalized(m.value)
    ensures forall m :: m in VisitAll(ms, ks) ==> Normalized(m.value)
  {
    if ks != [] {
      VisitAllKeepsValues(ms, ks[..|ks| - 1]);
    }
  }

  /**
   * `JSON.parse(text, normalizeKeys)` on the already parsed tree: each
   * element and property value is revived first and written back in place,
   * then the reviver runs on the value itself.
   */
  function Revive(j: Json): (r: Json)
    ensures r.JObject? <==> j.JObject?
    ensures j.JArray? ==> r.JArray? && |r.elements| == |j.elements|
    ensures !j.JArray? && !j.JObject? ==> r == j
  {
    match j
    case JArray(xs) =>
      Reviver(JArray(seq(|xs|, i requires 0 <= i < |xs| => Revive(xs[i]))))
    case JObject(ms) =>
      Reviver(JObject(ReviveMembers(ms)))
    case _ => Reviver(j)
  }

  /** The properties of an object with their values revived, keys and order unchanged. */
  function ReviveMembers(ms: seq<Member>): (r: seq<Member>)
    ensures KeysOf(r) == KeysOf(ms)
  {
    seq(|ms|, i requires 0 <= i < |ms| => Member(ms[i].key, Revive(ms[i].value)))
  }

  /** After parsing, no key anywhere in the document starts with `A`..`Z`. */
  lemma {:induction false} ReviveNormalizes(j: Json)
    requires WellFormed(j)
    ensures Normalized(Revive(j))
  {
    match j
    case JArray(xs) =>
      forall i | 0 <= i < |xs| ensures Normalized(Revive(xs[i])) {
        ReviveNormalizes(xs[i]);
      }
    case JObject(ms) =>
      var rms := ReviveMembers(ms);
      forall m | m in rms ensures Normalized(m.value) {
        var i :| 0 <= i < |rms| && rms[i] == m;
        ReviveNormalizes(ms[i].value);
      }
      assert DistinctKeys(rms) by {
        assert forall i :: 0 <= i < |rms| ==> rms[i].key == KeysOf(rms)[i] == ms[i].key;
      }
      ReviverMeaning(rms);
      ReviverLeavesNoUpperKey(rms);
      VisitAllKeepsValues(rms, KeysOf(rms));
      var out := Reviver(JObject(rms)).members;
      assert forall i :: 0 <= i < |out| ==> out[i] in out;
    case _ =>
  }

  /** A document without upper-case keys comes out of parsing unchanged. */
  lemma {:induction false} ReviveFixesNormalized(j: Json)
    requires Normalized(j)
    ensures Revive(j) == j
  {
    match j
    case JArray(xs) =>
      var rxs := seq(|xs|, i requires 0 <= i < |xs| => Revive(xs[i]));
      forall i | 0 <= i < |xs| ensures rxs[i] == xs[i] {
        ReviveFixesNormalized(xs[i]);
      }
      assert rxs == xs;
    case JObject(ms) =>
      var rms := ReviveMembers(ms);
      forall i | 0 <= i < |ms| ensures rms[i] == ms[i] {
        ReviveFixesNormalized(ms[i].value);
      }
      assert rms == ms;
      forall k | k in KeysOf(ms) ensures !IsUpperStart(k) {
        var i :| 0 <= i < |KeysOf(ms)| && KeysOf(ms)[i] == k;
      }
      VisitAllOtherKeys(ms, KeysOf(ms));
    case _ =>
  }

  /** Reviving an already revived document changes nothing. */
  lemma ReviveIdempotent(j: Json)
    requires WellFormed(j)
    ensures Revive(Revive(j)) == Revive(j)
  {
    ReviveNormalizes(j);
    ReviveFixesNormalized(Revive(j));
  }
}
