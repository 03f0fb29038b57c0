/**
 * The query string of a URL as `URLSearchParams` holds it: an ordered list of
 * name/value pairs in which a name may repeat. The WHATWG URL Standard fixes
 * what `get` and `set` do to that list.
 */
module SearchParams {
  import opened Wrappers
  import opened Strings

  type Query = seq<(string, string)>

  predicate HasKey(q: Query, k: string)
  {
    exists i :: 0 <= i < |q| && q[i].0 == k
  }

  /** The value of the first pair named `k` (`get`). */
  function Get(q: Query, k: string): (r: Option<string>)
    ensures r.None? <==> !HasKey(q, k)
  {
    if q == [] then None
    else if q[0].0 == k then Some(q[0].1)
    else
      assert q == [q[0]] + q[1..];
      HasKeyCons(q[0], q[1..], k);
      Get(q[1..], k)
  }

  /** The pairs not named `k`, in order. */
  function Without(q: Query, k: string): (r: Query)
    ensures !HasKey(r, k)
    ensures |r| <= |q|
  {
    if q == [] then []
    else if q[0].0 == k then Without(q[1..], k)
    else
      HasKeyCons(q[0], Without(q[1..], k), k);
      [q[0]] + Without(q[1..], k)
  }

  /** The first pair named `k` gets value `v`; every later pair named `k` goes. */
  function Replace(q: Query, k: string, v: string): (r: Query)
  {
    if q == [] then []
    else if q[0].0 == k then [(k, v)] + Without(q[1..], k)
    else [q[0]] + Replace(q[1..], k, v)
  }

  /** `set`: replaces as above when a pair named `k` exists, appends `(k, v)` otherwise. */
  function Set(q: Query, k: string, v: string): Query
  {
    if HasKey(q, k) then Replace(q, k, v) else q + [(k, v)]
  }

  /** The name of the first pair whose name, lower-cased, is `name` (`keys().find(...)`). */
  function FindKey(q: Query, name: string): (r: Option<string>)
    ensures r.Some? ==> HasKey(q, r.value) && EqualsIgnoreCase(r.value, name)
  {
    if q == [] then None
    else if EqualsIgnoreCase(q[0].0, name) then
      assert q[0].0 == q[0].0;
      Some(q[0].0)
    else
      var r := FindKey(q[1..], name);
      if r.Some? then
        assert q == [q[0]] + q[1..];
        HasKeyCons(q[0], q[1..], r.value);
        r
      else r
  }

  // ---------------------------------------------------------------------------
  // What `set` does

  lemma {:induction false} HasKeyCons(p: (string, string), q: Query, k: string)
    ensures HasKey([p] + q, k) <==> p.0 == k || HasKey(q, k)
  {
    var r := [p] + q;
    if p.0 == k {
      assert r[0].0 == k;
    }
    if HasKey(q, k) {
      var i :| 0 <= i < |q| && q[i].0 == k;
      assert r[i + 1].0 == k;
    }
    if HasKey(r, k) && p.0 != k {
      var i :| 0 <= i < |r| && r[i].0 == k;
      assert q[i - 1].0 == k;
    }
  }

  lemma {:induction false} HasKeyAppend(q: Query, t: Query, k: string)
    ensures HasKey(q + t, k) <==> HasKey(q, k) || HasKey(t, k)
  {
    var r := q + t;
    if HasKey(q, k) {
      var i :| 0 <= i < |q| && q[i].0 == k;
      assert r[i].0 == k;
    }
    if HasKey(t, k) {
      var i :| 0 <= i < |t| && t[i].0 == k;
      assert r[|q| + i].0 == k;
    }
    if HasKey(r, k) {
      var i :| 0 <= i < |r| && r[i].0 == k;
      if i < |q| { assert q[i].0 == k; } else { assert t[i - |q|].0 == k; }
    }
  }

  /** Removing pairs named `k` leaves the pairs of every other name alone. */
  lemma {:induction false} WithoutKeeps(q: Query, k: string, j: string)
    requires j != k
    ensures HasKey(Without(q, k), j) <==> HasKey(q, j)
    ensures Get(Without(q, k), j) == Get(q, j)
  {
    if q != [] {
      WithoutKeeps(q[1..], k, j);
      HasKeyCons(q[0], q[1..], j);
      assert q == [q[0]] + q[1..];
      if q[0].0 != k {
        HasKeyCons(q[0], Without(q[1..], k), j);
      }
    }
  }

  lemma {:induction false} WithoutTwice(q: Query, k: string)
    ensures Without(Without(q, k), k) == Without(q, k)
  {
    if q != [] {
      WithoutTwice(q[1..], k);
    }
  }

  lemma {:induction false} WithoutAppend(q: Query, t: Query, k: string)
    ensures Without(q + t, k) == Without(q, k) + Without(t, k)
  {
    if q != [] {
      assert (q + t)[1..] == q[1..] + t;
      WithoutAppend(q[1..], t, k);
    } else {
      assert q + t == t;
    }
  }

  /** After `set`, the name is present with the new value. */
  lemma {:induction false} ReplaceSets(q: Query, k: string, v: string)
    requires HasKey(q, k)
    ensures HasKey(Replace(q, k, v), k)
    ensures Get(Replace(q, k, v), k) == Some(v)
  {
    if q[0].0 != k {
      HasKeyCons(q[0], q[1..], k);
      assert q == [q[0]] + q[1..];
      ReplaceSets(q[1..], k, v);
      HasKeyCons(q[0], Replace(q[1..], k, v), k);
    } else {
      HasKeyCons((k, v), Without(q[1..], k), k);
    }
  }

  /** `set` leaves every other name, and its value, alone. */
  lemma {:induction false} ReplaceKeeps(q: Query, k: string, v: string, j: string)
    requires j != k
    ensures HasKey(Replace(q, k, v), j) <==> HasKey(q, j)
    ensures Get(Replace(q, k, v), j) == Get(q, j)
  {
    if q != [] {
      assert q == [q[0]] + q[1..];
      HasKeyCons(q[0], q[1..], j);
      if q[0].0 == k {
        WithoutKeeps(q[1..], k, j);
        HasKeyCons((k, v), Without(q[1..], k), j);
      } else {
        ReplaceKeeps(q[1..], k, v, j);
        HasKeyCons(q[0], Replace(q[1..], k, v), j);
      }
    }
  }

  /** After `set(k, v)`, `get(k)` is `v`. */
  lemma SetGet(q: Query, k: string, v: string)
    ensures HasKey(Set(q, k, v), k)
    ensures Get(Set(q, k, v), k) == Some(v)
  {
    if HasKey(q, k) {
      ReplaceSets(q, k, v);
    } else {
      HasKeyAppend(q, [(k, v)], k);
      GetAppendMissing(q, [(k, v)], k);
    }
  }

  lemma SetKeepsAll(q: Query, k: string, v: string)
    ensures forall j :: j != k ==> Get(Set(q, k, v), j) == Get(q, j)
  {
    forall j | j != k
      ensures Get(Set(q, k, v), j) == Get(q, j)
    {
      SetKeeps(q, k, v, j);
    }
  }

  /** `set(k, v)` keeps every other name and its value. */
  lemma SetKeeps(q: Query, k: string, v: string, j: string)
    requires j != k
    ensures HasKey(Set(q, k, v), j) <==> HasKey(q, j)
    ensures Get(Set(q, k, v), j) == Get(q, j)
  {
    if HasKey(q, k) {
      ReplaceKeeps(q, k, v, j);
    } else {
      HasKeyAppend(q, [(k, v)], j);
      if HasKey(q, j) {
        GetAppendPresent(q, [(k, v)], j);
      } else {
        GetAppendMissing(q, [(k, v)], j);
      }
    }
  }

  lemma {:induction false} GetAppendPresent(q: Query, t: Query, k: string)
    requires HasKey(q, k)
    ensures Get(q + t, k) == Get(q, k)
  {
    assert q != [];
    assert (q + t)[1..] == q[1..] + t;
    if q[0].0 != k {
      assert q == [q[0]] + q[1..];
      HasKeyCons(q[0], q[1..], k);
      GetAppendPresent(q[1..], t, k);
    }
  }

  lemma {:induction false} GetAppendMissing(q: Query, t: Query, k: string)
    requires !HasKey(q, k)
    ensures Get(q + t, k) == Get(t, k)
  {
    if q == [] {
      assert q + t == t;
    } else {
      assert (q + t)[1..] == q[1..] + t;
      assert q == [q[0]] + q[1..];
      HasKeyCons(q[0], q[1..], k);
      GetAppendMissing(q[1..], t, k);
    }
  }

  lemma {:induction false} ReplaceTwice(q: Query, k: string, v: string, w: string)
    ensures Replace(Replace(q, k, v), k, w) == Replace(q, k, w)
  {
    if q != [] {
      if q[0].0 == k {
        WithoutTwice(q[1..], k);
      } else {
        ReplaceTwice(q[1..], k, v, w);
      }
    }
  }

  /** A second `set` of the same name undoes the first. */
  lemma SetTwice(q: Query, k: string, v: string, w: string)
    ensures Set(Set(q, k, v), k, w) == Set(q, k, w)
  {
    if HasKey(q, k) {
      ReplaceSets(q, k, v);
      ReplaceTwice(q, k, v, w);
    } else {
      HasKeyAppend(q, [(k, v)], k);
      ReplaceAppendMissing(q, [(k, v)], k, w);
    }
  }

  lemma {:induction false} ReplaceAppendMissing(q: Query, t: Query, k: string, w: string)
    requires !HasKey(q, k)
    ensures Replace(q + t, k, w) == q + Replace(t, k, w)
  {
    if q == [] {
      assert q + t == t;
    } else {
      assert (q + t)[1..] == q[1..] + t;
      assert q == [q[0]] + q[1..];
      HasKeyCons(q[0], q[1..], k);
      ReplaceAppendMissing(q[1..], t, k, w);
    }
  }

  lemma {:induction false} ReplaceAppendPresent(q: Query, t: Query, k: string, w: string)
    requires HasKey(q, k) && !HasKey(t, k)
    ensures Replace(q + t, k, w) == Replace(q, k, w) + t
  {
    assert q != [];
    assert (q + t)[1..] == q[1..] + t;
    if q[0].0 == k {
      WithoutAppend(q[1..], t, k);
      WithoutNone(t, k);
    } else {
      assert q == [q[0]] + q[1..];
      HasKeyCons(q[0], q[1..], k);
      ReplaceAppendPresent(q[1..], t, k, w);
    }
  }

  lemma {:induction false} WithoutNone(q: Query, k: string)
    requires !HasKey(q, k)
    ensures Without(q, k) == q
  {
    if q != [] {
      assert q == [q[0]] + q[1..];
      HasKeyCons(q[0], q[1..], k);
      WithoutNone(q[1..], k);
    }
  }

  lemma {:induction false} WithoutReplace(q: Query, j: string, k: string, v: string)
    requires j != k
    ensures Without(Replace(q, k, v), j) == Replace(Without(q, j), k, v)
  {
    if q != [] {
      if q[0].0 == k {
        WithoutCommute(q[1..], j, k);
      } else {
        WithoutReplace(q[1..], j, k, v);
      }
    }
  }

  lemma {:induction false} WithoutCommute(q: Query, j: string, k: string)
    ensures Without(Without(q, k), j) == Without(Without(q, j), k)
  {
    if q != [] {
      WithoutCommute(q[1..], j, k);
    }
  }

  lemma {:induction false} ReplaceCommute(q: Query, j: string, u: string, k: string, v: string)
    requires j != k
    ensures Replace(Replace(q, j, u), k, v) == Replace(Replace(q, k, v), j, u)
  {
    if q != [] {
      if q[0].0 == j {
        WithoutReplace(q[1..], j, k, v);
      } else if q[0].0 == k {
        WithoutReplace(q[1..], k, j, u);
      } else {
        ReplaceCommute(q[1..], j, u, k, v);
      }
    }
  }

  /** Setting a name already present commutes with setting any other name. */
  lemma SetCommute(q: Query, j: string, u: string, k: string, v: string)
    requires j != k && HasKey(q, j)
    ensures Set(Set(q, j, u), k, v) == Set(Set(q, k, v), j, u)
  {
    ReplaceKeeps(q, j, u, k);
    if HasKey(q, k) {
      ReplaceKeeps(q, k, v, j);
      ReplaceCommute(q, j, u, k, v);
    } else {
      HasKeyAppend(q, [(k, v)], j);
      ReplaceAppendPresent(q, [(k, v)], j, u);
    }
  }

  // ---------------------------------------------------------------------------
  // What `set` does to the case-insensitive key search

  lemma {:induction false} FindKeyCons(p: (string, string), q: Query, name: string)
    ensures FindKey([p] + q, name) == if EqualsIgnoreCase(p.0, name) then Some(p.0) else FindKey(q, name)
  {
    assert ([p] + q)[1..] == q;
  }

  lemma {:induction false} FindKeyWithout(q: Query, k: string, name: string)
    requires !EqualsIgnoreCase(k, name)
    ensures FindKey(Without(q, k), name) == FindKey(q, name)
  {
    if q != [] {
      FindKeyWithout(q[1..], k, name);
      if q[0].0 != k {
        FindKeyCons(q[0], Without(q[1..], k), name);
      }
    }
  }

  /** Setting a name that does not match `name` does not move the match. */
  lemma {:induction false} FindKeyReplace(q: Query, k: string, v: string, name: string)
    requires !EqualsIgnoreCase(k, name)
    ensures FindKey(Replace(q, k, v), name) == FindKey(q, name)
  {
    if q != [] {
      if q[0].0 == k {
        FindKeyWithout(q[1..], k, name);
        FindKeyCons((k, v), Without(q[1..], k), name);
      } else {
        FindKeyReplace(q[1..], k, v, name);
        FindKeyCons(q[0], Replace(q[1..], k, v), name);
      }
    }
  }

  /** Replacing the value of the matched name does not move the match. */
  lemma {:induction false} FindKeyReplaceFound(q: Query, k: string, v: string, name: string)
    requires FindKey(q, name) == Some(k)
    ensures FindKey(Replace(q, k, v), name) == Some(k)
  {
    if !EqualsIgnoreCase(q[0].0, name) {
      assert q[0].0 != k;
      FindKeyReplaceFound(q[1..], k, v, name);
      FindKeyCons(q[0], Replace(q[1..], k, v), name);
    } else {
      FindKeyCons((k, v), Without(q[1..], k), name);
    }
  }

  lemma {:induction false} FindKeyAppend(q: Query, t: Query, name: string)
    ensures FindKey(q + t, name) == if FindKey(q, name).Some? then FindKey(q, name) else FindKey(t, name)
  {
    if q == [] {
      assert q + t == t;
    } else {
      assert (q + t)[1..] == q[1..] + t;
      FindKeyAppend(q[1..], t, name);
    }
  }

  /** `set` on a name present in the list does not move the case-insensitive match for `name`. */
  lemma FindKeySetPresent(q: Query, k: string, v: string, name: string)
    requires HasKey(q, k)
    requires !EqualsIgnoreCase(k, name) || FindKey(q, name) == Some(k)
    ensures FindKey(Set(q, k, v), name) == FindKey(q, name)
  {
    if EqualsIgnoreCase(k, name) {
      FindKeyReplaceFound(q, k, v, name);
    } else {
      FindKeyReplace(q, k, v, name);
    }
  }

  /** `set` of a new name that matches `name` makes it the match when there was none. */
  lemma FindKeySetMissing(q: Query, k: string, v: string, name: string)
    requires !HasKey(q, k) && FindKey(q, name).None? && EqualsIgnoreCase(k, name)
    ensures FindKey(Set(q, k, v), name) == Some(k)
  {
    FindKeyAppend(q, [(k, v)], name);
  }

  /** No match for `name` means no name equal to it up to case is present. */
  lemma {:induction false} FindKeyNoneMissing(q: Query, k: string, name: string)
    requires FindKey(q, name).None? && EqualsIgnoreCase(k, name)
    ensures !HasKey(q, k)
  {
    if q != [] {
      assert q[0].0 != k;
      FindKeyNoneMissing(q[1..], k, name);
      assert q == [q[0]] + q[1..];
      HasKeyCons(q[0], q[1..], k);
    }
  }

  /** `set` of a name that does not match `name` leaves the match where it was. */
  lemma FindKeySetOther(q: Query, k: string, v: string, name: string)
    requires !EqualsIgnoreCase(k, name)
    ensures FindKey(Set(q, k, v), name) == FindKey(q, name)
  {
    if HasKey(q, k) {
      FindKeySetPresent(q, k, v, name);
    } else {
      FindKeyAppend(q, [(k, v)], name);
    }
  }
}
