/**
 * Tournament link expansion (`processChessLink`): from one chess-results.com
 * address, the addresses of the standings (`art=1`) and the pairings (`art=2`)
 * of every round from the linked one down to round 1, without duplicates.
 *
 * Parsing the address is an input (`None` when `new URL` throws); printing it
 * back once its query has been replaced is the function `render`.
 */
module ChessLinks {
  import opened Wrappers
  import opened Strings
  import opened SearchParams

  const RoundName := "rd"
  const ArtName := "art"
  const DefaultRound := "1"

  /** How the address prints once its query string is `q` (`urlObject.toString()`). */
  type Render = Query -> string

  /** The URL library as its callers use it: parsing an address, and printing it again with a new query. */
  datatype UrlCodec = UrlCodec(parse: string -> Option<Query>, render: (string, Query) -> string)

  predicate Distinct<T(==)>(s: seq<T>)
  {
    forall i, j :: 0 <= i < j < |s| ==> s[i] != s[j]
  }

  /** `rk`, when present, is a name of `q` that reads "rd" up to case. */
  predicate IsRoundKey(q: Query, rk: Option<string>)
  {
    rk.Some? ==> HasKey(q, rk.value) && EqualsIgnoreCase(rk.value, RoundName)
  }

  // ---------------------------------------------------------------------------
  // The expansion, as values

  /** The round the expansion starts from; `None` when the round value is not a number. */
  function StartRound(q: Query, rk: Option<string>): (r: Option<int>)
    ensures rk.None? ==> r == Some(1)
  {
    if rk.None? then Some(1)
    else
      var v := Get(q, rk.value).GetOr("");
      ParseInt(if v == "" then DefaultRound else v)
  }

  /**
   * The start round of the query `q`, its round key found up to case: 1 without
   * such a key, else the key's value read as a number, an empty value reading as 1.
   */
  function StartOf(q: Query): (r: Option<int>)
    ensures FindKey(q, RoundName).None? ==> r == Some(1)
    ensures FindKey(q, RoundName).Some? ==>
              var v := Get(q, FindKey(q, RoundName).value).value;
              r == ParseInt(if v == "" then DefaultRound else v)
  {
    StartRound(q, FindKey(q, RoundName))
  }

  /** The round number written under the round key, when there is one; every other name keeps its value. */
  function WithRound(q: Query, rk: Option<string>, rd: int): (r: Query)
    ensures rk.None? ==> r == q
    ensures rk.Some? ==> Get(r, rk.value) == Some(IntToString(rd))
    ensures forall j :: rk.Some? && j != rk.value ==> Get(r, j) == Get(q, j)
  {
    if rk.Some? then
      SetKeepsAll(q, rk.value, IntToString(rd));
      SetGet(q, rk.value, IntToString(rd));
      Set(q, rk.value, IntToString(rd))
    else q
  }

  /** The name the list number goes under: the existing one matching "art" up to case, else "art". */
  function ArtKey(q: Query): (r: string)
    ensures EqualsIgnoreCase(r, ArtName)
    ensures FindKey(q, ArtName).Some? ==> r == FindKey(q, ArtName).value
  {
    FindKey(q, ArtName).GetOr(ArtName)
  }

  /**
   * The query of the address for round `rd` and list `art`, derived from `q`:
   * the list number overwrites the value of an existing "art" name, in whatever
   * case it is written, and is added under "art" when there is none.
   */
  function Apply(q: Query, rk: Option<string>, rd: int, art: int): (r: Query)
    ensures var q1 := WithRound(q, rk, rd);
            && (FindKey(q1, ArtName).Some? ==> Get(r, FindKey(q1, ArtName).value) == Some(IntToString(art)))
            && (FindKey(q1, ArtName).None? ==> Get(r, ArtName) == Some(IntToString(art)))
  {
    var q1 := WithRound(q, rk, rd);
    SetGet(q1, ArtKey(q1), IntToString(art));
    Set(q1, ArtKey(q1), IntToString(art))
  }

  /** Round `rd`: its standings, then its pairings. */
  function Pair(q: Query, rk: Option<string>, rd: int): seq<Query>
  {
    [Apply(q, rk, rd, 1), Apply(q, rk, rd, 2)]
  }

  /** Rounds `hi` down to `lo`, two queries each. */
  function Rounds(q: Query, rk: Option<string>, hi: int, lo: int): (r: seq<Query>)
    ensures |r| == if lo > hi then 0 else 2 * (hi - lo + 1)
    decreases hi - lo + 1
  {
    if lo > hi then [] else Rounds(q, rk, hi, lo + 1) + Pair(q, rk, lo)
  }

  /** The printed address of every query, in order. */
  function Renders(render: Render, qs: seq<Query>): (r: seq<string>)
    ensures |r| == |qs|
  {
    if qs == [] then [] else Renders(render, qs[..|qs| - 1]) + [render(qs[|qs| - 1])]
  }

  /** Address `i` is the printed query `i`. */
  lemma {:induction false} RendersAt(render: Render, qs: seq<Query>)
    ensures forall i :: 0 <= i < |qs| ==> Renders(render, qs)[i] == render(qs[i])
  {
    if qs != [] {
      RendersAt(render, qs[..|qs| - 1]);
    }
  }

  /** `Array.from(new Set(s))`: every string of `s` once, where it first occurs. */
  function Dedup(s: seq<string>): (r: seq<string>)
    ensures Distinct(r)
    ensures forall x :: x in r <==> x in s
  {
    if s == [] then []
    else
      var d := Dedup(s[..|s| - 1]);
      var x := s[|s| - 1];
      assert forall y :: y in s <==> y in s[..|s| - 1] || y == x by {
        assert s == s[..|s| - 1] + [x];
      }
      if x in d then d else d + [x]
  }

  /** The position of the first occurrence of `x` in `s`. */
  function FirstIndex(s: seq<string>, x: string): (k: nat)
    requires x in s
    ensures k < |s| && s[k] == x && x !in s[..k]
  {
    if s[0] == x then 0
    else
      var k := FirstIndex(s[1..], x);
      assert s[..k + 1] == [s[0]] + s[1..][..k];
      k + 1
  }

  /** What `processChessLink(url)` returns. */
  function ExpandLink(url: string, parsed: Option<Query>, render: Render): (r: seq<string>)
    ensures parsed.None? ==> r == [url]
    ensures parsed.Some? && StartOf(parsed.value).None? ==> r == [url]
    ensures parsed.Some? && StartOf(parsed.value).Some? && StartOf(parsed.value).value <= 0 ==> r == []
    ensures Distinct(r)
  {
    if parsed.None? then [url]
    else
      var q := parsed.value;
      var rk := FindKey(q, RoundName);
      var start := StartRound(q, rk);
      if start.None? then [url]
      else Dedup(Renders(render, Rounds(q, rk, start.value, 1)))
  }

  /** `processChessLink(url)` with the URL library `codec`. */
  function ProcessLink(url: string, codec: UrlCodec): (r: seq<string>)
    ensures Distinct(r)
  {
    ExpandLink(url, codec.parse(url), q => codec.render(url, q))
  }

  // ---------------------------------------------------------------------------
  // The expansion, as the source computes it

  /**
   * `params` is the live `urlObject.searchParams`: assigning `urlObject.search`
   * replaces its pairs, so each copy after the first starts from the previous
   * address's query rather than from the original one.
   */
  method ProcessChessLink(url: string, parsed: Option<Query>, render: Render) returns (urls: seq<string>)
    ensures urls == ExpandLink(url, parsed, render)
  {
    if parsed.None? {
      return [url];
    }
    var params := parsed.value;
    ghost var original := params;
    var roundParam := FindKey(params, RoundName);
    var startRound := StartRound(params, roundParam);
    if startRound.None? {
      return [url];
    }
    var n := startRound.value;
    assert IsRoundKey(original, roundParam);
    var generated: seq<string> := [];
    ghost var last: Option<(int, int)> := None;
    var rd := n;
    while rd >= 1
      invariant if n >= 1 then 0 <= rd <= n else rd == n
      invariant generated == Renders(render, Rounds(original, roundParam, n, rd + 1))
      invariant params == Live(original, roundParam, last)
      decreases rd
    {
      params, generated, last := PushRound(render, original, roundParam, n, rd, params, generated, last);
      rd := rd - 1;
    }
    RoundsFinished(original, roundParam, n, rd);
    ExpandLinkStarted(url, parsed, render, n);
    urls := Dedup(generated);
  }

  /**
   * The inner loop, over the list numbers of round `rd`: push the standings, then
   * the pairings, `params` always the query last written.
   */
  method PushRound(render: Render, ghost original: Query, roundParam: Option<string>, ghost n: int, rd: int,
                   params0: Query, generated0: seq<string>, ghost last0: Option<(int, int)>)
    returns (params: Query, generated: seq<string>, ghost last: Option<(int, int)>)
    requires IsRoundKey(original, roundParam) && rd <= n
    requires params0 == Live(original, roundParam, last0)
    requires generated0 == Renders(render, Rounds(original, roundParam, n, rd + 1))
    ensures params == Live(original, roundParam, last)
    ensures generated == Renders(render, Rounds(original, roundParam, n, rd))
  {
    params, generated, last := params0, generated0, last0;
    var art := 1;
    assert Done(original, roundParam, n, rd, 1) == Rounds(original, roundParam, n, rd + 1);
    while art <= 2
      invariant 1 <= art <= 3
      invariant generated == Renders(render, Done(original, roundParam, n, rd, art))
      invariant params == Live(original, roundParam, last)
    {
      var newParams := DeriveParams(params, roundParam, rd, art);
      LiveStep(original, roundParam, last, rd, art);
      params := newParams;
      DoneStep(render, original, roundParam, n, rd, art);
      generated := generated + [render(newParams)];
      last := Some((rd, art));
      art := art + 1;
    }
    assert art == 3;
    DoneRound(original, roundParam, n, rd);
  }

  /** The body of the inner loop up to the push: a copy of `params` with the round and the list written. */
  method DeriveParams(params: Query, roundParam: Option<string>, rd: int, art: int) returns (newParams: Query)
    ensures newParams == Apply(params, roundParam, rd, art)
  {
    newParams := params;
    if roundParam.Some? {
      newParams := Set(newParams, roundParam.value, IntToString(rd));
    }
    var artParam := FindKey(newParams, ArtName);
    if artParam.Some? {
      newParams := Set(newParams, artParam.value, IntToString(art));
    } else {
      newParams := Set(newParams, ArtName, IntToString(art));
    }
  }

  /** Once the round counter has dropped below 1, every round from the start down to 1 is done. */
  lemma RoundsFinished(q: Query, rk: Option<string>, n: int, rd: int)
    requires (if n >= 1 then 0 <= rd <= n else rd == n) && rd < 1
    ensures Rounds(q, rk, n, rd + 1) == Rounds(q, rk, n, 1)
  {
    if n < 1 {
      assert rd + 1 > n && 1 > n;
      assert |Rounds(q, rk, n, rd + 1)| == 0 && |Rounds(q, rk, n, 1)| == 0;
    } else {
      assert rd + 1 == 1;
    }
  }

  /** The expansion of a parsed address whose start round is `n`. */
  lemma ExpandLinkStarted(url: string, parsed: Option<Query>, render: Render, n: int)
    requires parsed.Some? && StartOf(parsed.value) == Some(n)
    ensures ExpandLink(url, parsed, render)
            == Dedup(Renders(render, Rounds(parsed.value, FindKey(parsed.value, RoundName), n, 1)))
  {
  }

  /** The live query after the iteration `last` (none yet: the original query). */
  ghost function Live(original: Query, rk: Option<string>, last: Option<(int, int)>): Query
  {
    if last.None? then original else Apply(original, rk, last.value.0, last.value.1)
  }

  /** The queries of the rounds above `rd`, then those of round `rd` before list `art`. */
  ghost function Done(q: Query, rk: Option<string>, n: int, rd: int, art: int): seq<Query>
    requires 1 <= art <= 3
  {
    Rounds(q, rk, n, rd + 1) + Pair(q, rk, rd)[..art - 1]
  }

  lemma LiveStep(original: Query, rk: Option<string>, last: Option<(int, int)>, rd: int, art: int)
    requires IsRoundKey(original, rk)
    ensures Apply(Live(original, rk, last), rk, rd, art) == Apply(original, rk, rd, art)
  {
    if last.Some? {
      LiveApply(original, rk, last.value.0, last.value.1, rd, art);
    }
  }

  lemma DoneStep(render: Render, q: Query, rk: Option<string>, n: int, rd: int, art: int)
    requires 1 <= art <= 2
    ensures Renders(render, Done(q, rk, n, rd, art + 1)) == Renders(render, Done(q, rk, n, rd, art)) + [render(Apply(q, rk, rd, art))]
  {
    var above := Rounds(q, rk, n, rd + 1);
    var pair := Pair(q, rk, rd);
    assert pair[..art] == pair[..art - 1] + [Apply(q, rk, rd, art)];
    assert above + pair[..art] == (above + pair[..art - 1]) + [Apply(q, rk, rd, art)];
    RendersSnoc(render, Done(q, rk, n, rd, art), Apply(q, rk, rd, art));
  }

  lemma DoneRound(q: Query, rk: Option<string>, n: int, rd: int)
    requires rd <= n
    ensures Done(q, rk, n, rd, 3) == Rounds(q, rk, n, rd)
  {
    assert Pair(q, rk, rd)[..2] == Pair(q, rk, rd);
  }

  lemma RendersSnoc(render: Render, qs: seq<Query>, q: Query)
    ensures Renders(render, qs + [q]) == Renders(render, qs) + [render(q)]
  {
    assert (qs + [q])[..|qs|] == qs;
  }

  // ---------------------------------------------------------------------------
  // What one derived query holds

  /** Writing the round number does not move the "art" match. */
  lemma WithRoundKeepsArt(q: Query, rk: Option<string>, rd: int)
    requires IsRoundKey(q, rk)
    ensures FindKey(WithRound(q, rk, rd), ArtName) == FindKey(q, ArtName)
    ensures ArtKey(WithRound(q, rk, rd)) == ArtKey(q)
    ensures IsRoundKey(WithRound(q, rk, rd), rk)
  {
    if rk.Some? {
      assert |rk.value| != |ArtName|;
      FindKeySetOther(q, rk.value, IntToString(rd), ArtName);
      SetGet(q, rk.value, IntToString(rd));
    }
  }

  /** After setting the list number, the "art" match is the name it was set under. */
  lemma ArtKeyAfterSet(q: Query, v: string)
    ensures FindKey(Set(q, ArtKey(q), v), ArtName) == Some(ArtKey(q))
  {
    var a := ArtKey(q);
    if FindKey(q, ArtName).Some? {
      FindKeySetPresent(q, a, v, ArtName);
    } else {
      FindKeyNoneMissing(q, a, ArtName);
      FindKeySetMissing(q, a, v, ArtName);
    }
  }

  /**
   * The derived query carries `art` under the existing "art" name (matched up to
   * case) or under a new "art", carries `rd` under the round key, and keeps every
   * other parameter as it was.
   */
  lemma ApplySetsKeys(q: Query, rk: Option<string>, rd: int, art: int)
    requires IsRoundKey(q, rk)
    ensures FindKey(Apply(q, rk, rd, art), ArtName) == Some(ArtKey(q))
    ensures Get(Apply(q, rk, rd, art), ArtKey(q)) == Some(IntToString(art))
    ensures rk.Some? ==> Get(Apply(q, rk, rd, art), rk.value) == Some(IntToString(rd))
    ensures forall j :: j != ArtKey(q) && (rk.None? || j != rk.value) ==>
              (HasKey(Apply(q, rk, rd, art), j) <==> HasKey(q, j)) && Get(Apply(q, rk, rd, art), j) == Get(q, j)
  {
    var a := ArtKey(q);
    var w := WithRound(q, rk, rd);
    WithRoundKeepsArt(q, rk, rd);
    ArtKeyAfterSet(w, IntToString(art));
    SetGet(w, a, IntToString(art));
    if rk.Some? {
      assert |rk.value| != |a|;
      SetGet(q, rk.value, IntToString(rd));
      SetKeeps(w, a, IntToString(art), rk.value);
    }
    forall j | j != a && (rk.None? || j != rk.value)
      ensures (HasKey(Apply(q, rk, rd, art), j) <==> HasKey(q, j)) && Get(Apply(q, rk, rd, art), j) == Get(q, j)
    {
      SetKeeps(w, a, IntToString(art), j);
      if rk.Some? {
        SetKeeps(q, rk.value, IntToString(rd), j);
      }
    }
  }

  /**
   * Deriving from an already derived query gives what deriving from the original
   * gives: the live `params` does no harm.
   */
  lemma LiveApply(q: Query, rk: Option<string>, r1: int, a1: int, r2: int, a2: int)
    requires IsRoundKey(q, rk)
    ensures Apply(Apply(q, rk, r1, a1), rk, r2, a2) == Apply(q, rk, r2, a2)
  {
    var a := ArtKey(q);
    var w1 := WithRound(q, rk, r1);
    var w2 := WithRound(q, rk, r2);
    var p := Apply(q, rk, r1, a1);
    WithRoundKeepsArt(q, rk, r1);
    WithRoundKeepsArt(q, rk, r2);
    assert p == Set(w1, a, IntToString(a1));
    ArtKeyAfterSet(w1, IntToString(a1));
    assert ArtKey(p) == a;
    if rk.Some? {
      var k := rk.value;
      assert |k| != |a|;
      SetGet(q, k, IntToString(r1));
      SetKeeps(w1, a, IntToString(a1), k);
    }
    WithRoundKeepsArt(p, rk, r2);
    var wp := WithRound(p, rk, r2);
    assert Apply(p, rk, r2, a2) == Set(wp, a, IntToString(a2));
    if rk.Some? {
      var k := rk.value;
      SetCommute(w1, k, IntToString(r2), a, IntToString(a1));
      SetTwice(q, k, IntToString(r1), IntToString(r2));
      assert wp == Set(w2, a, IntToString(a1));
      SetTwice(w2, a, IntToString(a1), IntToString(a2));
    } else {
      SetTwice(q, a, IntToString(a1), IntToString(a2));
    }
  }

  /** Two derived queries are equal only for the same round and list. */
  lemma ApplyInjective(q: Query, rk: Option<string>, r1: nat, a1: nat, r2: nat, a2: nat)
    requires IsRoundKey(q, rk) && (rk.Some? || r1 == r2)
    requires Apply(q, rk, r1, a1) == Apply(q, rk, r2, a2)
    ensures r1 == r2 && a1 == a2
  {
    ApplySetsKeys(q, rk, r1, a1);
    ApplySetsKeys(q, rk, r2, a2);
    NatToStringInjective(a1, a2);
    if rk.Some? {
      NatToStringInjective(r1, r2);
    }
  }

  // ---------------------------------------------------------------------------
  // The shape of the expansion

  /** Position `k` holds round `hi - k / 2`, the standings at even and the pairings at odd positions. */
  lemma {:induction false} RoundsShape(q: Query, rk: Option<string>, hi: int, lo: int)
    ensures forall k :: 0 <= k < |Rounds(q, rk, hi, lo)| ==> Rounds(q, rk, hi, lo)[k] == Apply(q, rk, hi - k / 2, k % 2 + 1)
    decreases hi - lo + 1
  {
    if lo <= hi {
      RoundsShape(q, rk, hi, lo + 1);
      forall k | 0 <= k < |Rounds(q, rk, hi, lo)|
        ensures Rounds(q, rk, hi, lo)[k] == Apply(q, rk, hi - k / 2, k % 2 + 1)
      {
        RoundsShapeStep(q, rk, hi, lo, k);
      }
    }
  }

  /** One position of rounds `hi` down to `lo`, given the shape of rounds `hi` down to `lo + 1`. */
  lemma RoundsShapeStep(q: Query, rk: Option<string>, hi: int, lo: int, k: int)
    requires lo <= hi && 0 <= k < |Rounds(q, rk, hi, lo)|
    requires forall j :: 0 <= j < |Rounds(q, rk, hi, lo + 1)| ==>
               Rounds(q, rk, hi, lo + 1)[j] == Apply(q, rk, hi - j / 2, j % 2 + 1)
    ensures Rounds(q, rk, hi, lo)[k] == Apply(q, rk, hi - k / 2, k % 2 + 1)
  {
    var prefix := Rounds(q, rk, hi, lo + 1);
    var m := |prefix|;
    assert Rounds(q, rk, hi, lo) == prefix + Pair(q, rk, lo);
    if k < m {
      assert Rounds(q, rk, hi, lo)[k] == prefix[k];
    } else {
      assert m == 2 * (hi - lo);
      var rd, art := hi - k / 2, k % 2 + 1;
      if k == m {
        assert k / 2 == hi - lo && k % 2 == 0;
        assert rd == lo && art == 1;
        assert Rounds(q, rk, hi, lo)[k] == Pair(q, rk, lo)[0] == Apply(q, rk, rd, art);
      } else {
        assert k == m + 1;
        assert k / 2 == hi - lo && k % 2 == 1;
        assert rd == lo && art == 2;
        assert Rounds(q, rk, hi, lo)[k] == Pair(q, rk, lo)[1] == Apply(q, rk, rd, art);
      }
    }
  }

  /** Different positions stand for different (round, list) pairs. */
  lemma PositionsDiffer(i: int, j: int)
    requires 0 <= i < j
    ensures i / 2 != j / 2 || i % 2 != j % 2
  {
  }

  lemma RoundsAt(q: Query, rk: Option<string>, hi: int, lo: int, k: int)
    requires 0 <= k < |Rounds(q, rk, hi, lo)|
    ensures hi - k / 2 >= lo
    ensures Rounds(q, rk, hi, lo)[k] == Apply(q, rk, hi - k / 2, k % 2 + 1)
  {
    RoundsShape(q, rk, hi, lo);
  }

  /** The queries Rounds places at two different positions differ. */
  lemma ApplyPositionsDiffer(q: Query, rk: Option<string>, hi: int, lo: int, i: int, j: int)
    requires IsRoundKey(q, rk) && lo >= 1 && (rk.Some? || hi <= lo)
    requires 0 <= i < j && hi - j / 2 >= lo
    ensures Apply(q, rk, hi - i / 2, i % 2 + 1) != Apply(q, rk, hi - j / 2, j % 2 + 1)
  {
    PositionsDiffer(i, j);
    var ri: nat, ai: nat, rj: nat, aj: nat := hi - i / 2, i % 2 + 1, hi - j / 2, j % 2 + 1;
    assert rk.None? ==> ri == rj;
    if Apply(q, rk, ri, ai) == Apply(q, rk, rj, aj) {
      ApplyInjective(q, rk, ri, ai, rj, aj);
    }
  }

  lemma RoundsPositionsDiffer(q: Query, rk: Option<string>, hi: int, lo: int, i: int, j: int)
    requires IsRoundKey(q, rk) && lo >= 1 && (rk.Some? || hi <= lo)
    requires 0 <= i < j < |Rounds(q, rk, hi, lo)|
    ensures Rounds(q, rk, hi, lo)[i] != Rounds(q, rk, hi, lo)[j]
  {
    RoundsAt(q, rk, hi, lo, i);
    RoundsAt(q, rk, hi, lo, j);
    ApplyPositionsDiffer(q, rk, hi, lo, i, j);
  }

  /** With a round key every position holds a different query; without one there is a single round. */
  lemma RoundsDistinct(q: Query, rk: Option<string>, hi: int, lo: int)
    requires IsRoundKey(q, rk) && lo >= 1 && (rk.Some? || hi <= lo)
    ensures Distinct(Rounds(q, rk, hi, lo))
  {
    forall i, j | 0 <= i < j < |Rounds(q, rk, hi, lo)|
      ensures Rounds(q, rk, hi, lo)[i] != Rounds(q, rk, hi, lo)[j]
    {
      RoundsPositionsDiffer(q, rk, hi, lo, i, j);
    }
  }

  lemma RendersDistinct(render: Render, qs: seq<Query>)
    requires forall a, b :: render(a) == render(b) ==> a == b
    requires Distinct(qs)
    ensures Distinct(Renders(render, qs))
  {
    RendersAt(render, qs);
  }

  // ---------------------------------------------------------------------------
  // Duplicate removal

  /** A list without duplicates comes back unchanged. */
  lemma {:induction false} DedupDistinct(s: seq<string>)
    requires Distinct(s)
    ensures Dedup(s) == s
  {
    if s != [] {
      var init := s[..|s| - 1];
      assert Distinct(init);
      DedupDistinct(init);
      assert s[|s| - 1] !in init;
    }
  }

  lemma {:induction false} FirstIndexSnoc(s: seq<string>, y: string, x: string)
    requires x in s
    ensures FirstIndex(s + [y], x) == FirstIndex(s, x)
  {
    if s[0] != x {
      assert (s + [y])[1..] == s[1..] + [y];
      FirstIndexSnoc(s[1..], y, x);
    }
  }

  /** The strings kept come in the order of their first occurrences. */
  lemma {:induction false} DedupOrder(s: seq<string>)
    ensures forall i, j :: 0 <= i < j < |Dedup(s)| ==> FirstIndex(s, Dedup(s)[i]) < FirstIndex(s, Dedup(s)[j])
  {
    if s != [] {
      var init := s[..|s| - 1];
      var y := s[|s| - 1];
      assert s == init + [y];
      DedupOrder(init);
      var d := Dedup(init);
      forall x | x in init
        ensures FirstIndex(s, x) == FirstIndex(init, x) < |init|
      {
        FirstIndexSnoc(init, y, x);
      }
      if y !in d {
        assert y !in init;
        assert FirstIndex(s, y) == |init|;
      }
    }
  }

  // ---------------------------------------------------------------------------
  // What the whole expansion returns

  /**
   * When different queries print as different addresses, nothing is removed:
   * start round `n >= 1` gives exactly `2 * n` addresses, round `n` down to round
   * 1, the standings of each round before its pairings.
   */
  lemma ExpandLinkAllRounds(url: string, q: Query, render: Render, n: int)
    requires forall a, b :: render(a) == render(b) ==> a == b
    requires StartOf(q) == Some(n) && n >= 1
    ensures |ExpandLink(url, Some(q), render)| == 2 * n
    ensures forall k :: 0 <= k < 2 * n ==>
              ExpandLink(url, Some(q), render)[k] == render(Apply(q, FindKey(q, RoundName), n - k / 2, k % 2 + 1))
  {
    var rk := FindKey(q, RoundName);
    var r := Rounds(q, rk, n, 1);
    ExpandLinkStarted(url, Some(q), render, n);
    RoundsDistinct(q, rk, n, 1);
    RendersDistinct(render, r);
    DedupDistinct(Renders(render, r));
    RendersAt(render, r);
    RoundsShape(q, rk, n, 1);
  }

  /** Every address returned is one of the derived ones, and each derived one is returned. */
  lemma ExpandLinkCovers(url: string, q: Query, render: Render, n: int)
    requires StartOf(q) == Some(n)
    ensures forall x :: x in ExpandLink(url, Some(q), render) <==>
              exists k :: 0 <= k < |Rounds(q, FindKey(q, RoundName), n, 1)| && x == render(Rounds(q, FindKey(q, RoundName), n, 1)[k])
  {
    var rounds := Rounds(q, FindKey(q, RoundName), n, 1);
    ExpandLinkStarted(url, Some(q), render, n);
    RendersMembers(render, rounds);
  }

  lemma RendersMembers(render: Render, qs: seq<Query>)
    ensures forall x :: x in Renders(render, qs) <==> exists k :: 0 <= k < |qs| && x == render(qs[k])
  {
    var rs := Renders(render, qs);
    RendersAt(render, qs);
    forall x
      ensures x in rs <==> exists k :: 0 <= k < |qs| && x == render(qs[k])
    {
      if x in rs {
        var k :| 0 <= k < |rs| && rs[k] == x;
        assert x == render(qs[k]);
      } else {
        forall k | 0 <= k < |qs|
          ensures x != render(qs[k])
        {
          assert rs[k] in rs;
        }
      }
    }
  }

  /** An empty round value counts as round 1. */
  lemma EmptyRoundIsOne(q: Query)
    requires FindKey(q, RoundName).Some? && Get(q, FindKey(q, RoundName).value) == Some("")
    ensures StartOf(q) == Some(1)
  {
    assert DefaultRound == NatToString(1);
    ParseIntNat(1);
  }

  /** A round value that is a numeral, such as `rd=7`, starts the expansion at that round. */
  lemma NumeralRoundStarts(q: Query, n: nat)
    requires FindKey(q, RoundName).Some? && Get(q, FindKey(q, RoundName).value) == Some(NatToString(n))
    ensures StartOf(q) == Some(n)
  {
    ParseIntNat(n);
  }
}
