/** The ranked lists of the karma plugin. */
module Ranking {
  import opened Text

  datatype Pair = Pair(key: string, value: int)

  /** strings.Compare(a, b) < 0; the order of characters is that of their UTF-8 bytes. */
  predicate StrLess(a: string, b: string) {
    b != "" && (a == "" || a[0] < b[0] || (a[0] == b[0] && StrLess(a[1..], b[1..])))
  }

  /** pairList.Less: by value, then by key from the last one to the first. */
  predicate Less(p: Pair, q: Pair) {
    p.value < q.value || (p.value == q.value && StrLess(q.key, p.key))
  }

  /** sortWorst sorts by Less, sortTop by its reverse. */
  predicate Precedes(top: bool, p: Pair, q: Pair) {
    if top then Less(q, p) else Less(p, q)
  }

  // ---- A strict total order ----

  lemma {:induction false} StrLessTotal(a: string, b: string)
    ensures a != b ==> StrLess(a, b) != StrLess(b, a)
    ensures a == b ==> !StrLess(a, b)
  {
    if a != "" && b != "" && a[0] == b[0] {
      StrLessTotal(a[1..], b[1..]);
      assert a == [a[0]] + a[1..] && b == [b[0]] + b[1..];
    }
  }

  lemma {:induction false} StrLessTransitive(a: string, b: string, c: string)
    requires StrLess(a, b) && StrLess(b, c)
    ensures StrLess(a, c)
  {
    if a != "" && a[0] == b[0] == c[0] {
      StrLessTransitive(a[1..], b[1..], c[1..]);
    }
  }

  lemma PrecedesTotal(top: bool, p: Pair, q: Pair)
    ensures p != q ==> Precedes(top, p, q) != Precedes(top, q, p)
    ensures !Precedes(top, p, p)
  {
    StrLessTotal(p.key, q.key);
    StrLessTotal(p.key, p.key);
  }

  lemma PrecedesTransitive(top: bool, p: Pair, q: Pair, r: Pair)
    requires Precedes(top, p, q) && Precedes(top, q, r)
    ensures Precedes(top, p, r)
  {
    if p.value == q.value == r.value {
      if top {
        StrLessTransitive(p.key, q.key, r.key);
      } else {
        StrLessTransitive(r.key, q.key, p.key);
      }
    }
  }

  // ---- What a ranking is ----

  predicate Sorted(top: bool, ps: seq<Pair>) {
    forall i, j | 0 <= i < j < |ps| :: Precedes(top, ps[i], ps[j])
  }

  predicate IsEntry(values: map<string, int>, p: Pair) {
    p.key in values && values[p.key] == p.value
  }

  function Limit(count: nat, n: nat): nat {
    if n < count then n else count
  }

  /** The list is sorted and has as many entries as asked for, or all; every other entry comes after all of it. */
  ghost predicate Ranks(top: bool, values: map<string, int>, count: nat, results: seq<Pair>) {
    && Sorted(top, results)
    && |results| == Limit(count, |values|)
    && (forall p <- results :: IsEntry(values, p))
    && (forall p, q | p in results && IsEntry(values, q) && q !in results :: Precedes(top, p, q))
  }

  // ---- There is only one ----

  lemma {:induction false} SameSorted(top: bool, s: seq<Pair>, t: seq<Pair>)
    requires Sorted(top, s) && Sorted(top, t) && forall p :: p in s <==> p in t
    ensures s == t
  {
    if s == [] {
      if t != [] {
        HasMember(t);
      }
    } else {
      HasMember(s);
      SameFirst(top, s, t);
      TailMembers(top, s);
      TailMembers(top, t);
      SameSorted(top, s[1..], t[1..]);
      assert s == [s[0]] + s[1..] && t == [t[0]] + t[1..];
    }
  }

  lemma HasMember(s: seq<Pair>)
    requires s != []
    ensures exists p :: p in s
  {
    assert s[0] in s;
  }

  lemma SameFirst(top: bool, s: seq<Pair>, t: seq<Pair>)
    requires Sorted(top, s) && Sorted(top, t) && s != [] && t != [] && forall p :: p in s <==> p in t
    ensures s[0] == t[0]
  {
    assert s[0] in s && t[0] in t;
    var i :| 0 <= i < |s| && s[i] == t[0];
    var j :| 0 <= j < |t| && t[j] == s[0];
    PrecedesTotal(top, s[0], t[0]);
  }

  lemma TailMembers(top: bool, s: seq<Pair>)
    requires Sorted(top, s) && s != []
    ensures forall p :: p in s[1..] <==> p in s && p != s[0]
  {
    forall p | p in s[1..]
      ensures p != s[0]
    {
      PrecedesTotal(top, s[0], p);
    }
  }

  function KeysOf(ps: seq<Pair>): set<string> {
    set p | p in ps :: p.key
  }

  predicate DistinctKeys(ps: seq<Pair>) {
    forall i, j | 0 <= i < j < |ps| :: ps[i].key != ps[j].key
  }

  lemma {:induction false} KeysOfDistinct(ps: seq<Pair>)
    requires DistinctKeys(ps)
    ensures |KeysOf(ps)| == |ps|
  {
    if ps != [] {
      var last := |ps| - 1;
      KeysOfDistinct(ps[..last]);
      assert ps == ps[..last] + [ps[last]];
      assert KeysOf(ps) == KeysOf(ps[..last]) + {ps[last].key};
      assert ps[last].key !in KeysOf(ps[..last]);
    }
  }

  lemma RankedKeys(top: bool, values: map<string, int>, count: nat, results: seq<Pair>)
    requires Ranks(top, values, count, results)
    ensures KeysOf(results) <= values.Keys && |KeysOf(results)| == |results|
    ensures forall p | IsEntry(values, p) :: p in results <==> p.key in KeysOf(results)
  {
    forall i, j | 0 <= i < j < |results|
      ensures results[i].key != results[j].key
    {
      assert results[i] in results && results[j] in results;
      PrecedesTotal(top, results[i], results[j]);
    }
    KeysOfDistinct(results);
  }

  lemma SubsetOfSameSize(s: set<string>, t: set<string>)
    requires s <= t && |s| == |t|
    ensures s == t
  {
    assert |t - s| == |t| - |s|;
    assert t == s + (t - s);
  }

  /** Whatever sorting algorithm and map order: the ranked list is unique. */
  lemma RankingIsUnique(top: bool, values: map<string, int>, count: nat, r1: seq<Pair>, r2: seq<Pair>)
    requires Ranks(top, values, count, r1) && Ranks(top, values, count, r2)
    ensures r1 == r2
  {
    RankedKeys(top, values, count, r1);
    RankedKeys(top, values, count, r2);
    if k1 :| k1 in KeysOf(r1) && k1 !in KeysOf(r2) {
      if KeysOf(r2) <= KeysOf(r1) {
        SubsetOfSameSize(KeysOf(r2), KeysOf(r1));
        assert false;
      }
      var k2 :| k2 in KeysOf(r2) && k2 !in KeysOf(r1);
      var p1, p2 := Pair(k1, values[k1]), Pair(k2, values[k2]);
      assert p1 in r1 && p1 !in r2 && p2 in r2 && p2 !in r1;
      PrecedesTotal(top, p1, p2);
      assert false;
    }
    SubsetOfSameSize(KeysOf(r1), KeysOf(r2));
    SameSorted(top, r1, r2);
  }

  function Reversed(ps: seq<Pair>): (r: seq<Pair>)
    ensures |r| == |ps| && forall i | 0 <= i < |r| :: r[i] == ps[|ps| - 1 - i]
    ensures forall p :: p in r <==> p in ps
  {
    if ps == [] then [] else Reversed(ps[1..]) + [ps[0]]
  }

  /** The list of all entries from the top is the list of all entries from the worst, backwards. */
  lemma TopReversesWorst(values: map<string, int>, top: seq<Pair>, worst: seq<Pair>)
    requires Ranks(true, values, |values|, top) && Ranks(false, values, |values|, worst)
    ensures top == Reversed(worst)
  {
    RankedKeys(false, values, |values|, worst);
    SubsetOfSameSize(KeysOf(worst), values.Keys);
    assert forall q | IsEntry(values, q) :: q in Reversed(worst);
    RankingIsUnique(true, values, |values|, top, Reversed(worst));
  }

  // ---- The methods ----

  predicate AllParse(rawData: map<string, string>) {
    forall k <- rawData :: Atoi(rawData[k]).Some?
  }

  function Parsed(rawData: map<string, string>): map<string, int>
    requires AllParse(rawData)
  {
    map k | k in rawData :: Atoi(rawData[k]).value
  }

  method ConvertMapValues(rawData: map<string, string>) returns (result: Option<map<string, int>>)
    ensures result == if AllParse(rawData) then Some(Parsed(rawData)) else None
  {
    var values: map<string, int> := map[];
    var remaining := rawData.Keys;
    while remaining != {}
      invariant remaining <= rawData.Keys && values.Keys == rawData.Keys - remaining
      invariant forall k <- values :: Atoi(rawData[k]) == Some(values[k])
    {
      var k :| k in remaining;
      var parsed := Atoi(rawData[k]);
      if parsed.None? {
        return None;
      }
      values := values[k := parsed.value];
      remaining := remaining - {k};
    }
    assert AllParse(rawData) && values == Parsed(rawData);
    result := Some(values);
  }

  /** The entries, in whatever order the map gives them. */
  method ConvertToPairs(values: map<string, int>) returns (pl: array<Pair>)
    ensures fresh(pl) && pl.Length == |values| && DistinctKeys(pl[..])
    ensures forall p :: p in pl[..] <==> IsEntry(values, p)
  {
    pl := new Pair[|values|](i => Pair("", 0));
    var i, remaining := 0, values.Keys;
    while remaining != {}
      invariant remaining <= values.Keys && i == |values| - |remaining|
      invariant DistinctKeys(pl[..i])
      invariant forall p :: p in pl[..i] <==> IsEntry(values, p) && p.key !in remaining
    {
      var k :| k in remaining;
      ghost var before := pl[..i];
      pl[i] := Pair(k, values[k]);
      remaining := remaining - {k};
      i := i + 1;
      OneMorePair(before, Pair(k, values[k]));
      assert pl[..i] == before + [Pair(k, values[k])];
    }
    assert pl[..i] == pl[..];
  }

  lemma OneMorePair(ps: seq<Pair>, p: Pair)
    requires DistinctKeys(ps) && forall q <- ps :: q.key != p.key
    ensures DistinctKeys(ps + [p])
    ensures forall q :: q in ps + [p] <==> q in ps || q == p
  {
  }

  /** The same pairs in another order. */
  ghost predicate Rearranged(ps: seq<Pair>, qs: seq<Pair>) {
    |ps| == |qs| && DistinctKeys(ps) && DistinctKeys(qs) && forall p :: p in ps <==> p in qs
  }

  lemma SwapRearranges(ps: seq<Pair>, qs: seq<Pair>, i: nat, j: nat)
    requires Rearranged(ps, qs) && i < j < |qs|
    ensures Rearranged(ps, qs[i := qs[j]][j := qs[i]])
  {
    var rs := qs[i := qs[j]][j := qs[i]];
    forall p
      ensures p in qs <==> p in rs
    {
      if p in qs {
        var k :| 0 <= k < |qs| && qs[k] == p;
        assert rs[if k == i then j else if k == j then i else k] == p;
      }
      if p in rs {
        var k :| 0 <= k < |rs| && rs[k] == p;
        assert qs[if k == i then j else if k == j then i else k] == p;
      }
    }
  }

  /** Everything before i is in its final place. */
  predicate SettledBefore(top: bool, ps: seq<Pair>, i: nat) {
    forall k, l | 0 <= k < l < |ps| && k < i :: Precedes(top, ps[k], ps[l])
  }

  /** The pair at i comes before those after it up to j. */
  predicate LeadsUpTo(top: bool, ps: seq<Pair>, i: nat, j: nat) {
    i < |ps| && forall l | i < l < j && l < |ps| :: Precedes(top, ps[i], ps[l])
  }

  lemma SwapSettles(top: bool, ps: seq<Pair>, i: nat, j: nat)
    requires i < j < |ps| && DistinctKeys(ps) && SettledBefore(top, ps, i) && LeadsUpTo(top, ps, i, j)
    ensures var qs := if Precedes(top, ps[j], ps[i]) then ps[i := ps[j]][j := ps[i]] else ps;
      SettledBefore(top, qs, i) && LeadsUpTo(top, qs, i, j + 1)
  {
    PrecedesTotal(top, ps[i], ps[j]);
    if Precedes(top, ps[j], ps[i]) {
      forall l | i < l < j
        ensures Precedes(top, ps[j], ps[l])
      {
        PrecedesTransitive(top, ps[j], ps[i], ps[l]);
      }
    }
  }

  /** A sort that, like the library's, uses only comparisons and swaps. */
  method Sort(pl: array<Pair>, top: bool)
    requires DistinctKeys(pl[..])
    modifies pl
    ensures Sorted(top, pl[..]) && Rearranged(old(pl[..]), pl[..])
  {
    for i := 0 to pl.Length
      invariant Rearranged(old(pl[..]), pl[..])
      invariant SettledBefore(top, pl[..], i)
    {
      for j := i + 1 to pl.Length
        invariant Rearranged(old(pl[..]), pl[..])
        invariant SettledBefore(top, pl[..], i) && LeadsUpTo(top, pl[..], i, j)
      {
        SwapSettles(top, pl[..], i, j);
        SwapRearranges(old(pl[..]), pl[..], i, j);
        ghost var before := pl[..];
        if Precedes(top, pl[j], pl[i]) {
          pl[i], pl[j] := pl[j], pl[i];
          assert pl[..] == before[i := before[j]][j := before[i]];
        }
      }
    }
  }

  lemma PrefixRanks(top: bool, values: map<string, int>, count: nat, full: seq<Pair>)
    requires Sorted(top, full) && |full| == |values| && forall p :: p in full <==> IsEntry(values, p)
    ensures Ranks(top, values, count, full[..Limit(count, |full|)])
  {
    var results := full[..Limit(count, |full|)];
    assert forall j | 0 <= j < |results| :: full[j] in results;
    forall p, q | p in results && IsEntry(values, q) && q !in results
      ensures Precedes(top, p, q)
    {
      var i :| 0 <= i < |results| && results[i] == p;
      var j :| 0 <= j < |full| && full[j] == q;
    }
  }

  /** getRankedList: an error when some value does not parse, otherwise the ranked list. */
  method GetRankedList(rawData: map<string, string>, count: nat, top: bool) returns (results: Option<seq<Pair>>)
    ensures results.Some? <==> AllParse(rawData)
    ensures results.Some? ==> Ranks(top, Parsed(rawData), count, results.value)
  {
    var values := ConvertMapValues(rawData);
    if values.None? {
      return None;
    }
    var pl := ConvertToPairs(values.value);
    Sort(pl, top);
    var limit := count;
    if pl.Length < count {
      limit := pl.Length;
    }
    PrefixRanks(top, values.value, count, pl[..]);
    assert pl[..limit] == pl[..][..limit];
    results := Some(pl[..limit]);
  }
}
