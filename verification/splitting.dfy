/** strings.Split and what undoes it. */
module Splitting {
  import opened Text

  predicate OccursAt<T(==)>(s: seq<T>, sep: seq<T>, i: nat) {
    i + |sep| <= |s| && s[i..i + |sep|] == sep
  }

  /** strings.Index: the first occurrence. */
  function Index<T(==)>(s: seq<T>, sep: seq<T>): (i: Option<nat>)
    ensures i.Some? ==> OccursAt(s, sep, i.value) && forall j: nat | j < i.value :: !OccursAt(s, sep, j)
    ensures i.None? ==> forall j: nat :: !OccursAt(s, sep, j)
  {
    if |s| < |sep| then None
    else if sep <= s then Some(0)
    else
      OccursLater(s, sep);
      match Index(s[1..], sep)
      case None => None
      case Some(i) => Some(i + 1)
  }

  /** Unless it starts with the separator, a sequence has it where its tail has it. */
  lemma OccursLater<T>(s: seq<T>, sep: seq<T>)
    requires |sep| <= |s| && !(sep <= s)
    ensures s != [] && !OccursAt(s, sep, 0)
    ensures forall j: nat {:trigger OccursAt(s, sep, j)} | j > 0 ::
      OccursAt(s, sep, j) <==> OccursAt(s[1..], sep, j - 1)
    ensures forall j: nat {:trigger OccursAt(s[1..], sep, j)} :: OccursAt(s[1..], sep, j) <==> OccursAt(s, sep, j + 1)
  {
    forall j: nat
      ensures OccursAt(s[1..], sep, j) <==> OccursAt(s, sep, j + 1)
    {
      OccursInTail(s, sep, j);
    }
    forall j: nat | j > 0
      ensures OccursAt(s, sep, j) <==> OccursAt(s[1..], sep, j - 1)
    {
      OccursInTail(s, sep, j - 1);
    }
  }

  lemma OccursInTail<T>(s: seq<T>, sep: seq<T>, j: nat)
    requires s != []
    ensures OccursAt(s[1..], sep, j) <==> OccursAt(s, sep, j + 1)
  {
    if j + 1 + |sep| <= |s| {
      assert s[1..][j..j + |sep|] == s[j + 1..j + 1 + |sep|];
    }
  }

  predicate IsFree<T(==)>(s: seq<T>, sep: seq<T>) {
    Index(s, sep).None?
  }

  function Split<T(==)>(s: seq<T>, sep: seq<T>): (parts: seq<seq<T>>)
    requires sep != []
    ensures parts != []
    decreases |s|
  {
    match Index(s, sep)
    case None => [s]
    case Some(i) => [s[..i]] + Split(s[i + |sep|..], sep)
  }

  function Join<T>(parts: seq<seq<T>>, sep: seq<T>): seq<T> {
    if parts == [] then []
    else if |parts| == 1 then parts[0]
    else parts[0] + sep + Join(parts[1..], sep)
  }

  lemma JoinFirst<T>(first: seq<T>, rest: seq<seq<T>>, sep: seq<T>)
    ensures Join([first] + rest, sep) == first + if rest == [] then [] else sep + Join(rest, sep)
  {
    assert ([first] + rest)[1..] == rest;
  }

  /** No proper prefix of the separator is also its suffix, so two occurrences never overlap. */
  ghost predicate Unbordered<T>(sep: seq<T>) {
    sep != [] && forall n | 0 < n < |sep| :: sep[..n] != sep[|sep| - n..]
  }

  /** After a free part, the first separator is the one that ends the part. */
  lemma IndexAfterFree<T>(part: seq<T>, sep: seq<T>, rest: seq<T>)
    requires Unbordered(sep) && IsFree(part, sep)
    ensures Index(part + sep + rest, sep) == Some(|part|)
  {
    var s := part + sep + rest;
    assert OccursAt(s, sep, |part|);
    forall j: nat | j < |part|
      ensures !OccursAt(s, sep, j)
    {
      if OccursAt(s, sep, j) {
        if j + |sep| <= |part| {
          Within(part, sep, rest, j);
        } else {
          Straddles(part, sep, rest, j);
        }
      }
    }
  }

  lemma Within<T>(part: seq<T>, sep: seq<T>, rest: seq<T>, j: nat)
    requires OccursAt(part + sep + rest, sep, j) && j + |sep| <= |part|
    ensures OccursAt(part, sep, j)
  {
    assert part[j..j + |sep|] == (part + sep + rest)[j..j + |sep|];
  }

  /** An occurrence across the end of the part would be a border of the separator. */
  lemma Straddles<T>(part: seq<T>, sep: seq<T>, rest: seq<T>, j: nat)
    requires OccursAt(part + sep + rest, sep, j) && j < |part| < j + |sep|
    ensures var n := j + |sep| - |part|; 0 < n < |sep| && sep[..n] == sep[|sep| - n..]
  {
    var s, n := part + sep + rest, j + |sep| - |part|;
    assert sep[..n] == s[|part|..|part| + n];
    assert sep[|sep| - n..] == s[j..j + |sep|][|sep| - n..] == s[|part|..|part| + n];
  }

  lemma {:induction false} PartsAreFree<T>(s: seq<T>, sep: seq<T>)
    requires sep != []
    ensures forall part <- Split(s, sep) :: IsFree(part, sep)
    ensures Join(Split(s, sep), sep) == s
    decreases |s|
  {
    match Index(s, sep) {
      case None =>
      case Some(i) =>
        var rest := s[i + |sep|..];
        PartsAreFree(rest, sep);
        assert forall j: nat :: OccursAt(s[..i], sep, j) ==> OccursAt(s, sep, j);
        assert s == s[..i] + sep + rest;
        assert Split(s, sep)[1..] == Split(rest, sep);
    }
  }

  lemma SplitAfterFree<T>(part: seq<T>, sep: seq<T>, rest: seq<T>)
    requires Unbordered(sep) && IsFree(part, sep)
    ensures Split(part + sep + rest, sep) == [part] + Split(rest, sep)
  {
    var s := part + sep + rest;
    IndexAfterFree(part, sep, rest);
    assert s[..|part|] == part && s[|part| + |sep|..] == rest;
  }

  lemma SplitFree<T>(part: seq<T>, sep: seq<T>)
    requires sep != [] && IsFree(part, sep)
    ensures Split(part, sep) == [part]
  {
  }

  lemma SplitFirst<T>(first: seq<T>, rest: seq<seq<T>>, sep: seq<T>)
    requires Unbordered(sep) && IsFree(first, sep) && rest != [] && Split(Join(rest, sep), sep) == rest
    ensures Split(Join([first] + rest, sep), sep) == [first] + rest
  {
    JoinFirst(first, rest, sep);
    SplitAfterFree(first, sep, Join(rest, sep));
    assert first + sep + Join(rest, sep) == first + (sep + Join(rest, sep));
  }

  /** Splitting undoes joining, for a non-empty list of free parts. */
  lemma {:induction false} SplitJoin<T>(parts: seq<seq<T>>, sep: seq<T>)
    requires Unbordered(sep) && parts != [] && forall part <- parts :: IsFree(part, sep)
    ensures Split(Join(parts, sep), sep) == parts
  {
    var first, rest := parts[0], parts[1..];
    assert first in parts && parts == [first] + rest;
    if rest == [] {
      JoinFirst(first, rest, sep);
      SplitFree(first, sep);
    } else {
      assert forall part <- rest :: part in parts;
      SplitJoin(rest, sep);
      SplitFirst(first, rest, sep);
    }
  }
}
