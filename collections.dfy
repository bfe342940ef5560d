/** `[...new Set(xs)]`: the distinct elements of a list, in the order in which
    a JavaScript `Set` iterates them (order of first insertion). */
module Collections {

  predicate NoDuplicates<T(==)>(s: seq<T>)
  {
    forall i, j :: 0 <= i < j < |s| ==> s[i] != s[j]
  }

  /** The position of the first occurrence of `x` in `s`. */
  function FirstIndex<T(==)>(s: seq<T>, x: T): (i: nat)
    requires x in s
    ensures i < |s| && s[i] == x
    ensures forall k :: 0 <= k < i ==> s[k] != x
  {
    if s[0] == x then 0 else 1 + FirstIndex(s[1..], x)
  }

  /** A first occurrence inside a prefix is the first occurrence in the whole. */
  lemma FirstIndexInPrefix<T>(s: seq<T>, n: nat, x: T)
    requires n <= |s| && x in s[..n]
    ensures x in s && FirstIndex(s, x) == FirstIndex(s[..n], x)
  {
    var i := FirstIndex(s[..n], x);
    var j := FirstIndex(s, x);
    assert s[..n][i] == s[i];
    assert j < n ==> s[..n][j] == s[j];
  }

  /** The distinct elements of `s` in order of first occurrence: no element
      twice, exactly the elements of `s`, and ordered by where each first
      appears in `s`. */
  function Distinct<T(==, !new)>(s: seq<T>): (r: seq<T>)
    ensures NoDuplicates(r)
    ensures forall x :: x in r <==> x in s
    ensures forall i, j :: 0 <= i < j < |r| ==> FirstIndex(s, r[i]) < FirstIndex(s, r[j])
  {
    if |s| == 0 then []
    else
      var init := s[..|s| - 1];
      var last := s[|s| - 1];
      var prefix := Distinct(init);
      assert s == init + [last];
      FirstIndicesKept(s, prefix);
      if last in prefix then prefix
      else
        assert FirstIndex(s, last) == |s| - 1;
        prefix + [last]
  }

  /** Helper for `Distinct`: the elements already collected from the prefix
      keep their first positions when the last element is considered. */
  lemma FirstIndicesKept<T(!new)>(s: seq<T>, prefix: seq<T>)
    requires |s| > 0
    requires forall x :: x in prefix <==> x in s[..|s| - 1]
    ensures forall k :: 0 <= k < |prefix| ==>
      prefix[k] in s[..|s| - 1] && prefix[k] in s
      && FirstIndex(s, prefix[k]) == FirstIndex(s[..|s| - 1], prefix[k])
      && FirstIndex(s, prefix[k]) < |s| - 1
  {
    forall k | 0 <= k < |prefix|
      ensures prefix[k] in s[..|s| - 1] && prefix[k] in s
      ensures FirstIndex(s, prefix[k]) == FirstIndex(s[..|s| - 1], prefix[k])
    {
      assert prefix[k] in prefix;
      FirstIndexInPrefix(s, |s| - 1, prefix[k]);
    }
  }

  /** How many entries of a row of flags are set. */
  function CountTrue(flags: seq<bool>): (n: nat)
    ensures n <= |flags|
  {
    if flags == [] then 0 else (if flags[0] then 1 else 0) + CountTrue(flags[1..])
  }

  /** Dropping the last element of a list without repeats leaves a list
      without repeats that does not hold that element. */
  lemma NoDuplicatesInit<T>(s: seq<T>)
    requires |s| > 0 && NoDuplicates(s)
    ensures NoDuplicates(s[..|s| - 1]) && s[|s| - 1] !in s[..|s| - 1]
  {
    var init := s[..|s| - 1];
    forall i, j | 0 <= i < j < |init| ensures init[i] != init[j] {
      assert init[i] == s[i] && init[j] == s[j];
    }
    forall k | 0 <= k < |init| ensures init[k] != s[|s| - 1] {
      assert init[k] == s[k];
    }
  }

  /** A list without repeats is its own set of distinct elements. */
  lemma {:induction false} DistinctOfNoDuplicates<T(!new)>(s: seq<T>)
    requires NoDuplicates(s)
    ensures Distinct(s) == s
  {
    if |s| > 0 {
      var init := s[..|s| - 1];
      var last := s[|s| - 1];
      NoDuplicatesInit(s);
      DistinctOfNoDuplicates(init);
      assert last !in Distinct(init);
      assert s == init + [last];
    }
  }
}
