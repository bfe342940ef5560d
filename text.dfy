/** `String.prototype.split` and `Array.prototype.join` for a one-character
    separator, the two string operations the pages are built from, and the
    round trips that relate them. */
module Text {

  /** `parts.join(sep)`: the parts with one separator between neighbours. */
  function Join(parts: seq<string>, sep: char): (s: string)
    ensures |parts| == 0 ==> s == ""
    ensures |parts| >= 1 ==> |parts[0]| <= |s| && s[..|parts[0]|] == parts[0]
    ensures |parts| >= 2 ==> |parts[0]| < |s| && s[|parts[0]|] == sep
  {
    if |parts| == 0 then ""
    else if |parts| == 1 then parts[0]
    else parts[0] + [sep] + Join(parts[1..], sep)
  }

  /** `s.split(sep)`: the maximal separator-free pieces of `s`, in order.
      Like JavaScript, the empty string splits into one empty piece, and a
      leading, trailing or doubled separator yields an empty piece. */
  function Split(s: string, sep: char): (parts: seq<string>)
    ensures |parts| >= 1
    ensures forall k :: 0 <= k < |parts| ==> sep !in parts[k]
    decreases |s|
  {
    if |s| == 0 then [""]
    else
      var rest := Split(s[1..], sep);
      if s[0] == sep then [""] + rest
      else [[s[0]] + rest[0]] + rest[1..]
  }

  /** A character put in front of the first part goes in front of the joined string. */
  lemma {:induction false} JoinConsChar(c: char, first: string, rest: seq<string>, sep: char)
    ensures Join([[c] + first] + rest, sep) == [c] + Join([first] + rest, sep)
  {
    var ps := [[c] + first] + rest;
    var qs := [first] + rest;
    if |rest| > 0 {
      assert ps[1..] == rest && qs[1..] == rest;
      calc {
        Join(ps, sep);
        ps[0] + [sep] + Join(rest, sep);
        [c] + (first + [sep] + Join(rest, sep));
        [c] + Join(qs, sep);
      }
    }
  }

  /** Joining with a leading empty part puts the separator first. */
  lemma JoinEmptyFirst(rest: seq<string>, sep: char)
    requires |rest| >= 1
    ensures Join([""] + rest, sep) == [sep] + Join(rest, sep)
  {
    assert ([""] + rest)[1..] == rest;
  }

  /** Splitting and joining again with the same separator gives the string back. */
  lemma {:induction false} JoinSplit(s: string, sep: char)
    ensures Join(Split(s, sep), sep) == s
    decreases |s|
  {
    if |s| > 0 {
      var rest := Split(s[1..], sep);
      JoinSplit(s[1..], sep);
      if s[0] == sep {
        JoinEmptyFirst(rest, sep);
      } else {
        JoinConsChar(s[0], rest[0], rest[1..], sep);
        assert [rest[0]] + rest[1..] == rest;
      }
      assert s == [s[0]] + s[1..];
    }
  }

  /** Joining separator-free parts and splitting again gives the parts back:
      the joined string loses nothing. */
  lemma {:induction false} SplitJoin(parts: seq<string>, sep: char)
    requires |parts| >= 1
    requires forall k :: 0 <= k < |parts| ==> sep !in parts[k]
    ensures Split(Join(parts, sep), sep) == parts
    decreases |parts|, |parts[0]|
  {
    var first := parts[0];
    var rest := parts[1..];
    if first == "" {
      if |rest| > 0 {
        SplitJoin(rest, sep);
        JoinEmptyFirst(rest, sep);
        assert parts == [""] + rest;
        var j := Join(parts, sep);
        assert j[1..] == Join(rest, sep);
      }
    } else {
      var q := first[1..];
      var tail := [q] + rest;
      assert tail[1..] == rest;
      SplitJoin(tail, sep);
      assert first == [first[0]] + q;
      assert parts == [[first[0]] + q] + rest;
      JoinConsChar(first[0], q, rest, sep);
      var j := Join(parts, sep);
      assert j[0] == first[0] && j[1..] == Join(tail, sep);
    }
  }

  /** Appending a part to a non-empty list appends the separator and the part. */
  lemma {:induction false} JoinSnoc(parts: seq<string>, last: string, sep: char)
    requires |parts| >= 1
    ensures Join(parts + [last], sep) == Join(parts, sep) + [sep] + last
    decreases |parts|
  {
    var ps := parts + [last];
    assert ps[0] == parts[0];
    if |parts| == 1 {
      assert ps[1..] == [last];
    } else {
      assert ps[1..] == parts[1..] + [last];
      JoinSnoc(parts[1..], last, sep);
    }
  }
}
