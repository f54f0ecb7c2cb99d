/** `Array.prototype.join` and `String.prototype.split` on lists of strings, as the
    login and register pages use them to carry a list of error messages through the
    message of a single `Error`. */
module Text {
  import opened Js

  /** `parts.join(sep)`: the empty list joins to the empty string. */
  function Join(parts: seq<string>, sep: string): (s: string)
    ensures |parts| == 1 ==> s == parts[0]
    decreases parts
  {
    if parts == [] then ""
    else if |parts| == 1 then parts[0]
    else parts[0] + sep + Join(parts[1..], sep)
  }

  /** `sep` occurs in `s` starting at index `i`. */
  predicate OccursAt(s: string, sep: string, i: nat) {
    i + |sep| <= |s| && s[i..i + |sep|] == sep
  }

  predicate Contains(s: string, sep: string) {
    exists i: nat :: i <= |s| && OccursAt(s, sep, i)
  }

  /** `s.indexOf(sep, from)`: the first occurrence of `sep` at or after `from`. */
  function IndexFrom(s: string, sep: string, from: nat): (r: Option<nat>)
    requires |sep| > 0
    ensures r.Some? ==> from <= r.value && OccursAt(s, sep, r.value)
    ensures r.Some? ==> forall j: nat :: from <= j < r.value ==> !OccursAt(s, sep, j)
    ensures r.None? ==> forall j: nat :: from <= j ==> !OccursAt(s, sep, j)
    decreases |s| - from
  {
    if from + |sep| > |s| then None
    else if s[from..from + |sep|] == sep then Some(from)
    else IndexFrom(s, sep, from + 1)
  }

  /** `s.split(sep)` for a non-empty separator: the pieces between the leftmost
      non-overlapping occurrences of `sep`. The empty string splits to `[""]`. */
  function Split(s: string, sep: string): (r: seq<string>)
    requires |sep| > 0
    ensures |r| >= 1
    decreases |s|
  {
    match IndexFrom(s, sep, 0)
    case None => [s]
    case Some(i) => [s[..i]] + Split(s[i + |sep|..], sep)
  }

  /** A piece cut before the first occurrence of `sep` contains no `sep`. */
  lemma PrefixBeforeFirstHasNoSep(s: string, sep: string, i: nat)
    requires |sep| > 0 && i <= |s|
    requires forall j: nat :: j < i ==> !OccursAt(s, sep, j)
    ensures !Contains(s[..i], sep)
  {
    forall j: nat | OccursAt(s[..i], sep, j)
      ensures false
    {
      assert s[..i][j..j + |sep|] == s[j..j + |sep|];
      assert OccursAt(s, sep, j);
    }
  }

  /** No piece that `Split` returns contains the separator. */
  lemma {:induction false} SplitPiecesHaveNoSep(s: string, sep: string)
    requires |sep| > 0
    ensures forall k :: 0 <= k < |Split(s, sep)| ==> !Contains(Split(s, sep)[k], sep)
    decreases |s|
  {
    match IndexFrom(s, sep, 0)
    case None =>
      assert Split(s, sep) == [s];
    case Some(i) =>
      PrefixBeforeFirstHasNoSep(s, sep, i);
      SplitPiecesHaveNoSep(s[i + |sep|..], sep);
  }

  /** Splitting and joining back with the same separator gives the original text. */
  lemma {:induction false} JoinSplit(s: string, sep: string)
    requires |sep| > 0
    ensures Join(Split(s, sep), sep) == s
    decreases |s|
  {
    match IndexFrom(s, sep, 0)
    case None =>
    case Some(i) =>
      var rest := s[i + |sep|..];
      var pieces := Split(rest, sep);
      JoinSplit(rest, sep);
      assert Split(s, sep) == [s[..i]] + pieces;
      assert Join([s[..i]] + pieces, sep) == s[..i] + sep + Join(pieces, sep) by {
        assert ([s[..i]] + pieces)[1..] == pieces;
      }
      assert s == s[..i] + s[i..i + |sep|] + rest;
  }

  /** The first occurrence of ", " in `p + ", " + t` is the one after `p` when `p`
      itself has none: ", " cannot straddle the end of `p`, since the separator
      starts with ',' and not with ' '. */
  lemma FirstCommaSpaceAfter(p: string, t: string)
    requires !Contains(p, ", ")
    ensures IndexFrom(p + ", " + t, ", ", 0) == Some(|p|)
  {
    var s := p + ", " + t;
    assert OccursAt(s, ", ", |p|) by {
      assert s[|p|..|p| + 2] == ", ";
    }
    forall j: nat | j < |p|
      ensures !OccursAt(s, ", ", j)
    {
      if j + 2 <= |p| {
        assert s[j..j + 2] == p[j..j + 2];
        if OccursAt(s, ", ", j) {
          assert OccursAt(p, ", ", j);
        }
      } else {
        assert s[j + 1] == ',';
      }
    }
  }

  /** Joining with ", " and splitting on ", " gives back every message when the list is
      not empty and no message contains ", ". */
  lemma {:induction false} SplitJoinCommaSpace(parts: seq<string>)
    requires parts != []
    requires forall k :: 0 <= k < |parts| ==> !Contains(parts[k], ", ")
    ensures Split(Join(parts, ", "), ", ") == parts
    decreases parts
  {
    if |parts| == 1 {
      assert Join(parts, ", ") == parts[0];
    } else {
      var p, rest := parts[0], parts[1..];
      FirstCommaSpaceAfter(p, Join(rest, ", "));
      var s := p + ", " + Join(rest, ", ");
      assert s[..|p|] == p;
      assert s[|p| + 2..] == Join(rest, ", ");
      SplitJoinCommaSpace(rest);
      assert parts == [p] + rest;
    }
  }

  /** Text without a comma cannot contain ", ". */
  lemma NoCommaNoCommaSpace(s: string)
    requires forall i :: 0 <= i < |s| ==> s[i] != ','
    ensures !Contains(s, ", ")
  {
    forall j: nat
      ensures !OccursAt(s, ", ", j)
    {
      if j + 2 <= |s| {
        assert s[j..j + 2][0] == s[j];
      }
    }
  }

  /** The empty list joins to "", which splits to one empty message. */
  lemma SplitJoinEmpty(sep: string)
    requires |sep| > 0
    ensures Split(Join([], sep), sep) == [""]
  {
    assert IndexFrom("", sep, 0) == None;
  }

  /** Without the side condition the round trip fails: ["a, b"] comes back as two messages. */
  lemma SplitJoinNeedsNoSeparatorInside()
    ensures Split(Join(["a, b"], ", "), ", ") == ["a", "b"]
  {
    var s := "a, b";
    assert OccursAt(s, ", ", 1) by { assert s[1..3] == ", "; }
    assert !OccursAt(s, ", ", 0) by { assert s[0] == 'a'; }
    assert IndexFrom(s, ", ", 0) == Some(1);
    assert s[..1] == "a" && s[3..] == "b";
    assert IndexFrom("b", ", ", 0) == None;
  }
}
