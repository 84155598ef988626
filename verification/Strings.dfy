/** What the parser uses of Go's package strings: Split and TrimSpace. */
module Strings {
  import opened Basics

  // ---------------------------------------------------------------------------
  //  Split
  // ---------------------------------------------------------------------------

  predicate Occurs(s: string, sep: string, i: nat) {
    i + |sep| <= |s| && s[i..i + |sep|] == sep
  }

  ghost predicate Without(s: string, sep: string) {
    forall i: nat :: !Occurs(s, sep, i)
  }

  lemma OccursFurtherOn(s: string, sep: string, i: nat)
    requires s != ""
    ensures Occurs(s, sep, i + 1) == Occurs(s[1..], sep, i)
  {
    if i + 1 + |sep| <= |s| {
      assert s[1..][i..i + |sep|] == s[i + 1..i + 1 + |sep|];
    }
  }

  /** The first place where the separator occurs. */
  function Index(s: string, sep: string): (r: Option<nat>)
    requires sep != ""
    ensures r.Some? ==> Occurs(s, sep, r.value) && forall j: nat :: j < r.value ==> !Occurs(s, sep, j)
    ensures r.None? ==> Without(s, sep)
  {
    if |s| < |sep| then None
    else if s[..|sep|] == sep then Some(0)
    else
      assert forall i: nat :: i > 0 ==> Occurs(s, sep, i) == Occurs(s[1..], sep, i - 1) by {
        forall i: nat | i > 0 ensures Occurs(s, sep, i) == Occurs(s[1..], sep, i - 1) {
          OccursFurtherOn(s, sep, i - 1);
        }
      }
      match Index(s[1..], sep)
      case None => None
      case Some(i) => Some(i + 1)
  }

  function Split(s: string, sep: string): (parts: seq<string>)
    requires sep != ""
    ensures parts != []
    decreases |s|
  {
    match Index(s, sep)
    case None => [s]
    case Some(i) => [s[..i]] + Split(s[i + |sep|..], sep)
  }

  function Join(parts: seq<string>, sep: string): string
    requires parts != []
  {
    if |parts| == 1 then parts[0] else parts[0] + sep + Join(parts[1..], sep)
  }

  lemma {:induction false} JoinOfSplit(s: string, sep: string)
    requires sep != ""
    ensures Join(Split(s, sep), sep) == s
    decreases |s|
  {
    match Index(s, sep)
    case None =>
    case Some(i) =>
      JoinOfSplit(s[i + |sep|..], sep);
      assert Split(s, sep)[1..] == Split(s[i + |sep|..], sep);
      assert s == s[..i] + s[i..i + |sep|] + s[i + |sep|..];
  }

  lemma SliceOfSlice(s: string, from: nat, to: nat, i: nat, j: nat)
    requires from <= to <= |s| && i <= j <= to - from
    ensures s[from..to][i..j] == s[from + i..from + j]
  {
    var a, b := s[from..to][i..j], s[from + i..from + j];
    forall k | 0 <= k < j - i ensures a[k] == b[k] {
      assert a[k] == s[from..to][i + k] == s[from + i + k];
    }
  }

  /** A part of a string has no occurrence that the string does not have. */
  lemma WithoutInPart(s: string, sep: string, from: nat, to: nat)
    requires from <= to <= |s|
    requires forall i: nat :: from <= i && i + |sep| <= to ==> !Occurs(s, sep, i)
    ensures Without(s[from..to], sep)
  {
    forall i: nat ensures !Occurs(s[from..to], sep, i) {
      if i + |sep| <= to - from {
        SliceOfSlice(s, from, to, i, i + |sep|);
        assert !Occurs(s, sep, from + i);
      }
    }
  }

  lemma {:induction false} PartsAreWithout(s: string, sep: string, k: nat)
    requires sep != "" && k < |Split(s, sep)|
    ensures Without(Split(s, sep)[k], sep)
    decreases |s|
  {
    match Index(s, sep)
    case None =>
    case Some(i) =>
      if k == 0 {
        WithoutInPart(s, sep, 0, i);
        assert s[0..i] == s[..i];
      } else {
        PartsAreWithout(s[i + |sep|..], sep, k - 1);
      }
  }

  /** Every character of a part is one of the string. */
  lemma {:induction false} PartsAreParts(s: string, sep: string, k: nat, c: char)
    requires sep != "" && k < |Split(s, sep)| && c in Split(s, sep)[k]
    ensures c in s
    decreases |s|
  {
    match Index(s, sep)
    case None =>
    case Some(i) =>
      if k > 0 {
        PartsAreParts(s[i + |sep|..], sep, k - 1, c);
      }
  }

  /** Cutting at the first separator. */
  lemma SplitFirst(a: string, sep: string, b: string)
    requires sep != ""
    requires forall i: nat :: i < |a| ==> !Occurs(a + sep + b, sep, i)
    ensures Split(a + sep + b, sep) == [a] + Split(b, sep)
  {
    var s := a + sep + b;
    assert s[|a|..|a| + |sep|] == sep;
    assert Occurs(s, sep, |a|);
    assert Index(s, sep) == Some(|a|);
    assert s[..|a|] == a && s[|a| + |sep|..] == b;
  }

  lemma SplitNone(s: string, sep: string)
    requires sep != "" && Without(s, sep)
    ensures Split(s, sep) == [s]
  {
  }

  lemma WithoutCharacter(s: string, c: char)
    requires c !in s
    ensures Without(s, [c])
  {
    forall i: nat ensures !Occurs(s, [c], i) {
      if i + 1 <= |s| {
        assert s[i..i + 1][0] == s[i];
      }
    }
  }

  lemma NoCharacterWithout(s: string, c: char)
    requires Without(s, [c])
    ensures c !in s
  {
    forall i | 0 <= i < |s| ensures s[i] != c {
      assert !Occurs(s, [c], i);
      assert s[i..i + 1] == [s[i]];
    }
  }

  lemma SplitAtCharacter(a: string, c: char, b: string)
    requires c !in a
    ensures Split(a + [c] + b, [c]) == [a] + Split(b, [c])
  {
    var s := a + [c] + b;
    forall i: nat | i < |a| ensures !Occurs(s, [c], i) {
      assert s[i..i + 1][0] == a[i];
    }
    SplitFirst(a, [c], b);
  }

  /** Parts without the separating character come back as they are. */
  lemma {:induction false} SplitOfJoin(parts: seq<string>, c: char)
    requires parts != [] && forall k :: 0 <= k < |parts| ==> c !in parts[k]
    ensures Split(Join(parts, [c]), [c]) == parts
  {
    if |parts| == 1 {
      WithoutCharacter(parts[0], c);
      SplitNone(parts[0], [c]);
    } else {
      SplitOfJoin(parts[1..], c);
      SplitAtCharacter(parts[0], c, Join(parts[1..], [c]));
      assert [parts[0]] + parts[1..] == parts;
    }
  }

  // ---------------------------------------------------------------------------
  //  TrimSpace
  // ---------------------------------------------------------------------------

  function TrimLeft(s: string, space: char -> bool): string {
    if s != "" && space(s[0]) then TrimLeft(s[1..], space) else s
  }

  function TrimRight(s: string, space: char -> bool): string {
    if s != "" && space(s[|s| - 1]) then TrimRight(s[..|s| - 1], space) else s
  }

  lemma {:induction false} TrimLeftCuts(s: string, space: char -> bool) returns (from: nat)
    ensures from <= |s| && TrimLeft(s, space) == s[from..]
    ensures forall i :: 0 <= i < from ==> space(s[i])
    ensures from < |s| ==> !space(s[from])
    ensures from == 0 <==> s == "" || !space(s[0])
  {
    if s != "" && space(s[0]) {
      var rest := TrimLeftCuts(s[1..], space);
      from := rest + 1;
      assert s[1..][rest..] == s[from..];
      assert forall i :: 0 < i < from ==> s[i] == s[1..][i - 1];
    } else {
      from := 0;
    }
  }

  lemma {:induction false} TrimRightCuts(s: string, space: char -> bool) returns (to: nat)
    ensures to <= |s| && TrimRight(s, space) == s[..to]
    ensures forall i :: to <= i < |s| ==> space(s[i])
    ensures to > 0 ==> !space(s[to - 1])
    ensures to == |s| <==> s == "" || !space(s[|s| - 1])
  {
    if s != "" && space(s[|s| - 1]) {
      to := TrimRightCuts(s[..|s| - 1], space);
      assert s[..|s| - 1][..to] == s[..to];
      assert forall i :: to <= i < |s| - 1 ==> s[i] == s[..|s| - 1][i];
    } else {
      to := |s|;
    }
  }

  function TrimSpace(s: string, space: char -> bool): string {
    TrimRight(TrimLeft(s, space), space)
  }

  predicate Trimmed(s: string, space: char -> bool) {
    s == "" || (!space(s[0]) && !space(s[|s| - 1]))
  }

  /** Trimming cuts white space off both ends until there is none at either, and nothing else. */
  lemma TrimSpaceTrims(s: string, space: char -> bool) returns (from: nat, to: nat)
    ensures Trimmed(TrimSpace(s, space), space)
    ensures TrimSpace(s, space) == s <==> Trimmed(s, space)
    ensures from <= to <= |s| && TrimSpace(s, space) == s[from..to]
    ensures forall i :: 0 <= i < from || to <= i < |s| ==> space(s[i])
  {
    from := TrimLeftCuts(s, space);
    var left := TrimLeft(s, space);
    var n := TrimRightCuts(left, space);
    to := from + n;
    assert left[..n] == s[from..to];
    assert forall i :: to <= i < |s| ==> s[i] == left[i - from];
    if n > 0 {
      assert left[0] == s[from] && left[..n][0] == left[0] && left[..n][n - 1] == left[n - 1];
    }
    if Trimmed(s, space) {
      assert s[from..to] == s;
    }
  }
}
