/** Python's `str.split` on one character and `str.join`, and that they are inverse. */
module Text {

  function Split(s: string, c: char): (r: seq<string>)
    ensures |r| > 0
  {
    if s == "" then [""]
    else
      var rest := Split(s[1..], c);
      if s[0] == c then [""] + rest else [[s[0]] + rest[0]] + rest[1..]
  }

  function Join(parts: seq<string>, c: char): string
    requires |parts| > 0
  {
    if |parts| == 1 then parts[0] else parts[0] + [c] + Join(parts[1..], c)
  }

  /** The index of the first `c` at or after `k`, or the length. */
  function NextIndex(s: string, c: char, k: nat): (n: nat)
    requires k <= |s|
    ensures k <= n <= |s| && (n < |s| ==> s[n] == c)
    ensures forall j :: k <= j < n ==> s[j] != c
    decreases |s| - k
  {
    if k == |s| || s[k] == c then k else NextIndex(s, c, k + 1)
  }

  lemma {:induction false} SplitFirst(s: string, c: char, n: nat)
    requires n <= |s| && (n < |s| ==> s[n] == c) && forall j :: 0 <= j < n ==> s[j] != c
    ensures Split(s, c) == [s[..n]] + (if n == |s| then [] else Split(s[n + 1..], c))
  {
    if n > 0 {
      SplitFirst(s[1..], c, n - 1);
      assert s[..n] == [s[0]] + s[1..][..n - 1];
      assert n < |s| ==> s[1..][n..] == s[n + 1..];
    } else if s != "" {
      assert s[..0] == "";
    }
  }

  lemma {:induction false} JoinSplit(s: string, c: char)
    ensures Join(Split(s, c), c) == s
    ensures forall i :: 0 <= i < |Split(s, c)| ==> c !in Split(s, c)[i]
    decreases |s|
  {
    var n := NextIndex(s, c, 0);
    SplitFirst(s, c, n);
    if n < |s| {
      JoinSplit(s[n + 1..], c);
      JoinCons(s[..n], Split(s[n + 1..], c), c);
      CutAt(s, n);
    }
    hide Split, Join, NextIndex;
  }

  lemma CutAt(s: string, n: nat)
    requires n < |s|
    ensures s == s[..n] + [s[n]] + s[n + 1..]
  {
  }

  lemma JoinCons(first: string, rest: seq<string>, c: char)
    requires |rest| > 0
    ensures Join([first] + rest, c) == first + [c] + Join(rest, c)
  {
    assert ([first] + rest)[1..] == rest;
  }

  lemma {:induction false} SplitJoin(parts: seq<string>, c: char)
    requires |parts| > 0 && forall i :: 0 <= i < |parts| ==> c !in parts[i]
    ensures Split(Join(parts, c), c) == parts
  {
    var s := Join(parts, c);
    if |parts| == 1 {
      SplitFirst(s, c, |s|);
      assert s[..|s|] == parts[0] && parts == [parts[0]];
    } else {
      SplitJoin(parts[1..], c);
      var n := |parts[0]|;
      assert s == parts[0] + ([c] + Join(parts[1..], c));
      assert s[..n] == parts[0] && s[n + 1..] == Join(parts[1..], c);
      SplitFirst(s, c, n);
    }
  }
}
