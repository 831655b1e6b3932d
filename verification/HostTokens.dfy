/** Replacing the payment provider's host, as a token, in ASCII text. */
module HostTokens {
  import opened Base

  predicate AlnumDash(c: char) {
    IsAlnum(c) || c == '-'
  }

  predicate HostChar(c: char) {
    AlnumDash(c) || c == '.'
  }

  /** Start of text, a character outside `[A-Za-z0-9.-]`, or `%2F`. */
  predicate LeftOk(t: string, i: nat)
    requires i <= |t|
  {
    || i == 0
    || !HostChar(t[i - 1])
    || (i >= 3 && t[i - 3] == '%' && t[i - 2] == '2' && LowerChar(t[i - 1]) == 'f')
  }

  /** End of text or a character outside `[A-Za-z0-9-]`; a dot must not start another label. */
  predicate RightOk(t: string, k: nat)
    requires k <= |t|
  {
    k < |t| ==> !AlnumDash(t[k]) && !(t[k] == '.' && k + 1 < |t| && AlnumDash(t[k + 1]))
  }

  predicate EqFold(a: string, b: string) {
    |a| == |b| && forall k :: 0 <= k < |a| ==> LowerChar(a[k]) == LowerChar(b[k])
  }

  predicate MatchesAt(t: string, i: nat, h: string) {
    i + |h| <= |t| && forall k :: 0 <= k < |h| ==> LowerChar(t[i + k]) == LowerChar(h[k])
  }

  predicate TokenAt(t: string, i: nat, h: string) {
    MatchesAt(t, i, h) && LeftOk(t, i) && RightOk(t, i + |h|)
  }

  /** The rest of the result, scanning from `i`: a match is replaced whole, any other character copied. */
  function ReplaceFrom(t: string, i: nat, h: string, r: string): string
    requires i <= |t| && h != ""
    decreases |t| - i
  {
    if i == |t| then ""
    else if TokenAt(t, i, h) then r + ReplaceFrom(t, i + |h|, h, r)
    else [t[i]] + ReplaceFrom(t, i + 1, h, r)
  }

  function ReplaceHostTokens(t: string, host: string, replacement: string): string {
    if host == "" then t else ReplaceFrom(t, 0, host, replacement)
  }

  // ----- Locality -----

  /** A stretch of the text: copied, or a token that is replaced. */
  datatype Segment = Copied(text: string) | Replaced(token: string)

  function Segments(t: string, i: nat, h: string): seq<Segment>
    requires i <= |t| && h != ""
    decreases |t| - i
  {
    if i == |t| then []
    else if TokenAt(t, i, h) then [Replaced(t[i..i + |h|])] + Segments(t, i + |h|, h)
    else [Copied([t[i]])] + Segments(t, i + 1, h)
  }

  function Before(segments: seq<Segment>): string {
    if segments == [] then "" else (match segments[0] case Copied(c) => c case Replaced(token) => token) + Before(segments[1..])
  }

  function After(segments: seq<Segment>, r: string): string {
    if segments == [] then "" else (match segments[0] case Copied(c) => c case Replaced(_) => r) + After(segments[1..], r)
  }

  lemma {:induction false} BeforeIsText(t: string, i: nat, h: string)
    requires i <= |t| && h != ""
    ensures Before(Segments(t, i, h)) == t[i..]
    decreases |t| - i
  {
    if i < |t| {
      var k := if TokenAt(t, i, h) then i + |h| else i + 1;
      hide LeftOk, RightOk;
      BeforeIsText(t, k, h);
      assert Segments(t, i, h)[1..] == Segments(t, k, h);
      assert t[i..] == t[i..k] + t[k..];
    }
  }

  lemma {:induction false} AfterIsResult(t: string, i: nat, h: string, r: string)
    requires i <= |t| && h != ""
    ensures After(Segments(t, i, h), r) == ReplaceFrom(t, i, h, r)
    decreases |t| - i
  {
    if i < |t| {
      var k := if TokenAt(t, i, h) then i + |h| else i + 1;
      AfterIsResult(t, k, h, r);
      assert Segments(t, i, h)[1..] == Segments(t, k, h);
    }
  }

  lemma {:induction false} ReplacedAreHosts(t: string, i: nat, h: string)
    requires i <= |t| && h != ""
    ensures forall k :: 0 <= k < |Segments(t, i, h)| && Segments(t, i, h)[k].Replaced? ==> EqFold(Segments(t, i, h)[k].token, h)
    decreases |t| - i
  {
    hide EqFold;
    if i < |t| {
      if TokenAt(t, i, h) {
        TokenIsHost(t, i, h);
        ReplacedAreHosts(t, i + |h|, h);
      } else {
        ReplacedAreHosts(t, i + 1, h);
      }
    }
  }

  /** Text and result are the same sequence of stretches; only whole tokens differ, and each token is
      the host up to letter case. */
  lemma OnlyTokensChange(t: string, h: string, r: string)
    requires h != ""
    ensures var segments := Segments(t, 0, h);
            && Before(segments) == t
            && After(segments, r) == ReplaceHostTokens(t, h, r)
            && forall k :: 0 <= k < |segments| && segments[k].Replaced? ==> EqFold(segments[k].token, h)
  {
    BeforeIsText(t, 0, h);
    AfterIsResult(t, 0, h, r);
    ReplacedAreHosts(t, 0, h);
  }

  lemma TokenIsHost(t: string, i: nat, h: string)
    requires TokenAt(t, i, h)
    ensures i + |h| <= |t| && EqFold(t[i..i + |h|], h)
  {
  }

  /** Text without tokens comes back as it is. */
  lemma {:induction false} NoTokenNoChange(t: string, i: nat, h: string, r: string)
    requires i <= |t| && h != "" && forall p :: 0 <= p < |t| ==> !TokenAt(t, p, h)
    ensures ReplaceFrom(t, i, h, r) == t[i..]
    decreases |t| - i
  {
    if i < |t| {
      NoTokenNoChange(t, i + 1, h, r);
    }
  }

  // ----- Completeness -----

  /** Host characters ending alphanumeric, without an empty label. */
  predicate HostWord(w: string) {
    && w != "" && IsAlnum(w[|w| - 1])
    && (forall k :: 0 <= k < |w| ==> HostChar(w[k]))
    && forall k :: 0 <= k && k + 1 < |w| && w[k] == '.' ==> w[k + 1] != '.'
  }

  /** A host name also starts alphanumeric. */
  predicate HostName(h: string) {
    HostWord(h) && IsAlnum(h[0])
  }

  /** The replacements that can leave a token behind: the host itself, and the two that complete or are
      completed by the letters of `%2F`. */
  predicate Collides(h: string, r: string) {
    EqFold(r, h) || EqFold(r, "2f" + h) || EqFold(h, "2f" + r)
  }

  /** The next match at or after `i`, or the end of the text. */
  ghost function NextMatch(t: string, i: nat, h: string): (m: nat)
    requires i <= |t|
    ensures i <= m <= |t| && (m < |t| ==> TokenAt(t, m, h))
    ensures forall p :: i <= p < m ==> !TokenAt(t, p, h)
    decreases |t| - i
  {
    if i == |t| || TokenAt(t, i, h) then i else NextMatch(t, i + 1, h)
  }

  lemma {:induction false} CopiesUpTo(t: string, i: nat, m: nat, h: string, r: string)
    requires i <= m <= |t| && h != "" && forall p :: i <= p < m ==> !TokenAt(t, p, h)
    ensures ReplaceFrom(t, i, h, r) == t[i..m] + ReplaceFrom(t, m, h, r)
    decreases m - i
  {
    hide TokenAt;
    var rest := ReplaceFrom(t, m, h, r);
    if i < m {
      CopiesUpTo(t, i + 1, m, h, r);
      assert ReplaceFrom(t, i, h, r) == [t[i]] + (t[i + 1..m] + rest);
      assert [t[i]] + (t[i + 1..m] + rest) == ([t[i]] + t[i + 1..m]) + rest;
      assert t[i..m] == [t[i]] + t[i + 1..m];
    } else {
      assert t[i..m] == "";
    }
  }

  /** Text that follows a match does not start with a host label. */
  predicate NoLabelStart(s: string) {
    s != "" ==> !AlnumDash(s[0]) && (s[0] == '.' && |s| > 1 ==> !AlnumDash(s[1]))
  }

  lemma FirstChar(t: string, i: nat, h: string)
    requires MatchesAt(t, i, h) && h != ""
    ensures LowerChar(t[i]) == LowerChar(h[0]) && (IsAlnum(t[i]) <==> IsAlnum(h[0]))
  {
    assert LowerChar(t[i + 0]) == LowerChar(h[0]);
  }

  lemma AfterMatch(t: string, k: nat, h: string, r: string)
    requires HostName(h) && k <= |t| && RightOk(t, k)
    ensures NoLabelStart(ReplaceFrom(t, k, h, r))
  {
    if k < |t| {
      assert !MatchesAt(t, k, h) by {
        if MatchesAt(t, k, h) { FirstChar(t, k, h); }
      }
      if t[k] == '.' && k + 1 < |t| {
        assert !MatchesAt(t, k + 1, h) by {
          if MatchesAt(t, k + 1, h) { FirstChar(t, k + 1, h); }
        }
      }
    }
  }

  lemma Pointwise(r: string, rest: string, w: string)
    requires MatchesAt(r + rest, 0, w)
    ensures |w| <= |r| + |rest|
    ensures forall k :: 0 <= k < |w| ==>
              LowerChar(w[k]) == LowerChar(if k < |r| then r[k] else rest[k - |r|])
  {
    forall k | 0 <= k < |w| ensures LowerChar(w[k]) == LowerChar(if k < |r| then r[k] else rest[k - |r|]) {
      assert LowerChar((r + rest)[0 + k]) == LowerChar(w[k]);
    }
  }

  lemma LabelAfterDot(w: string, n: nat)
    requires HostWord(w) && n < |w| && w[n] == '.'
    ensures n + 1 < |w| && AlnumDash(w[n + 1])
  {
  }

  lemma RightWithin(r: string, rest: string, n: nat)
    requires n < |r| && RightOk(r + rest, n)
    ensures !AlnumDash(r[n]) && (r[n] == '.' && n + 1 < |r| ==> !AlnumDash(r[n + 1]))
  {
    assert (r + rest)[n] == r[n];
    assert n + 1 < |r| ==> (r + rest)[n + 1] == r[n + 1];
  }

  /** A word that ends as a token in `r + rest` can only be `r` itself. */
  lemma WordIsReplacement(r: string, rest: string, w: string)
    requires HostWord(r) && HostWord(w) && NoLabelStart(rest)
    requires MatchesAt(r + rest, 0, w) && RightOk(r + rest, |w|)
    ensures EqFold(r, w)
  {
    hide MatchesAt, RightOk;
    Pointwise(r, rest, w);
    if |w| < |r| {
      RightWithin(r, rest, |w|);
      assert false;
    } else if |w| > |r| {
      assert w[|r|] == '.' && rest[0] == '.';
      LabelAfterDot(w, |r|);
      assert false;
    }
  }

  lemma SuffixIsWord(h: string)
    requires HostWord(h) && |h| > 2
    ensures HostWord(h[2..])
  {
    var w := h[2..];
    assert forall k :: 0 <= k < |w| ==> w[k] == h[2 + k];
    forall k | 0 <= k && k + 1 < |w| && w[k] == '.' ensures w[k + 1] != '.' {
      assert h[2 + k] == '.' && h[2 + k + 1] != '.';
    }
  }

  /** The context of a scan: `a` ended with a replacement, `t[j..i]` has been copied since. */
  predicate Scanned(t: string, i: nat, j: nat, a: string) {
    j <= i <= |t| && ((j == 0 && a == "") || (j > 0 && RightOk(t, j)))
  }

  lemma MatchInTail(p: string, x: string, q: nat, h: string)
    requires q == |p| && TokenAt(p + x, q, h)
    ensures MatchesAt(x, 0, h) && RightOk(x, |h|)
  {
    var out := p + x;
    assert forall k :: 0 <= k < |x| ==> out[q + k] == x[k];
    forall k | 0 <= k < |h| ensures LowerChar(x[0 + k]) == LowerChar(h[k]) {
      assert LowerChar(out[q + k]) == LowerChar(h[k]);
    }
  }

  lemma BeforeToken(t: string, h: string, i: nat, j: nat, a: string)
    requires HostName(h) && Scanned(t, i, j, a) && TokenAt(t, i, h)
    ensures var before := a + t[j..i]; before != "" ==> before[|before| - 1] != '2'
  {
    FirstChar(t, i, h);
    if i > j {
      assert (a + t[j..i])[|a| + (i - j) - 1] == t[i - 1];
    }
  }

  /** No token starts at the first character of a replacement, */
  lemma AtReplacementStart(before: string, r: string, rest: string, h: string)
    requires HostName(h) && HostWord(r) && !EqFold(r, h) && NoLabelStart(rest)
    ensures !TokenAt(before + (r + rest), |before|, h)
  {
    if TokenAt(before + (r + rest), |before|, h) {
      MatchInTail(before, r + rest, |before|, h);
      WordIsReplacement(r, rest, h);
    }
  }

  /** nor at a later one: there only `%2F` could make a boundary. */
  lemma AfterReplacementStart(before: string, r: string, rest: string, h: string, off: nat)
    requires HostName(h) && HostWord(r) && !EqFold(r, "2f" + h) && NoLabelStart(rest)
    requires before != "" ==> before[|before| - 1] != '2'
    requires 0 < off < |r|
    ensures !TokenAt(before + (r + rest), |before| + off, h)
  {
    hide HostName, EqFold, MatchesAt, LeftOk, RightOk, NoLabelStart;
    var out, p := before + (r + rest), |before| + off;
    if TokenAt(out, p, h) {
      InEscape(before, r, rest, off);
      assert out == (before + r[..2]) + (r[2..] + rest);
      MatchInTail(before + r[..2], r[2..] + rest, p, h);
      TailIsHost(r, rest, h);
    }
  }

  lemma InEscape(before: string, r: string, rest: string, off: nat)
    requires HostWord(r) && 0 < off < |r| && (before != "" ==> before[|before| - 1] != '2')
    requires LeftOk(before + (r + rest), |before| + off)
    ensures off == 2 && r[0] == '2' && LowerChar(r[1]) == 'f'
  {
    var out, p := before + (r + rest), |before| + off;
    OfReplacement(before, r, rest, off - 1);
    assert !LeftPlain(out, p);
    assert p >= 3 && out[p - 3] == '%' && out[p - 2] == '2' && LowerChar(out[p - 1]) == 'f';
    if off >= 2 {
      OfReplacement(before, r, rest, off - 2);
    }
  }

  predicate LeftPlain(t: string, i: nat)
    requires i <= |t|
  {
    i == 0 || !HostChar(t[i - 1])
  }

  lemma OfReplacement(before: string, r: string, rest: string, k: nat)
    requires HostWord(r) && k < |r|
    ensures (before + (r + rest))[|before| + k] == r[k] && HostChar(r[k])
  {
  }

  lemma TailIsHost(r: string, rest: string, h: string)
    requires HostName(h) && HostWord(r) && NoLabelStart(rest)
    requires |r| > 2 && r[0] == '2' && LowerChar(r[1]) == 'f'
    requires MatchesAt(r[2..] + rest, 0, h) && RightOk(r[2..] + rest, |h|)
    ensures EqFold(r, "2f" + h)
  {
    SuffixIsWord(r);
    WordIsReplacement(r[2..], rest, h);
    forall k | 0 <= k < |r| ensures LowerChar(r[k]) == LowerChar(("2f" + h)[k]) {
      assert k >= 2 ==> r[k] == r[2..][k - 2];
    }
  }

  lemma InsideReplacement(t: string, h: string, r: string, i: nat, j: nat, a: string, off: nat)
    requires HostName(h) && HostWord(r) && !EqFold(r, h) && !EqFold(r, "2f" + h)
    requires Scanned(t, i, j, a) && TokenAt(t, i, h) && off < |r|
    ensures !TokenAt(a + t[j..i] + ReplaceFrom(t, i, h, r), |a| + (i - j) + off, h)
  {
    hide HostName, EqFold, TokenAt, NoLabelStart, RightOk;
    TokenEnds(t, i, h);
    var before := a + t[j..i];
    var rest := ReplaceFrom(t, i + |h|, h, r);
    AfterMatch(t, i + |h|, h, r);
    BeforeToken(t, h, i, j, a);
    assert ReplaceFrom(t, i, h, r) == r + rest;
    hide ReplaceFrom, Scanned;
    if off == 0 {
      AtReplacementStart(before, r, rest, h);
    } else {
      AfterReplacementStart(before, r, rest, h, off);
    }
  }

  lemma Apart(h: string, r: string)
    requires !Collides(h, r)
    ensures !EqFold(r, h) && !EqFold(r, "2f" + h) && !EqFold(h, "2f" + r)
  {
  }

  /** Copied characters keep their left boundary. */
  lemma LeftCarriesOver(t: string, h: string, i: nat, j: nat, a: string, x: string)
    requires Scanned(t, i, j, a) && (i == j ==> j == 0) && x != ""
    requires LeftOk(a + t[j..i] + x, |a| + (i - j))
    ensures LeftOk(t, i)
  {
    var out, q := a + t[j..i] + x, |a| + (i - j);
    if i > j && HostChar(t[i - 1]) {
      assert out[q - 1] == t[i - 1];
      assert i - 1 > j && out[q - 2] == t[i - 2];
      assert i - 2 > j || j == 0;
      assert i - 3 >= j && out[q - 3] == t[i - 3];
    }
  }

  lemma AtCopied(t: string, h: string, r: string, i: nat, j: nat, a: string)
    requires HostName(h) && HostWord(r) && !Collides(h, r)
    requires Scanned(t, i, j, a) && i < |t| && !TokenAt(t, i, h)
    ensures !TokenAt(a + t[j..i] + ReplaceFrom(t, i, h, r), |a| + (i - j), h)
  {
    var x := ReplaceFrom(t, i, h, r);
    var before := a + t[j..i];
    if TokenAt(before + x, |before|, h) {
      MatchInTail(before, x, |before|, h);
      FirstChar(x, 0, h);
      assert x[0] == t[i];
      assert i == j ==> j == 0;
      LeftCarriesOver(t, h, i, j, a, x);
      NoMatchInRest(t, h, r, i);
    }
  }

  /** The result of the rest of the text starts with a match only where the text does. */
  lemma NoMatchInRest(t: string, h: string, r: string, i: nat)
    requires HostName(h) && HostWord(r) && !Collides(h, r)
    requires i < |t| && LeftOk(t, i) && !TokenAt(t, i, h)
    ensures !(MatchesAt(ReplaceFrom(t, i, h, r), 0, h) && RightOk(ReplaceFrom(t, i, h, r), |h|))
  {
    Apart(h, r);
    hide HostName, HostWord, TokenAt, LeftOk, RightOk, EqFold, Collides, MatchesAt, NoLabelStart;
    NotEmpty(h);
    var x := ReplaceFrom(t, i, h, r);
    if MatchesAt(x, 0, h) && RightOk(x, |h|) {
      var m := NextMatch(t, i, h);
      CopiesUpTo(t, i, m, h, r);
      if i + |h| <= m {
        MatchBeforeNext(t, i, m, h, r, x);
      } else {
        assert m < |t|;
        TokenEnds(t, m, h);
        AfterMatch(t, m + |h|, h, r);
        MatchAcrossNext(t, i, m, h, r, ReplaceFrom(t, m + |h|, h, r), x);
      }
    }
  }

  lemma MatchBeforeNext(t: string, i: nat, m: nat, h: string, r: string, x: string)
    requires HostName(h) && HostWord(r)
    requires i + |h| <= m <= |t| && LeftOk(t, i) && (m < |t| ==> TokenAt(t, m, h))
    requires x == t[i..m] + ReplaceFrom(t, m, h, r)
    requires MatchesAt(x, 0, h) && RightOk(x, |h|)
    ensures TokenAt(t, i, h)
  {
    assert forall k :: 0 <= k < m - i ==> x[k] == t[i + k];
    forall k | 0 <= k < |h| ensures LowerChar(t[i + k]) == LowerChar(h[k]) {
      assert LowerChar(x[0 + k]) == LowerChar(h[k]);
    }
    if m < |t| {
      assert x[m - i] == r[0];
      assert LowerChar(t[m + 0]) == LowerChar(h[0]);
    }
  }

  /** A match that reaches into the next token starts with the `2F` of a `%2F` before that token. */
  lemma StartsInEscape(t: string, i: nat, m: nat, h: string, x: string)
    requires HostName(h) && i < m < i + |h| && m < |t| && TokenAt(t, m, h) && LeftOk(t, i)
    requires t[i..m] <= x && MatchesAt(x, 0, h)
    ensures i == m - 2 && LowerChar(h[0]) == '2' && LowerChar(h[1]) == 'f'
  {
    forall p | i <= p < m ensures HostChar(t[p]) && LowerChar(t[p]) == LowerChar(h[p - i]) {
      assert x[0 + (p - i)] == t[p] && LowerChar(x[0 + (p - i)]) == LowerChar(h[p - i]);
    }
    assert HostChar(t[m - 1]);
    assert m >= 3 && t[m - 3] == '%' && t[m - 2] == '2' && LowerChar(t[m - 1]) == 'f';
    assert LowerChar(t[i]) == LowerChar(h[0]);
    assert i == m - 2;
    assert LowerChar(t[i + 1]) == LowerChar(h[1]);
  }

  lemma MatchAcrossNext(t: string, i: nat, m: nat, h: string, r: string, rest: string, x: string)
    requires HostName(h) && HostWord(r) && !EqFold(h, "2f" + r) && NoLabelStart(rest)
    requires i < m < i + |h| && m < |t| && LeftOk(t, i) && TokenAt(t, m, h)
    requires x == t[i..m] + (r + rest) && MatchesAt(x, 0, h)
    ensures !RightOk(x, |h|)
  {
    hide HostName, EqFold, LeftOk, RightOk, NoLabelStart, TokenAt;
    if RightOk(x, |h|) {
      StartsInEscape(t, i, m, h, x);
      TailIsReplacement(t[i..m], h, r, rest);
    }
  }

  lemma TailIsReplacement(two: string, h: string, r: string, rest: string)
    requires HostName(h) && HostWord(r) && NoLabelStart(rest) && |two| == 2 < |h|
    requires LowerChar(h[0]) == '2' && LowerChar(h[1]) == 'f'
    requires MatchesAt(two + (r + rest), 0, h) && RightOk(two + (r + rest), |h|)
    ensures EqFold(h, "2f" + r)
  {
    var x := two + (r + rest);
    var w := h[2..];
    forall k | 0 <= k < |w| ensures LowerChar((r + rest)[0 + k]) == LowerChar(w[k]) {
      assert LowerChar(x[0 + (k + 2)]) == LowerChar(h[k + 2]) && x[k + 2] == (r + rest)[k];
    }
    SuffixIsWord(h);
    assert forall k :: 0 <= k < |r + rest| ==> x[k + 2] == (r + rest)[k];
    WordIsReplacement(r, rest, w);
    forall k | 0 <= k < |h| ensures LowerChar(h[k]) == LowerChar(("2f" + r)[k]) {
      assert k >= 2 ==> h[k] == w[k - 2];
    }
  }

  lemma {:induction false} NoTokenFrom(t: string, h: string, r: string, i: nat, j: nat, a: string)
    requires HostName(h) && HostWord(r) && !Collides(h, r) && Scanned(t, i, j, a)
    ensures forall p :: |a| + (i - j) <= p ==> !TokenAt(a + t[j..i] + ReplaceFrom(t, i, h, r), p, h)
    decreases |t| - i
  {
    hide TokenAt, HostName, Collides, EqFold;
    NotEmpty(h);
    Apart(h, r);
    var out, q := a + t[j..i] + ReplaceFrom(t, i, h, r), |a| + (i - j);
    if i == |t| {
      NoRoom(out, h);
    } else if TokenAt(t, i, h) {
      var k := i + |h|;
      TokenEnds(t, i, h);
      NoTokenFrom(t, h, r, k, k, a + t[j..i] + r);
      assert out == (a + t[j..i] + r) + t[k..k] + ReplaceFrom(t, k, h, r);
      forall p | q <= p ensures !TokenAt(out, p, h) {
        if p < q + |r| {
          InsideReplacement(t, h, r, i, j, a, p - q);
        }
      }
    } else {
      NoTokenFrom(t, h, r, i + 1, j, a);
      assert out == a + t[j..i + 1] + ReplaceFrom(t, i + 1, h, r);
      AtCopied(t, h, r, i, j, a);
      forall p | q <= p ensures !TokenAt(out, p, h) {
        if p > q {
          assert |a| + (i + 1 - j) <= p;
        }
      }
    }
  }

  lemma NotEmpty(h: string)
    requires HostName(h)
    ensures h != ""
  {
  }

  lemma NoRoom(out: string, h: string)
    requires HostName(h)
    ensures forall p :: |out| <= p ==> !TokenAt(out, p, h)
  {
  }

  lemma TokenEnds(t: string, i: nat, h: string)
    requires TokenAt(t, i, h) && HostName(h)
    ensures i + |h| <= |t| && RightOk(t, i + |h|) && h != ""
  {
  }

  /** Completeness: outside the colliding pairs no token of the host is left, boundaries and `%2F`
      included, and a second pass changes nothing. */
  lemma ReplacementIsComplete(t: string, h: string, r: string)
    requires HostName(h) && HostWord(r) && !Collides(h, r)
    ensures forall p: nat :: !TokenAt(ReplaceHostTokens(t, h, r), p, h)
    ensures ReplaceHostTokens(ReplaceHostTokens(t, h, r), h, r) == ReplaceHostTokens(t, h, r)
  {
    var out := ReplaceHostTokens(t, h, r);
    NoTokenFrom(t, h, r, 0, 0, "");
    assert out == "" + t[0..0] + ReplaceFrom(t, 0, h, r);
    NoTokenNoChange(out, 0, h, r);
  }

  /** The condition is exact: every text comes out without tokens iff host and replacement do not collide. */
  lemma CompleteIff(h: string, r: string)
    requires HostName(h) && HostWord(r)
    ensures (forall t, p: nat :: !TokenAt(ReplaceHostTokens(t, h, r), p, h)) <==> !Collides(h, r)
  {
    if !Collides(h, r) {
      forall t, p: nat ensures !TokenAt(ReplaceHostTokens(t, h, r), p, h) {
        ReplacementIsComplete(t, h, r);
      }
    } else {
      var t, p := TokenLeftBehind(h, r);
    }
  }

  /** A text in which a colliding replacement leaves a token. */
  lemma TokenLeftBehind(h: string, r: string) returns (t: string, p: nat)
    requires HostName(h) && HostWord(r) && Collides(h, r)
    ensures TokenAt(ReplaceHostTokens(t, h, r), p, h)
  {
    hide HostName, EqFold, TokenAt, ReplaceHostTokens;
    if EqFold(r, h) {
      t, p := h, 0;
      LeftBySameHost(h, r);
    } else if EqFold(r, "2f" + h) {
      t, p := "%" + h, 3;
      LeftByLongerHost(h, r);
    } else {
      t, p := "%2f" + h, 1;
      LeftByShorterHost(h, r);
    }
  }

  lemma LeftBySameHost(h: string, r: string)
    requires HostName(h) && EqFold(r, h)
    ensures TokenAt(ReplaceHostTokens(h, h, r), 0, h)
  {
    LastToken(h, 0, h, r);
    hide ReplaceFrom;
  }

  lemma LeftByLongerHost(h: string, r: string)
    requires HostName(h) && EqFold(r, "2f" + h)
    ensures TokenAt(ReplaceHostTokens("%" + h, h, r), 3, h)
  {
    LongerHostResult(h, r);
    hide ReplaceHostTokens, HostName;
    AfterTwo(r, h);
    hide EqFold;
    var two, rest := r[..2], r[2..];
    assert "%" + r == ("%" + two) + rest;
    WholeMatch("%" + two, rest, h);
    var out := "%" + r;
    assert out[0] == '%' && out[1] == two[0] && out[2] == two[1];
  }

  lemma AfterTwo(r: string, h: string)
    requires EqFold(r, "2f" + h)
    ensures |r| == 2 + |h| && r[0] == '2' && LowerChar(r[1]) == 'f' && EqFold(r[2..], h)
  {
    var w := "2f" + h;
    assert LowerChar(r[0]) == LowerChar(w[0]) && LowerChar(r[1]) == LowerChar(w[1]);
    forall k | 0 <= k < |h| ensures LowerChar(r[2..][k]) == LowerChar(h[k]) {
      assert LowerChar(r[k + 2]) == LowerChar(w[k + 2]);
    }
  }

  lemma WholeMatch(before: string, w: string, h: string)
    requires EqFold(w, h)
    ensures MatchesAt(before + w, |before|, h)
  {
    forall k | 0 <= k < |h| ensures LowerChar((before + w)[|before| + k]) == LowerChar(h[k]) {
      assert (before + w)[|before| + k] == w[k];
    }
  }

  lemma LongerHostResult(h: string, r: string)
    requires HostName(h)
    ensures ReplaceHostTokens("%" + h, h, r) == "%" + r
  {
    var t := "%" + h;
    assert t[1..] == h;
    LastToken(t, 1, h, r);
    assert !MatchesAt(t, 0, h) by {
      if MatchesAt(t, 0, h) { FirstChar(t, 0, h); }
    }
    hide MatchesAt, HostName;
    assert t[0] == '%';
  }

  lemma LeftByShorterHost(h: string, r: string)
    requires HostName(h) && HostWord(r) && EqFold(h, "2f" + r)
    ensures TokenAt(ReplaceHostTokens("%2f" + h, h, r), 1, h)
  {
    hide *;
    Prefixed(h, r);
    EqFoldSwap(h, "2f" + r);
    TokenAtEnd("2f" + r, h);
    assert "%" + ("2f" + r) == "%2f" + r;
  }

  lemma TokenAtEnd(w: string, h: string)
    requires EqFold(w, h)
    ensures TokenAt("%" + w, 1, h)
  {
    WholeMatch("%", w, h);
    assert ("%" + w)[0] == '%' && |"%" + w| == 1 + |h|;
    hide EqFold, MatchesAt;
  }

  lemma EqFoldSwap(a: string, b: string)
    requires EqFold(a, b)
    ensures EqFold(b, a)
  {
  }

  lemma LastToken(t: string, i: nat, h: string, r: string)
    requires HostName(h) && i + |h| == |t| && t[i..] == h && LeftOk(t, i)
    ensures ReplaceFrom(t, i, h, r) == r
  {
    assert forall k :: 0 <= k < |h| ==> t[i + k] == t[i..][k];
    assert TokenAt(t, i, h);
    assert ReplaceFrom(t, |t|, h, r) == "";
  }

  lemma Prefixed(h: string, r: string)
    requires HostName(h) && HostWord(r) && EqFold(h, "2f" + r)
    ensures ReplaceHostTokens("%2f" + h, h, r) == "%2f" + r
  {
    var t := "%2f" + h;
    LastToken(t, 3, h, r);
    NotInThePrefix(h, r);
    hide TokenAt, ReplaceFrom, EqFold;
    CopiesUpTo(t, 0, 3, h, r);
    assert t[0..3] == "%2f";
  }

  lemma NotInThePrefix(h: string, r: string)
    requires HostName(h) && HostWord(r) && EqFold(h, "2f" + r)
    ensures forall p :: 0 <= p < 3 ==> !TokenAt("%2f" + h, p, h)
  {
    var t := "%2f" + h;
    assert !TokenAt(t, 0, h) by {
      if MatchesAt(t, 0, h) { FirstChar(t, 0, h); }
    }
    assert !TokenAt(t, 1, h) by {
      var n := 1 + |h|;
      assert t[n] == h[|h| - 2] && t[n + 1] == h[|h| - 1];
      assert !RightOk(t, n);
    }
    assert !TokenAt(t, 2, h) by {
      assert t[1] == '2';
    }
  }

  /** Another host is never taken for this one: neither a longer name that contains it at its start, at its end
      or inside, nor any other name. */
  lemma OtherHostsStay(t: string, h: string, r: string)
    requires HostWord(t) && HostName(h) && !EqFold(t, h)
    ensures ReplaceHostTokens(t, h, r) == t
  {
    forall p | 0 <= p < |t| ensures !TokenAt(t, p, h) {
      if TokenAt(t, p, h) {
        WholeName(t, p, h);
      }
    }
    NoTokenNoChange(t, 0, h, r);
    hide TokenAt, ReplaceFrom;
  }

  lemma WholeName(t: string, p: nat, h: string)
    requires HostWord(t) && HostName(h) && p < |t| && TokenAt(t, p, h)
    ensures EqFold(t, h)
  {
    var k := p + |h|;
    assert p == 0;
    assert k == |t|;
    forall j | 0 <= j < |h| ensures LowerChar(t[j]) == LowerChar(h[j]) {
      assert LowerChar(t[0 + j]) == LowerChar(h[j]);
    }
  }
}
