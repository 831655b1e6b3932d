/** The payment page's path whitelist, against the path rules of RFC 3986, and its cookie filter. */
module PayPath {
  import opened Base
  import opened Text

  const PAY_PATH_PREFIX := "/cp/pay/"
  const RETURN_PATH := "/payment/return"

  const PATH_CLASS_PAY := "pay"
  const PATH_CLASS_RETURN := "return"
  const PATH_CLASS_ASSET := "asset"

  /** The unreserved characters of section 2.3 of RFC 3986. */
  predicate Unreserved(c: char) {
    IsAlnum(c) || c == '.' || c == '_' || c == '~' || c == '-'
  }

  predicate ComponentAllowed(component: string) {
    && component != "" && component != "." && component != ".."
    && forall k :: 0 <= k < |component| ==> Unreserved(component[k])
  }

  predicate AllAllowed(components: seq<string>) {
    forall k :: 0 <= k < |components| ==> ComponentAllowed(components[k])
  }

  predicate PayPathAllowed(path: string) {
    PAY_PATH_PREFIX <= path && AllAllowed(Split(path[|PAY_PATH_PREFIX|..], '/'))
  }

  method PathAllowed(rawPath: string, pathClass: string) returns (allowed: bool)
    ensures allowed <==>
      || (pathClass == PATH_CLASS_RETURN && rawPath == RETURN_PATH)
      || (pathClass == PATH_CLASS_ASSET && (rawPath == "/main.css" || rawPath == "/main.js"))
      || (pathClass == PATH_CLASS_PAY && PayPathAllowed(rawPath))
  {
    if pathClass == PATH_CLASS_RETURN {
      return rawPath == RETURN_PATH;
    }
    if pathClass == PATH_CLASS_ASSET {
      return rawPath == "/main.css" || rawPath == "/main.js";
    }
    if pathClass != PATH_CLASS_PAY || !(PAY_PATH_PREFIX <= rawPath) {
      return false;
    }
    var rest := rawPath[|PAY_PATH_PREFIX|..];
    var components := Split(rest, '/');
    if rest == "" {
      assert components[0] == "";
      return false;
    }
    for i := 0 to |components|
      invariant forall k :: 0 <= k < i ==> ComponentAllowed(components[k])
    {
      if components[i] == "" || components[i] == "." || components[i] == ".." {
        return false;
      }
      if exists k :: 0 <= k < |components[i]| && !Unreserved(components[i][k]) {
        return false;
      }
    }
    return true;
  }

  // ----- Section 5.2.4 of RFC 3986 -----

  function RemoveLastSegment(output: string): (r: string)
    ensures |r| <= |output|
  {
    if output == "" then ""
    else if output[|output| - 1] == '/' then output[..|output| - 1]
    else RemoveLastSegment(output[..|output| - 1])
  }

  /** The remove_dot_segments routine: rules A to E on an input and an output buffer. */
  function RemoveDotSegments(input: string, output: string): string
    decreases |input|
  {
    if input == "" then output
    else if "../" <= input then RemoveDotSegments(input[3..], output)
    else if "./" <= input then RemoveDotSegments(input[2..], output)
    else if "/./" <= input then RemoveDotSegments(input[2..], output)
    else if input == "/." then RemoveDotSegments("/", output)
    else if "/../" <= input then RemoveDotSegments(input[3..], RemoveLastSegment(output))
    else if input == "/.." then RemoveDotSegments("/", RemoveLastSegment(output))
    else if input == "." || input == ".." then output
    else
      var n := NextIndex(input, '/', 1);
      RemoveDotSegments(input[n..], output + input[..n])
  }

  predicate NoDots(components: seq<string>) {
    forall k :: 0 <= k < |components| ==> components[k] != "." && components[k] != ".."
  }

  lemma {:induction false} NeverLonger(input: string, output: string)
    ensures |RemoveDotSegments(input, output)| <= |input| + |output|
    decreases |input|
  {
    if input == "" {
    } else if "../" <= input {
      NeverLonger(input[3..], output);
    } else if "./" <= input || "/./" <= input {
      NeverLonger(input[2..], output);
    } else if input == "/." {
      NeverLonger("/", output);
    } else if "/../" <= input {
      NeverLonger(input[3..], RemoveLastSegment(output));
    } else if input == "/.." {
      NeverLonger("/", RemoveLastSegment(output));
    } else if input != "." && input != ".." {
      var n := NextIndex(input, '/', 1);
      NeverLonger(input[n..], output + input[..n]);
    }
  }

  predicate FirstEnds(input: string, n: nat) {
    && "/" <= input && 1 <= n <= |input| && (n < |input| ==> input[n] == '/')
    && forall j :: 1 <= j < n ==> input[j] != '/'
  }

  lemma OneDot(input: string, n: nat)
    requires FirstEnds(input, n) && ("/./" <= input || input == "/.")
    ensures input[1..n] == "."
  {
    assert input[1] == '.' && (|input| > 2 ==> input[2] == '/');
    assert n == 2;
  }

  lemma TwoDots(input: string, n: nat)
    requires FirstEnds(input, n) && ("/../" <= input || input == "/..")
    ensures input[1..n] == ".."
  {
    assert input[1] == '.' && input[2] == '.' && (|input| > 3 ==> input[3] == '/');
    assert n == 3;
  }

  lemma DotPrefixes(input: string, n: nat)
    requires FirstEnds(input, n)
    ensures input[1..n] == "." <==> "/./" <= input || input == "/."
    ensures input[1..n] == ".." <==> "/../" <= input || input == "/.."
  {
    assert input == "/" + input[1..n] + input[n..];
    if input[1..n] == "." {
      assert input[1] == '.' && (n < |input| ==> input[..3] == "/./");
    } else if input[1..n] == ".." {
      assert input[1] == '.' && input[2] == '.' && (n < |input| ==> input[..4] == "/../");
    }
    if "/./" <= input || input == "/." { OneDot(input, n); }
    if "/../" <= input || input == "/.." { TwoDots(input, n); }
  }

  /** The first component of an absolute path, as the rules see it. */
  lemma FirstComponent(input: string)
    requires "/" <= input
    ensures var n := NextIndex(input, '/', 1);
            Split(input[1..], '/') == [input[1..n]] + (if n == |input| then [] else Split(input[n + 1..], '/'))
  {
    hide Split;
    var n := NextIndex(input, '/', 1);
    var s := input[1..];
    assert forall j :: 0 <= j < n - 1 ==> s[j] == input[j + 1];
    assert n < |input| ==> s[n - 1] == '/';
    SplitFirst(s, '/', n - 1);
    assert s[..n - 1] == input[1..n];
    assert n < |input| ==> s[n..] == input[n + 1..];
  }

  lemma DotStep(input: string, output: string)
    requires "/./" <= input || input == "/." || "/../" <= input || input == "/.."
    ensures |RemoveDotSegments(input, output)| < |output| + |input|
  {
    assert input[0] == '/';
    if "/./" <= input {
      NeverLonger(input[2..], output);
    } else if input == "/." {
      NeverLonger("/", output);
    } else if "/../" <= input {
      NeverLonger(input[3..], RemoveLastSegment(output));
    } else {
      NeverLonger("/", RemoveLastSegment(output));
    }
  }

  lemma PlainStep(input: string, output: string)
    requires "/" <= input && !("/./" <= input || input == "/." || "/../" <= input || input == "/..")
    ensures var n := NextIndex(input, '/', 1);
            RemoveDotSegments(input, output) == RemoveDotSegments(input[n..], output + input[..n])
  {
    assert input[0] == '/';
  }

  lemma DotsCons(component: string, components: seq<string>)
    ensures NoDots([component] + components) <==> component != "." && component != ".." && NoDots(components)
  {
    assert forall k :: 0 <= k < |components| ==> components[k] == ([component] + components)[k + 1];
    assert ([component] + components)[0] == component;
  }

  /** An absolute path is left as it is iff no component is a dot segment; otherwise it gets shorter. */
  lemma {:induction false} AbsolutePath(input: string, output: string)
    requires "/" <= input
    ensures NoDots(Split(input[1..], '/')) ==> RemoveDotSegments(input, output) == output + input
    ensures !NoDots(Split(input[1..], '/')) ==> |RemoveDotSegments(input, output)| < |output| + |input|
    decreases |input|
  {
    hide Split, RemoveDotSegments, NoDots;
    FirstComponent(input);
    var n := NextIndex(input, '/', 1);
    DotPrefixes(input, n);
    DotsCons(input[1..n], if n == |input| then [] else Split(input[n + 1..], '/'));
    if input[1..n] == "." || input[1..n] == ".." {
      DotStep(input, output);
    } else {
      PlainStep(input, output);
      if n < |input| {
        AbsolutePath(input[n..], output + input[..n]);
        assert input[n..][1..] == input[n + 1..];
      } else {
        PlainEnd(output + input[..n]);
      }
      assert output + input == output + input[..n] + input[n..];
    }
  }

  lemma PlainEnd(output: string)
    ensures RemoveDotSegments("", output) == output && NoDots([])
  {
  }

  // ----- Section 2.1 of RFC 3986 -----

  predicate HexDigit(c: char) {
    IsDigit(c) || 'a' <= c <= 'f' || 'A' <= c <= 'F'
  }

  function HexValue(c: char): (v: nat)
    requires HexDigit(c)
    ensures v < 16
  {
    if IsDigit(c) then (c - '0') as nat else if 'a' <= c then (c - 'a') as nat + 10 else (c - 'A') as nat + 10
  }

  predicate Escape(s: string) {
    |s| >= 3 && s[0] == '%' && HexDigit(s[1]) && HexDigit(s[2])
  }

  function PercentDecode(s: string): string {
    if s == "" then ""
    else if Escape(s) then [(16 * HexValue(s[1]) + HexValue(s[2])) as char] + PercentDecode(s[3..])
    else [s[0]] + PercentDecode(s[1..])
  }

  lemma {:induction false} NoPercentDecodes(s: string)
    requires '%' !in s
    ensures PercentDecode(s) == s
  {
    if s != "" {
      NoPercentDecodes(s[1..]);
    }
  }

  // ----- The whitelist -----

  predicate WordOk(word: string) {
    forall k :: 0 <= k < |word| ==> Unreserved(word[k])
  }

  predicate AllWordsOk(words: seq<string>) {
    forall i :: 0 <= i < |words| ==> WordOk(words[i])
  }

  predicate PathCharacters(s: string) {
    forall k :: 0 <= k < |s| ==> s[k] == '/' || Unreserved(s[k])
  }

  lemma WordCons(c: char, word: string)
    ensures WordOk([c] + word) <==> Unreserved(c) && WordOk(word)
  {
    assert forall k :: 0 <= k < |word| ==> word[k] == ([c] + word)[k + 1];
    assert ([c] + word)[0] == c;
  }

  lemma WordsCons(word: string, words: seq<string>)
    ensures AllWordsOk([word] + words) <==> WordOk(word) && AllWordsOk(words)
  {
    assert forall k :: 0 <= k < |words| ==> words[k] == ([word] + words)[k + 1];
    assert ([word] + words)[0] == word;
  }

  lemma {:induction false} CharactersOf(s: string)
    ensures PathCharacters(s) <==> AllWordsOk(Split(s, '/'))
  {
    if s != "" {
      var rest := Split(s[1..], '/');
      CharactersOf(s[1..]);
      assert s == [s[0]] + s[1..];
      assert PathCharacters(s) <==> (s[0] == '/' || Unreserved(s[0])) && PathCharacters(s[1..]) by {
        assert forall k :: 0 <= k < |s[1..]| ==> s[1..][k] == s[k + 1];
      }
      hide PathCharacters, AllWordsOk, WordOk;
      WordsCons(rest[0], rest[1..]);
      assert [rest[0]] + rest[1..] == rest;
      WordsCons([s[0]] + rest[0], rest[1..]);
      WordCons(s[0], rest[0]);
      WordsCons("", rest);
      assert WordOk("") by { EmptyOk(); }
    } else {
      assert Split(s, '/') == [""];
    }
  }

  lemma EmptyOk()
    ensures WordOk("")
  {
  }

  lemma PrefixComponents(path: string)
    requires PAY_PATH_PREFIX <= path
    ensures Split(path[1..], '/') == ["cp", "pay"] + Split(path[|PAY_PATH_PREFIX|..], '/')
  {
    hide Split;
    var s := path[1..];
    assert s[..3] == "cp/" && s[3..][..4] == "pay/";
    SplitFirst(s, '/', 2);
    SplitFirst(s[3..], '/', 3);
    assert s[..2] == "cp" && s[3..][..3] == "pay";
    assert s[3..][4..] == path[8..];
  }

  /** A pay path is accepted iff it lies under the prefix with non-empty components, is written in
      unreserved characters and `/` only, and is its own result under remove_dot_segments. */
  lemma AcceptedIffNormal(path: string)
    ensures PayPathAllowed(path) <==>
      && PAY_PATH_PREFIX <= path
      && RemoveDotSegments(path, "") == path
      && PathCharacters(path[|PAY_PATH_PREFIX|..])
      && "" !in Split(path[|PAY_PATH_PREFIX|..], '/')
  {
    if PAY_PATH_PREFIX <= path {
      var rest := path[|PAY_PATH_PREFIX|..];
      var parts := Split(rest, '/');
      PrefixComponents(path);
      AbsolutePath(path, "");
      CharactersOf(rest);
      DotsAreInRest(parts);
      hide Split, RemoveDotSegments;
      assert "" + path == path;
    }
  }

  lemma DotsAreInRest(parts: seq<string>)
    ensures NoDots(["cp", "pay"] + parts) <==> NoDots(parts)
  {
    DotsCons("pay", parts);
    DotsCons("cp", ["pay"] + parts);
    assert ["cp"] + (["pay"] + parts) == ["cp", "pay"] + parts;
  }

  /** So no later decoding or normalising step can see another path. */
  lemma AcceptedIsFixed(path: string)
    requires PayPathAllowed(path)
    ensures PercentDecode(path) == path
    ensures RemoveDotSegments(PercentDecode(path), "") == path && PAY_PATH_PREFIX < path
  {
    AcceptedIffNormal(path);
    assert '%' !in path by {
      assert path[..|PAY_PATH_PREFIX|] == PAY_PATH_PREFIX;
      forall k | 0 <= k < |path| ensures path[k] != '%' {
        if k < |PAY_PATH_PREFIX| { assert path[k] == PAY_PATH_PREFIX[k]; }
        else { assert path[k] == path[|PAY_PATH_PREFIX|..][k - |PAY_PATH_PREFIX|]; }
      }
    }
    NoPercentDecodes(path);
    BarePrefixRefused();
  }

  lemma BarePrefixRefused()
    ensures !PayPathAllowed(PAY_PATH_PREFIX)
  {
    assert PAY_PATH_PREFIX[|PAY_PATH_PREFIX|..] == "";
    assert Split("", '/')[0] == "";
  }

  // ----- Set-Cookie -----

  predicate NamesDomain(segment: string) {
    Lower(Strip(Split(segment, '=')[0])) == "domain"
  }

  function KeptFrom(segments: seq<string>): seq<string> {
    if segments == [] then []
    else (if NamesDomain(segments[0]) then [] else [segments[0]]) + KeptFrom(segments[1..])
  }

  function StripCookieDomain(value: string): string {
    var segments := Split(value, ';');
    Join([segments[0]] + KeptFrom(segments[1..]), ';')
  }

  lemma {:induction false} KeptMeaning(segments: seq<string>)
    ensures forall s :: s in KeptFrom(segments) <==> s in segments && !NamesDomain(s)
    ensures KeptFrom(KeptFrom(segments)) == KeptFrom(segments)
  {
    hide NamesDomain;
    if segments != [] {
      KeptMeaning(segments[1..]);
      assert segments == [segments[0]] + segments[1..];
      if !NamesDomain(segments[0]) {
        var kept := KeptFrom(segments);
        assert kept == [segments[0]] + KeptFrom(segments[1..]) && kept[1..] == KeptFrom(segments[1..]);
        assert KeptFrom(kept) == [kept[0]] + KeptFrom(kept[1..]);
      } else {
        assert KeptFrom(segments) == KeptFrom(segments[1..]);
      }
    }
  }

  /** A browser parsing the filtered cookie sees exactly the segments it would have seen, less the
      `Domain` attributes after the first segment; filtering again changes nothing. */
  lemma CookieLosesDomainOnly(value: string)
    ensures var before := Split(value, ';'); var after := Split(StripCookieDomain(value), ';');
            && after[0] == before[0]
            && after[1..] == KeptFrom(before[1..])
            && (forall i :: 0 < i < |after| ==> !NamesDomain(after[i]))
    ensures StripCookieDomain(StripCookieDomain(value)) == StripCookieDomain(value)
  {
    hide Split, Join, KeptFrom, NamesDomain;
    var before := Split(value, ';');
    JoinSplit(value, ';');
    var kept := KeptFrom(before[1..]);
    KeptMeaning(before[1..]);
    var parts := [before[0]] + kept;
    forall i | 0 <= i < |parts| ensures ';' !in parts[i] && (i > 0 ==> !NamesDomain(parts[i])) {
      if i > 0 {
        assert parts[i] in kept && parts[i] in before[1..];
      }
    }
    SplitJoin(parts, ';');
    assert parts[1..] == kept;
  }
}
