/** The direct-id token extraction of the get-sheet-by-url tool:
    `url.match(/\/sheets\/([^?\/]+)/)` followed by taking capture group 1.

    A JavaScript regular-expression match without the `g` flag reports the
    leftmost start position at which the whole pattern matches. The pattern
    is the literal marker `/sheets/` followed by one or more characters that
    are neither `/` nor `?`, taken greedily. So a marker followed directly by
    `/`, `?` or the end of the string does not match there, and the search
    goes on to the right; and the marker is found anywhere in the string
    (in the path, the query or the fragment alike). */
module DirectIdToken {
  import opened Wrappers

  /** The literal part of the pattern. */
  const Marker: string := "/sheets/"

  /** The two characters excluded by the class `[^?\/]`. */
  predicate IsDelimiter(c: char) {
    c == '/' || c == '?'
  }

  predicate NoDelimiter(s: string) {
    forall k :: 0 <= k < |s| ==> !IsDelimiter(s[k])
  }

  /** The literal marker occurs in `url` at index `i`. */
  predicate MarkerAt(url: string, i: int) {
    0 <= i && i + |Marker| <= |url| && url[i..i + |Marker|] == Marker
  }

  /** The whole pattern matches at index `i`: the marker, then at least one
      character of the class `[^?\/]`. */
  predicate MatchesAt(url: string, i: int) {
    MarkerAt(url, i) && i + |Marker| < |url| && !IsDelimiter(url[i + |Marker|])
  }

  /** `i` is the leftmost index at which the pattern matches. */
  predicate LeftmostMatch(url: string, i: int) {
    MatchesAt(url, i) && forall j :: 0 <= j < i ==> !MatchesAt(url, j)
  }

  /** `t` is the greedy run of the class `[^?\/]` that starts at index `p`:
      it is what `url` holds from `p`, has no delimiter, and stops at a
      delimiter or at the end of `url`. */
  predicate MaximalRunAt(url: string, p: nat, t: string) {
    && p + |t| <= |url|
    && url[p..p + |t|] == t
    && NoDelimiter(t)
    && (p + |t| == |url| || IsDelimiter(url[p + |t|]))
  }

  /** The greedy quantifier `[^?\/]+` (here `*`; the caller ensures the
      first character belongs to the class): the longest prefix of `s`
      without a delimiter. */
  function Run(s: string): (r: string)
    ensures MaximalRunAt(s, 0, r)
  {
    if s == [] || IsDelimiter(s[0]) then [] else [s[0]] + Run(s[1..])
  }

  /** The scan of the regular-expression engine: the least index at or
      after `from` where the pattern matches. */
  function FindMatch(url: string, from: nat): (r: Option<nat>)
    ensures r.Some? ==> from <= r.value && MatchesAt(url, r.value)
    ensures r.Some? ==> forall j :: from <= j < r.value ==> !MatchesAt(url, j)
    ensures r.None? ==> forall j :: from <= j ==> !MatchesAt(url, j)
    decreases |url| - from
  {
    if |url| <= from + |Marker| then None
    else if MatchesAt(url, from) then Some(from)
    else FindMatch(url, from + 1)
  }

  /** `match ? match[1] : null`: the capture group of the leftmost match,
      or `None` when the pattern does not match. */
  function ExtractToken(url: string): (r: Option<string>)
    ensures r.Some? <==> exists i :: MatchesAt(url, i)
    ensures r.Some? ==> r.value != [] && NoDelimiter(r.value)
    ensures r.Some? ==> exists i :: LeftmostMatch(url, i) && MaximalRunAt(url, i + |Marker|, r.value)
  {
    match FindMatch(url, 0)
    case None => None
    case Some(i) =>
      assert LeftmostMatch(url, i);
      var t := Run(url[i + |Marker|..]);
      RunInSuffix(url, i + |Marker|, t);
      Some(t)
  }

  /** A maximal run of the suffix starting at `p` is a maximal run of the
      whole string at `p`. */
  lemma RunInSuffix(url: string, p: nat, t: string)
    requires p <= |url|
    requires MaximalRunAt(url[p..], 0, t)
    ensures MaximalRunAt(url, p, t)
  {
    assert url[p..][0..|t|] == url[p..p + |t|];
  }

  /** The greedy run starting at a given index is unique. */
  lemma MaximalRunUnique(url: string, p: nat, t1: string, t2: string)
    requires MaximalRunAt(url, p, t1) && MaximalRunAt(url, p, t2)
    ensures t1 == t2
  {
    if |t1| < |t2| {
      RunCharIsNotDelimiter(url, p, t2, |t1|);
      assert false;
    } else if |t2| < |t1| {
      RunCharIsNotDelimiter(url, p, t1, |t2|);
      assert false;
    }
  }

  lemma RunCharIsNotDelimiter(url: string, p: nat, t: string, k: nat)
    requires MaximalRunAt(url, p, t) && k < |t|
    ensures !IsDelimiter(url[p + k])
  {
    assert url[p + k] == url[p..p + |t|][k];
  }

  /** The token is exactly the greedy run after the marker at the leftmost
      match: both directions, so it is the only string the search can
      yield, and it yields one whenever such a match exists. */
  lemma ExtractTokenCharacterized(url: string, t: string)
    ensures ExtractToken(url) == Some(t) <==>
            exists i :: LeftmostMatch(url, i) && MaximalRunAt(url, i + |Marker|, t)
  {
    if i :| LeftmostMatch(url, i) && MaximalRunAt(url, i + |Marker|, t) {
      var r := ExtractToken(url);
      var i' :| LeftmostMatch(url, i') && MaximalRunAt(url, i' + |Marker|, r.value);
      assert i == i';
      MaximalRunUnique(url, i + |Marker|, t, r.value);
    }
  }

  /** The token and the marker before it occur in `url` as one contiguous
      piece, starting at the leftmost match. */
  lemma TokenFollowsMarker(url: string, t: string)
    requires ExtractToken(url) == Some(t)
    ensures exists i :: LeftmostMatch(url, i) && url[i..i + |Marker| + |t|] == Marker + t
  {
    var i :| LeftmostMatch(url, i) && MaximalRunAt(url, i + |Marker|, t);
    assert url[i..i + |Marker| + |t|] == url[i..i + |Marker|] + url[i + |Marker|..i + |Marker| + |t|];
  }

  /** The marker is at the start of every place it occurs. */
  lemma MarkerAtStart(url: string, j: int)
    requires MarkerAt(url, j)
    ensures url[j] == '/' && url[j + 1] == 's'
  {
    assert url[j..j + |Marker|][0] == url[j];
    assert url[j..j + |Marker|][1] == url[j + 1];
  }

  /** No match starts inside a stretch of `url` that holds no `/`. */
  lemma NoMatchWithoutSlash(url: string, lo: nat, hi: nat)
    requires lo <= hi <= |url|
    requires '/' !in url[lo..hi]
    ensures forall j :: lo <= j < hi ==> !MatchesAt(url, j)
  {
    forall j | lo <= j < hi ensures !MarkerAt(url, j) {
      assert url[lo..hi][j - lo] == url[j];
      if MarkerAt(url, j) {
        MarkerAtStart(url, j);
      }
    }
  }

  /** Whether the pattern matches at an index of `b` does not depend on
      what is put in front of `b`. */
  lemma MatchesAtShift(a: string, b: string, k: nat)
    ensures MatchesAt(a + b, |a| + k) <==> MatchesAt(b, k)
  {
    var u := a + b;
    if k + |Marker| <= |b| {
      assert u[|a| + k..|a| + k + |Marker|] == b[k..k + |Marker|];
    }
    if k + |Marker| < |b| {
      assert u[|a| + k + |Marker|] == b[k + |Marker|];
    }
  }

  /** Likewise for the greedy run after an index of `b`. */
  lemma RunAtShift(a: string, b: string, p: nat, t: string)
    requires MaximalRunAt(b, p, t)
    ensures MaximalRunAt(a + b, |a| + p, t)
  {
    var u := a + b;
    assert u[|a| + p..|a| + p + |t|] == b[p..p + |t|];
    if p + |t| < |b| {
      assert u[|a| + p + |t|] == b[p + |t|];
    }
  }

  /** A prefix in which no match starts does not change the token: the
      search runs on past it and finds what it would find without it. */
  lemma ExtractTokenSkipsPrefix(a: string, b: string)
    requires forall j :: 0 <= j < |a| ==> !MatchesAt(a + b, j)
    ensures ExtractToken(a + b) == ExtractToken(b)
  {
    var u := a + b;
    forall k: nat ensures MatchesAt(u, |a| + k) <==> MatchesAt(b, k) {
      MatchesAtShift(a, b, k);
    }
    match ExtractToken(b)
    case None =>
      forall j | 0 <= j ensures !MatchesAt(u, j) {
        if j >= |a| {
          assert !MatchesAt(b, j - |a|);
        }
      }
    case Some(t) =>
      var i :| LeftmostMatch(b, i) && MaximalRunAt(b, i + |Marker|, t);
      RunAtShift(a, b, i + |Marker|, t);
      forall j | 0 <= j < |a| + i ensures !MatchesAt(u, j) {
        if j >= |a| {
          assert !MatchesAt(b, j - |a|);
        }
      }
      assert LeftmostMatch(u, |a| + i);
      ExtractTokenCharacterized(u, t);
  }

  /** The marker, a token, then a delimiter or nothing: the token is
      extracted whole and the rest is ignored (`/sheets/abc?x=1` gives
      `abc`). */
  lemma ExtractTokenAfterMarker(t: string, rest: string)
    requires t != [] && NoDelimiter(t)
    requires rest == [] || IsDelimiter(rest[0])
    ensures ExtractToken(Marker + t + rest) == Some(t)
  {
    var u := Marker + t + rest;
    assert u[..|Marker|] == Marker;
    assert u[|Marker|] == t[0];
    assert LeftmostMatch(u, 0);
    assert u[|Marker|..|Marker| + |t|] == t;
    assert MaximalRunAt(u, |Marker|, t);
    ExtractTokenCharacterized(u, t);
  }

  /** A marker followed by a delimiter does not match, and no match starts
      inside it: the search resumes at the delimiter, which may itself begin
      the next marker (`/sheets//sheets/x` gives `x`). */
  lemma ExtractTokenSkipsEmptyMarker(d: char, rest: string)
    requires IsDelimiter(d)
    ensures ExtractToken(Marker + ([d] + rest)) == ExtractToken([d] + rest)
  {
    var u := Marker + ([d] + rest);
    assert u[1..7] == "sheets";
    NoMatchWithoutSlash(u, 1, 7);
    assert u[|Marker|] == d;
    if MarkerAt(u, 7) {
      MarkerAtStart(u, 7);
    }
    ExtractTokenSkipsPrefix(Marker, [d] + rest);
  }

  /** A marker at the very end does not match either. */
  lemma ExtractTokenOfBareMarker()
    ensures ExtractToken(Marker) == None
  {
    forall j | 0 <= j ensures !MatchesAt(Marker, j) {
    }
  }
}
