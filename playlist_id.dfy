/** Extraction of the playlist identifier from a playlist reference: the regular
    expression `playlist/(\w+)` searched with `find`, whose first group is returned. */
module PlaylistId {
  import opened Wrappers
  import opened DataClasses

  /** The literal part of the pattern. */
  const Prefix: string := "playlist/"

  /** `\w`, read as the ASCII word class `[A-Za-z0-9_]`. */
  predicate IsWordChar(c: char) {
    ('a' <= c <= 'z') || ('A' <= c <= 'Z') || ('0' <= c <= '9') || c == '_'
  }

  /** The pattern matches at position `i`: `playlist/` followed by at least one word character. */
  predicate MatchAt(url: string, i: int) {
    0 <= i && i + |Prefix| < |url| && url[i..i + |Prefix|] == Prefix && IsWordChar(url[i + |Prefix|])
  }

  /** `i` is the leftmost position at which the pattern matches, the one `find` reports. */
  ghost predicate IsFirstMatch(url: string, i: int) {
    MatchAt(url, i) && forall j :: 0 <= j < i ==> !MatchAt(url, j)
  }

  /** `id` is the greedy `\w+` run that starts at `start`: non-empty, all word characters,
      and not followed by a word character. */
  ghost predicate IsRunAt(url: string, start: nat, id: string) {
    && 1 <= |id|
    && start + |id| <= |url|
    && url[start..start + |id|] == id
    && (forall k :: 0 <= k < |id| ==> IsWordChar(id[k]))
    && (start + |id| == |url| || !IsWordChar(url[start + |id|]))
  }

  /** Scans for the leftmost match at or after `i`, as the regex engine tries successive start positions. */
  function FindFrom(url: string, i: nat): (r: Option<nat>)
    ensures r.Some? ==> i <= r.value && MatchAt(url, r.value)
    ensures r.Some? ==> forall j :: i <= j < r.value ==> !MatchAt(url, j)
    ensures r.None? ==> forall j :: i <= j ==> !MatchAt(url, j)
    decreases |url| - i
  {
    if i + |Prefix| >= |url| then None
    else if MatchAt(url, i) then Some(i)
    else FindFrom(url, i + 1)
  }

  /** The end of the maximal run of word characters that starts at `j`. */
  function RunEnd(s: string, j: nat): (k: nat)
    requires j <= |s|
    ensures j <= k <= |s|
    ensures forall m :: j <= m < k ==> IsWordChar(s[m])
    ensures k == |s| || !IsWordChar(s[k])
    decreases |s| - j
  {
    if j < |s| && IsWordChar(s[j]) then RunEnd(s, j + 1) else j
  }

  /** `urlToId`: the identifier after the first `playlist/` that is followed by a word
      character; an input without such a match fails instead of yielding a default. */
  function UrlToId(url: string): (r: Result<string, ApiError>)
    ensures r.Success? <==> exists i :: MatchAt(url, i)
    ensures r.Failure? ==> r.error == InvalidReference
    ensures r.Success? ==> exists i :: IsFirstMatch(url, i) && IsRunAt(url, i + |Prefix|, r.value)
  {
    match FindFrom(url, 0)
    case None => Failure(InvalidReference)
    case Some(i) =>
      var start := i + |Prefix|;
      var id := url[start..RunEnd(url, start)];
      assert IsFirstMatch(url, i) && IsRunAt(url, start, id);
      Success(id)
  }

  /** The first match is unique. */
  lemma FirstMatchUnique(url: string, i: int, i': int)
    requires IsFirstMatch(url, i) && IsFirstMatch(url, i')
    ensures i == i'
  {
  }

  /** The greedy run at a given start is unique. */
  lemma RunUnique(url: string, start: nat, id: string, id': string)
    requires IsRunAt(url, start, id) && IsRunAt(url, start, id')
    ensures id == id'
  {
    forall m | start <= m < start + |id| ensures IsWordChar(url[m]) {
      assert url[m] == id[m - start];
    }
    forall m | start <= m < start + |id'| ensures IsWordChar(url[m]) {
      assert url[m] == id'[m - start];
    }
  }

  /** The description by `IsFirstMatch` and `IsRunAt` determines `UrlToId` completely:
      any identifier meeting it is the one returned. */
  lemma UrlToIdIsTheSpecifiedRun(url: string, i: int, id: string)
    requires IsFirstMatch(url, i) && IsRunAt(url, i + |Prefix|, id)
    ensures UrlToId(url) == Success(id)
  {
    var r := UrlToId(url);
    assert r.Success?;
    var i' :| IsFirstMatch(url, i') && IsRunAt(url, i' + |Prefix|, r.value);
    FirstMatchUnique(url, i, i');
    RunUnique(url, i + |Prefix|, id, r.value);
  }

  /** The identifier ends at the first character that is not a word character. */
  lemma QueryStringExample()
    ensures UrlToId("playlist/Ab_9?si=1") == Success("Ab_9")
  {
    var url := "playlist/Ab_9?si=1";
    assert url[0..9] == Prefix;
    assert IsFirstMatch(url, 0);
    assert IsRunAt(url, 9, "Ab_9");
    UrlToIdIsTheSpecifiedRun(url, 0, "Ab_9");
  }

  /** `playlist/` without a word character after it is no match, and the call fails. */
  lemma NoIdentifierExample()
    ensures UrlToId("playlist/-x") == Failure(InvalidReference)
  {
    var url := "playlist/-x";
    forall j ensures !MatchAt(url, j) {
      if j == 1 {
        assert url[1..10][0] == 'l';
      }
    }
  }
}
