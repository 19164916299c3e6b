/**
 * Share-link parsing: `extractContentId` pulls the content id out of a
 * GoFile share link such as `https://gofile.io/d/9WQCql` with the pattern
 * `gofile\.io\/d\/([^/?#]+)` and the `i` flag, unanchored.
 */
module ShareLink {
  import opened Wrappers
  import opened JsValues

  /** The literal part of the pattern, in lower case. */
  const Marker: string := "gofile.io/d/"

  /** The characters the id's character class `[^/?#]` excludes. */
  predicate IsDelimiter(c: char) {
    c == '/' || c == '?' || c == '#'
  }

  /** The marker occurs at position i, compared case-insensitively. */
  predicate MarkerAt(s: string, i: nat) {
    i + |Marker| <= |s| && Lower(s[i..i + |Marker|]) == Marker
  }

  /**
   * The whole pattern matches at position i: the marker, followed by at
   * least one id character (the `+` of the capture group).
   */
  predicate MatchesAt(s: string, i: nat) {
    MarkerAt(s, i) && i + |Marker| < |s| && !IsDelimiter(s[i + |Marker|])
  }

  /** Length of the greedy run of id characters that starts at j. */
  function IdRunLength(s: string, j: nat): (n: nat)
    requires j <= |s|
    ensures j + n <= |s|
    ensures forall k :: j <= k < j + n ==> !IsDelimiter(s[k])
    ensures j + n == |s| || IsDelimiter(s[j + n])
    decreases |s| - j
  {
    if j == |s| || IsDelimiter(s[j]) then 0 else 1 + IdRunLength(s, j + 1)
  }

  /** The leftmost position at or after `from` where the pattern matches. */
  function FirstMatch(s: string, from: nat): (r: Option<nat>)
    requires from <= |s|
    ensures r.Some? ==> from <= r.value < |s| && MatchesAt(s, r.value)
    ensures r.Some? ==> forall j :: from <= j < r.value ==> !MatchesAt(s, j)
    ensures r.None? ==> forall j :: from <= j <= |s| ==> !MatchesAt(s, j)
    decreases |s| - from
  {
    if from == |s| then None
    else if MatchesAt(s, from) then Some(from)
    else FirstMatch(s, from + 1)
  }

  /**
   * `extractContentId(url)`: the capture group of the leftmost match, or
   * `null` (None) when the pattern matches nowhere. The id is never empty
   * and never contains a delimiter.
   */
  function ExtractContentId(url: string): (r: Option<string>)
    ensures r.None? <==> forall i :: 0 <= i <= |url| ==> !MatchesAt(url, i)
    ensures r.Some? ==> r.value != ""
    ensures r.Some? ==> forall k :: 0 <= k < |r.value| ==> !IsDelimiter(r.value[k])
  {
    match FirstMatch(url, 0)
    case None => None
    case Some(i) =>
      var j := i + |Marker|;
      Some(url[j..j + IdRunLength(url, j)])
  }

  /**
   * The id is exactly the text after the leftmost match's marker, up to but
   * not including the first `/`, `?` or `#`, or up to the end of the URL.
   */
  lemma ExtractAtLeftmostMatch(url: string, i: nat, e: nat)
    requires MatchesAt(url, i)
    requires forall j :: 0 <= j < i ==> !MatchesAt(url, j)
    requires i + |Marker| < e <= |url|
    requires forall k :: i + |Marker| <= k < e ==> !IsDelimiter(url[k])
    requires e == |url| || IsDelimiter(url[e])
    ensures ExtractContentId(url) == Some(url[i + |Marker|..e])
  {
  }

  /** A marker cannot start at a character that does not fold to 'g'. */
  lemma NoMatchWithoutG(s: string, i: nat)
    requires i < |s| && LowerAscii(s[i]) != 'g'
    ensures !MatchesAt(s, i)
  {
    if i + |Marker| <= |s| {
      assert Lower(s[i..i + |Marker|])[0] == LowerAscii(s[i]);
    }
  }

  /**
   * Round trip: a share link built from a prefix free of 'g'/'G' (such as
   * `https://`), the marker in any letter case, a non-empty id free of
   * delimiters and a tail that is empty or starts with a delimiter parses
   * back to exactly that id.
   */
  lemma {:induction false} ShareLinkRoundTrip(prefix: string, marker: string, id: string, tail: string)
    requires forall k :: 0 <= k < |prefix| ==> LowerAscii(prefix[k]) != 'g'
    requires Lower(marker) == Marker
    requires id != "" && forall k :: 0 <= k < |id| ==> !IsDelimiter(id[k])
    requires tail == "" || IsDelimiter(tail[0])
    ensures ExtractContentId(prefix + marker + id + tail) == Some(id)
  {
    var url := prefix + marker + id + tail;
    var i := |prefix|;
    var e := i + |Marker| + |id|;
    assert |marker| == |Marker|;
    assert url[i..i + |Marker|] == marker;
    assert url[i + |Marker|] == id[0];
    assert MatchesAt(url, i);
    forall j | 0 <= j < i
      ensures !MatchesAt(url, j)
    {
      assert url[j] == prefix[j];
      NoMatchWithoutG(url, j);
    }
    forall k | i + |Marker| <= k < e
      ensures !IsDelimiter(url[k])
    {
      assert url[k] == id[k - i - |Marker|];
    }
    assert e == |url| || url[e] == tail[0];
    ExtractAtLeftmostMatch(url, i, e);
    assert url[i + |Marker|..e] == id;
  }

  /** The link shape from the extension's own comment. */
  lemma ExampleShareLink(url: string)
    requires url == "https://gofile.io/d/9WQCql"
    ensures ExtractContentId(url) == Some("9WQCql")
  {
    assert url == "https://" + Marker + "9WQCql" + "";
    ShareLinkRoundTrip("https://", Marker, "9WQCql", "");
  }

  /** Letter case in the marker does not matter; a query string ends the id. */
  lemma ExampleUpperCaseShareLink(url: string)
    requires url == "HTTPS://GoFile.IO/D/9WQCql?x=1"
    ensures ExtractContentId(url) == Some("9WQCql")
  {
    var marker := "GoFile.IO/D/";
    assert url == "HTTPS://" + marker + "9WQCql" + "?x=1";
    ShareLinkRoundTrip("HTTPS://", marker, "9WQCql", "?x=1");
  }

  /**
   * A URL in which no character folds to 'g' (`https://example.com/foo`)
   * has no content id: the handler rejects it before any request.
   */
  lemma {:induction false} NoIdWithoutMarker(url: string)
    requires forall k :: 0 <= k < |url| ==> LowerAscii(url[k]) != 'g'
    ensures ExtractContentId(url) == None
  {
    forall i | 0 <= i <= |url|
      ensures !MatchesAt(url, i)
    {
      if i < |url| {
        NoMatchWithoutG(url, i);
      }
    }
  }
}
