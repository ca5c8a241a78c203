/**
 * The video-id helper: the regular expression
 *   ^.*((youtu.be\/)|(v\/)|(\/u\/\w\/)|(embed\/)|(watch\?))\??v?=?([^#&?]*).*
 * written out as a scan over the characters, followed by the 11-character guard.
 *
 * Without the `m` flag `^` only matches at the start, and `.` matches anything
 * but a line terminator, so `^.*` may range over the first line only; being
 * greedy, it settles on the RIGHTMOST place in that line where a marker starts.
 * Its five alternatives begin with five different characters, so at most one
 * applies at any place. Everything after the marker always matches, so the first
 * marker found by backtracking decides the match: the optional `?`, `v` and `=`
 * are each taken when present, and group 7 is the longest run after them that
 * holds no `#`, `&` or `?` (this run may cross line terminators).
 */
module VideoId {
  import opened Wrappers

  /** The platform's fixed id length. */
  const IdLength: nat := 11

  /** The characters ECMAScript's `.` refuses. */
  predicate IsLineTerminator(c: char) {
    c == '\n' || c == '\r' || c == '\U{2028}' || c == '\U{2029}'
  }

  /** `\w`: ASCII letters, digits and underscore. */
  predicate IsWordChar(c: char) {
    ('a' <= c <= 'z') || ('A' <= c <= 'Z') || ('0' <= c <= '9') || c == '_'
  }

  /** The characters that end group 7, `[^#&?]`. */
  predicate IsStop(c: char) {
    c == '#' || c == '&' || c == '?'
  }

  /** Character `c` stands at index `i` of `s`. */
  predicate At(s: string, i: nat, c: char) {
    i < |s| && s[i] == c
  }

  /**
   * The length of the marker alternative that matches at `p`, or 0 when none
   * does: `youtu.be/` (any non-terminator in the middle), `v/`, `/u/` + one word
   * character + `/`, `embed/`, `watch?`.
   */
  function MarkerLength(s: string, p: nat): (n: nat)
    ensures n == 0 || n == 2 || n == 5 || n == 6 || n == 9
    ensures n > 0 ==> p + n <= |s|
    ensures n > 0 ==> s[p] == 'y' || s[p] == 'v' || s[p] == '/' || s[p] == 'e' || s[p] == 'w'
    ensures n > 0 ==> s[p + n - 1] == '/' || s[p + n - 1] == '?'
  {
    if At(s, p, 'y') && At(s, p + 1, 'o') && At(s, p + 2, 'u') && At(s, p + 3, 't') && At(s, p + 4, 'u')
       && p + 5 < |s| && !IsLineTerminator(s[p + 5])
       && At(s, p + 6, 'b') && At(s, p + 7, 'e') && At(s, p + 8, '/') then 9
    else if At(s, p, 'v') && At(s, p + 1, '/') then 2
    else if At(s, p, '/') && At(s, p + 1, 'u') && At(s, p + 2, '/')
       && p + 3 < |s| && IsWordChar(s[p + 3]) && At(s, p + 4, '/') then 5
    else if At(s, p, 'e') && At(s, p + 1, 'm') && At(s, p + 2, 'b')
       && At(s, p + 3, 'e') && At(s, p + 4, 'd') && At(s, p + 5, '/') then 6
    else if At(s, p, 'w') && At(s, p + 1, 'a') && At(s, p + 2, 't')
       && At(s, p + 3, 'c') && At(s, p + 4, 'h') && At(s, p + 5, '?') then 6
    else 0
  }

  /** The index of the first line terminator at or after `i`, or `|s|`. */
  function LineEnd(s: string, i: nat): (e: nat)
    requires i <= |s|
    ensures i <= e <= |s|
    ensures forall k :: i <= k < e ==> !IsLineTerminator(s[k])
    ensures e < |s| ==> IsLineTerminator(s[e])
    decreases |s| - i
  {
    if i == |s| || IsLineTerminator(s[i]) then i else LineEnd(s, i + 1)
  }

  /**
   * The backtracking of the greedy `^.*`: try the prefix ending at `n` first,
   * then shorter ones, and stop at the first place where a marker starts.
   */
  function LastMarker(s: string, n: nat): (r: Option<nat>)
    ensures r.Some? ==> r.value <= n && MarkerLength(s, r.value) > 0
    ensures r.Some? ==> forall q :: r.value < q <= n ==> MarkerLength(s, q) == 0
    ensures r.None? ==> forall q :: 0 <= q <= n ==> MarkerLength(s, q) == 0
    decreases n
  {
    if MarkerLength(s, n) > 0 then Some(n)
    else if n == 0 then None
    else LastMarker(s, n - 1)
  }

  /** An optional literal character: consume `c` at `i` when it is there. */
  function SkipOptional(s: string, i: nat, c: char): (j: nat)
    requires i <= |s|
    ensures j <= |s|
    ensures j == i || j == i + 1
  {
    if i < |s| && s[i] == c then i + 1 else i
  }

  /** The end of the longest run from `i` that holds no stop character. */
  function RunEnd(s: string, i: nat): (e: nat)
    requires i <= |s|
    ensures i <= e <= |s|
    ensures forall k :: i <= k < e ==> !IsStop(s[k])
    ensures e < |s| ==> IsStop(s[e])
    decreases |s| - i
  {
    if i == |s| || IsStop(s[i]) then i else RunEnd(s, i + 1)
  }

  /** Where group 7 starts for a match whose marker is at `p`: after `\??v?=?`. */
  function GroupStart(s: string, p: nat): (k: nat)
    requires MarkerLength(s, p) > 0
    ensures k <= |s|
  {
    var m := p + MarkerLength(s, p);
    SkipOptional(s, SkipOptional(s, SkipOptional(s, m, '?'), 'v'), '=')
  }

  /**
   * Where the id starts in the evidently intended pattern `\??(v=|=)?`: a `v` is
   * only part of the link's syntax when `=` follows it, as in `watch?v=`.
   */
  function IntendedGroupStart(s: string, p: nat): (k: nat)
    requires MarkerLength(s, p) > 0
    ensures k <= |s|
  {
    var j := SkipOptional(s, p + MarkerLength(s, p), '?');
    if At(s, j, 'v') && At(s, j + 1, '=') then j + 2 else SkipOptional(s, j, '=')
  }

  /** In a non-empty input, the marker the greedy `^.*` settles on, if any. */
  function MatchStart(url: string): (r: Option<nat>)
    ensures r.Some? ==> MarkerLength(url, r.value) > 0
  {
    if url == "" then None else LastMarker(url, LineEnd(url, 0))
  }

  /** The `[^#&?]*` run from `k`, kept only when it is exactly 11 characters long. */
  function IdAt(url: string, k: nat): (r: Option<string>)
    requires k <= |url|
    ensures r.Some? ==> |r.value| == IdLength
    ensures r.Some? ==> forall i :: 0 <= i < |r.value| ==> !IsStop(r.value[i])
  {
    var g := url[k..RunEnd(url, k)];
    if |g| == IdLength then Some(g) else None
  }

  /**
   * `getYoutubeId` as written: null for the empty string, for no match, and for
   * a group 7 whose length is not 11; otherwise group 7.
   */
  function YoutubeId(url: string): (r: Option<string>)
    ensures url == "" ==> r == None
    ensures r.Some? ==> |r.value| == IdLength
    ensures r.Some? ==> forall k :: 0 <= k < |r.value| ==> !IsStop(r.value[k])
  {
    match MatchStart(url)
    case None => None
    case Some(p) => IdAt(url, GroupStart(url, p))
  }

  /** `getYoutubeId` with the id's leading `v` left alone unless `=` follows it. */
  function IntendedYoutubeId(url: string): (r: Option<string>)
    ensures url == "" ==> r == None
    ensures r.Some? ==> |r.value| == IdLength
    ensures r.Some? ==> forall k :: 0 <= k < |r.value| ==> !IsStop(r.value[k])
  {
    match MatchStart(url)
    case None => None
    case Some(p) => IdAt(url, IntendedGroupStart(url, p))
  }

  // ---- The regular expression's match, stated declaratively ----

  /** `^.*` can stop at `p` and a marker alternative matches there. */
  ghost predicate MarkerMatch(s: string, p: nat) {
    p <= |s| && (forall k :: 0 <= k < p ==> !IsLineTerminator(s[k])) && MarkerLength(s, p) > 0
  }

  /** The match the greedy `^.*` settles on: no marker match starts further right. */
  ghost predicate GreedyMarker(s: string, p: nat) {
    MarkerMatch(s, p) && forall q :: p < q && MarkerMatch(s, q) ==> false
  }

  /** `g` is the maximal `[^#&?]*` run starting at `k`. */
  ghost predicate MaximalRun(s: string, k: nat, g: string) {
    k + |g| <= |s| && s[k..k + |g|] == g
    && (forall i :: 0 <= i < |g| ==> !IsStop(g[i]))
    && (k + |g| == |s| || IsStop(s[k + |g|]))
  }

  // ---- Lemmas ----

  /** A maximal run is unique, so group 7 is determined by where it starts. */
  lemma MaximalRunUnique(s: string, k: nat, g: string)
    requires k <= |s|
    ensures MaximalRun(s, k, g) <==> g == s[k..RunEnd(s, k)]
  {
    var e := RunEnd(s, k);
    if g == s[k..e] {
      forall i | 0 <= i < |g| ensures !IsStop(g[i]) {
        assert g[i] == s[k + i];
      }
    }
  }

  /** Every marker match lies in the first line, so the scan from its end sees them all. */
  lemma MarkerMatchInFirstLine(s: string, q: nat)
    ensures MarkerMatch(s, q) <==> q <= LineEnd(s, 0) && MarkerLength(s, q) > 0
  {
  }

  /** The place the scan finds is the greedy match. */
  lemma ScanFindsGreedyMarker(s: string)
    requires LastMarker(s, LineEnd(s, 0)).Some?
    ensures GreedyMarker(s, LastMarker(s, LineEnd(s, 0)).value)
  {
    var e := LineEnd(s, 0);
    var p := LastMarker(s, e).value;
    forall q | p < q && MarkerMatch(s, q) ensures false {
      MarkerMatchInFirstLine(s, q);
    }
  }

  /** When the scan finds nothing, the regular expression does not match. */
  lemma ScanFailsNoMatch(s: string, p: nat)
    requires LastMarker(s, LineEnd(s, 0)).None?
    ensures !MarkerMatch(s, p)
  {
    MarkerMatchInFirstLine(s, p);
  }

  /** There is only one greedy match. */
  lemma GreedyMarkerUnique(s: string, p: nat, p': nat)
    requires GreedyMarker(s, p) && GreedyMarker(s, p')
    ensures p == p'
  {
  }

  /**
   * The scan agrees with the regular expression: `YoutubeId` returns `g`
   * exactly when the input is non-empty, the greedy marker match sits at some
   * `p`, and `g` is the maximal run after the marker and its optional `?v=`,
   * of length 11.
   */
  lemma YoutubeIdMatchesRegex(s: string, g: string)
    ensures YoutubeId(s) == Some(g) <==>
      s != "" && |g| == IdLength &&
      exists p :: GreedyMarker(s, p) && MaximalRun(s, GroupStart(s, p), g)
  {
    var e := LineEnd(s, 0);
    if s == "" {
    } else {
    match LastMarker(s, e)
    case None =>
      forall p ensures !MarkerMatch(s, p) {
        ScanFailsNoMatch(s, p);
      }
    case Some(p) =>
      ScanFindsGreedyMarker(s);
      MaximalRunUnique(s, GroupStart(s, p), g);
      if exists p' :: GreedyMarker(s, p') && MaximalRun(s, GroupStart(s, p'), g) {
        var p' :| GreedyMarker(s, p') && MaximalRun(s, GroupStart(s, p'), g);
        GreedyMarkerUnique(s, p, p');
      }
    }
  }

  // ---- The recognised link shapes ----

  /** The characters of a platform id: ASCII letters, digits, `-` and `_`. */
  predicate IsIdChar(c: char) {
    IsWordChar(c) || c == '-'
  }

  /** Every marker ends in `/` or `?`, so none starts where neither follows. */
  lemma NoMarkerWithoutSlash(s: string, lo: nat)
    requires forall k :: lo <= k < |s| ==> s[k] != '/' && s[k] != '?'
    ensures forall q :: lo <= q ==> MarkerLength(s, q) == 0
  {
  }

  /** A run that ends at a stop character or at the end is the one `RunEnd` finds. */
  lemma RunEndIs(s: string, k: nat, e: nat)
    requires k <= e <= |s|
    requires forall i :: k <= i < e ==> !IsStop(s[i])
    requires e < |s| ==> IsStop(s[e])
    ensures RunEnd(s, k) == e
  {
    var r := RunEnd(s, k);
    if r < e {
    } else if r > e {
    }
  }

  /** A marker at `p` in the first line with none after it is where the scan stops. */
  lemma ScanStopsAt(s: string, p: nat)
    requires MarkerLength(s, p) > 0 && p <= LineEnd(s, 0)
    requires forall q :: p < q ==> MarkerLength(s, q) == 0
    ensures LastMarker(s, LineEnd(s, 0)) == Some(p)
  {
  }

  /** A string with no `/` and no `?` (a plain search phrase) never yields an id. */
  lemma PlainQueryHasNoId(s: string)
    requires forall k :: 0 <= k < |s| ==> s[k] != '/' && s[k] != '?'
    ensures YoutubeId(s) == None && IntendedYoutubeId(s) == None
  {
    NoMarkerWithoutSlash(s, 0);
  }

  /**
   * The id sits at `|prefix|`, right after the marker at `p`, and the run ends at
   * `rest`'s first character or at the end: the scan settles on `p` and the
   * 11-character run from `|prefix|` is the id.
   */
  lemma IdAfterMarker(prefix: string, id: string, rest: string, p: nat)
    requires |id| == IdLength && forall k :: 0 <= k < |id| ==> IsIdChar(id[k])
    requires forall k :: 0 <= k < |rest| ==> rest[k] != '/' && rest[k] != '?'
    requires rest != [] ==> rest[0] == '&' || rest[0] == '#'
    requires forall k :: 0 <= k < |prefix| ==> !IsLineTerminator(prefix[k])
    requires p < |prefix| && MarkerLength(prefix + id + rest, p) > 0
    requires forall q :: p < q < |prefix| ==> MarkerLength(prefix + id + rest, q) == 0
    ensures MatchStart(prefix + id + rest) == Some(p)
    ensures IdAt(prefix + id + rest, |prefix|) == Some(id)
  {
    var s := prefix + id + rest;
    var e := LineEnd(s, 0);
    assert p <= e;
    forall k | |prefix| <= k < |s| ensures s[k] != '/' && s[k] != '?' {
      if k < |prefix| + |id| { assert s[k] == id[k - |prefix|]; }
      else { assert s[k] == rest[k - |prefix| - |id|]; }
    }
    NoMarkerWithoutSlash(s, |prefix|);
    ScanStopsAt(s, p);
    forall k | |prefix| <= k < |prefix| + |id| ensures !IsStop(s[k]) {
      assert s[k] == id[k - |prefix|];
    }
    if rest != [] {
      assert s[|prefix| + |id|] == rest[0];
    }
    RunEndIs(s, |prefix|, |prefix| + |id|);
    assert s[|prefix|..|prefix| + |id|] == id;
  }

  // ---- The four link shapes: where the match starts and the id sits ----

  const ShortPrefix: string := "https://youtu.be/"
  const WatchPrefix: string := "https://www.youtube.com/watch?v="
  const EmbedPrefix: string := "https://www.youtube.com/embed/"
  const VPrefix: string := "https://www.youtube.com/v/"

  /** None of the four link prefixes holds a line terminator. */
  lemma PrefixesHaveNoTerminator()
    ensures forall k :: 0 <= k < |ShortPrefix| ==> !IsLineTerminator(ShortPrefix[k])
    ensures forall k :: 0 <= k < |WatchPrefix| ==> !IsLineTerminator(WatchPrefix[k])
    ensures forall k :: 0 <= k < |EmbedPrefix| ==> !IsLineTerminator(EmbedPrefix[k])
    ensures forall k :: 0 <= k < |VPrefix| ==> !IsLineTerminator(VPrefix[k])
  {
  }

  /** In a short link the match is `youtu.be/` at 8 and the run from 17 is the id. */
  lemma ShortLinkMatch(id: string)
    requires |id| == IdLength && forall k :: 0 <= k < |id| ==> IsIdChar(id[k])
    ensures MatchStart(ShortPrefix + id) == Some(8) && MarkerLength(ShortPrefix + id, 8) == 9
    ensures IdAt(ShortPrefix + id, 17) == Some(id)
  {
    var s := ShortPrefix + id;
    assert s == ShortPrefix + id + "";
    assert s[17] == id[0] && s[18] == id[1];
    PrefixesHaveNoTerminator();
    IdAfterMarker(ShortPrefix, id, "", 8);
  }

  /** In a watch link the match is `watch?` at 24 and the run from 32 is the id. */
  lemma WatchLinkMatch(id: string, rest: string)
    requires |id| == IdLength && forall k :: 0 <= k < |id| ==> IsIdChar(id[k])
    requires forall k :: 0 <= k < |rest| ==> rest[k] != '/' && rest[k] != '?'
    requires rest != [] ==> rest[0] == '&' || rest[0] == '#'
    ensures MatchStart(WatchPrefix + id + rest) == Some(24) && MarkerLength(WatchPrefix + id + rest, 24) == 6
    ensures IdAt(WatchPrefix + id + rest, 32) == Some(id)
  {
    var s := WatchPrefix + id + rest;
    assert s[32] == id[0];
    PrefixesHaveNoTerminator();
    IdAfterMarker(WatchPrefix, id, rest, 24);
  }

  /** In an embed link the match is `embed/` at 24 and the run from 30 is the id. */
  lemma EmbedLinkMatch(id: string)
    requires |id| == IdLength && forall k :: 0 <= k < |id| ==> IsIdChar(id[k])
    ensures MatchStart(EmbedPrefix + id) == Some(24) && MarkerLength(EmbedPrefix + id, 24) == 6
    ensures IdAt(EmbedPrefix + id, 30) == Some(id)
  {
    var s := EmbedPrefix + id;
    assert s == EmbedPrefix + id + "";
    assert s[30] == id[0] && s[31] == id[1];
    PrefixesHaveNoTerminator();
    IdAfterMarker(EmbedPrefix, id, "", 24);
  }

  /** In a `/v/` link the match is `v/` at 24 and the run from 26 is the id. */
  lemma VLinkMatch(id: string)
    requires |id| == IdLength && forall k :: 0 <= k < |id| ==> IsIdChar(id[k])
    ensures MatchStart(VPrefix + id) == Some(24) && MarkerLength(VPrefix + id, 24) == 2
    ensures IdAt(VPrefix + id, 26) == Some(id)
  {
    var s := VPrefix + id;
    assert s == VPrefix + id + "";
    assert s[26] == id[0] && s[27] == id[1];
    PrefixesHaveNoTerminator();
    IdAfterMarker(VPrefix, id, "", 24);
  }

  // ---- What the pattern as written extracts from them ----

  /** `https://youtu.be/<id>` yields the id unless the id starts with `v`. */
  lemma ShortLinkYieldsId(id: string)
    requires |id| == IdLength && forall k :: 0 <= k < |id| ==> IsIdChar(id[k])
    requires id[0] != 'v'
    ensures YoutubeId(ShortPrefix + id) == Some(id)
  {
    ShortLinkMatch(id);
    var s := ShortPrefix + id;
    assert s[17] == id[0];
    assert GroupStart(s, 8) == 17;
  }

  /** `https://www.youtube.com/watch?v=<id>`, then `&`-parameters, yields the id. */
  lemma WatchLinkYieldsId(id: string, rest: string)
    requires |id| == IdLength && forall k :: 0 <= k < |id| ==> IsIdChar(id[k])
    requires forall k :: 0 <= k < |rest| ==> rest[k] != '/' && rest[k] != '?'
    requires rest != [] ==> rest[0] == '&' || rest[0] == '#'
    ensures YoutubeId(WatchPrefix + id + rest) == Some(id)
  {
    WatchLinkMatch(id, rest);
    var s := WatchPrefix + id + rest;
    assert s[30] == 'v' && s[31] == '=';
    assert GroupStart(s, 24) == 32;
  }

  /** `https://www.youtube.com/embed/<id>` yields the id unless the id starts with `v`. */
  lemma EmbedLinkYieldsId(id: string)
    requires |id| == IdLength && forall k :: 0 <= k < |id| ==> IsIdChar(id[k])
    requires id[0] != 'v'
    ensures YoutubeId(EmbedPrefix + id) == Some(id)
  {
    EmbedLinkMatch(id);
    var s := EmbedPrefix + id;
    assert s[30] == id[0];
    assert GroupStart(s, 24) == 30;
  }

  /** `https://www.youtube.com/v/<id>` yields the id unless the id starts with `v`. */
  lemma VLinkYieldsId(id: string)
    requires |id| == IdLength && forall k :: 0 <= k < |id| ==> IsIdChar(id[k])
    requires id[0] != 'v'
    ensures YoutubeId(VPrefix + id) == Some(id)
  {
    VLinkMatch(id);
    var s := VPrefix + id;
    assert s[26] == id[0];
    assert GroupStart(s, 24) == 26;
  }

  /**
   * As written, `v?` swallows an id's leading `v` after `youtu.be/`, so a valid
   * short link whose id starts with `v` yields null (only 10 characters remain);
   * the intended pattern yields the id.
   */
  lemma LeadingVIsSwallowed(id: string)
    requires |id| == IdLength && forall k :: 0 <= k < |id| ==> IsIdChar(id[k])
    requires id[0] == 'v'
    ensures YoutubeId(ShortPrefix + id) == None
    ensures IntendedYoutubeId(ShortPrefix + id) == Some(id)
  {
    ShortLinkMatch(id);
    var s := ShortPrefix + id;
    assert s[17] == 'v' && s[18] == id[1];
    assert IntendedGroupStart(s, 8) == 17;
    assert GroupStart(s, 8) == 18;
    assert RunEnd(s, 18) == |s| by {
      assert RunEnd(s, 17) == |s|;
    }
  }

  /**
   * The two patterns part only where a `v` follows the marker (and its optional
   * `?`) without an `=` after it: there the pattern as written eats the `v`.
   */
  lemma PatternsDifferOnlyOnBareV(url: string)
    ensures YoutubeId(url) != IntendedYoutubeId(url) ==>
      && MatchStart(url).Some?
      && var j := SkipOptional(url, MatchStart(url).value + MarkerLength(url, MatchStart(url).value), '?');
         At(url, j, 'v') && !At(url, j + 1, '=')
  {
  }

  // ---- What the intended pattern extracts from them ----

  /** The intended pattern yields every valid id from a short link. */
  lemma IntendedShortLinkYieldsId(id: string)
    requires |id| == IdLength && forall k :: 0 <= k < |id| ==> IsIdChar(id[k])
    ensures IntendedYoutubeId(ShortPrefix + id) == Some(id)
  {
    ShortLinkMatch(id);
    var s := ShortPrefix + id;
    assert s[17] == id[0] && s[18] == id[1];
    assert IntendedGroupStart(s, 8) == 17;
  }

  /** The intended pattern yields every valid id from a watch link. */
  lemma IntendedWatchLinkYieldsId(id: string, rest: string)
    requires |id| == IdLength && forall k :: 0 <= k < |id| ==> IsIdChar(id[k])
    requires forall k :: 0 <= k < |rest| ==> rest[k] != '/' && rest[k] != '?'
    requires rest != [] ==> rest[0] == '&' || rest[0] == '#'
    ensures IntendedYoutubeId(WatchPrefix + id + rest) == Some(id)
  {
    WatchLinkMatch(id, rest);
    var s := WatchPrefix + id + rest;
    assert s[30] == 'v' && s[31] == '=';
    assert IntendedGroupStart(s, 24) == 32;
  }

  /** The intended pattern yields every valid id from an embed link. */
  lemma IntendedEmbedLinkYieldsId(id: string)
    requires |id| == IdLength && forall k :: 0 <= k < |id| ==> IsIdChar(id[k])
    ensures IntendedYoutubeId(EmbedPrefix + id) == Some(id)
  {
    EmbedLinkMatch(id);
    var s := EmbedPrefix + id;
    assert s[30] == id[0] && s[31] == id[1];
    assert IntendedGroupStart(s, 24) == 30;
  }

  /** The intended pattern yields every valid id from a `/v/` link. */
  lemma IntendedVLinkYieldsId(id: string)
    requires |id| == IdLength && forall k :: 0 <= k < |id| ==> IsIdChar(id[k])
    ensures IntendedYoutubeId(VPrefix + id) == Some(id)
  {
    VLinkMatch(id);
    var s := VPrefix + id;
    assert s[26] == id[0] && s[27] == id[1];
    assert IntendedGroupStart(s, 24) == 26;
  }

  /**
   * The two links `https://www.youtube.com/watch?v=dQw4w9WgXcQ&list=x` and
   * `https://youtu.be/dQw4w9WgXcQ` both yield `dQw4w9WgXcQ`.
   */
  lemma KnownLinks(id: string)
    requires id == "dQw4w9WgXcQ"
    ensures YoutubeId(WatchPrefix + id + "&list=x") == Some(id)
    ensures YoutubeId(ShortPrefix + id) == Some(id)
  {
    WatchLinkYieldsId(id, "&list=x");
    ShortLinkYieldsId(id);
  }
}
