/**
 * The list computations behind the history and the favourites: both are
 * keyed by `youtubeQuery` and kept most-recent-first.
 */
module SongLists {
  import opened Types

  /** The history keeps at most this many songs. */
  const MaxHistory: nat := 20

  /** No two entries share an identity key. */
  ghost predicate NoDupKeys(xs: seq<Song>) {
    forall i, j :: 0 <= i < j < |xs| ==> xs[i].youtubeQuery != xs[j].youtubeQuery
  }

  /** `xs` appears in `ys` in the same order, possibly with gaps. */
  ghost predicate IsSubsequence(xs: seq<Song>, ys: seq<Song>)
    decreases |ys|
  {
    if xs == [] then true
    else if ys == [] then false
    else if xs[0] == ys[0] then IsSubsequence(xs[1..], ys[1..])
    else IsSubsequence(xs, ys[1..])
  }

  /** `xs.filter(s => s.youtubeQuery !== key)`. */
  function WithoutKey(xs: seq<Song>, key: string): (r: seq<Song>)
    ensures |r| <= |xs|
    ensures forall s :: s in r <==> s in xs && s.youtubeQuery != key
  {
    if xs == [] then []
    else if xs[0].youtubeQuery != key then [xs[0]] + WithoutKey(xs[1..], key)
    else WithoutKey(xs[1..], key)
  }

  /** `xs.some(s => s.youtubeQuery === song.youtubeQuery)`. */
  function IsFavorite(xs: seq<Song>, song: Song): (r: bool)
    ensures r <==> exists i :: 0 <= i < |xs| && xs[i].youtubeQuery == song.youtubeQuery
  {
    if xs == [] then false
    else xs[0].youtubeQuery == song.youtubeQuery || IsFavorite(xs[1..], song)
  }

  /**
   * `addToHistory`'s new list: drop every entry with the song's key, put the
   * song in front and keep the first 20.
   */
  function AddToHistory(prev: seq<Song>, song: Song): (r: seq<Song>)
    ensures 1 <= |r| <= MaxHistory
    ensures r[0] == song
    ensures forall i :: 1 <= i < |r| ==> r[i].youtubeQuery != song.youtubeQuery
    ensures forall s :: s in r ==> s == song || s in prev
  {
    var all := [song] + WithoutKey(prev, song.youtubeQuery);
    all[..if |all| < MaxHistory then |all| else MaxHistory]
  }

  /**
   * `toggleFavorite`'s new list: without the song's key when some entry has it,
   * otherwise with the song in front.
   */
  function ToggleFavorite(prev: seq<Song>, song: Song): (r: seq<Song>)
    ensures IsFavorite(r, song) == !IsFavorite(prev, song)
    ensures !IsFavorite(prev, song) ==> r == [song] + prev
    ensures IsFavorite(prev, song) ==> forall s :: s in r <==> s in prev && s.youtubeQuery != song.youtubeQuery
  {
    if IsFavorite(prev, song) then
      WithoutKeyDropsKey(prev, song.youtubeQuery, song);
      WithoutKey(prev, song.youtubeQuery)
    else [song] + prev
  }

  // ---- Lemmas ----

  /** After filtering, no entry has the key. */
  lemma WithoutKeyDropsKey(xs: seq<Song>, key: string, song: Song)
    requires song.youtubeQuery == key
    ensures !IsFavorite(WithoutKey(xs, key), song)
  {
  }

  /** Filtering keeps the surviving entries in their prior order. */
  lemma {:induction false} WithoutKeyIsSubsequence(xs: seq<Song>, key: string)
    ensures IsSubsequence(WithoutKey(xs, key), xs)
    decreases |xs|
  {
    if xs != [] {
      WithoutKeyIsSubsequence(xs[1..], key);
      var r := WithoutKey(xs, key);
      if xs[0].youtubeQuery != key {
        assert r[0] == xs[0] && r[1..] == WithoutKey(xs[1..], key);
      } else {
        SubsequenceOfTail(r, xs);
      }
    }
  }

  /** A subsequence of the tail is a subsequence of the whole. */
  lemma {:induction false} SubsequenceOfTail(xs: seq<Song>, ys: seq<Song>)
    requires ys != [] && IsSubsequence(xs, ys[1..])
    ensures IsSubsequence(xs, ys)
    decreases |ys|, 0
  {
    if xs != [] && xs[0] == ys[0] {
      SubsequenceDropFirst(xs, ys[1..]);
    }
  }

  /** Dropping the first element of a subsequence keeps it one. */
  lemma {:induction false} SubsequenceDropFirst(xs: seq<Song>, ys: seq<Song>)
    requires xs != [] && IsSubsequence(xs, ys)
    ensures IsSubsequence(xs[1..], ys)
    decreases |ys|, 1
  {
    if xs[0] == ys[0] {
      if xs[1..] != [] { SubsequenceOfTail(xs[1..], ys); }
    } else {
      SubsequenceDropFirst(xs, ys[1..]);
      SubsequenceOfTail(xs[1..], ys);
    }
  }

  /** Filtering a list that lacks the key changes nothing. */
  lemma {:induction false} WithoutAbsentKey(xs: seq<Song>, song: Song)
    requires !IsFavorite(xs, song)
    ensures WithoutKey(xs, song.youtubeQuery) == xs
    decreases |xs|
  {
    if xs != [] {
      WithoutAbsentKey(xs[1..], song);
    }
  }

  /** Filtering distributes over concatenation. */
  lemma {:induction false} WithoutKeyAppend(xs: seq<Song>, ys: seq<Song>, key: string)
    ensures WithoutKey(xs + ys, key) == WithoutKey(xs, key) + WithoutKey(ys, key)
    decreases |xs|
  {
    if xs == [] {
      assert xs + ys == ys;
    } else {
      assert (xs + ys)[1..] == xs[1..] + ys;
      WithoutKeyAppend(xs[1..], ys, key);
    }
  }

  /** Filtering keeps keys distinct. */
  lemma {:induction false} WithoutKeyNoDup(xs: seq<Song>, key: string)
    requires NoDupKeys(xs)
    ensures NoDupKeys(WithoutKey(xs, key))
    decreases |xs|
  {
    if xs != [] {
      WithoutKeyNoDup(xs[1..], key);
      var r := WithoutKey(xs, key);
      if xs[0].youtubeQuery != key {
        forall j | 0 < j < |r| ensures r[0].youtubeQuery != r[j].youtubeQuery {
          assert r[j] in WithoutKey(xs[1..], key);
          var m :| 0 <= m < |xs[1..]| && xs[1..][m] == r[j];
          assert xs[m + 1] == r[j];
        }
      }
    }
  }

  /** Distinct keys stay distinct in the tail. */
  lemma NoDupTail(xs: seq<Song>)
    requires NoDupKeys(xs) && xs != []
    ensures NoDupKeys(xs[1..])
  {
    var t := xs[1..];
    forall a, b | 0 <= a < b < |t| ensures t[a].youtubeQuery != t[b].youtubeQuery {
      assert t[a] == xs[a + 1] && t[b] == xs[b + 1];
    }
  }

  /** Removing the entry at `i` from a list is removing it from its tail, after the head. */
  lemma SpliceAfterHead(xs: seq<Song>, i: nat)
    requires 0 < i < |xs|
    ensures xs[..i] + xs[i + 1..] == [xs[0]] + (xs[1..][..i - 1] + xs[1..][i..])
  {
    assert xs[1..][..i - 1] == xs[1..i];
    assert xs[1..][i..] == xs[i + 1..];
    assert xs[..i] == [xs[0]] + xs[1..i];
  }

  /** In a list with distinct keys, the one entry with a given key sits at `i`. */
  lemma {:induction false} WithoutKeyAt(xs: seq<Song>, i: nat)
    requires NoDupKeys(xs) && i < |xs|
    ensures WithoutKey(xs, xs[i].youtubeQuery) == xs[..i] + xs[i + 1..]
    decreases |xs|
  {
    var key := xs[i].youtubeQuery;
    var t := xs[1..];
    if i == 0 {
      forall j | 0 <= j < |t| ensures t[j].youtubeQuery != key {
        assert t[j] == xs[j + 1];
      }
      WithoutAbsentKey(t, xs[0]);
      assert WithoutKey(xs, key) == WithoutKey(t, key);
      assert xs[..0] + xs[1..] == t;
    } else {
      NoDupTail(xs);
      WithoutKeyAt(t, i - 1);
      assert t[i - 1] == xs[i];
      SpliceAfterHead(xs, i);
    }
  }

  /** `addToHistory` keeps keys distinct and the length within 20. */
  lemma AddToHistoryKeepsInvariant(prev: seq<Song>, song: Song)
    requires NoDupKeys(prev)
    ensures NoDupKeys(AddToHistory(prev, song)) && |AddToHistory(prev, song)| <= MaxHistory
  {
    WithoutKeyNoDup(prev, song.youtubeQuery);
  }

  /** The entries after the head are the prior entries with other keys, in their prior order. */
  lemma AddToHistoryKeepsOrder(prev: seq<Song>, song: Song)
    ensures AddToHistory(prev, song)[1..]
         == WithoutKey(prev, song.youtubeQuery)[..|AddToHistory(prev, song)| - 1]
    ensures IsSubsequence(AddToHistory(prev, song)[1..], prev)
  {
    var f := WithoutKey(prev, song.youtubeQuery);
    var r := AddToHistory(prev, song);
    WithoutKeyIsSubsequence(prev, song.youtubeQuery);
    assert r[1..] == f[..|r| - 1];
    PrefixIsSubsequence(f, |r| - 1, prev);
  }

  /** A prefix of a subsequence is a subsequence. */
  lemma {:induction false} PrefixIsSubsequence(xs: seq<Song>, n: nat, ys: seq<Song>)
    requires n <= |xs| && IsSubsequence(xs, ys)
    ensures IsSubsequence(xs[..n], ys)
    decreases |ys|
  {
    if n > 0 {
      if xs[0] == ys[0] {
        PrefixIsSubsequence(xs[1..], n - 1, ys[1..]);
        assert xs[..n][1..] == xs[1..][..n - 1];
      } else {
        PrefixIsSubsequence(xs, n, ys[1..]);
      }
    }
  }

  /**
   * Re-playing a song already in a well-formed history moves it to the front:
   * the length stays and the other entries keep their order.
   */
  lemma ReplayMovesToFront(prev: seq<Song>, song: Song, i: nat)
    requires NoDupKeys(prev) && |prev| <= MaxHistory
    requires i < |prev| && prev[i].youtubeQuery == song.youtubeQuery
    ensures AddToHistory(prev, song) == [song] + prev[..i] + prev[i + 1..]
  {
    WithoutKeyAt(prev, i);
  }

  /** A new song is prepended; when the history was full its oldest entry is evicted. */
  lemma NewSongEvictsOldest(prev: seq<Song>, song: Song)
    requires !IsFavorite(prev, song)
    ensures |prev| < MaxHistory ==> AddToHistory(prev, song) == [song] + prev
    ensures |prev| >= MaxHistory ==> AddToHistory(prev, song) == [song] + prev[..MaxHistory - 1]
  {
    WithoutAbsentKey(prev, song);
  }

  /** `toggleFavorite` keeps keys distinct. */
  lemma ToggleFavoriteKeepsNoDup(prev: seq<Song>, song: Song)
    requires NoDupKeys(prev)
    ensures NoDupKeys(ToggleFavorite(prev, song))
  {
    if IsFavorite(prev, song) {
      WithoutKeyNoDup(prev, song.youtubeQuery);
    }
  }

  /** Removing a favourite keeps the other entries in order. */
  lemma ToggleFavoriteRemovalKeepsOrder(prev: seq<Song>, song: Song)
    requires IsFavorite(prev, song)
    ensures ToggleFavorite(prev, song) == WithoutKey(prev, song.youtubeQuery)
    ensures IsSubsequence(ToggleFavorite(prev, song), prev)
  {
    WithoutKeyIsSubsequence(prev, song.youtubeQuery);
  }

  /** Toggling a song that is not a favourite twice restores the list exactly. */
  lemma ToggleTwiceRestores(prev: seq<Song>, song: Song)
    requires !IsFavorite(prev, song)
    ensures ToggleFavorite(ToggleFavorite(prev, song), song) == prev
  {
    var once := ToggleFavorite(prev, song);
    assert once == [song] + prev;
    assert once[1..] == prev;
    WithoutAbsentKey(prev, song);
  }

  /**
   * Toggling any song twice leaves every other key's entries as they were, in
   * order; a song that was a favourite comes back at the front.
   */
  lemma ToggleTwiceKeepsOthers(prev: seq<Song>, song: Song)
    ensures WithoutKey(ToggleFavorite(ToggleFavorite(prev, song), song), song.youtubeQuery)
         == WithoutKey(prev, song.youtubeQuery)
    ensures IsFavorite(prev, song) ==>
      ToggleFavorite(ToggleFavorite(prev, song), song) == [song] + WithoutKey(prev, song.youtubeQuery)
  {
    var key := song.youtubeQuery;
    if IsFavorite(prev, song) {
      var once := WithoutKey(prev, key);
      WithoutKeyDropsKey(prev, key, song);
      WithoutKeyAppend([song], once, key);
      WithoutAbsentKey(once, song);
      assert WithoutKey([song], key) == [];
    } else {
      ToggleTwiceRestores(prev, song);
    }
  }
}
