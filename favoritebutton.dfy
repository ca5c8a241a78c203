/**
 * The heart button under the player. It works on `songs[currentSongIndex]`,
 * which is `undefined` when the playlist is empty (a failed or empty
 * recommendation leaves `songs == []` on the playlist screen). The first half
 * of this module follows the JavaScript as written, where reading
 * `.youtubeQuery` of `undefined` (or of the `null` it becomes once stored)
 * throws a `TypeError`; the second half is the corrected click the controller
 * uses.
 */
module FavoriteButton {
  import opened Wrappers
  import opened Types
  import SongLists

  /** An array element as JavaScript sees it: a song, or `undefined`/`null`. */
  datatype Slot = Undefined | Defined(song: Song)

  /** The outcome of an expression that may throw. */
  datatype Thrown<T> = Returned(value: T) | TypeError

  /** `songs[idx]`: `undefined` past the end. */
  function SlotAt(songs: seq<Song>, idx: nat): (r: Slot)
    ensures r.Defined? <==> idx < |songs|
    ensures r.Defined? ==> r.song == songs[idx]
  {
    if idx < |songs| then Defined(songs[idx]) else Undefined
  }

  /** A list of songs as an array of defined elements. */
  function Lift(xs: seq<Song>): (r: seq<Slot>)
    ensures |r| == |xs|
    ensures forall i :: 0 <= i < |r| ==> r[i] == Defined(xs[i])
  {
    seq(|xs|, i requires 0 <= i < |xs| => Defined(xs[i]))
  }

  /** `x.youtubeQuery === s.youtubeQuery`, which throws when either side is not a song. */
  function SameKey(x: Slot, s: Slot): (r: Thrown<bool>)
    ensures r.TypeError? <==> x.Undefined? || s.Undefined?
    ensures r.Returned? ==> (r.value <==> x.song.youtubeQuery == s.song.youtubeQuery)
  {
    if x.Defined? && s.Defined? then Returned(x.song.youtubeQuery == s.song.youtubeQuery) else TypeError
  }

  /** `favs.some(x => SameKey(x, s))`: stops at the first match; `false` on an empty array. */
  function SomeAsWritten(favs: seq<Slot>, s: Slot): Thrown<bool> {
    if favs == [] then Returned(false)
    else match SameKey(favs[0], s)
      case TypeError => TypeError
      case Returned(b) => if b then Returned(true) else SomeAsWritten(favs[1..], s)
  }

  /** `prev.find(x => SameKey(x, s))`: the first match, or `undefined`. */
  function FindAsWritten(prev: seq<Slot>, s: Slot): Thrown<Slot> {
    if prev == [] then Returned(Undefined)
    else match SameKey(prev[0], s)
      case TypeError => TypeError
      case Returned(b) => if b then Returned(prev[0]) else FindAsWritten(prev[1..], s)
  }

  /** `prev.filter(x => !SameKey(x, s))`: visits every element. */
  function FilterAsWritten(prev: seq<Slot>, s: Slot): Thrown<seq<Slot>> {
    if prev == [] then Returned([])
    else match SameKey(prev[0], s)
      case TypeError => TypeError
      case Returned(b) =>
        match FilterAsWritten(prev[1..], s)
        case TypeError => TypeError
        case Returned(rest) => Returned(if b then rest else [prev[0]] + rest)
  }

  /** `toggleFavorite` as written: the song found (a truthy object) means remove, else prepend. */
  function ToggleAsWritten(prev: seq<Slot>, s: Slot): Thrown<seq<Slot>> {
    match FindAsWritten(prev, s)
    case TypeError => TypeError
    case Returned(found) => if found.Defined? then FilterAsWritten(prev, s) else Returned([s] + prev)
  }

  // ---- On songs, the as-written code is the list model ----

  /** Lifting a non-empty list lifts its head and then its tail. */
  lemma LiftTail(xs: seq<Song>)
    requires xs != []
    ensures Lift(xs)[0] == Defined(xs[0]) && Lift(xs)[1..] == Lift(xs[1..])
  {
    assert Lift(xs)[1..] == Lift(xs[1..]);
  }

  /** Lifting distributes over putting a song in front. */
  lemma LiftCons(x: Song, xs: seq<Song>)
    ensures Lift([x] + xs) == [Defined(x)] + Lift(xs)
  {
    assert Lift([x] + xs) == [Defined(x)] + Lift(xs);
  }

  lemma {:induction false} SomeAgrees(favs: seq<Song>, s: Song)
    ensures SomeAsWritten(Lift(favs), Defined(s)) == Returned(SongLists.IsFavorite(favs, s))
    decreases |favs|
  {
    if favs != [] {
      LiftTail(favs);
      SomeAgrees(favs[1..], s);
    }
  }

  lemma {:induction false} FindAgrees(favs: seq<Song>, s: Song)
    ensures FindAsWritten(Lift(favs), Defined(s)).Returned?
    ensures FindAsWritten(Lift(favs), Defined(s)).value.Defined? == SongLists.IsFavorite(favs, s)
    decreases |favs|
  {
    if favs != [] {
      LiftTail(favs);
      FindAgrees(favs[1..], s);
    }
  }

  lemma {:induction false} FilterAgrees(favs: seq<Song>, s: Song)
    ensures FilterAsWritten(Lift(favs), Defined(s)) == Returned(Lift(SongLists.WithoutKey(favs, s.youtubeQuery)))
    decreases |favs|
  {
    if favs != [] {
      var key := s.youtubeQuery;
      LiftTail(favs);
      FilterAgrees(favs[1..], s);
      var rest := SongLists.WithoutKey(favs[1..], key);
      if favs[0].youtubeQuery != key {
        LiftCons(favs[0], rest);
        assert SongLists.WithoutKey(favs, key) == [favs[0]] + rest;
      } else {
        assert SongLists.WithoutKey(favs, key) == rest;
      }
    }
  }

  /**
   * For a defined song and a list of songs, the as-written button computes
   * exactly `isFavorite` and `toggleFavorite` of the list model.
   */
  lemma AsWrittenAgreesOnSongs(favs: seq<Song>, s: Song)
    ensures SomeAsWritten(Lift(favs), Defined(s)) == Returned(SongLists.IsFavorite(favs, s))
    ensures ToggleAsWritten(Lift(favs), Defined(s)) == Returned(Lift(SongLists.ToggleFavorite(favs, s)))
  {
    SomeAgrees(favs, s);
    FindAgrees(favs, s);
    if SongLists.IsFavorite(favs, s) {
      FilterAgrees(favs, s);
    } else {
      assert [Defined(s)] + Lift(favs) == Lift([s] + favs);
    }
  }

  // ---- The discrepancy on an empty playlist ----

  /**
   * With an empty playlist and at least one favourite, rendering the heart
   * (`isFavorite(songs[currentSongIndex])`) throws.
   */
  lemma EmptyPlaylistRenderThrows(songs: seq<Song>, idx: nat, fav: Song, favs: seq<Song>)
    requires songs == [] && idx == 0
    ensures SomeAsWritten(Lift([fav] + favs), SlotAt(songs, idx)) == TypeError
  {
  }

  /**
   * With an empty playlist and no favourites, the render survives but a click
   * stores `undefined` as a favourite, after which every `isFavorite` of a
   * real song throws.
   */
  lemma EmptyPlaylistClickStoresUndefined(songs: seq<Song>, idx: nat, later: Song)
    requires songs == [] && idx == 0
    ensures SomeAsWritten([], SlotAt(songs, idx)) == Returned(false)
    ensures ToggleAsWritten([], SlotAt(songs, idx)) == Returned([Undefined])
    ensures SomeAsWritten([Undefined], Defined(later)) == TypeError
  {
    assert [Undefined] + [] == [Undefined];
  }

  // ---- The corrected button ----

  /** Whether the heart is lit: only for a current song that is a favourite. */
  function HeartLit(favs: seq<Song>, current: Option<Song>): (r: bool)
    ensures r <==> current.Some? && exists i :: 0 <= i < |favs| && favs[i].youtubeQuery == current.value.youtubeQuery
  {
    current.Some? && SongLists.IsFavorite(favs, current.value)
  }

  /**
   * The click with the missing-song case handled: without a current song the
   * favourites stay as they are; with one, its favourite status flips.
   */
  function FavoriteClick(favs: seq<Song>, current: Option<Song>): (r: seq<Song>)
    ensures current.None? ==> r == favs
    ensures current.Some? ==> HeartLit(r, current) == !HeartLit(favs, current)
  {
    match current
    case None => favs
    case Some(s) => SongLists.ToggleFavorite(favs, s)
  }

  /** The corrected click never gives two favourites one key. */
  lemma FavoriteClickKeepsNoDup(favs: seq<Song>, current: Option<Song>)
    requires SongLists.NoDupKeys(favs)
    ensures SongLists.NoDupKeys(FavoriteClick(favs, current))
  {
    if current.Some? {
      SongLists.ToggleFavoriteKeepsNoDup(favs, current.value);
    }
  }

  /** On a defined song the corrected click is the as-written one. */
  lemma CorrectedAgreesOnSongs(favs: seq<Song>, s: Song)
    ensures ToggleAsWritten(Lift(favs), Defined(s)) == Returned(Lift(FavoriteClick(favs, Some(s))))
    ensures SomeAsWritten(Lift(favs), Defined(s)) == Returned(HeartLit(favs, Some(s)))
  {
    AsWrittenAgreesOnSongs(favs, s);
  }
}
