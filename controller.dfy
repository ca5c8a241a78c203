/**
 * The `App` component's state and its event handlers. Each handler runs to
 * completion in one step: the awaited recommendation call is the function
 * `gemini` (with the clock `clock`), so the loading phase in between is not
 * observable here. The browser's `localStorage` is the map `store`, from key
 * to the list last written under it.
 */
module Controller {
  import opened Wrappers
  import opened Types
  import SongLists
  import Recommendations
  import FavoriteButton

  const HistoryKey: string := "moody_history"
  const FavoritesKey: string := "moody_favorites"

  /** The mood a custom submit records: the text itself is the description. */
  function CustomMood(text: string): (m: MoodConfig)
    ensures m.id == "custom" && m.description == text
  {
    MoodConfig("custom", "Custom", "\U{2728}", text, "from-cyan-500 to-blue-600")
  }

  /** The mood recorded when a saved song is played. */
  const SavedMood: MoodConfig := MoodConfig("rec", "Saved", "\U{1F4BF}", "", "")

  // ---- `String.prototype.trim` ----

  /** The characters `trim` removes: ECMAScript WhiteSpace and LineTerminator. */
  predicate IsJsWhitespace(c: char) {
    || c == '\t' || c == '\U{000B}' || c == '\U{000C}' || c == ' ' || c == '\U{00A0}' || c == '\U{FEFF}'
    || c == '\U{1680}' || ('\U{2000}' <= c <= '\U{200A}') || c == '\U{202F}' || c == '\U{205F}' || c == '\U{3000}'
    || c == '\n' || c == '\r' || c == '\U{2028}' || c == '\U{2029}'
  }

  /** `s` without its leading whitespace. */
  function TrimStart(s: string): string {
    if s != "" && IsJsWhitespace(s[0]) then TrimStart(s[1..]) else s
  }

  /** `s` without its trailing whitespace. */
  function TrimEnd(s: string): string {
    if s != "" && IsJsWhitespace(s[|s| - 1]) then TrimEnd(s[..|s| - 1]) else s
  }

  /** `s.trim()`. */
  function Trim(s: string): string {
    TrimEnd(TrimStart(s))
  }

  /** `TrimStart` removes a whitespace prefix and stops at the first other character. */
  lemma {:induction false} TrimStartSpec(s: string)
    ensures |TrimStart(s)| <= |s| && TrimStart(s) == s[|s| - |TrimStart(s)|..]
    ensures forall i :: 0 <= i < |s| - |TrimStart(s)| ==> IsJsWhitespace(s[i])
    ensures TrimStart(s) != "" ==> !IsJsWhitespace(TrimStart(s)[0])
    decreases |s|
  {
    if s != "" && IsJsWhitespace(s[0]) {
      TrimStartSpec(s[1..]);
      assert TrimStart(s) == TrimStart(s[1..]);
      forall i | 1 <= i < |s| - |TrimStart(s)| ensures IsJsWhitespace(s[i]) {
        assert s[i] == s[1..][i - 1];
      }
    }
  }

  /** `TrimEnd` removes a whitespace suffix and stops at the last other character. */
  lemma {:induction false} TrimEndSpec(s: string)
    ensures |TrimEnd(s)| <= |s| && TrimEnd(s) == s[..|TrimEnd(s)|]
    ensures forall i :: |TrimEnd(s)| <= i < |s| ==> IsJsWhitespace(s[i])
    ensures TrimEnd(s) != "" ==> !IsJsWhitespace(TrimEnd(s)[|TrimEnd(s)| - 1])
    decreases |s|
  {
    if s != "" && IsJsWhitespace(s[|s| - 1]) {
      var p := s[..|s| - 1];
      TrimEndSpec(p);
      assert TrimEnd(s) == TrimEnd(p);
      forall i | |TrimEnd(s)| <= i < |s| - 1 ensures IsJsWhitespace(s[i]) {
        assert s[i] == p[i];
      }
    }
  }

  /** `!customMood.trim()` holds exactly for text made only of whitespace. */
  lemma BlankIffAllWhitespace(s: string)
    ensures Trim(s) == "" <==> forall i :: 0 <= i < |s| ==> IsJsWhitespace(s[i])
  {
    var t := TrimStart(s);
    TrimStartSpec(s);
    TrimEndSpec(t);
    if t != "" {
      assert s[|s| - |t|] == t[0];
    }
  }

  /** Trimming keeps the text between the first and the last non-blank character. */
  lemma TrimKeepsInner(s: string)
    ensures Trim(s) != "" ==> !IsJsWhitespace(Trim(s)[0]) && !IsJsWhitespace(Trim(s)[|Trim(s)| - 1])
    ensures exists a, b :: 0 <= a <= b <= |s| && Trim(s) == s[a..b]
  {
    var t := TrimStart(s);
    TrimStartSpec(s);
    TrimEndSpec(t);
    var r := TrimEnd(t);
    if r != "" {
      assert r[0] == t[0];
    }
    assert r == s[|s| - |t|..|s| - |t| + |r|];
  }

  /** The catalogue has no mood whose id is `custom`, so a preset refresh never takes the custom path. */
  lemma NoPresetIsCustom()
    ensures forall i :: 0 <= i < |Moods| ==> Moods[i].id != "custom" && Moods[i].id != SavedMood.id
  {
  }

  class App {
    var activeState: AppState
    var currentMood: Option<MoodConfig>
    var customMood: string
    var songs: seq<Song>
    var currentSongIndex: nat
    var isLoading: bool
    var favorites: seq<Song>
    var history: seq<Song>
    var store: map<string, seq<Song>>

    /**
     * The store mirrors both lists (a missing key goes with the empty list),
     * the index is 0 or points into the playlist, the playlist screen always
     * has a mood, and a custom playlist's mood is the non-blank text in the
     * input field (the field is only editable on the home screen).
     */
    ghost predicate Valid()
      reads this
    {
      && (HistoryKey in store ==> store[HistoryKey] == history)
      && (HistoryKey !in store ==> history == [])
      && (FavoritesKey in store ==> store[FavoritesKey] == favorites)
      && (FavoritesKey !in store ==> favorites == [])
      && (currentSongIndex == 0 || currentSongIndex < |songs|)
      && (activeState == Playlist ==> currentMood.Some?)
      && (activeState == Playlist && currentMood.Some? && currentMood.value.id == "custom" ==>
            currentMood.value == CustomMood(customMood) && Trim(customMood) != "")
    }

    /** The list invariants the updates keep: distinct keys, and at most 20 history entries. */
    ghost predicate Healthy()
      reads this
    {
      SongLists.NoDupKeys(history) && |history| <= SongLists.MaxHistory && SongLists.NoDupKeys(favorites)
    }

    /** `songs[currentSongIndex]`, absent when the playlist is empty. */
    function CurrentSong(): (r: Option<Song>)
      reads this
      ensures r.Some? <==> currentSongIndex < |songs|
      ensures r.Some? ==> r.value == songs[currentSongIndex]
    {
      if currentSongIndex < |songs| then Some(songs[currentSongIndex]) else None
    }

    /** Whether `song`'s heart shows as filled. */
    function IsFavoriteShown(song: Song): (r: bool)
      reads this
      ensures r <==> exists i :: 0 <= i < |favorites| && favorites[i].youtubeQuery == song.youtubeQuery
    {
      SongLists.IsFavorite(favorites, song)
    }

    /** Mounting plus the load effect: each list is what the store holds, or empty. */
    constructor (saved: map<string, seq<Song>>)
      ensures Valid()
      ensures activeState == Home && currentMood == None && customMood == ""
      ensures songs == [] && currentSongIndex == 0 && !isLoading
      ensures favorites == (if FavoritesKey in saved then saved[FavoritesKey] else [])
      ensures history == (if HistoryKey in saved then saved[HistoryKey] else [])
      ensures store == saved
    {
      activeState := Home;
      currentMood := None;
      customMood := "";
      songs := [];
      currentSongIndex := 0;
      isLoading := false;
      store := saved;
      favorites := if FavoritesKey in saved then saved[FavoritesKey] else [];
      history := if HistoryKey in saved then saved[HistoryKey] else [];
    }

    /** Typing in the mood field, which exists on the home screen only. */
    method SetCustomMood(text: string)
      requires Valid() && activeState == Home
      modifies this`customMood
      ensures Valid() && customMood == text
    {
      customMood := text;
    }

    /** The navigation bar and the "Discover new music" link. */
    method Navigate(target: AppState)
      requires Valid() && target != Playlist
      modifies this`activeState
      ensures Valid() && activeState == target
    {
      activeState := target;
    }

    /** `addToHistory`: the new list replaces the old one and is written to the store. */
    method AddToHistory(song: Song)
      requires Valid()
      modifies this`history, this`store
      ensures Valid()
      ensures history == SongLists.AddToHistory(old(history), song)
      ensures store == old(store)[HistoryKey := history]
      ensures old(Healthy()) ==> Healthy()
    {
      if SongLists.NoDupKeys(history) {
        SongLists.AddToHistoryKeepsInvariant(history, song);
      }
      history := SongLists.AddToHistory(history, song);
      store := store[HistoryKey := history];
    }

    /** `toggleFavorite`: the new list replaces the old one and is written to the store. */
    method ToggleFavorite(song: Song)
      requires Valid()
      modifies this`favorites, this`store
      ensures Valid()
      ensures favorites == SongLists.ToggleFavorite(old(favorites), song)
      ensures IsFavoriteShown(song) == !old(IsFavoriteShown(song))
      ensures store == old(store)[FavoritesKey := favorites]
      ensures old(Healthy()) ==> Healthy()
    {
      if SongLists.NoDupKeys(favorites) {
        SongLists.ToggleFavoriteKeepsNoDup(favorites, song);
      }
      favorites := SongLists.ToggleFavorite(favorites, song);
      store := store[FavoritesKey := favorites];
    }

    /**
     * Both fetch handlers past the blank guard: the playlist screen for `mood`,
     * then, once `recommended` is in, its songs from the first; the first song,
     * if any, enters the history.
     */
    method Present(mood: MoodConfig, recommended: seq<Song>)
      requires Valid()
      requires mood.id == "custom" ==> mood == CustomMood(customMood) && Trim(customMood) != ""
      modifies this`isLoading, this`currentMood, this`activeState, this`songs, this`currentSongIndex
      modifies this`history, this`store
      ensures Valid()
      ensures activeState == Playlist && currentMood == Some(mood) && !isLoading
      ensures songs == recommended && currentSongIndex == 0
      ensures history == if recommended != [] then SongLists.AddToHistory(old(history), recommended[0]) else old(history)
      ensures store == if recommended != [] then old(store)[HistoryKey := history] else old(store)
      ensures old(Healthy()) ==> Healthy()
    {
      isLoading := true;
      currentMood := Some(mood);
      activeState := Playlist;
      songs := recommended;
      currentSongIndex := 0;
      isLoading := false;
      if |recommended| > 0 {
        AddToHistory(recommended[0]);
      }
    }

    /**
     * `handleMoodSelect`: the playlist screen for `mood` with the songs the
     * service returns for its id; the first of them, if any, enters the history.
     * Its callers are the catalogue buttons and the refresh of a non-custom playlist.
     */
    method HandleMoodSelect(mood: MoodConfig, gemini: string -> Recommendations.ModelReply, clock: nat -> nat)
      requires Valid() && mood.id != "custom"
      modifies this
      ensures Valid()
      ensures activeState == Playlist && currentMood == Some(mood) && !isLoading
      ensures songs == Recommendations.GetSongsByMoodId(mood.id, gemini, clock) && currentSongIndex == 0
      ensures history == if songs != [] then SongLists.AddToHistory(old(history), songs[0]) else old(history)
      ensures store == if songs != [] then old(store)[HistoryKey := history] else old(store)
      ensures favorites == old(favorites) && customMood == old(customMood)
      ensures old(Healthy()) ==> Healthy()
    {
      var recommended := Recommendations.GetSongsByMoodId(mood.id, gemini, clock);
      Present(mood, recommended);
    }

    /**
     * `handleCustomMoodSubmit`: nothing at all for blank text; otherwise the
     * playlist screen for the custom mood with the songs the model suggests
     * for the text as typed (untrimmed).
     */
    method HandleCustomMoodSubmit(gemini: string -> Recommendations.ModelReply, clock: nat -> nat)
      requires Valid()
      modifies this
      ensures Valid()
      ensures Trim(old(customMood)) == "" ==> unchanged(this)
      ensures Trim(old(customMood)) != "" ==>
        && activeState == Playlist && currentMood == Some(CustomMood(old(customMood))) && !isLoading
        && songs == Recommendations.InterpretMood(old(customMood), gemini, clock) && currentSongIndex == 0
        && history == (if songs != [] then SongLists.AddToHistory(old(history), songs[0]) else old(history))
        && store == (if songs != [] then old(store)[HistoryKey := history] else old(store))
      ensures favorites == old(favorites) && customMood == old(customMood)
      ensures old(Healthy()) ==> Healthy()
    {
      var text := customMood;
      if Trim(text) != "" {
        var recommended := Recommendations.InterpretMood(text, gemini, clock);
        Present(CustomMood(text), recommended);
      }
    }

    /**
     * "Refresh Mix", shown on the playlist screen when nothing is loading: a
     * custom playlist asks the model again with the text in the field, which is
     * the playlist's own description; any other playlist is selected again.
     */
    method Refresh(gemini: string -> Recommendations.ModelReply, clock: nat -> nat)
      requires Valid() && activeState == Playlist && !isLoading
      modifies this
      ensures Valid()
      ensures activeState == Playlist && currentMood == old(currentMood) && currentSongIndex == 0
      ensures songs == if currentMood.value.id == "custom"
        then Recommendations.InterpretMood(currentMood.value.description, gemini, clock)
        else Recommendations.GetSongsByMoodId(currentMood.value.id, gemini, clock)
      ensures history == if songs != [] then SongLists.AddToHistory(old(history), songs[0]) else old(history)
      ensures store == if songs != [] then old(store)[HistoryKey := history] else old(store)
      ensures favorites == old(favorites) && customMood == old(customMood) && !isLoading
      ensures old(Healthy()) ==> Healthy()
    {
      if currentMood.value.id == "custom" {
        HandleCustomMoodSubmit(gemini, clock);
      } else {
        HandleMoodSelect(currentMood.value, gemini, clock);
      }
    }

    /** An "Up Next" row: that song becomes current and enters the history. */
    method SelectUpNext(idx: nat)
      requires Valid() && activeState == Playlist && idx < |songs|
      modifies this`currentSongIndex, this`history, this`store
      ensures Valid()
      ensures currentSongIndex == idx && CurrentSong() == Some(old(songs)[idx])
      ensures history == SongLists.AddToHistory(old(history), songs[idx])
      ensures history[0] == songs[idx]
      ensures store == old(store)[HistoryKey := history]
      ensures old(Healthy()) ==> Healthy()
    {
      currentSongIndex := idx;
      AddToHistory(songs[idx]);
    }

    /** The play button of a Favorites or History row: a one-song "Saved" playlist. */
    method PlaySaved(song: Song)
      requires Valid()
      requires (activeState == Favorites && song in favorites) || (activeState == History && song in history)
      modifies this`songs, this`currentSongIndex, this`activeState, this`currentMood
      ensures Valid()
      ensures songs == [song] && currentSongIndex == 0 && CurrentSong() == Some(song)
      ensures activeState == Playlist && currentMood == Some(SavedMood)
      ensures history == old(history) && favorites == old(favorites) && store == old(store)
    {
      songs := [song];
      currentSongIndex := 0;
      activeState := Playlist;
      currentMood := Some(SavedMood);
    }

    /** The heart of a Favorites or History row. */
    method ToggleListedFavorite(song: Song)
      requires Valid()
      requires (activeState == Favorites && song in favorites) || (activeState == History && song in history)
      modifies this`favorites, this`store
      ensures Valid()
      ensures favorites == SongLists.ToggleFavorite(old(favorites), song)
      ensures IsFavoriteShown(song) == !old(IsFavoriteShown(song))
      ensures store == old(store)[FavoritesKey := favorites]
      ensures old(Healthy()) ==> Healthy()
    {
      ToggleFavorite(song);
    }

    /**
     * The heart under the player, with the missing-song case handled: on an
     * empty playlist the click leaves the favourites and the store alone.
     */
    method ToggleCurrentFavorite()
      requires Valid() && activeState == Playlist && !isLoading
      modifies this`favorites, this`store
      ensures Valid()
      ensures favorites == FavoriteButton.FavoriteClick(old(favorites), CurrentSong())
      ensures CurrentSong().None? ==> favorites == old(favorites) && store == old(store)
      ensures CurrentSong().Some? ==> store == old(store)[FavoritesKey := favorites]
      ensures FavoriteButton.HeartLit(favorites, CurrentSong()) == (CurrentSong().Some? && !old(FavoriteButton.HeartLit(favorites, CurrentSong())))
      ensures old(Healthy()) ==> Healthy()
    {
      match CurrentSong()
      case None =>
      case Some(s) => ToggleFavorite(s);
    }
  }
}
