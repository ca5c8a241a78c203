/**
 * The `Player` component: what it shows for the song it is given, and its one
 * piece of local state, the `showFallback` flag.
 */
module Playback {
  import opened Wrappers
  import opened Types
  import VideoId

  /** What the player renders. */
  datatype View =
    | Hidden                                    // no song: nothing at all
    | Fallback(title: string, link: string)     // the "Open on YouTube" card
    | Embedded(videoId: string, title: string)  // the embedded video

  /**
   * `song.youtubeUrl || song.youtubeQuery`: the link when it is present and not
   * empty, otherwise the search query. The trailing `|| ''` of the id lookup
   * changes nothing, since the query is always a string.
   */
  function Source(song: Song): (s: string)
    ensures song.youtubeUrl.Some? && song.youtubeUrl.value != "" ==> s == song.youtubeUrl.value
    ensures song.youtubeUrl.None? || song.youtubeUrl.value == "" ==> s == song.youtubeQuery
  {
    match song.youtubeUrl
    case Some(u) => if u != "" then u else song.youtubeQuery
    case None => song.youtubeQuery
  }

  /**
   * The render function: nothing without a song; the fallback card when the
   * link yields no video id or the viewer asked for it; the video otherwise.
   */
  function ViewOf(song: Option<Song>, showFallback: bool): (v: View)
    ensures v.Hidden? <==> song.None?
    ensures v.Fallback? <==>
      song.Some? && (VideoId.IntendedYoutubeId(Source(song.value)).None? || showFallback)
    ensures v.Fallback? ==> v.title == song.value.title && v.link == Source(song.value)
    ensures v.Embedded? ==>
      && VideoId.IntendedYoutubeId(Source(song.value)) == Some(v.videoId)
      && |v.videoId| == VideoId.IdLength && v.title == song.value.title
  {
    match song
    case None => Hidden
    case Some(s) =>
      match VideoId.IntendedYoutubeId(Source(s))
      case None => Fallback(s.title, Source(s))
      case Some(id) => if showFallback then Fallback(s.title, Source(s)) else Embedded(id, s.title)
  }

  /** A song whose link is a watch link is embedded, unless the viewer asked for the card. */
  lemma WatchLinkIsEmbedded(song: Song, id: string)
    requires |id| == VideoId.IdLength && forall k :: 0 <= k < |id| ==> VideoId.IsIdChar(id[k])
    requires song.youtubeUrl == Some("https://www.youtube.com/watch?v=" + id)
    ensures ViewOf(Some(song), false) == Embedded(id, song.title)
    ensures ViewOf(Some(song), true) == Fallback(song.title, "https://www.youtube.com/watch?v=" + id)
  {
    var u := "https://www.youtube.com/watch?v=" + id;
    assert u == u + "";
    VideoId.IntendedWatchLinkYieldsId(id, "");
  }

  /** A song known only by a search phrase (no `/`, no `?`) always gets the card. */
  lemma SearchPhraseFallsBack(song: Song, showFallback: bool)
    requires song.youtubeUrl.None? || song.youtubeUrl.value == ""
    requires forall k :: 0 <= k < |song.youtubeQuery| ==>
      song.youtubeQuery[k] != '/' && song.youtubeQuery[k] != '?'
    ensures ViewOf(Some(song), showFallback) == Fallback(song.title, song.youtubeQuery)
  {
    VideoId.PlainQueryHasNoId(song.youtubeQuery);
  }

  /**
   * The mounted player: the song it was last rendered with and its flag. The
   * `useEffect` on `[song]` clears the flag whenever a different song arrives.
   */
  class Player {
    var song: Option<Song>
    var showFallback: bool

    /** What the player shows now. */
    function Shown(): View
      reads this
    {
      ViewOf(song, showFallback)
    }

    /** Mounting: the flag starts cleared. */
    constructor (initial: Option<Song>)
      ensures song == initial && !showFallback
      ensures Shown() == ViewOf(initial, false)
    {
      song := initial;
      showFallback := false;
    }

    /** The parent renders the player with `next`; a new song clears the flag. */
    method Receive(next: Option<Song>)
      modifies this
      ensures song == next
      ensures next != old(song) ==> !showFallback
      ensures next == old(song) ==> showFallback == old(showFallback)
    {
      if next != song {
        showFallback := false;
      }
      song := next;
    }

    /** "Playback Error?": shown over the video only; switches to the card. */
    method ReportPlaybackError()
      requires Shown().Embedded?
      modifies this`showFallback
      ensures showFallback
      ensures Shown() == Fallback(song.value.title, Source(song.value))
    {
      showFallback := true;
    }

    /**
     * "Try loading again": shown on the card only; clears the flag, which brings
     * the video back exactly when the link yields an id.
     */
    method TryAgain()
      requires Shown().Fallback?
      modifies this`showFallback
      ensures !showFallback
      ensures Shown().Embedded? <==> VideoId.IntendedYoutubeId(Source(song.value)).Some?
      ensures Shown().Fallback? <==> VideoId.IntendedYoutubeId(Source(song.value)).None?
    {
      showFallback := false;
    }
  }
}
