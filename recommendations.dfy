/**
 * The recommendation client. The generative-model call is a parameter
 * `gemini` from the prompt to its outcome: either it failed (transport error,
 * a reply that is not JSON, or JSON that is not an array: all of these throw
 * inside the `try`) or it produced the parsed array of items. The clock
 * `clock(idx)` is the value `Date.now()` returns while item `idx` is mapped.
 */
module Recommendations {
  import opened Wrappers
  import opened Types

  /** One element of the model's JSON array, as the response schema requires it. */
  datatype RawSong = RawSong(title: string, artist: string, youtubeUrl: string)

  /** What the awaited model call and `JSON.parse` come to. */
  datatype ModelReply = Failed | Parsed(items: seq<RawSong>)

  /** The hand-written prompt for each preset mood id. */
  const MoodPromptMap: map<string, string> := map[
    "gym" := "Aggressive workout tracks (Phonk, Hip-hop, Bollywood). Find 'Audio' or 'Topic' versions.",
    "chill" := "Lofi and Indie relax. Use 'Topic' channel links.",
    "party" := "Club bangers and Bollywood dance. Find embeddable audio versions.",
    "sad" := "Deep emotional songs. Find 'Lyrics' or 'Audio' versions.",
    "happy" := "Upbeat energy. Ensure embeddable links.",
    "old-school" := "Vintage classics. Usually safe via 'Topic' channels.",
    "pop" := "Current hits. Use 'Official Audio' to avoid VEVO blocks.",
    "focus" := "Instrumental study music.",
    "hindi" := "Latest Hindi hits. AVOID T-Series official music videos (they block embedding); find 'Audio' or 'Lyrics' instead."
  ]

  // ---- Song ids: `ai-${Date.now()}-${idx}` ----

  /** The decimal digit for `d < 10`. */
  function Digit(d: nat): (c: char)
    requires d < 10
    ensures '0' <= c <= '9'
  {
    "0123456789"[d]
  }

  /** The decimal text of `n`, as a template literal renders a non-negative integer. */
  function Decimal(n: nat): (s: string)
    ensures |s| >= 1
    ensures forall i :: 0 <= i < |s| ==> '0' <= s[i] <= '9'
    ensures n >= 10 ==> |s| >= 2
    decreases n
  {
    if n < 10 then [Digit(n)] else Decimal(n / 10) + [Digit(n % 10)]
  }

  /** The id the client gives the item at index `idx` mapped at time `ts`. */
  function AiId(ts: nat, idx: nat): (s: string)
    ensures |s| >= 5 && s[..3] == "ai-"
  {
    "ai-" + Decimal(ts) + "-" + Decimal(idx)
  }

  /** Different digits are different characters. */
  lemma DigitInjective(x: nat, y: nat)
    requires x < 10 && y < 10 && Digit(x) == Digit(y)
    ensures x == y
  {
    assert "0123456789"[x] == "0123456789"[y];
  }

  /** The text of `n >= 10` is the text of `n / 10` followed by the last digit. */
  lemma DecimalSplit(n: nat)
    requires n >= 10
    ensures Decimal(n)[..|Decimal(n)| - 1] == Decimal(n / 10)
    ensures Decimal(n)[|Decimal(n)| - 1] == Digit(n % 10)
  {
    var d := Decimal(n);
    assert d == Decimal(n / 10) + [Digit(n % 10)];
  }

  /** Different numbers have different decimal texts. */
  lemma {:induction false} DecimalInjective(a: nat, b: nat)
    requires Decimal(a) == Decimal(b)
    ensures a == b
    decreases a
  {
    if a >= 10 && b >= 10 {
      DecimalSplit(a);
      DecimalSplit(b);
      DecimalInjective(a / 10, b / 10);
      DigitInjective(a % 10, b % 10);
    } else if a < 10 && b < 10 {
      DigitInjective(a, b);
    }
  }

  /** The number of leading decimal digits of `s`. */
  function DigitRun(s: string): (n: nat)
    ensures n <= |s|
  {
    if s != [] && '0' <= s[0] <= '9' then 1 + DigitRun(s[1..]) else 0
  }

  /** Digits followed by a non-digit: the leading run is exactly the digits. */
  lemma {:induction false} DigitRunOfDigits(x: string, y: string)
    requires forall i :: 0 <= i < |x| ==> '0' <= x[i] <= '9'
    requires y != [] && !('0' <= y[0] <= '9')
    ensures DigitRun(x + y) == |x|
    decreases |x|
  {
    if x == [] {
      assert x + y == y;
    } else {
      assert (x + y)[1..] == x[1..] + y;
      DigitRunOfDigits(x[1..], y);
    }
  }

  /** `ai-<a>-<c>` with `a` all digits can be split back into `a` and `c`. */
  lemma SplitId(a: string, c: string, b: string, d: string)
    requires forall i :: 0 <= i < |a| ==> '0' <= a[i] <= '9'
    requires forall i :: 0 <= i < |b| ==> '0' <= b[i] <= '9'
    requires "ai-" + a + "-" + c == "ai-" + b + "-" + d
    ensures a == b && c == d
  {
    var s := "ai-" + a + "-" + c;
    assert s[3..] == a + ("-" + c);
    assert s[3..] == b + ("-" + d);
    DigitRunOfDigits(a, "-" + c);
    DigitRunOfDigits(b, "-" + d);
    assert a == s[3..3 + |a|] == b;
    assert c == s[4 + |a|..] == d;
  }

  /**
   * An id determines the time and the index: the digits of the time end at
   * the second `-`, so the two numbers can be read back.
   */
  lemma AiIdInjective(t1: nat, i1: nat, t2: nat, i2: nat)
    requires AiId(t1, i1) == AiId(t2, i2)
    ensures t1 == t2 && i1 == i2
  {
    SplitId(Decimal(t1), Decimal(i1), Decimal(t2), Decimal(i2));
    DecimalInjective(t1, t2);
    DecimalInjective(i1, i2);
  }

  // ---- interpretMood ----

  /** The song the client builds from item `idx`. */
  function ToSong(raw: RawSong, idx: nat, ts: nat): (s: Song)
    ensures s.youtubeUrl == Some(s.youtubeQuery) && s.thumbnail.None?
    ensures s.title == raw.title && s.artist == raw.artist && s.youtubeQuery == raw.youtubeUrl
    ensures s.id == AiId(ts, idx)
  {
    Song(AiId(ts, idx), raw.title, raw.artist, None, raw.youtubeUrl, Some(raw.youtubeUrl))
  }

  /** `items.map((s, idx) => ...)`. */
  function MapItems(items: seq<RawSong>, clock: nat -> nat): (r: seq<Song>)
    ensures |r| == |items|
    ensures forall i :: 0 <= i < |r| ==> r[i] == ToSong(items[i], i, clock(i))
  {
    seq(|items|, i requires 0 <= i < |items| => ToSong(items[i], i, clock(i)))
  }

  /**
   * `interpretMood`: ask the model with `userInput`; on failure the empty list,
   * otherwise the parsed items mapped one to one, in order.
   */
  function InterpretMood(userInput: string, gemini: string -> ModelReply, clock: nat -> nat): (r: seq<Song>)
    ensures gemini(userInput).Failed? ==> r == []
    ensures gemini(userInput).Parsed? ==> |r| == |gemini(userInput).items|
    ensures gemini(userInput).Parsed? ==> forall i :: 0 <= i < |r| ==>
      var raw := gemini(userInput).items[i];
      && r[i].title == raw.title && r[i].artist == raw.artist
      && r[i].youtubeQuery == raw.youtubeUrl && r[i].youtubeUrl == Some(raw.youtubeUrl)
      && r[i].thumbnail == None && r[i].id == AiId(clock(i), i)
  {
    match gemini(userInput)
    case Failed => []
    case Parsed(items) => MapItems(items, clock)
  }

  /** The ids given out by one call are pairwise distinct, whatever the clock reads. */
  lemma InterpretMoodIdsDistinct(userInput: string, gemini: string -> ModelReply, clock: nat -> nat, i: nat, j: nat)
    requires i < j < |InterpretMood(userInput, gemini, clock)|
    ensures InterpretMood(userInput, gemini, clock)[i].id != InterpretMood(userInput, gemini, clock)[j].id
  {
    var r := InterpretMood(userInput, gemini, clock);
    if r[i].id == r[j].id {
      AiIdInjective(clock(i), i, clock(j), j);
    }
  }

  // ---- getSongsByMoodId ----

  /** `moodPromptMap[moodId] || moodId`. */
  function PromptFor(moodId: string): (p: string)
    ensures moodId in MoodPromptMap ==> p == MoodPromptMap[moodId]
    ensures moodId !in MoodPromptMap ==> p == moodId
  {
    if moodId in MoodPromptMap && MoodPromptMap[moodId] != "" then MoodPromptMap[moodId] else moodId
  }

  /** `getSongsByMoodId`: `interpretMood` with the mood's prompt. */
  function GetSongsByMoodId(moodId: string, gemini: string -> ModelReply, clock: nat -> nat): seq<Song> {
    InterpretMood(PromptFor(moodId), gemini, clock)
  }

  /**
   * A known id is sent as its own prompt (none of the prompts is empty, so `||`
   * never falls through); any other id is sent as itself.
   */
  lemma MoodIdSelectsPrompt(moodId: string, gemini: string -> ModelReply, clock: nat -> nat)
    ensures moodId in MoodPromptMap ==> PromptFor(moodId) == MoodPromptMap[moodId]
    ensures moodId !in MoodPromptMap ==> PromptFor(moodId) == moodId
    ensures moodId in MoodPromptMap ==>
      GetSongsByMoodId(moodId, gemini, clock) == InterpretMood(MoodPromptMap[moodId], gemini, clock)
    ensures moodId !in MoodPromptMap ==>
      GetSongsByMoodId(moodId, gemini, clock) == InterpretMood(moodId, gemini, clock)
  {
    if moodId in MoodPromptMap {
      assert MoodPromptMap[moodId] != "";
    }
  }

  /** Every preset mood of the catalogue has its own prompt, so none falls back to its id. */
  lemma EveryPresetHasPrompt()
    ensures forall i :: 0 <= i < |Moods| ==> Moods[i].id in MoodPromptMap
  {
  }

  /** A failed model call is swallowed: the caller gets the empty list. */
  lemma FailSoft(moodId: string, gemini: string -> ModelReply, clock: nat -> nat)
    requires gemini(PromptFor(moodId)).Failed?
    ensures GetSongsByMoodId(moodId, gemini, clock) == []
  {
  }
}
