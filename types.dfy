/**
 * The records of the application: a song, a mood tile and the four screens,
 * and the fixed catalogue of preset moods shown on the home screen.
 */
module Types {
  import opened Wrappers

  /**
   * A track. `youtubeQuery` is the identity key for favourites and history
   * (case-sensitive, exact); `youtubeUrl` is written by the recommendation
   * client and read by the player although the declared record lacks it.
   */
  datatype Song = Song(
    id: string,
    title: string,
    artist: string,
    thumbnail: Option<string>,
    youtubeQuery: string,
    youtubeUrl: Option<string>)

  datatype MoodConfig = MoodConfig(
    id: string,
    name: string,
    icon: string,
    description: string,
    color: string)

  datatype AppState = Home | Playlist | Favorites | History

  /** The nine preset moods, in display order. */
  const Moods: seq<MoodConfig> := [
    MoodConfig("gym", "Gym", "\U{1F4AA}", "High energy workout music", "from-orange-500 to-red-600"),
    MoodConfig("chill", "Chill", "\U{1F60C}", "Relaxing and peaceful vibes", "from-blue-400 to-cyan-500"),
    MoodConfig("party", "Party", "\U{1F389}", "Dance and celebrate", "from-purple-500 to-pink-600"),
    MoodConfig("sad", "Sad", "\U{1F622}", "Emotional and melancholic", "from-gray-600 to-blue-800"),
    MoodConfig("happy", "Happy", "\U{1F60A}", "Upbeat and positive energy", "from-yellow-400 to-orange-500"),
    MoodConfig("old-school", "Old School", "\U{1F4FB}", "Classic hits from the past", "from-amber-700 to-yellow-900"),
    MoodConfig("pop", "Pop", "\U{1F3B5}", "Top chart hits", "from-pink-400 to-indigo-500"),
    MoodConfig("focus", "Focus", "\U{1F3AF}", "Concentration and productivity", "from-emerald-400 to-teal-600"),
    MoodConfig("hindi", "Hindi Hits", "\U{1F1EE}\U{1F1F3}", "Best of Bollywood & Indie", "from-orange-400 to-green-500")
  ]
}
