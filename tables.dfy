/**
 * The two fixed lookup tables of the player, keyed by the emotion labels the
 * facial-emotion classifier reports (maincode.py:10-29).
 */
module Tables {

  /** A pair of tables of the two shapes the player uses. */
  datatype Library = Library(songs: map<string, seq<string>>, activities: map<string, string>)

  /** Every label that has a song list has at least one song. */
  ghost predicate WellFormed(lib: Library)
  {
    forall e :: e in lib.songs ==> |lib.songs[e]| > 0
  }

  /** The seven labels the classifier reports. */
  const Labels: set<string> := {"happy", "angry", "sad", "surprise", "fear", "neutral", "disgust"}

  /** For each label, its songs in rotation order. */
  const EmotionSongMap: map<string, seq<string>> := map[
    "happy" := ["happy1.mp3", "happy2.mp3", "happy3.mp3"],
    "angry" := ["angry1.mp3", "angry2.mp3"],
    "sad" := ["sad1.mp3", "sad2.mp3"],
    "surprise" := ["surprise1.mp3", "surprise2.mp3"],
    "fear" := ["fear1.mp3", "fear2.mp3"],
    "neutral" := ["neutral1.mp3", "neutral2.mp3"],
    "disgust" := ["disgust1.mp3", "disgust2.mp3"]
  ]

  /** For each label, the activity suggestion shown on request. */
  const EmotionActivityMap: map<string, string> := map[
    "happy" := "🎉 Feeling joyful? Try dancing, celebrating with friends, or solving a fun puzzle!",
    "angry" := "🎯 Feeling frustrated? Let off steam with a workout or creative expression.",
    "sad" := "🧩 Feeling blue? Solve a puzzle or watch a cheerful movie.",
    "surprise" := "📖 Feeling surprised? Dive into trivia or explore a new hobby!",
    "fear" := "🛡️ Feeling uneasy? Practice meditation or calming breathing exercises.",
    "neutral" := "☕ Feeling calm? Enjoy journaling or savor a cup of tea.",
    "disgust" := "🍴 Feeling off? Tidy up your space or cook something fresh."
  ]

  /** Both tables are keyed by exactly the classifier's seven labels. */
  lemma TablesCoverLabels()
    ensures EmotionSongMap.Keys == Labels
    ensures EmotionActivityMap.Keys == Labels
  {
  }

  /**
   * Every label has at least two songs, so the modulo of the "next" command is
   * never taken by zero and "next" always moves to another song, and no song
   * appears twice in a label's rotation.
   */
  lemma SongListsWellFormed()
    ensures forall e :: e in EmotionSongMap ==> |EmotionSongMap[e]| >= 2
    ensures forall e, i, j :: e in EmotionSongMap && 0 <= i < j < |EmotionSongMap[e]| ==>
              EmotionSongMap[e][i] != EmotionSongMap[e][j]
  {
  }

  /** The two tables of the source, as a library. */
  function SourceLibrary(): (lib: Library)
    ensures WellFormed(lib)
    ensures lib.songs.Keys == lib.activities.Keys == Labels
    ensures forall e :: e in lib.songs ==> |lib.songs[e]| >= 2
  {
    TablesCoverLabels();
    SongListsWellFormed();
    Library(EmotionSongMap, EmotionActivityMap)
  }
}
