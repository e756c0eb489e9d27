/**
 * The running program as an object: its two global variables become the
 * fields of a `MusicPlayer`, the tables the constant `lib`, and the two
 * entry points of the main loop (an emotion analysis and a voice command,
 * maincode.py:122-144) become methods that update the fields in place.
 * Each method is proved to do what the matching `Playback` function says.
 */
module Player {
  import opened Wrappers
  import opened Tables
  import opened Commands
  import Playback

  class MusicPlayer {
    const lib: Library
    var lastEmotion: Option<string>
    var emotionIndex: map<string, nat>

    /** The fields as a value of the pure model. */
    ghost function State(): Playback.Machine
      reads this
    {
      Playback.Machine(lastEmotion, emotionIndex)
    }

    ghost predicate Valid()
      reads this
    {
      WellFormed(lib) && Playback.Valid(lib, State())
    }

    /** Module start-up: the tables, no emotion yet, and every index at 0 (maincode.py:10-33). */
    constructor()
      ensures Valid()
      ensures lib == SourceLibrary()
      ensures State() == Playback.Init(lib)
    {
      lib := SourceLibrary();
      lastEmotion := None;
      emotionIndex := map e | e in EmotionSongMap :: 0;
    }

    /**
     * play_song on the fields (maincode.py:36-49): the in-place counterpart of
     * `Playback.PlaySong`, which states what the selection means.
     */
    method PlaySong(emotion: string) returns (outcome: Playback.SongOutcome)
      requires Valid()
      ensures outcome == Playback.PlaySong(lib, emotionIndex, emotion)
    {
      if emotion in lib.songs {
        var songs := lib.songs[emotion];
        var songFile := songs[emotionIndex[emotion]];
        outcome := Playback.NowPlaying(emotion, songFile);
      } else {
        outcome := Playback.NoSongsFound(emotion);
      }
    }

    /** A successful emotion analysis that found `detected` (maincode.py:129, 136). */
    method RecordEmotion(detected: string) returns (action: Playback.Action)
      requires Valid()
      modifies this
      ensures Valid()
      ensures action == Playback.Detect(lib, old(State()), detected).action
      ensures State() == Playback.Detect(lib, old(State()), detected).after
    {
      lastEmotion := Some(detected);
      var outcome := PlaySong(detected);
      action := Playback.Played(outcome);
    }

    /**
     * process_voice_command on a recognised, lowercased transcript, with the
     * chain in the source's order (maincode.py:81-97).
     */
    method ProcessVoiceCommand(command: string) returns (action: Playback.Action)
      requires Valid()
      modifies this
      ensures Valid()
      ensures action == Playback.Step(lib, old(State()), command).action
      ensures State() == Playback.Step(lib, old(State()), command).after
    {
      match ClassifyAsWritten(command, Truthy(lastEmotion))
      case Stop =>
        action := Playback.Stopped;
      case Play =>
        var outcome := PlaySong(lastEmotion.value);
        action := Playback.Played(outcome);
      case Pause =>
        action := Playback.Paused;
      case Next =>
        var e := lastEmotion.value;
        if e in emotionIndex {
          emotionIndex := emotionIndex[e := (emotionIndex[e] + 1) % |lib.songs[e]|];
          var outcome := PlaySong(e);
          action := Playback.Played(outcome);
        } else {
          action := Playback.KeyError(e);
        }
      case Report =>
        var e := lastEmotion.value;
        if e in lib.songs {
          action := Playback.Reported(lib.songs[e][emotionIndex[e]]);
        } else {
          action := Playback.KeyError(e);
        }
      case Suggest =>
        var e := lastEmotion.value;
        if e in lib.activities {
          action := Playback.Suggested(lib.activities[e]);
        } else {
          action := Playback.KeyError(e);
        }
      case Unrecognized =>
        action := Playback.NotRecognized;
    }
  }
}
