/**
 * The playback-control state: the last detected emotion and a per-label
 * rotation index into that label's songs (maincode.py:32-33), the song
 * selection of play_song (maincode.py:36-49) and the effect of one voice
 * command (maincode.py:81-97). Mixer calls and console output become the
 * `Action` a command emits. The functions take the two tables as a
 * `Library`; the player passes them `SourceLibrary()`.
 */
module Playback {
  import opened Wrappers
  import opened Tables
  import opened Substrings
  import opened Commands

  /** The program's two global variables. */
  datatype Machine = Machine(lastEmotion: Option<string>, emotionIndex: map<string, nat>)

  /** What play_song does: start a song, or report that the label has none. */
  datatype SongOutcome = NowPlaying(emotion: string, file: string) | NoSongsFound(emotion: string)

  /** What a voice command does to the outside world. */
  datatype Action =
    | Stopped
    | Paused
    | Played(outcome: SongOutcome)
    | Reported(file: string)
    | Suggested(text: string)
    | NotRecognized
      /** An uncaught KeyError: the label is missing from a table; the program ends. */
    | KeyError(key: string)

  datatype Response = Response(action: Action, after: Machine)

  /** Every index belongs to a label of the song table and points into its list. */
  ghost predicate IndexBounded(lib: Library, index: map<string, nat>)
  {
    forall e :: e in index ==> e in lib.songs && index[e] < |lib.songs[e]|
  }

  /** One index per label of the song table, each within its song list. */
  ghost predicate IndexValid(lib: Library, index: map<string, nat>)
  {
    && index.Keys == lib.songs.Keys
    && IndexBounded(lib, index)
  }

  ghost predicate Valid(lib: Library, m: Machine)
  {
    IndexValid(lib, m.emotionIndex)
  }

  /** The state at start-up (maincode.py:32-33). */
  function Init(lib: Library): (m: Machine)
    requires WellFormed(lib)
    ensures Valid(lib, m)
    ensures m.lastEmotion == None
    ensures m.emotionIndex.Keys == lib.songs.Keys
    ensures forall e :: e in m.emotionIndex ==> m.emotionIndex[e] == 0
  {
    Machine(None, map e | e in lib.songs :: 0)
  }

  /**
   * play_song: a known label plays the song its index points at; any other
   * label plays nothing.
   */
  function PlaySong(lib: Library, index: map<string, nat>, emotion: string): (o: SongOutcome)
    requires IndexValid(lib, index)
    ensures o.emotion == emotion
    ensures o.NowPlaying? <==> emotion in lib.songs
    ensures o.NowPlaying? ==> 0 <= index[emotion] < |lib.songs[emotion]| &&
                              o.file == lib.songs[emotion][index[emotion]]
  {
    if emotion in lib.songs then
      var songs := lib.songs[emotion];
      NowPlaying(emotion, songs[index[emotion]])
    else
      NoSongsFound(emotion)
  }

  /** The position after `i` in a rotation of `len` songs. */
  function Succ(i: nat, len: nat): nat
  {
    if i + 1 == len then 0 else i + 1
  }

  /** The index update of "next": move to the following song, wrapping after the last. */
  function Advance(lib: Library, index: map<string, nat>, e: string): (r: map<string, nat>)
    requires WellFormed(lib) && IndexBounded(lib, index) && e in index
    ensures IndexBounded(lib, r)
    ensures r.Keys == index.Keys
    ensures r == index[e := Succ(index[e], |lib.songs[e]|)]
  {
    WrapAround(index[e], |lib.songs[e]|);
    index[e := (index[e] + 1) % |lib.songs[e]|]
  }

  /** Adding one modulo `len` to a position below `len` wraps only from the last one. */
  lemma WrapAround(i: nat, len: nat)
    requires i < len
    ensures (i + 1) % len == Succ(i, len)
  {
    if i + 1 == len {
      assert len % len == 0;
    } else {
      assert 0 <= i + 1 < len;
    }
  }

  /**
   * What the dispatcher does once a branch has been chosen: the body of each
   * branch of maincode.py:81-97.
   */
  function Dispatch(lib: Library, m: Machine, b: Branch): (r: Response)
    requires WellFormed(lib) && Valid(lib, m)
    requires NeedsEmotion(b) ==> Truthy(m.lastEmotion)
    ensures Valid(lib, r.after)
    ensures r.after.lastEmotion == m.lastEmotion
  {
    match b
    case Stop => Response(Stopped, m)
    case Play => Response(Played(PlaySong(lib, m.emotionIndex, m.lastEmotion.value)), m)
    case Pause => Response(Paused, m)
    case Next =>
      var e := m.lastEmotion.value;
      if e in m.emotionIndex then
        var index := Advance(lib, m.emotionIndex, e);
        Response(Played(PlaySong(lib, index, e)), Machine(m.lastEmotion, index))
      else
        Response(KeyError(e), m)
    case Report =>
      var e := m.lastEmotion.value;
      if e in lib.songs then Response(Reported(lib.songs[e][m.emotionIndex[e]]), m)
      else Response(KeyError(e), m)
    case Suggest =>
      var e := m.lastEmotion.value;
      if e in lib.activities then Response(Suggested(lib.activities[e]), m)
      else Response(KeyError(e), m)
    case Unrecognized => Response(NotRecognized, m)
  }

  /** One voice command, given as its lowercased transcript, with the chain in the source's order. */
  function Step(lib: Library, m: Machine, command: string): (r: Response)
    requires WellFormed(lib) && Valid(lib, m)
    ensures Valid(lib, r.after)
    ensures r.after.lastEmotion == m.lastEmotion
  {
    Dispatch(lib, m, ClassifyAsWritten(command, Truthy(m.lastEmotion)))
  }

  /** One voice command with the "what's playing" test moved ahead of the "play" test. */
  function StepCorrected(lib: Library, m: Machine, command: string): (r: Response)
    requires WellFormed(lib) && Valid(lib, m)
    ensures Valid(lib, r.after)
    ensures r.after.lastEmotion == m.lastEmotion
  {
    Dispatch(lib, m, Classify(command, Truthy(m.lastEmotion)))
  }

  /** An emotion analysis that found `detected`: remember it and play its song (maincode.py:129, 136). */
  function Detect(lib: Library, m: Machine, detected: string): (r: Response)
    requires WellFormed(lib) && Valid(lib, m)
    ensures Valid(lib, r.after)
    ensures r.after.lastEmotion == Some(detected) && r.after.emotionIndex == m.emotionIndex
    ensures r.action.Played? && r.action.outcome.emotion == detected
  {
    Response(Played(PlaySong(lib, m.emotionIndex, detected)), Machine(Some(detected), m.emotionIndex))
  }

  /** The state after the same command is given `n` times. */
  function Repeat(lib: Library, m: Machine, command: string, n: nat): (r: Machine)
    requires WellFormed(lib) && Valid(lib, m)
    ensures Valid(lib, r)
    ensures r.lastEmotion == m.lastEmotion
    decreases n
  {
    if n == 0 then m else Repeat(lib, Step(lib, m, command).after, command, n - 1)
  }

  // ---------------------------------------------------------------------------
  // What one command does.

  /** "stop" or "halt" stops playback and changes nothing. */
  lemma StopStops(lib: Library, m: Machine, command: string)
    requires WellFormed(lib) && Valid(lib, m)
    requires Contains(command, "stop") || Contains(command, "halt")
    ensures Step(lib, m, command) == Response(Stopped, m)
  {
  }

  /**
   * With no emotion detected only stop and pause act; every other command is
   * not recognised, and the state never changes.
   */
  lemma NoEmotionFallsThrough(lib: Library, m: Machine, command: string)
    requires WellFormed(lib) && Valid(lib, m) && !Truthy(m.lastEmotion)
    ensures Step(lib, m, command).after == m
    ensures Step(lib, m, command).action ==
              if Contains(command, "stop") || Contains(command, "halt") then Stopped
              else if Contains(command, "pause") || Contains(command, "hold") then Paused
              else NotRecognized
  {
    NoEmotionFallthrough(command);
  }

  /**
   * The state changes exactly when a "next" command meets a known label with
   * more than one song, and then it is that label's index that moves on; every
   * other command leaves both variables as they were.
   */
  lemma OnlyNextChangesState(lib: Library, m: Machine, command: string)
    requires WellFormed(lib) && Valid(lib, m)
    ensures Step(lib, m, command).after != m <==>
              && ClassifyAsWritten(command, Truthy(m.lastEmotion)) == Next
              && m.lastEmotion.value in lib.songs
              && |lib.songs[m.lastEmotion.value]| > 1
    ensures Step(lib, m, command).after != m ==>
              Step(lib, m, command).after.emotionIndex == Advance(lib, m.emotionIndex, m.lastEmotion.value)
  {
    var r := Step(lib, m, command);
    if ClassifyAsWritten(command, Truthy(m.lastEmotion)) == Next && m.lastEmotion.value in lib.songs {
      var e := m.lastEmotion.value;
      if |lib.songs[e]| > 1 {
        assert r.after.emotionIndex[e] != m.emotionIndex[e];
      } else {
        assert r.after.emotionIndex == m.emotionIndex;
      }
    }
  }

  /**
   * "next" on a known label moves that label's index to the following song,
   * wrapping after the last, and plays the song it now points at.
   */
  lemma NextPlaysFollowingSong(lib: Library, m: Machine, command: string)
    requires WellFormed(lib) && Valid(lib, m) && Truthy(m.lastEmotion)
    requires ClassifyAsWritten(command, true) == Next
    requires m.lastEmotion.value in lib.songs
    ensures var e, r := m.lastEmotion.value, Step(lib, m, command);
            var i := if m.emotionIndex[e] + 1 == |lib.songs[e]| then 0 else m.emotionIndex[e] + 1;
            && r.after == Machine(m.lastEmotion, m.emotionIndex[e := i])
            && r.action == Played(NowPlaying(e, lib.songs[e][i]))
  {
  }

  /**
   * A label outside the song table: "play" reports that it has no songs, and
   * "next" fails on the missing key without changing the state.
   */
  lemma UnknownLabel(lib: Library, m: Machine, command: string)
    requires WellFormed(lib) && Valid(lib, m) && Truthy(m.lastEmotion)
    requires m.lastEmotion.value !in lib.songs
    ensures ClassifyAsWritten(command, true) == Play ==>
              Step(lib, m, command).action == Played(NoSongsFound(m.lastEmotion.value))
    ensures ClassifyAsWritten(command, true) == Next ==>
              Step(lib, m, command) == Response(KeyError(m.lastEmotion.value), m)
  {
  }

  /**
   * After an analysis that found a non-empty label `detected`, "play" or "resume" plays
   * exactly what the analysis played, and changes nothing.
   */
  lemma PlayReplaysDetection(lib: Library, m: Machine, detected: string, command: string)
    requires WellFormed(lib) && Valid(lib, m) && detected != ""
    requires ClassifyAsWritten(command, true) == Play
    ensures var d := Detect(lib, m, detected);
            Step(lib, d.after, command) == Response(d.action, d.after)
  {
  }

  /**
   * As written, "what's playing" with an emotion set and no stop word takes the
   * play branch: it restarts the current song instead of naming it.
   */
  lemma WhatsPlayingRestartsAsWritten(lib: Library, m: Machine, command: string)
    requires WellFormed(lib) && Valid(lib, m) && Truthy(m.lastEmotion)
    requires Contains(command, "what's playing")
    requires !Contains(command, "stop") && !Contains(command, "halt")
    ensures Step(lib, m, command) ==
              Response(Played(PlaySong(lib, m.emotionIndex, m.lastEmotion.value)), m)
  {
    WhatsPlayingContainsPlay(command);
  }

  /**
   * The corrected step leaves the same state as the source's on every command,
   * and emits a different action only for "what's playing" with an emotion set.
   */
  lemma StepCorrectedSameState(lib: Library, m: Machine, command: string)
    requires WellFormed(lib) && Valid(lib, m)
    ensures StepCorrected(lib, m, command).after == Step(lib, m, command).after
    ensures StepCorrected(lib, m, command).action != Step(lib, m, command).action ==>
              Contains(command, "what's playing") && Truthy(m.lastEmotion)
  {
    ClassifyDiffersOnlyOnReport(command, Truthy(m.lastEmotion));
  }

  /** In the corrected chain "what's playing" names the file that play_song would start now. */
  lemma ReportMatchesPlayback(lib: Library, m: Machine, command: string)
    requires WellFormed(lib) && Valid(lib, m) && Truthy(m.lastEmotion)
    requires Classify(command, true) == Report
    requires m.lastEmotion.value in lib.songs
    ensures StepCorrected(lib, m, command).action.Reported?
    ensures PlaySong(lib, m.emotionIndex, m.lastEmotion.value) ==
              NowPlaying(m.lastEmotion.value, StepCorrected(lib, m, command).action.file)
  {
  }

  /** "recommend something" gives the label's activity, or fails on a label without one. */
  lemma SuggestionMatchesLabel(lib: Library, m: Machine, command: string)
    requires WellFormed(lib) && Valid(lib, m) && Truthy(m.lastEmotion)
    requires ClassifyAsWritten(command, true) == Suggest
    ensures var e := m.lastEmotion.value;
            Step(lib, m, command).action ==
              if e in lib.activities then Suggested(lib.activities[e]) else KeyError(e)
  {
  }

  // ---------------------------------------------------------------------------
  // Repeated "next" commands.

  /** The position reached from `i` after `n` moves in a rotation of `len` songs. */
  function SuccTimes(i: nat, len: nat, n: nat): nat
    decreases n
  {
    if n == 0 then i else SuccTimes(Succ(i, len), len, n - 1)
  }

  /** Before the end of the list is passed, `n` moves advance the position by `n`. */
  lemma {:induction false} SuccTimesCounts(i: nat, len: nat, n: nat)
    requires i + n < len
    ensures SuccTimes(i, len, n) == i + n
    decreases n
  {
    if n > 0 {
      SuccTimesCounts(i + 1, len, n - 1);
    }
  }

  /**
   * From position `i`, `len - i` moves pass the end of the list and reach the
   * first song, and `k` more moves reach position `k`.
   */
  lemma {:induction false} SuccTimesWraps(i: nat, len: nat, k: nat, n: nat)
    requires i < len && k <= i && n == len - i + k
    ensures SuccTimes(i, len, n) == k
    decreases n
  {
    if i + 1 == len {
      SuccTimesCounts(0, len, k);
    } else {
      SuccTimesWraps(i + 1, len, k, n - 1);
    }
  }

  /** `len` moves in a rotation of `len` songs come back to the starting position. */
  lemma SuccTimesCycles(i: nat, len: nat)
    requires i < len
    ensures SuccTimes(i, len, len) == i
  {
    SuccTimesWraps(i, len, i, len);
  }

  /** The index map after the current label's index has moved `n` places. */
  function Rotated(lib: Library, m: Machine, n: nat): map<string, nat>
    requires Truthy(m.lastEmotion) && m.lastEmotion.value in m.emotionIndex && m.lastEmotion.value in lib.songs
  {
    var e := m.lastEmotion.value;
    m.emotionIndex[e := SuccTimes(m.emotionIndex[e], |lib.songs[e]|, n)]
  }

  /** Rotating after one move is rotating one place further from the start. */
  lemma RotatedAfterOne(lib: Library, m: Machine, next: Machine, n: nat)
    requires Truthy(m.lastEmotion) && m.lastEmotion.value in m.emotionIndex && m.lastEmotion.value in lib.songs
    requires n > 0 && next.lastEmotion == m.lastEmotion
    requires next.emotionIndex == m.emotionIndex[m.lastEmotion.value := Succ(m.emotionIndex[m.lastEmotion.value], |lib.songs[m.lastEmotion.value]|)]
    ensures Rotated(lib, next, n - 1) == Rotated(lib, m, n)
  {
  }

  /** Setting an index to the value it already holds leaves the map as it was. */
  lemma UpdateSame(index: map<string, nat>, e: string)
    requires e in index
    ensures index[e := index[e]] == index
  {
  }

  /** `n` "next" commands on a known label move its index `n` places around its list. */
  lemma {:induction false} RepeatNextRotates(lib: Library, m: Machine, command: string, n: nat)
    requires WellFormed(lib) && Valid(lib, m) && Truthy(m.lastEmotion)
    requires ClassifyAsWritten(command, true) == Next
    requires m.lastEmotion.value in lib.songs
    ensures Repeat(lib, m, command, n).emotionIndex == Rotated(lib, m, n)
    decreases n
  {
    if n > 0 {
      var next, k := Step(lib, m, command).after, n - 1;
      assert Repeat(lib, m, command, n) == Repeat(lib, next, command, k);
      NextPlaysFollowingSong(lib, m, command);
      RepeatNextRotates(lib, next, command, k);
      RotatedAfterOne(lib, m, next, n);
    } else {
      UpdateSame(m.emotionIndex, m.lastEmotion.value);
    }
  }

  /** As many "next" commands as the label has songs bring the state back to where it was. */
  lemma NextCycles(lib: Library, m: Machine, command: string)
    requires WellFormed(lib) && Valid(lib, m) && Truthy(m.lastEmotion)
    requires ClassifyAsWritten(command, true) == Next
    requires m.lastEmotion.value in lib.songs
    ensures Repeat(lib, m, command, |lib.songs[m.lastEmotion.value]|) == m
  {
    var e := m.lastEmotion.value;
    RepeatNextRotates(lib, m, command, |lib.songs[e]|);
    SuccTimesCycles(m.emotionIndex[e], |lib.songs[e]|);
    UpdateSame(m.emotionIndex, e);
  }
}
