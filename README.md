# Emotion-based music player: playback control

This project models the playback-control state machine of
`maincode.py` and proves properties of it. The program plays a song
chosen by the emotion a face classifier reports. Voice commands then stop,
pause, resume, skip, report or suggest.

The program's state is two globals:

- `last_emotion`, the last label an emotion analysis produced, or `None`.
- `emotion_index`, one rotation counter per label of the song table. It
  selects which of that label's songs plays.

Three things act on this state:

- An emotion analysis stores the label it found and plays that label's song.
- `play_song` picks `songs[emotion_index[emotion]]` for a known label, and
  reports "no songs found" for any other label.
- The voice-command dispatcher is an ordered if/elif chain of substring tests
  on the lowercased transcript. Each branch emits an action. The "next" branch
  also advances the label's counter modulo the length of its song list.

The model has six modules:

- `Wrappers` holds the `Option` type that stands for Python's `None`-or-value
  variables.
- `Tables` holds the two constant tables exactly as the source defines them,
  and proves they cover the same seven labels.
- `Substrings` models Python's substring test `p in s` as `Contains`. It
  proves `Contains` equivalent to the existence of an occurrence, and proves
  it transitive.
- `Commands` models the keyword chain as a classification into branches.
  `ClassifyAsWritten` follows the source's order. `Classify` moves the
  "what's playing" test ahead of the "play" test (see "Findings"). Both are
  proved to be "the first branch of a priority list whose test holds".
  The branch-priority lemmas hold for both orders.
- `Playback` is the pure state machine:
  - `Machine` holds the two globals; `Init` gives their start-up values.
  - `PlaySong` is the song selection and `Detect` is an emotion analysis.
  - `Dispatch` is the body of the chosen branch. `Step` is one voice
    command with the chain in the source's order, and `StepCorrected` is one
    command with the corrected chain. The two leave the same state on every
    command and differ only in the action for "what's playing".
  - `Repeat` is the same command given `n` times, through `Step`.
  - The lemmas state what each command does and does not change. They also
    state that the index always stays inside its song list, and that `len`
    "next" commands bring the state back to where it was.
- `Player` is the running program as a class. `MusicPlayer` keeps the two
  globals as fields that its methods update in place. Every method is proved
  to produce exactly the action and the new state that the `Playback`
  functions give. Its voice-command method follows the source's order, as
  `Step` does.

The tables have seven labels, but detection stores whatever label the
classifier returns (maincode.py:129). `play_song` checks that the label is in
the song table (maincode.py:38), but the "next", "what's playing" and
"recommend something" branches look it up without checking (maincode.py:90,
93, 95). The model therefore takes a label to be any string, and a missing key
is modelled as an outcome.

Modelling choices:

- The transcript is taken as given, already lowercased (maincode.py:78).
- Mixer calls and console messages become values of `Playback.Action`.
  `Stopped`, `Paused` and `Played` stand for the mixer calls; `Reported`,
  `Suggested` and `NotRecognized` for the printed lines.
- In the source, a lookup of a label missing from a table raises an uncaught
  `KeyError` and ends the program. The model returns `KeyError(label)` and
  leaves the state unchanged.
- `Playback`'s functions take the two tables as a `Library` parameter.
  `Tables.SourceLibrary()` is the source's pair, and `MusicPlayer` is built
  with it. The results therefore hold for any tables whose song lists are
  non-empty, and in particular for the source's.

## Model

| member | source | states |
|---|---|---|
| Tables.TablesCoverLabels | maincode.py:10-29 | the song table and the suggestion table have exactly the seven classifier labels as keys |
| Tables.SongListsWellFormed | maincode.py:10-18 | every label has at least two songs and no song repeats within a list |
| Tables.SourceLibrary | maincode.py:10-29 | the source's tables have non-empty song lists and the same seven keys in both tables |
| Substrings.ContainsIffOccurs | maincode.py:81-94 | the substring test holds exactly when the pattern occurs at some position of the text |
| Substrings.ContainsAt | maincode.py:81-94 | an occurrence at a given position makes the substring test hold |
| Substrings.ContainsTransitive | maincode.py:84-92 | a text containing `middle` contains every pattern that `middle` contains |
| Commands.ClassifyAsWritten | maincode.py:81-97 | the source's chain chooses an emotion-dependent branch only when an emotion is set |
| Commands.Classify | maincode.py:81-97 | the corrected chain chooses an emotion-dependent branch only when an emotion is set |
| Commands.FirstMatchIsListed | maincode.py:81-97 | the first match of a priority list is a listed branch or "not recognised" |
| Commands.FirstMatchChoosesFirstTrueGuard | maincode.py:81-95 | a listed branch is chosen if and only if its test holds and no earlier branch's test does |
| Commands.FirstMatchUnrecognized | maincode.py:96-97 | "not recognised" is chosen if and only if no branch's test holds |
| Commands.ClassifyAsWrittenFollowsSourceOrder | maincode.py:81-97 | the source's chain is the first match over stop, play, pause, next, report, suggest |
| Commands.ClassifyFollowsCorrectedOrder | maincode.py:81-97 | the corrected chain is the first match over stop, report, play, pause, next, suggest |
| Commands.StopWins | maincode.py:81-83 | a command containing "stop" or "halt" stops, whatever else it contains and whether or not an emotion is set |
| Commands.PauseBeatsNext | maincode.py:86-91 | a command containing "pause" or "hold" is never classified as "next" |
| Commands.PlayBeatsNext | maincode.py:81-91 | with an emotion set and no stop word, "play" or "resume" wins over "pause" and "next": always in the source's chain, and in the corrected chain unless the command contains "what's playing" |
| Commands.NoEmotionFallthrough | maincode.py:81-97 | with no emotion set both chains agree: stop words stop, pause words pause, and everything else is not recognised |
| Commands.WhatsPlayingContainsPlay | maincode.py:84-92 | every command containing "what's playing" also contains "play" |
| Commands.ReportUnreachableAsWritten | maincode.py:84-93 | the source's chain never chooses the report branch |
| Commands.WhatsPlayingReports | maincode.py:92-93 | in the corrected chain, "what's playing" without a stop word and with an emotion set reports |
| Commands.ClassifyDiffersOnlyOnReport | maincode.py:84-93 | the two chains differ exactly on "what's playing" commands with an emotion set and no stop word; there the corrected chain reports and the source's chain plays |
| Playback.Init | maincode.py:32-33 | the start-up state has no emotion, one index per song-table label, and every index at 0 |
| Playback.PlaySong | maincode.py:36-49 | a label of the song table plays the song its index points at, and that index is within the list; any other label yields "no songs found" |
| Playback.Advance | maincode.py:90 | "next" sets the label's index to the following position, wrapping to 0 after the last, and keeps every index within its list |
| Playback.WrapAround | maincode.py:90 | adding one modulo the list length wraps to 0 only from the last position |
| Playback.Detect | maincode.py:129-136 | an analysis stores its label whatever it is, keeps every index, and plays for that label |
| Playback.Dispatch | maincode.py:81-97 | the body of every branch keeps each index within its song list and keeps the last emotion |
| Playback.Step | maincode.py:81-97 | every command, dispatched on the chain in the source's order, keeps each index within its song list and keeps the last emotion |
| Playback.StepCorrected | maincode.py:81-97 | every command, dispatched on the corrected chain, keeps each index within its song list and keeps the last emotion |
| Playback.Repeat | maincode.py:81-97 | repeating a command keeps every index within its song list and keeps the last emotion |
| Playback.StopStops | maincode.py:81-83 | a stop word emits Stopped and leaves the state unchanged |
| Playback.NoEmotionFallsThrough | maincode.py:81-97 | with no emotion set, the state never changes; stop words stop, pause words pause, and everything else is not recognised |
| Playback.OnlyNextChangesState | maincode.py:81-97 | a command changes the state if and only if it is "next" on a known label with more than one song; the label's index then advances |
| Playback.NextPlaysFollowingSong | maincode.py:89-91 | "next" on a known label changes only that label's index, to the following position or 0 after the last, and plays the song at the new position |
| Playback.UnknownLabel | maincode.py:38-49 | for a label outside the song table, "play" yields "no songs found" and "next" fails on the missing key without changing the state |
| Playback.PlayReplaysDetection | maincode.py:84-85 | after an analysis with a non-empty label, "play" plays exactly what the analysis played and changes nothing |
| Playback.WhatsPlayingRestartsAsWritten | maincode.py:84-85 | as written, "what's playing" with an emotion set and no stop word plays the current song again and changes nothing |
| Playback.StepCorrectedSameState | maincode.py:81-97 | the corrected step leaves the same state as the source's step on every command, and emits a different action only for "what's playing" with an emotion set |
| Playback.ReportMatchesPlayback | maincode.py:92-93 | with the corrected chain, "what's playing" names the file that play_song would start for the current state |
| Playback.SuggestionMatchesLabel | maincode.py:94-95 | "recommend something" gives the label's activity, or fails on a label without one |
| Playback.SuccTimesCounts | maincode.py:90 | before the end of the list, `n` moves advance a position by `n` |
| Playback.SuccTimesWraps | maincode.py:90 | from position `i`, `len - i + k` moves reach position `k` |
| Playback.SuccTimesCycles | maincode.py:90 | `len` moves in a list of `len` songs return to the starting position |
| Playback.RotatedAfterOne | maincode.py:90 | one move followed by `n - 1` further moves is `n` moves from the start |
| Playback.RepeatNextRotates | maincode.py:89-91 | `n` "next" commands on a known label move that label's index `n` places around its list and change no other index |
| Playback.NextCycles | maincode.py:89-91 | as many "next" commands as the label has songs bring the whole state back to where it was |
| Player.MusicPlayer.constructor | maincode.py:10-33 | the new player holds the source's tables and the start-up state |
| Player.MusicPlayer.PlaySong | maincode.py:36-49 | the method selects the song that `Playback.PlaySong` gives for the current index |
| Player.MusicPlayer.RecordEmotion | maincode.py:129-136 | storing a detected label and playing its song produce the action and the state that `Playback.Detect` gives, and keep the index within bounds |
| Player.MusicPlayer.ProcessVoiceCommand | maincode.py:81-97 | the in-place dispatcher, including the modulo update of line 90, follows the chain in the source's order and produces the action and the state that `Playback.Step` gives, and keeps the index within bounds |

## Left out

- Webcam capture, the main loop, key polling and teardown (maincode.py:104-152) are device I/O. The model keeps only the two entry points: an analysis that found a label, and a recognised voice command.
- `DeepFace.analyze` (maincode.py:126-128) is a third-party classifier. Its result is the `detected` parameter of `Detect` and `RecordEmotion`. A failed analysis (maincode.py:140-141) is not modelled. A failure before line 129 changes nothing. A failure after it, in the drawing at line 133, leaves `last_emotion` overwritten and skips `play_song`; `Detect` always plays.
- The pygame mixer calls (maincode.py:7, 43-44, 82, 87, 150) are foreign audio calls. They become `Action` values. The `pygame.error` handler (maincode.py:46-47) is not modelled, so a song that fails to load is still reported as `NowPlaying`.
- Speech recognition (maincode.py:72-79, 98-101) is microphone I/O and a network service. The transcript is a string parameter, taken as already lowercased; no case folding is modelled.
- `draw_emotions_on_frame` (maincode.py:52-66) only draws text on a frame and formats floating-point percentages.
- The `temp_capture.jpg` write (maincode.py:123-124) is file I/O.
- Console messages are not modelled as text. Each becomes the `Action` that carries its content (the file, the suggestion, the missing key).
- An uncaught `KeyError` ends the program in the source. The model returns `KeyError(key)` with the state unchanged and does not model the program's termination.

## Findings

| source | as written | input that shows it | evidently intended | confidence | as-written member | corrected member |
|---|---|---|---|---|---|---|
| maincode.py:84-93 | the "what's playing" test comes after the "play" test, and "what's playing" contains "play", so the report branch can never run | transcript "what's playing" with last emotion "happy": the play branch restarts the current song instead of printing it | "what's playing" reports the current song (line 93) | not executed | Commands.ReportUnreachableAsWritten | Commands.WhatsPlayingReports |

`Playback.StepCorrected` is the corrected step. `Playback.StepCorrectedSameState`
proves that it leaves the same state as `Playback.Step` on every command, so the
state lemmas proved about `Step` hold for the corrected program too. The
as-written behaviour itself is `Playback.WhatsPlayingRestartsAsWritten`.
