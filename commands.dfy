/**
 * The keyword classification of the voice-command dispatcher
 * (maincode.py:81-97): an ordered chain of substring tests on the lowercased
 * transcript, some of which also need a detected emotion.
 */
module Commands {
  import opened Wrappers
  import opened Substrings

  /** The branches of the dispatcher, named after what each one does. */
  datatype Branch = Stop | Play | Pause | Next | Report | Suggest | Unrecognized

  /** Python truthiness of `last_emotion`: neither `None` nor the empty string. */
  predicate Truthy(lastEmotion: Option<string>)
  {
    lastEmotion.Some? && lastEmotion.value != ""
  }

  /** The branches whose test includes `and last_emotion`. */
  predicate NeedsEmotion(b: Branch)
  {
    b == Play || b == Next || b == Report || b == Suggest
  }

  /** The test each branch performs; `hasEmotion` is the truthiness of `last_emotion`. */
  predicate Guard(b: Branch, command: string, hasEmotion: bool)
  {
    match b
    case Stop => Contains(command, "stop") || Contains(command, "halt")
    case Play => (Contains(command, "play") || Contains(command, "resume")) && hasEmotion
    case Pause => Contains(command, "pause") || Contains(command, "hold")
    case Next => Contains(command, "next") && hasEmotion
    case Report => Contains(command, "what's playing") && hasEmotion
    case Suggest => Contains(command, "recommend something") && hasEmotion
    case Unrecognized => true
  }

  /** The if/elif chain as the source orders it. */
  function ClassifyAsWritten(command: string, hasEmotion: bool): (b: Branch)
    ensures NeedsEmotion(b) ==> hasEmotion
  {
    if Guard(Stop, command, hasEmotion) then Stop
    else if Guard(Play, command, hasEmotion) then Play
    else if Guard(Pause, command, hasEmotion) then Pause
    else if Guard(Next, command, hasEmotion) then Next
    else if Guard(Report, command, hasEmotion) then Report
    else if Guard(Suggest, command, hasEmotion) then Suggest
    else Unrecognized
  }

  /**
   * The chain with the "what's playing" test moved ahead of the "play" test,
   * so that the report branch can be reached. The rest of the model uses this.
   */
  function Classify(command: string, hasEmotion: bool): (b: Branch)
    ensures NeedsEmotion(b) ==> hasEmotion
  {
    if Guard(Stop, command, hasEmotion) then Stop
    else if Guard(Report, command, hasEmotion) then Report
    else if Guard(Play, command, hasEmotion) then Play
    else if Guard(Pause, command, hasEmotion) then Pause
    else if Guard(Next, command, hasEmotion) then Next
    else if Guard(Suggest, command, hasEmotion) then Suggest
    else Unrecognized
  }

  // ---------------------------------------------------------------------------
  // Reference: a priority list read as "the first branch whose test holds".

  const SourceOrder: seq<Branch> := [Stop, Play, Pause, Next, Report, Suggest]
  const CorrectedOrder: seq<Branch> := [Stop, Report, Play, Pause, Next, Suggest]

  /** The first branch of `order` whose test holds, or `Unrecognized` when none does. */
  function FirstMatch(order: seq<Branch>, command: string, hasEmotion: bool): Branch
  {
    if order == [] then Unrecognized
    else if Guard(order[0], command, hasEmotion) then order[0]
    else FirstMatch(order[1..], command, hasEmotion)
  }

  ghost predicate Distinct(order: seq<Branch>)
  {
    forall i, j :: 0 <= i < j < |order| ==> order[i] != order[j]
  }

  /** No branch among the first `n` of `order` has a test that holds. */
  ghost predicate NoneHoldsBefore(order: seq<Branch>, n: nat, command: string, hasEmotion: bool)
    requires n <= |order|
  {
    forall j :: 0 <= j < n ==> !Guard(order[j], command, hasEmotion)
  }

  /** The first match is a branch of the list or `Unrecognized`. */
  lemma {:induction false} FirstMatchIsListed(order: seq<Branch>, command: string, hasEmotion: bool)
    ensures FirstMatch(order, command, hasEmotion) in order + [Unrecognized]
  {
    if order != [] && !Guard(order[0], command, hasEmotion) {
      FirstMatchIsListed(order[1..], command, hasEmotion);
      assert order[1..] + [Unrecognized] == (order + [Unrecognized])[1..];
    }
  }

  /**
   * The meaning of a priority list: branch `order[i]` is chosen exactly when
   * its test holds and no earlier test does.
   */
  lemma {:induction false} FirstMatchChoosesFirstTrueGuard(order: seq<Branch>, i: nat, command: string, hasEmotion: bool)
    requires Distinct(order) && Unrecognized !in order
    requires i < |order|
    ensures FirstMatch(order, command, hasEmotion) == order[i] <==>
              Guard(order[i], command, hasEmotion) && NoneHoldsBefore(order, i, command, hasEmotion)
  {
    var rest := order[1..];
    if !Guard(order[0], command, hasEmotion) {
      if i == 0 {
        FirstMatchIsListed(rest, command, hasEmotion);
        assert order[0] !in rest + [Unrecognized] by {
          forall k | 0 <= k < |rest| ensures rest[k] != order[0] {
            assert rest[k] == order[k + 1];
          }
        }
      } else {
        assert Distinct(rest) by {
          forall a, b | 0 <= a < b < |rest| ensures rest[a] != rest[b] {
            assert rest[a] == order[a + 1] && rest[b] == order[b + 1];
          }
        }
        assert Unrecognized !in rest by {
          forall k | 0 <= k < |rest| ensures rest[k] != Unrecognized {
            assert rest[k] == order[k + 1];
          }
        }
        FirstMatchChoosesFirstTrueGuard(rest, i - 1, command, hasEmotion);
        if NoneHoldsBefore(rest, i - 1, command, hasEmotion) {
          forall j | 0 < j < i ensures !Guard(order[j], command, hasEmotion) {
            assert order[j] == rest[j - 1];
          }
        }
        if NoneHoldsBefore(order, i, command, hasEmotion) {
          forall j | 0 <= j < i - 1 ensures !Guard(rest[j], command, hasEmotion) {
            assert rest[j] == order[j + 1];
          }
        }
        assert order[i] == rest[i - 1];
      }
    } else if i > 0 {
      assert !NoneHoldsBefore(order, i, command, hasEmotion);
    }
  }

  /** `Unrecognized` is chosen exactly when no test of the list holds. */
  lemma {:induction false} FirstMatchUnrecognized(order: seq<Branch>, command: string, hasEmotion: bool)
    requires Unrecognized !in order
    ensures FirstMatch(order, command, hasEmotion) == Unrecognized <==>
              NoneHoldsBefore(order, |order|, command, hasEmotion)
  {
    if order != [] {
      var rest := order[1..];
      assert Unrecognized !in rest by {
        forall k | 0 <= k < |rest| ensures rest[k] != Unrecognized {
          assert rest[k] == order[k + 1];
        }
      }
      FirstMatchUnrecognized(rest, command, hasEmotion);
      if !Guard(order[0], command, hasEmotion) && NoneHoldsBefore(rest, |rest|, command, hasEmotion) {
        forall j | 0 < j < |order| ensures !Guard(order[j], command, hasEmotion) {
          assert order[j] == rest[j - 1];
        }
      }
      if NoneHoldsBefore(order, |order|, command, hasEmotion) {
        forall j | 0 <= j < |rest| ensures !Guard(rest[j], command, hasEmotion) {
          assert rest[j] == order[j + 1];
        }
        assert !Guard(order[0], command, hasEmotion);
      }
    }
  }

  /** The source's chain is the first match over its order. */
  lemma ClassifyAsWrittenFollowsSourceOrder(command: string, hasEmotion: bool)
    ensures ClassifyAsWritten(command, hasEmotion) == FirstMatch(SourceOrder, command, hasEmotion)
  {
    var c, h := command, hasEmotion;
    assert FirstMatch([Suggest], c, h) == if Guard(Suggest, c, h) then Suggest else Unrecognized;
    assert FirstMatch([Report, Suggest], c, h) == if Guard(Report, c, h) then Report else FirstMatch([Suggest], c, h);
    assert FirstMatch([Next, Report, Suggest], c, h) ==
           if Guard(Next, c, h) then Next else FirstMatch([Report, Suggest], c, h);
    assert FirstMatch([Pause, Next, Report, Suggest], c, h) ==
           if Guard(Pause, c, h) then Pause else FirstMatch([Next, Report, Suggest], c, h);
    assert FirstMatch([Play, Pause, Next, Report, Suggest], c, h) ==
           if Guard(Play, c, h) then Play else FirstMatch([Pause, Next, Report, Suggest], c, h);
  }

  /** The corrected chain is the first match over the corrected order. */
  lemma ClassifyFollowsCorrectedOrder(command: string, hasEmotion: bool)
    ensures Classify(command, hasEmotion) == FirstMatch(CorrectedOrder, command, hasEmotion)
  {
    var c, h := command, hasEmotion;
    assert FirstMatch([Suggest], c, h) == if Guard(Suggest, c, h) then Suggest else Unrecognized;
    assert FirstMatch([Next, Suggest], c, h) == if Guard(Next, c, h) then Next else FirstMatch([Suggest], c, h);
    assert FirstMatch([Pause, Next, Suggest], c, h) ==
           if Guard(Pause, c, h) then Pause else FirstMatch([Next, Suggest], c, h);
    assert FirstMatch([Play, Pause, Next, Suggest], c, h) ==
           if Guard(Play, c, h) then Play else FirstMatch([Pause, Next, Suggest], c, h);
    assert FirstMatch([Report, Play, Pause, Next, Suggest], c, h) ==
           if Guard(Report, c, h) then Report else FirstMatch([Play, Pause, Next, Suggest], c, h);
  }

  // ---------------------------------------------------------------------------
  // Branch priority, which both orders share.

  /** A command mentioning "stop" or "halt" stops, whatever else it contains. */
  lemma StopWins(command: string, hasEmotion: bool)
    requires Contains(command, "stop") || Contains(command, "halt")
    ensures ClassifyAsWritten(command, hasEmotion) == Stop
    ensures Classify(command, hasEmotion) == Stop
  {
  }

  /** "pause" or "hold" is tested before "next": such a command never advances. */
  lemma PauseBeatsNext(command: string, hasEmotion: bool)
    requires Contains(command, "pause") || Contains(command, "hold")
    ensures ClassifyAsWritten(command, hasEmotion) != Next
    ensures Classify(command, hasEmotion) != Next
  {
  }

  /** "play" or "resume" with an emotion set wins over "next" and "pause". */
  lemma PlayBeatsNext(command: string)
    requires Contains(command, "play") || Contains(command, "resume")
    requires !Contains(command, "stop") && !Contains(command, "halt")
    ensures ClassifyAsWritten(command, true) == Play
    ensures !Contains(command, "what's playing") ==> Classify(command, true) == Play
  {
  }

  /**
   * Without a detected emotion only stop and pause remain: every other
   * command, "play", "next", "what's playing" and "recommend something"
   * included, is not recognised.
   */
  lemma NoEmotionFallthrough(command: string)
    ensures ClassifyAsWritten(command, false) == Classify(command, false)
    ensures Classify(command, false) ==
              if Contains(command, "stop") || Contains(command, "halt") then Stop
              else if Contains(command, "pause") || Contains(command, "hold") then Pause
              else Unrecognized
  {
  }

  // ---------------------------------------------------------------------------
  // The report branch of the source's chain is dead code.

  /** Every command containing "what's playing" also contains "play". */
  lemma WhatsPlayingContainsPlay(command: string)
    requires Contains(command, "what's playing")
    ensures Contains(command, "play")
  {
    assert OccursAt("what's playing", "play", 7);
    ContainsAt("what's playing", "play", 7);
    ContainsTransitive(command, "what's playing", "play");
  }

  /** In the source's order the report branch is never chosen. */
  lemma ReportUnreachableAsWritten(command: string, hasEmotion: bool)
    ensures ClassifyAsWritten(command, hasEmotion) != Report
  {
    if Contains(command, "what's playing") {
      WhatsPlayingContainsPlay(command);
    }
  }

  /** In the corrected order "what's playing" with an emotion set reports. */
  lemma WhatsPlayingReports(command: string)
    requires Contains(command, "what's playing")
    requires !Contains(command, "stop") && !Contains(command, "halt")
    ensures Classify(command, true) == Report
  {
  }

  /**
   * The two orders differ exactly on the commands the source meant to be
   * reports: "what's playing", an emotion set, and no stop word.
   */
  lemma ClassifyDiffersOnlyOnReport(command: string, hasEmotion: bool)
    ensures Classify(command, hasEmotion) != ClassifyAsWritten(command, hasEmotion) <==>
              Contains(command, "what's playing") && hasEmotion &&
              !Contains(command, "stop") && !Contains(command, "halt")
    ensures Classify(command, hasEmotion) != ClassifyAsWritten(command, hasEmotion) ==>
              Classify(command, hasEmotion) == Report && ClassifyAsWritten(command, hasEmotion) == Play
  {
    if Contains(command, "what's playing") {
      WhatsPlayingContainsPlay(command);
    }
  }
}
