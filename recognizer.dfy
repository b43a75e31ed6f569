/**
 * The browser's speech recognizer as the listener sees it: recognizer objects,
 * how creating and starting one can fail, the error codes that matter, the
 * result list, and the wake-phrase test applied to it.
 */
module Recognizer {
  import opened Wrappers
  import Text

  /** The identity of one object made by `new SpeechRecognition()`. */
  type Handle = nat

  /**
   * How `new SpeechRecognition()` followed by `recognition.start()` turns out:
   * both succeed, the constructor throws, or `start()` throws after the object
   * was stored.
   */
  datatype StartOutcome = Started | ConstructorThrew | StartThrew

  const WakePhrase: string := "hey bonequest"
  const AbortedCode: string := "aborted"
  const NetworkCode: string := "network"

  /** The handles a nullable ref holds: none, or the one it points to. */
  function Held(ref: Option<Handle>): set<Handle>
  {
    if ref.Some? then {ref.value} else {}
  }

  /**
   * At most one recognizer is running, and it is the one the ref holds: the
   * single-instance invariant the listener aims for.
   */
  predicate SingleInstance(ref: Option<Handle>, running: set<Handle>)
  {
    running <= Held(ref)
  }

  /**
   * `event.results[event.results.length - 1][0].transcript`, where each result
   * is its list of alternatives; None where that expression throws.
   */
  function LastTranscript(results: seq<seq<string>>): (r: Option<string>)
    ensures r.None? <==> |results| == 0 || |results[|results| - 1]| == 0
    ensures r.Some? ==> r.value in results[|results| - 1] && r.value == results[|results| - 1][0]
  {
    if |results| == 0 || |results[|results| - 1]| == 0 then None
    else Some(results[|results| - 1][0])
  }

  /**
   * The wake-phrase test applied to a result event: only a non-empty last
   * result whose first alternative is at least as long as the phrase can pass.
   */
  predicate HeardWakeWord(results: seq<seq<string>>): (r: bool)
    ensures r ==> |results| > 0 && |results[|results| - 1]| > 0
    ensures r ==> |WakePhrase| <= |results[|results| - 1][0]|
  {
    match LastTranscript(results)
    case None => false
    case Some(t) => Text.Contains(Text.ToLower(t), WakePhrase)
  }

  /**
   * A result event triggers exactly when its last result has a first
   * alternative whose lower-cased text contains the wake phrase.
   */
  lemma HeardWakeWordIff(results: seq<seq<string>>)
    ensures HeardWakeWord(results) <==>
              && |results| > 0 && |results[|results| - 1]| > 0
              && Text.Occurs(Text.ToLower(results[|results| - 1][0]), WakePhrase)
  {
    if LastTranscript(results).Some? {
      Text.ContainsIffOccurs(Text.ToLower(LastTranscript(results).value), WakePhrase);
    }
  }

  /** Capitalisation does not matter: the spoken phrase in any case triggers. */
  lemma CapitalisedPhraseTriggers()
    ensures HeardWakeWord([["Hey BoneQuest"]])
  {
    var t := Text.ToLower("Hey BoneQuest");
    assert t == WakePhrase;
    assert Text.OccursAt(t, WakePhrase, 0);
    HeardWakeWordIff([["Hey BoneQuest"]]);
  }

  /**
   * Punctuation does: a transcript with a comma after "hey" does not trigger,
   * since the test is a plain substring search.
   */
  lemma CommaDefeatsPhrase()
    ensures !HeardWakeWord([["hey, bonequest"]])
  {
    var t := Text.ToLower("hey, bonequest");
    assert forall i :: 0 <= i < |t| ==> t[i] == "hey, bonequest"[i];
    assert t == "hey, bonequest";
    HeardWakeWordIff([["hey, bonequest"]]);
    forall i
      ensures !Text.OccursAt(t, WakePhrase, i)
    {
      assert |t| == |WakePhrase| + 1;
      if i == 0 {
        assert t[..|WakePhrase|][3] == ',' != WakePhrase[3];
      } else if i == 1 {
        assert t[1..][0] == 'e' != WakePhrase[0];
      }
    }
  }

  /** Only the last result is tested: an earlier match is ignored. */
  lemma OnlyLastResultCounts()
    ensures !HeardWakeWord([["hey bonequest"], []])
    ensures !HeardWakeWord([])
    ensures !HeardWakeWord([["hey bonequest"], ["hello"]])
  {
    var t := Text.ToLower("hello");
    assert |t| < |WakePhrase|;
    HeardWakeWordIff([["hey bonequest"], ["hello"]]);
  }
}
