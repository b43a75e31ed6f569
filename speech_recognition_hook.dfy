/**
 * The wake-word listener hook: one recognizer slot (`recognitionRef`), the
 * restart guard (`isRestartingRef`), the `isWakeWordListening` flag, and the
 * timers its callbacks schedule. Each browser callback and each timer is one
 * step. The step functions say what every step does to the whole state; the
 * class `WakeWordListener` performs the same steps on fields.
 *
 * `connected` parameters are the `isConnected` prop as the closure that runs
 * captured it. `running` is the platform's side: the recognizers that were
 * started and have not been stopped, ended or failed.
 */
module SpeechRecognitionHook {
  import opened Wrappers
  import opened Recognizer
  import opened Pending

  /** A `setTimeout` callback not yet run. */
  datatype Timer =
    | ClearRestarting    // the 500 ms reset of the restart guard
    | RestartAfterEnd    // the 300 ms restart scheduled by `onend`
    | RestartAfterError  // the 1000 ms restart scheduled by `onerror`

  /** A toast the hook shows. */
  datatype Notice = NotSupported | RecognitionFault | StartFailed

  datatype Hook = Hook(
    current: Option<Handle>,
    restarting: bool,
    listening: bool,
    pending: seq<Timer>,
    notices: seq<Notice>,
    wakeSignals: nat,        // calls of `onWakeWordDetected`
    running: set<Handle>,
    nextId: Handle)

  const Initial: Hook := Hook(None, false, false, [], [], 0, {}, 0)

  /** Every handle in use was created before. */
  predicate WellFormed(s: Hook)
  {
    && (s.current.Some? ==> s.current.value < s.nextId)
    && forall h :: h in s.running ==> h < s.nextId
  }

  /** `if (recognitionRef.current) { recognitionRef.current.stop(); recognitionRef.current = null; }` */
  function Release(s: Hook): Hook
  {
    s.(current := None, running := s.running - Held(s.current))
  }

  /** `startWakeWordDetection`. */
  function StartStep(s: Hook, supported: bool, outcome: StartOutcome): (r: Hook)
    ensures !supported ==> r == s.(notices := s.notices + [NotSupported])
    ensures supported ==> && r.pending == s.pending + [ClearRestarting]
                          && r.restarting == (outcome == Started)
                          && Held(s.current) !! r.running - {s.nextId}
    ensures supported && outcome == Started ==>
              r == s.(current := Some(s.nextId), restarting := true,
                       pending := r.pending, running := s.running - Held(s.current) + {s.nextId},
                       nextId := s.nextId + 1)
    ensures supported && outcome == ConstructorThrew ==>
              r == s.(current := None, restarting := false, pending := r.pending,
                       notices := s.notices + [StartFailed], running := s.running - Held(s.current))
    ensures supported && outcome == StartThrew ==>
              r == s.(current := Some(s.nextId), restarting := false, pending := r.pending,
                       notices := s.notices + [StartFailed], running := s.running - Held(s.current),
                       nextId := s.nextId + 1)
  {
    if !supported then
      s.(notices := s.notices + [NotSupported])
    else
      var armed := Release(s).(restarting := true, pending := s.pending + [ClearRestarting]);
      match outcome
      case ConstructorThrew =>
        armed.(notices := armed.notices + [StartFailed], restarting := false)
      case Started =>
        armed.(current := Some(s.nextId), nextId := s.nextId + 1, running := armed.running + {s.nextId})
      case StartThrew =>
        armed.(current := Some(s.nextId), nextId := s.nextId + 1,
               notices := armed.notices + [StartFailed], restarting := false)
  }

  /** `stopWakeWordDetection`: stop and forget the current recognizer, if any. */
  function StopStep(s: Hook): (r: Hook)
    ensures s.current.None? ==> r == s
    ensures r.current == None && r.running == s.running - Held(s.current)
    ensures r.(current := s.current, running := s.running) == s
  {
    Release(s)
  }

  /** `onstart`. */
  function BeganStep(s: Hook): (r: Hook)
    ensures r == s.(listening := true)
  {
    s.(listening := true)
  }

  /**
   * `onresult`: on the wake phrase the current recognizer is stopped and
   * forgotten (and the flag cleared if there was one), and the wake-word
   * callback is invoked unless connected; any other result changes nothing.
   */
  function ResultStep(s: Hook, results: seq<seq<string>>, connected: bool): (r: Hook)
    ensures !HeardWakeWord(results) ==> r == s
    ensures HeardWakeWord(results) ==>
              && r.current == None
              && r.running == s.running - Held(s.current)
              && r.listening == (s.listening && s.current.None?)
              && r.wakeSignals == s.wakeSignals + (if connected then 0 else 1)
              && r.(current := s.current, running := s.running, listening := s.listening,
                    wakeSignals := s.wakeSignals) == s
  {
    if !HeardWakeWord(results) then s
    else
      var stopped := if s.current.Some? then Release(s).(listening := false) else s;
      if !connected then stopped.(wakeSignals := stopped.wakeSignals + 1) else stopped
  }

  /** `onend` of recognizer `h`: the flag drops, and a restart is scheduled unless connected or restarting. */
  function EndedStep(s: Hook, h: Handle, connected: bool): (r: Hook)
    ensures !r.listening
    ensures r.running == s.running - {h}
    ensures r.pending == s.pending + (if !connected && !s.restarting then [RestartAfterEnd] else [])
    ensures r.(listening := s.listening, running := s.running, pending := s.pending) == s
  {
    var ended := s.(listening := false, running := s.running - {h});
    if !connected && !s.restarting then ended.(pending := ended.pending + [RestartAfterEnd])
    else ended
  }

  /** The error codes that never raise a toast. */
  predicate SilentCode(code: string)
  {
    code == AbortedCode || code == NetworkCode
  }

  /** Whether `onerror` with `code` forgets the recognizer and schedules a restart. */
  predicate RestartsOnError(s: Hook, code: string, connected: bool)
  {
    code != AbortedCode && !connected && !s.restarting
  }

  /**
   * `onerror` of recognizer `h` (which has then stopped): `aborted` and
   * `network` never notify, other codes notify unless restarting; the slot is
   * cleared and a restart scheduled exactly when the code is not `aborted`, the
   * closure is not connected and no restart is under way.
   */
  function ErroredStep(s: Hook, h: Handle, code: string, connected: bool): (r: Hook)
    ensures r.notices == s.notices + (if !SilentCode(code) && !s.restarting then [RecognitionFault] else [])
    ensures r.current == (if RestartsOnError(s, code, connected) then None else s.current)
    ensures r.pending == s.pending + (if RestartsOnError(s, code, connected) then [RestartAfterError] else [])
    ensures r.running == s.running - {h}
    ensures r.(notices := s.notices, current := s.current, pending := s.pending, running := s.running) == s
  {
    var failed := s.(running := s.running - {h});
    var told := if SilentCode(code) || s.restarting then failed
                else failed.(notices := failed.notices + [RecognitionFault]);
    if code != AbortedCode && !connected && !s.restarting then
      told.(current := None, pending := told.pending + [RestartAfterError])
    else told
  }

  /** The timer at index `i` runs; a restart is a fresh `startWakeWordDetection`. */
  function TimerStep(s: Hook, i: nat, supported: bool, outcome: StartOutcome): (r: Hook)
    requires i < |s.pending|
    ensures s.pending[i] == ClearRestarting ==>
              r == s.(restarting := false, pending := Without(s.pending, i))
    ensures s.pending[i] != ClearRestarting ==>
              r == StartStep(s.(pending := Without(s.pending, i)), supported, outcome)
  {
    var rest := s.(pending := Without(s.pending, i));
    match s.pending[i]
    case ClearRestarting => rest.(restarting := false)
    case RestartAfterEnd => StartStep(rest, supported, outcome)
    case RestartAfterError => StartStep(rest, supported, outcome)
  }

  /** One thing that can happen to the hook, with the environment's choices. */
  datatype Event =
    | CallStart(supported: bool, outcome: StartOutcome)
    | CallStop
    | Began
    | Result(results: seq<seq<string>>, connected: bool)
    | Ended(h: Handle, connected: bool)
    | Errored(h: Handle, code: string, connected: bool)
    | TimerFired(i: nat, supported: bool, outcome: StartOutcome)

  function Apply(s: Hook, e: Event): Hook
  {
    match e
    case CallStart(supported, outcome) => StartStep(s, supported, outcome)
    case CallStop => StopStep(s)
    case Began => BeganStep(s)
    case Result(results, connected) => ResultStep(s, results, connected)
    case Ended(h, connected) => EndedStep(s, h, connected)
    case Errored(h, code, connected) => ErroredStep(s, h, code, connected)
    case TimerFired(i, supported, outcome) =>
      if i < |s.pending| then TimerStep(s, i, supported, outcome) else s
  }

  function Run(s: Hook, events: seq<Event>): Hook
    decreases |events|
  {
    if events == [] then s else Run(Apply(s, events[0]), events[1..])
  }

  /** The hook's state as fields, one method per callback or timer. */
  class WakeWordListener {
    var current: Option<Handle>
    var restarting: bool
    var listening: bool
    var pending: seq<Timer>
    var notices: seq<Notice>
    var wakeSignals: nat
    var running: set<Handle>
    var nextId: Handle

    function Model(): Hook
      reads this
    {
      Hook(current, restarting, listening, pending, notices, wakeSignals, running, nextId)
    }

    constructor ()
      ensures Model() == Initial
    {
      current, restarting, listening := None, false, false;
      pending, notices, wakeSignals := [], [], 0;
      running, nextId := {}, 0;
    }

    method StartWakeWordDetection(supported: bool, outcome: StartOutcome)
      modifies this
      ensures Model() == StartStep(old(Model()), supported, outcome)
    {
      if !supported {
        notices := notices + [NotSupported];
        return;
      }
      if current.Some? {
        running := running - {current.value};
        current := None;
      }
      restarting := true;
      pending := pending + [ClearRestarting];
      if outcome == ConstructorThrew {
        notices := notices + [StartFailed];
        restarting := false;
        return;
      }
      var recognition := nextId;
      nextId := nextId + 1;
      current := Some(recognition);
      if outcome == Started {
        running := running + {recognition};
      } else {
        notices := notices + [StartFailed];
        restarting := false;
      }
    }

    method StopWakeWordDetection()
      modifies this
      ensures Model() == StopStep(old(Model()))
    {
      if current.Some? {
        running := running - {current.value};
        current := None;
      }
    }

    method OnStart()
      modifies this
      ensures Model() == BeganStep(old(Model()))
    {
      listening := true;
    }

    method OnResult(results: seq<seq<string>>, connected: bool)
      modifies this
      ensures Model() == ResultStep(old(Model()), results, connected)
    {
      if HeardWakeWord(results) {
        if current.Some? {
          running := running - {current.value};
          current := None;
          listening := false;
        }
        if !connected {
          wakeSignals := wakeSignals + 1;
        }
      }
    }

    method OnEnd(h: Handle, connected: bool)
      modifies this
      ensures Model() == EndedStep(old(Model()), h, connected)
    {
      listening := false;
      running := running - {h};
      if !connected && !restarting {
        pending := pending + [RestartAfterEnd];
      }
    }

    method OnError(h: Handle, code: string, connected: bool)
      modifies this
      ensures Model() == ErroredStep(old(Model()), h, code, connected)
    {
      running := running - {h};
      if code != AbortedCode && code != NetworkCode && !restarting {
        notices := notices + [RecognitionFault];
      }
      if code != AbortedCode && !connected && !restarting {
        current := None;
        pending := pending + [RestartAfterError];
      }
    }

    method RunTimer(i: nat, supported: bool, outcome: StartOutcome)
      requires i < |pending|
      modifies this
      ensures Model() == TimerStep(old(Model()), i, supported, outcome)
    {
      var timer := pending[i];
      pending := Without(pending, i);
      if timer == ClearRestarting {
        restarting := false;
      } else {
        StartWakeWordDetection(supported, outcome);
      }
    }
  }
}
