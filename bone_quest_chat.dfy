/**
 * The chat component: the transcript, the session client's callbacks, its own
 * inline wake-word listener (no restart guard, a 300 ms resume of the same
 * recognizer after `onend`) and the microphone toggle. The step functions say
 * what each callback, timer and awaited call does to the whole state; the class
 * `ChatComponent` performs the same steps on fields.
 *
 * `connected` and `permission` parameters are `isConnected` and
 * `hasMicPermission` as the closure that runs captured them. `running` is the
 * platform's side: the recognizers started and not stopped, ended or failed.
 */
module BoneQuestChat {
  import opened Wrappers
  import opened Recognizer
  import opened Pending
  import Transcript

  /** A `setTimeout` callback or an awaited session call not yet settled. */
  datatype Task =
    | Rearm           // a delayed `startWakeWordDetection`
    | ResumeAfterEnd  // the 300 ms callback of `onend` that restarts the same recognizer
    | AwaitOpen       // `conversation.startSession` in flight
    | AwaitEnd        // `conversation.endSession` in flight

  /** A toast the component shows. */
  datatype Notice =
    | NotSupported | StartFailed | RecognitionFault
    | MicrophoneRequired | AllowMicrophone
    | SessionOpened | OpenFailed | SessionEnded | EndFailed | SessionFault

  datatype Chat = Chat(
    messages: seq<Transcript.Message>,
    ready: bool,
    hasMicPermission: bool,
    listening: bool,
    current: Option<Handle>,
    running: set<Handle>,
    nextId: Handle,
    pending: seq<Task>,
    notices: seq<Notice>,
    opens: nat)              // calls of `conversation.startSession`

  const Initial: Chat := Chat([], false, false, false, None, {}, 0, [], [], 0)

  /** Every handle in use was created before. */
  predicate WellFormed(s: Chat)
  {
    && (s.current.Some? ==> s.current.value < s.nextId)
    && forall h :: h in s.running ==> h < s.nextId
  }

  /** `if (recognitionRef.current) { stop(); recognitionRef.current = null; setIsWakeWordListening(false); }` */
  function StopListening(s: Chat): Chat
  {
    if s.current.Some? then
      s.(current := None, running := s.running - {s.current.value}, listening := false)
    else s
  }

  /** `onConnect`. */
  function ConnectStep(s: Chat): (r: Chat)
    ensures r == s.(ready := true)
  {
    s.(ready := true)
  }

  /** `onDisconnect`: not ready; the listener is re-armed only when permission is held. */
  function DisconnectStep(s: Chat, permission: bool): (r: Chat)
    ensures !r.ready
    ensures r.pending == s.pending + (if permission then [Rearm] else [])
    ensures r.(ready := s.ready, pending := s.pending) == s
  {
    var idle := s.(ready := false);
    if permission then idle.(pending := idle.pending + [Rearm]) else idle
  }

  /** `onMessage`: the transcript is extended as `AppendReceived` says; nothing else changes. */
  function MessageStep(s: Chat, source: string, text: string): (r: Chat)
    ensures r.messages == Transcript.AppendReceived(s.messages, source, text)
    ensures |s.messages| <= |r.messages| && r.messages[..|s.messages|] == s.messages
    ensures r.(messages := s.messages) == s
  {
    s.(messages := Transcript.AppendReceived(s.messages, source, text))
  }

  /** `onError` of the session: a toast, nothing else. */
  function ConversationErrorStep(s: Chat): (r: Chat)
    ensures r == s.(notices := s.notices + [SessionFault])
  {
    s.(notices := s.notices + [SessionFault])
  }

  /** The permission check at mount, with the outcome of `getUserMedia` as `granted`. */
  function PermissionCheckStep(s: Chat, granted: bool): (r: Chat)
    ensures r.hasMicPermission == granted
    ensures r.notices == s.notices + (if granted then [] else [MicrophoneRequired])
    ensures r.(hasMicPermission := s.hasMicPermission, notices := s.notices) == s
  {
    if granted then s.(hasMicPermission := true)
    else s.(hasMicPermission := false, notices := s.notices + [MicrophoneRequired])
  }

  /** The cleanup at unmount: stop and forget the recognizer. */
  function UnmountStep(s: Chat): (r: Chat)
    ensures r.current == None && r.running == s.running - Held(s.current)
    ensures r.(current := s.current, running := s.running) == s
  {
    s.(current := None, running := s.running - Held(s.current))
  }

  /** The inline `startWakeWordDetection`. */
  function StartStep(s: Chat, supported: bool, outcome: StartOutcome): (r: Chat)
    ensures !supported ==> r == s.(notices := s.notices + [NotSupported])
    ensures supported && outcome == Started ==>
              r == s.(current := Some(s.nextId), running := s.running - Held(s.current) + {s.nextId},
                       nextId := s.nextId + 1)
    ensures supported && outcome == ConstructorThrew ==>
              r == s.(current := None, running := s.running - Held(s.current),
                       notices := s.notices + [StartFailed])
    ensures supported && outcome == StartThrew ==>
              r == s.(current := Some(s.nextId), running := s.running - Held(s.current),
                       nextId := s.nextId + 1, notices := s.notices + [StartFailed])
  {
    if !supported then
      s.(notices := s.notices + [NotSupported])
    else
      var released := s.(current := None, running := s.running - Held(s.current));
      match outcome
      case ConstructorThrew => released.(notices := released.notices + [StartFailed])
      case Started =>
        released.(current := Some(s.nextId), nextId := s.nextId + 1,
                  running := released.running + {s.nextId})
      case StartThrew =>
        released.(current := Some(s.nextId), nextId := s.nextId + 1,
                  notices := released.notices + [StartFailed])
  }

  /** `onstart`. */
  function BeganStep(s: Chat): (r: Chat)
    ensures r == s.(listening := true)
  {
    s.(listening := true)
  }

  /**
   * `onresult`: on the wake phrase the current recognizer is stopped and
   * forgotten, and unless connected exactly one session open is started;
   * any other result changes nothing.
   */
  function ResultStep(s: Chat, results: seq<seq<string>>, connected: bool): (r: Chat)
    ensures !HeardWakeWord(results) ==> r == s
    ensures HeardWakeWord(results) ==>
              && r.current == None
              && r.running == s.running - Held(s.current)
              && r.listening == (s.listening && s.current.None?)
              && r.opens == s.opens + (if connected then 0 else 1)
              && r.pending == s.pending + (if connected then [] else [AwaitOpen])
              && r.(current := s.current, running := s.running, listening := s.listening,
                    opens := s.opens, pending := s.pending) == s
  {
    if !HeardWakeWord(results) then s
    else
      var stopped := StopListening(s);
      if !connected then stopped.(opens := stopped.opens + 1, pending := stopped.pending + [AwaitOpen])
      else stopped
  }

  /**
   * `onend` of recognizer `h`: the flag drops, and the same recognizer is
   * resumed 300 ms later when not connected and the slot is still occupied.
   */
  function EndedStep(s: Chat, h: Handle, connected: bool): (r: Chat)
    ensures !r.listening
    ensures r.running == s.running - {h}
    ensures r.pending == s.pending + (if !connected && s.current.Some? then [ResumeAfterEnd] else [])
    ensures r.(listening := s.listening, running := s.running, pending := s.pending) == s
  {
    var ended := s.(listening := false, running := s.running - {h});
    if !connected && s.current.Some? then ended.(pending := ended.pending + [ResumeAfterEnd])
    else ended
  }

  /**
   * `onerror` of recognizer `h` (which has then stopped): every code but
   * `aborted` notifies; the slot is cleared and a re-arm scheduled exactly when
   * the code is not `aborted` and the closure is not connected.
   */
  function ErroredStep(s: Chat, h: Handle, code: string, connected: bool): (r: Chat)
    ensures r.notices == s.notices + (if code != AbortedCode then [RecognitionFault] else [])
    ensures r.current == (if code != AbortedCode && !connected then None else s.current)
    ensures r.pending == s.pending + (if code != AbortedCode && !connected then [Rearm] else [])
    ensures r.running == s.running - {h}
    ensures r.(notices := s.notices, current := s.current, pending := s.pending, running := s.running) == s
  {
    var failed := s.(running := s.running - {h});
    var told := if code == AbortedCode then failed
                else failed.(notices := failed.notices + [RecognitionFault]);
    if code != AbortedCode && !connected then
      told.(current := None, pending := told.pending + [Rearm])
    else told
  }

  /**
   * `handleMicToggle`, with the outcome of the permission request as `granted`:
   * without permission and with the request refused nothing but a toast
   * happens; connected, the session end is started; otherwise the listener is
   * stopped first and then the session open is started.
   */
  function ToggleStep(s: Chat, connected: bool, granted: bool): (r: Chat)
    ensures !s.hasMicPermission && !granted ==> r == s.(notices := s.notices + [AllowMicrophone])
    ensures s.hasMicPermission || granted ==> r.hasMicPermission && r.notices == s.notices
    ensures (s.hasMicPermission || granted) && connected ==>
              r == s.(hasMicPermission := true, pending := s.pending + [AwaitEnd])
    ensures (s.hasMicPermission || granted) && !connected ==>
              r == s.(hasMicPermission := true, current := None,
                       running := s.running - Held(s.current),
                       listening := s.listening && s.current.None?,
                       opens := s.opens + 1, pending := s.pending + [AwaitOpen])
    ensures r.messages == s.messages && r.ready == s.ready && r.nextId == s.nextId
  {
    if !s.hasMicPermission && !granted then
      s.(notices := s.notices + [AllowMicrophone])
    else
      var allowed := s.(hasMicPermission := true);
      if connected then
        allowed.(pending := allowed.pending + [AwaitEnd])
      else
        var stopped := StopListening(allowed);
        stopped.(opens := stopped.opens + 1, pending := stopped.pending + [AwaitOpen])
  }

  /**
   * The task at index `i` settles. `supported` and `outcome` decide a re-arm,
   * `ok` whether the resumed `start()` or the awaited session call succeeds.
   * A resume re-checks the slot and does nothing when it is empty; when
   * `start()` throws (always so for a recognizer still running) the slot is
   * cleared and a full re-arm scheduled. Settling a session call only adds its
   * toast and, where the code says so, a re-arm.
   */
  function TaskStep(s: Chat, i: nat, supported: bool, outcome: StartOutcome, ok: bool): (r: Chat)
    requires i < |s.pending|
    ensures s.pending[i] == Rearm ==>
              r == StartStep(s.(pending := Without(s.pending, i)), supported, outcome)
    ensures s.pending[i] == ResumeAfterEnd && s.current.None? ==>
              r == s.(pending := Without(s.pending, i))
    ensures s.pending[i] == ResumeAfterEnd && s.current.Some? && (s.current.value in s.running || !ok) ==>
              r == s.(current := None, pending := Without(s.pending, i) + [Rearm])
    ensures s.pending[i] == ResumeAfterEnd && s.current.Some? && s.current.value !in s.running && ok ==>
              r == s.(running := s.running + {s.current.value}, pending := Without(s.pending, i))
    ensures s.pending[i] == AwaitOpen ==>
              r == s.(notices := s.notices + [if ok then SessionOpened else OpenFailed],
                       pending := Without(s.pending, i) + (if ok then [] else [Rearm]))
    ensures s.pending[i] == AwaitEnd ==>
              r == s.(notices := s.notices + [if ok then SessionEnded else EndFailed],
                       pending := Without(s.pending, i) + (if ok then [Rearm] else []))
    ensures r.messages == s.messages && r.opens == s.opens
  {
    var rest := s.(pending := Without(s.pending, i));
    match s.pending[i]
    case Rearm => StartStep(rest, supported, outcome)
    case ResumeAfterEnd =>
      if rest.current.None? then rest
      else if rest.current.value in rest.running || !ok then
        rest.(current := None, pending := rest.pending + [Rearm])
      else rest.(running := rest.running + {rest.current.value})
    case AwaitOpen =>
      if ok then rest.(notices := rest.notices + [SessionOpened])
      else rest.(notices := rest.notices + [OpenFailed], pending := rest.pending + [Rearm])
    case AwaitEnd =>
      if ok then rest.(notices := rest.notices + [SessionEnded], pending := rest.pending + [Rearm])
      else rest.(notices := rest.notices + [EndFailed])
  }

  /** One thing that can happen to the component, with the environment's choices. */
  datatype Event =
    | Connected
    | Disconnected(permission: bool)
    | MessageReceived(source: string, text: string)
    | ConversationError
    | PermissionChecked(granted: bool)
    | Unmounted
    | Began
    | Result(results: seq<seq<string>>, connected: bool)
    | Ended(h: Handle, connected: bool)
    | Errored(h: Handle, code: string, connected: bool)
    | Toggled(connected: bool, granted: bool)
    | Settled(i: nat, supported: bool, outcome: StartOutcome, ok: bool)

  function Apply(s: Chat, e: Event): Chat
  {
    match e
    case Connected => ConnectStep(s)
    case Disconnected(permission) => DisconnectStep(s, permission)
    case MessageReceived(source, text) => MessageStep(s, source, text)
    case ConversationError => ConversationErrorStep(s)
    case PermissionChecked(granted) => PermissionCheckStep(s, granted)
    case Unmounted => UnmountStep(s)
    case Began => BeganStep(s)
    case Result(results, connected) => ResultStep(s, results, connected)
    case Ended(h, connected) => EndedStep(s, h, connected)
    case Errored(h, code, connected) => ErroredStep(s, h, code, connected)
    case Toggled(connected, granted) => ToggleStep(s, connected, granted)
    case Settled(i, supported, outcome, ok) =>
      if i < |s.pending| then TaskStep(s, i, supported, outcome, ok) else s
  }

  function Run(s: Chat, events: seq<Event>): Chat
    decreases |events|
  {
    if events == [] then s else Run(Apply(s, events[0]), events[1..])
  }

  /** The component's state as fields, one method per callback, timer or awaited call. */
  class ChatComponent {
    var messages: seq<Transcript.Message>
    var isReady: bool
    var hasMicPermission: bool
    var isWakeWordListening: bool
    var current: Option<Handle>
    var running: set<Handle>
    var nextId: Handle
    var pending: seq<Task>
    var notices: seq<Notice>
    var opens: nat

    function Model(): Chat
      reads this
    {
      Chat(messages, isReady, hasMicPermission, isWakeWordListening, current, running, nextId,
           pending, notices, opens)
    }

    constructor ()
      ensures Model() == Initial
    {
      messages, isReady, hasMicPermission, isWakeWordListening := [], false, false, false;
      current, running, nextId := None, {}, 0;
      pending, notices, opens := [], [], 0;
    }

    method OnConnect()
      modifies this
      ensures Model() == ConnectStep(old(Model()))
    {
      isReady := true;
    }

    method OnDisconnect(permission: bool)
      modifies this
      ensures Model() == DisconnectStep(old(Model()), permission)
    {
      isReady := false;
      if permission {
        pending := pending + [Rearm];
      }
    }

    method OnMessage(source: string, text: string)
      modifies this
      ensures Model() == MessageStep(old(Model()), source, text)
    {
      messages := Transcript.AppendReceived(messages, source, text);
    }

    method OnConversationError()
      modifies this
      ensures Model() == ConversationErrorStep(old(Model()))
    {
      notices := notices + [SessionFault];
    }

    method CheckMicPermission(granted: bool)
      modifies this
      ensures Model() == PermissionCheckStep(old(Model()), granted)
    {
      if granted {
        hasMicPermission := true;
      } else {
        hasMicPermission := false;
        notices := notices + [MicrophoneRequired];
      }
    }

    method Unmount()
      modifies this
      ensures Model() == UnmountStep(old(Model()))
    {
      if current.Some? {
        running := running - {current.value};
        current := None;
      }
    }

    method StartWakeWordDetection(supported: bool, outcome: StartOutcome)
      modifies this
      ensures Model() == StartStep(old(Model()), supported, outcome)
    {
      if !supported {
        notices := notices + [NotSupported];
        return;
      }
      if current.Some? {
        running := running - {current.value};
        current := None;
      }
      if outcome == ConstructorThrew {
        notices := notices + [StartFailed];
        return;
      }
      var recognition := nextId;
      nextId := nextId + 1;
      current := Some(recognition);
      if outcome == Started {
        running := running + {recognition};
      } else {
        notices := notices + [StartFailed];
      }
    }

    method OnRecognitionStart()
      modifies this
      ensures Model() == BeganStep(old(Model()))
    {
      isWakeWordListening := true;
    }

    method OnRecognitionResult(results: seq<seq<string>>, connected: bool)
      modifies this
      ensures Model() == ResultStep(old(Model()), results, connected)
    {
      if HeardWakeWord(results) {
        if current.Some? {
          running := running - {current.value};
          current := None;
          isWakeWordListening := false;
        }
        if !connected {
          opens := opens + 1;
          pending := pending + [AwaitOpen];
        }
      }
    }

    method OnRecognitionEnd(h: Handle, connected: bool)
      modifies this
      ensures Model() == EndedStep(old(Model()), h, connected)
    {
      isWakeWordListening := false;
      running := running - {h};
      if !connected && current.Some? {
        pending := pending + [ResumeAfterEnd];
      }
    }

    method OnRecognitionError(h: Handle, code: string, connected: bool)
      modifies this
      ensures Model() == ErroredStep(old(Model()), h, code, connected)
    {
      running := running - {h};
      if code != AbortedCode {
        notices := notices + [RecognitionFault];
      }
      if code != AbortedCode && !connected {
        current := None;
        pending := pending + [Rearm];
      }
    }

    method HandleMicToggle(connected: bool, granted: bool)
      modifies this
      ensures Model() == ToggleStep(old(Model()), connected, granted)
    {
      if !hasMicPermission {
        if !granted {
          notices := notices + [AllowMicrophone];
          return;
        }
        hasMicPermission := true;
      }
      if connected {
        pending := pending + [AwaitEnd];
      } else {
        if current.Some? {
          running := running - {current.value};
          current := None;
          isWakeWordListening := false;
        }
        opens := opens + 1;
        pending := pending + [AwaitOpen];
      }
    }

    method Settle(i: nat, supported: bool, outcome: StartOutcome, ok: bool)
      requires i < |pending|
      modifies this
      ensures Model() == TaskStep(old(Model()), i, supported, outcome, ok)
    {
      var task := pending[i];
      pending := Without(pending, i);
      match task {
        case Rearm =>
          StartWakeWordDetection(supported, outcome);
        case ResumeAfterEnd =>
          if current.Some? {
            var recognition := current.value;
            if recognition in running || !ok {
              current := None;
              pending := pending + [Rearm];
            } else {
              running := running + {recognition};
            }
          }
        case AwaitOpen =>
          if ok {
            notices := notices + [SessionOpened];
          } else {
            notices := notices + [OpenFailed];
            pending := pending + [Rearm];
          }
        case AwaitEnd =>
          if ok {
            notices := notices + [SessionEnded];
            pending := pending + [Rearm];
          } else {
            notices := notices + [EndFailed];
          }
      }
    }
  }
}
