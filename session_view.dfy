/**
 * The values the chat derives from the session client's `status` and
 * `isSpeaking` for its controls: `isConnected`, `isListening`, the microphone
 * button's `disabled` flag and the status line under it.
 */
module SessionView {

  /** The session client's `status`. */
  datatype Status = Connected | Connecting | Disconnected | Disconnecting

  /** `isConnected`: the session is reported open; connecting and disconnecting count as not connected. */
  predicate IsConnected(status: Status): (r: bool)
    ensures status == Connecting || status == Disconnecting ==> !r
    ensures r <==> status == Connected
  {
    status == Connected
  }

  /** `isListening`: the agent is connected and not speaking. */
  predicate IsListening(status: Status, isSpeaking: bool): (r: bool)
    ensures r ==> IsConnected(status)
    ensures isSpeaking ==> !r
    ensures IsConnected(status) && !isSpeaking ==> r
  {
    IsConnected(status) && !isSpeaking
  }

  /** `disabled` of the microphone button: without permission, and only while not connected. */
  predicate MicDisabled(hasMicPermission: bool, status: Status): (r: bool)
    ensures hasMicPermission ==> !r
    ensures IsConnected(status) ==> !r
    ensures !hasMicPermission && !IsConnected(status) ==> r
  {
    !hasMicPermission && !IsConnected(status)
  }

  /** The four status lines. */
  datatype StatusLine = AgentSpeaking | AgentListening | SayWakeWord | ClickToStart

  function LineText(line: StatusLine): string
  {
    match line
    case AgentSpeaking => "BoneQuest is speaking..."
    case AgentListening => "BoneQuest is listening..."
    case SayWakeWord => "Say 'Hey BoneQuest' to start"
    case ClickToStart => "Click the microphone to start"
  }

  /**
   * The status line chosen from the connection, speaking and wake-word flags:
   * it says the agent listens exactly when `isListening` holds, and invites the
   * wake phrase exactly when disconnected with the listener on.
   */
  function StatusLineOf(status: Status, isSpeaking: bool, isWakeWordListening: bool): (line: StatusLine)
    ensures line == AgentListening <==> IsListening(status, isSpeaking)
    ensures line == AgentSpeaking <==> IsConnected(status) && isSpeaking
    ensures line == SayWakeWord <==> !IsConnected(status) && isWakeWordListening
    ensures line == ClickToStart <==> !IsConnected(status) && !isWakeWordListening
  {
    if IsConnected(status) then
      (if isSpeaking then AgentSpeaking else AgentListening)
    else if isWakeWordListening then SayWakeWord
    else ClickToStart
  }

  /** A disabled button is only ever shown while disconnected. */
  lemma DisabledOnlyWhileDisconnected(hasMicPermission: bool, status: Status, isSpeaking: bool, w: bool)
    requires MicDisabled(hasMicPermission, status)
    ensures StatusLineOf(status, isSpeaking, w) in {SayWakeWord, ClickToStart}
    ensures !IsListening(status, isSpeaking)
  {
  }
}
