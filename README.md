# BoneQuest voice chat: wake-word listener and session coordinator

This project models the logic of the BoneQuest voice-chat front end and proves
properties of it. The front end links the microphone to a remote voice agent.
While no session is open, it keeps a browser speech recognizer listening for
the wake phrase "hey bonequest". When it hears the phrase, or when the user
clicks the microphone button, it opens a voice session. When the session
ends or fails, it goes back to listening. It also keeps a transcript of the
session and derives what the message list, the speech bubble and the status
line show.

The model has three parts:

- **Wake-word listener hook** (`src/hooks/useSpeechRecognition.ts`). Module
  `SpeechRecognitionHook` holds the step functions and the class
  `WakeWordListener`. The state is the recognizer slot (`recognitionRef`), the
  restart guard (`isRestartingRef`), the `isWakeWordListening` flag, the
  pending `setTimeout` callbacks, the toasts shown, and the number of
  `onWakeWordDetected` calls. Each callback (`onstart`, `onresult`, `onend`,
  `onerror`), each public function (start, stop) and each timer is one step.
- **Chat component** (`src/components/BoneQuestChat.tsx`). Module
  `BoneQuestChat` holds the step functions and the class `ChatComponent`:
  - the session client's callbacks (`onConnect`, `onDisconnect`, `onMessage`,
    `onError`);
  - the component's own inline listener, which has no restart guard and which,
    300 ms after `onend`, restarts the *same* recognizer;
  - `handleMicToggle`;
  - the permission check at mount and the cleanup at unmount.

  Calls the component awaits (`startSession`, `endSession`) are pending tasks
  that settle later, as successes or failures.
- **Transcript and view** (`BoneQuestChat.tsx`, `src/components/MessagesDisplay.tsx`).
  Module `Transcript` covers how `onMessage` classifies a message,
  `speakingMessageIndex`, `lastBotMessage`, and the per-row hidden and speaking
  flags. Module `SessionView` covers `isConnected`, `isListening`, the
  button's `disabled` flag and the status line.

Each class method is proved to produce exactly the state that its step
function gives (`ensures Model() == XStep(old(Model()), ...)`). The contracts
of the step functions, and the lemmas in `HookProperties` and
`ChatProperties`, state what the source promises. At the level of runs,
`Apply` performs one event and `Run` performs a sequence of events.

Snapshot semantics. A callback reads `isConnected` and `hasMicPermission` as
they were when its closure was created, so the model passes them as
parameters (`connected`, `permission`). The one exception is
`handleMicToggle`: it reads `hasMicPermission` from the current state
(`ToggleStep` uses the field), because a click always runs the closure of the
latest render. The recognizer's side is modelled as
`running`: the set of recognizers that were started and have not yet been
stopped, ended or failed. Two rules of the Web Speech API are part of the
model:

- a recognizer that reports an error has stopped;
- `start()` on a recognizer that is already running throws.

The Web Speech API is the interface declared in `src/vite-env.d.ts`.

What the proofs show about the single recognizer. `SingleInstanceStep` (one
for each part) proves that a step keeps "at most one recognizer runs, and it
is the one in the slot" *exactly* when the step does not orphan the running
recognizer. Orphaning means clearing the slot without stopping the recognizer
in it. The source has steps that do this, because callbacks of replaced
recognizers act on the shared slot:

- In the hook, a late error from an earlier recognizer, once the guard has
  cleared: `StaleErrorLeavesTwoRunning`.
- In the component, the late `onend` of a replaced recognizer. The 300 ms
  resume then finds the new recognizer running, its `start()` throws, and the
  slot is cleared: `StaleEndLeavesTwoRunning`.

In both cases the restart that follows leaves two recognizers running. The
`Reach` lemmas show how such a setting arises from the initial state.

Where the code and the intended design differ, the model follows the code:

- The wake phrase is a plain substring test on the lower-cased last
  transcript. There is no trimming and no handling of punctuation, so
  "hey, bonequest" does not trigger (`CommaDefeatsPhrase`).
- Nothing prevents two session opens at once (`RapidTogglesOpenTwice`).
- Restarts have no retry budget and no back-off. Only the guard flag and the
  connection gate hold them back.
- Callbacks carry no generation stamps.
- On the wake phrase, `isWakeWordListening` is cleared only when the slot held
  a recognizer. The same holds when the toggle stops the listener.
- The 300 ms resume in the component checks `isConnected` again. That check
  reads the same captured value as the `onend` that scheduled the resume, so
  it always passes. Only the check that the slot still holds a recognizer has
  an effect.

## Model

| member | source | states |
|---|---|---|
| Text.ToLower | src/hooks/useSpeechRecognition.ts:51 | lower-casing keeps the length and maps each character by itself |
| Text.ContainsIffOccurs | src/hooks/useSpeechRecognition.ts:54 | the position-by-position `includes` search succeeds exactly when the pattern occurs somewhere in the string |
| Recognizer.LastTranscript | src/hooks/useSpeechRecognition.ts:51 | the first alternative of the last result; none exactly when the list or its last result is empty, where the lookup throws and the `catch` at :67-69 ignores the event |
| Recognizer.HeardWakeWord | src/hooks/useSpeechRecognition.ts:51-54 | only a non-empty last result whose first alternative is at least as long as the phrase can trigger |
| Recognizer.HeardWakeWordIff | src/hooks/useSpeechRecognition.ts:51-54 | a result triggers exactly when its last result has a first alternative whose lower-cased text contains "hey bonequest"; an empty result list never triggers |
| Recognizer.CapitalisedPhraseTriggers | src/hooks/useSpeechRecognition.ts:51-54 | "Hey BoneQuest" triggers, because of the lower-casing |
| Recognizer.CommaDefeatsPhrase | src/hooks/useSpeechRecognition.ts:54 | "hey, bonequest" does not trigger: the test is a plain substring search |
| Recognizer.OnlyLastResultCounts | src/hooks/useSpeechRecognition.ts:51 | only the last result is tested: a match in an earlier result is ignored, and an empty last result or an empty list does not trigger |
| SpeechRecognitionHook.StartStep | src/hooks/useSpeechRecognition.ts:15-107 | unsupported: only a toast. Otherwise the old recognizer is stopped and forgotten, the guard is set and its clearing timer scheduled. On success the new recognizer is the current, running one. If the constructor throws, the slot stays empty. If `start()` throws, the slot holds the unstarted recognizer. Both failures show a toast and reset the guard at once |
| SpeechRecognitionHook.StopStep | src/hooks/useSpeechRecognition.ts:109-114 | with no recognizer nothing changes; otherwise it is stopped and the slot left empty; nothing else changes |
| SpeechRecognitionHook.BeganStep | src/hooks/useSpeechRecognition.ts:43-46 | `onstart` sets the listening flag and nothing else |
| SpeechRecognitionHook.ResultStep | src/hooks/useSpeechRecognition.ts:48-70 | a non-matching result changes nothing. On a match the current recognizer is stopped and forgotten, the flag is cleared if there was one, and the wake-word callback is called exactly when not connected |
| SpeechRecognitionHook.EndedStep | src/hooks/useSpeechRecognition.ts:72-82 | the flag drops; a restart is scheduled exactly when not connected and not restarting |
| SpeechRecognitionHook.ErroredStep | src/hooks/useSpeechRecognition.ts:84-96 | `aborted`/`network` never notify; other codes notify exactly when not restarting. The slot is cleared and a restart scheduled exactly when the code is not `aborted`, not connected and not restarting |
| SpeechRecognitionHook.TimerStep | src/hooks/useSpeechRecognition.ts:32-34 | the guard timer only clears the guard; a restart timer is a fresh start; the timer leaves the pending list |
| SpeechRecognitionHook.WakeWordListener.constructor | src/hooks/useSpeechRecognition.ts:11-13 | empty slot, guard and flag false, nothing pending |
| SpeechRecognitionHook.WakeWordListener.StartWakeWordDetection | src/hooks/useSpeechRecognition.ts:15-107 | the fields become `StartStep` of the old fields |
| SpeechRecognitionHook.WakeWordListener.StopWakeWordDetection | src/hooks/useSpeechRecognition.ts:109-114 | the fields become `StopStep` of the old fields |
| SpeechRecognitionHook.WakeWordListener.OnStart | src/hooks/useSpeechRecognition.ts:43-46 | the fields become `BeganStep` of the old fields |
| SpeechRecognitionHook.WakeWordListener.OnResult | src/hooks/useSpeechRecognition.ts:48-70 | the fields become `ResultStep` of the old fields |
| SpeechRecognitionHook.WakeWordListener.OnEnd | src/hooks/useSpeechRecognition.ts:72-82 | the fields become `EndedStep` of the old fields |
| SpeechRecognitionHook.WakeWordListener.OnError | src/hooks/useSpeechRecognition.ts:84-96 | the fields become `ErroredStep` of the old fields |
| SpeechRecognitionHook.WakeWordListener.RunTimer | src/hooks/useSpeechRecognition.ts:32-34 | the fields become `TimerStep` of the old fields |
| HookProperties.RunKeepsWellFormed | src/hooks/useSpeechRecognition.ts:37 | every recognizer in the slot or running was created earlier, after any run of events |
| HookProperties.StartLeavesOnlyNewest | src/hooks/useSpeechRecognition.ts:21-99 | from a state where the single-instance invariant holds, after a successful start exactly one recognizer runs, and it is the newest one; the guard is set and its clearing timer is last in line |
| HookProperties.GuardClearedByItsTimer | src/hooks/useSpeechRecognition.ts:31-34 | a start schedules exactly one timer, and that timer, run next, clears the guard whatever the start's outcome |
| HookProperties.RunKeepsGuardClearable | src/hooks/useSpeechRecognition.ts:31-34 | over any run of events, the guard is set only while a guard-clearing timer is pending; the failed start at :105 and other timers firing keep this |
| HookProperties.GuardNeverSticks | src/hooks/useSpeechRecognition.ts:31-34 | after any run from the initial state, while the guard is set some pending timer clears it when it runs, whatever ran in between |
| HookProperties.StopIdempotent | src/hooks/useSpeechRecognition.ts:109-114 | stopping twice is stopping once |
| HookProperties.SingleInstanceStep | src/hooks/useSpeechRecognition.ts:92-95 | one step keeps the single-instance invariant exactly when it is not an error from another recognizer, one that clears the slot while the current recognizer runs |
| HookProperties.RunKeepsSingleInstance | src/hooks/useSpeechRecognition.ts:21-28 | a run with no orphaning step keeps at most one recognizer running, the current one |
| HookProperties.StaleErrorLeavesTwoRunning | src/hooks/useSpeechRecognition.ts:92-95 | a late `network` error from an earlier recognizer forgets the running one without toast, and the restart leaves two running |
| HookProperties.TwoStartsReachStaleSetting | src/hooks/useSpeechRecognition.ts:30-34 | two starts and the first guard timer reach that setting from the initial state |
| HookProperties.TransientErrorsAreSilent | src/hooks/useSpeechRecognition.ts:86-87 | any number of `aborted` and `network` errors show no toast |
| HookProperties.ErrorsWhileRestartingAreSilent | src/hooks/useSpeechRecognition.ts:88-95 | while the guard is set, errors of any code neither notify nor touch the slot or the timers |
| HookProperties.ConnectedGateStopsRestarts | src/hooks/useSpeechRecognition.ts:63-95 | while connected, recognizer callbacks schedule nothing, create no recognizer and never call the wake-word callback |
| HookProperties.NetworkErrorRecoversSilently | src/hooks/useSpeechRecognition.ts:86-95 | a `network` error from the current recognizer, when it is the only one running and the closure is disconnected and not restarting, is recovered with no toast: the restart brings up a new recognizer as the only running one |
| HookProperties.FaultNotifiesAndRestarts | src/hooks/useSpeechRecognition.ts:88-95 | any other code from the running recognizer notifies once, clears the slot and schedules a restart |
| Transcript.AppendReceived | src/components/BoneQuestChat.tsx:41-53 | the old list is a prefix of the new one. One entry is appended exactly when the text is non-empty and the source contains `assistant` or `user`. That entry is the agent's exactly when the source contains `assistant`, which is checked first |
| Transcript.FirstAgentIndex | src/components/MessagesDisplay.tsx:18 | `findIndex(!isUser)`: the first agent entry, with every earlier entry a user's; -1 exactly when every entry is a user's |
| Transcript.SpeakingIndex | src/components/BoneQuestChat.tsx:267 | -1 when not speaking; when speaking, the first agent entry, or -1 exactly when every entry is a user's |
| Transcript.AgentMessages | src/components/BoneQuestChat.tsx:268 | every kept entry is an agent entry of the list, and every agent entry is kept; a one-entry list is kept exactly when it is the agent's |
| Transcript.AgentMessagesAppend | src/components/BoneQuestChat.tsx:268 | the filter splits over concatenation, which with the one-entry case makes the result the agent entries in their original order |
| Transcript.LastBotMessage | src/components/BoneQuestChat.tsx:268 | `''` when there is no agent entry; a non-empty result is the content of some agent entry |
| Transcript.NoAgentNoBotMessage | src/components/BoneQuestChat.tsx:268 | with no agent entry, `lastBotMessage` is empty |
| Transcript.LastBotMessageIsLastAgent | src/components/BoneQuestChat.tsx:268 | `lastBotMessage` is the content of the last agent entry |
| Transcript.Render | src/components/MessagesDisplay.tsx:23-42 | a placeholder exactly when the list is empty; otherwise one row per entry with its content and role. A row is hidden exactly when it is an agent entry at the last index. It is flagged speaking exactly when speaking and it is the first agent entry |
| Transcript.AtMostOneSpeaking | src/components/MessagesDisplay.tsx:34 | at most one row is flagged speaking, never a user's, and only while speaking |
| Transcript.Bubble | src/components/BoneQuestChat.tsx:275-283 | the bubble is shown exactly when the list is non-empty; it shows the content of the last agent entry, even when user entries follow it, and a non-empty text in it is always some agent entry's content |
| Transcript.HiddenEntryIsInBubble | src/components/BoneQuestChat.tsx:275-297 | the entry the list hides is exactly what the speech bubble shows |
| SessionView.IsConnected | src/components/BoneQuestChat.tsx:62 | connected exactly when the status is `connected`; connecting and disconnecting count as not connected |
| SessionView.IsListening | src/components/BoneQuestChat.tsx:63 | listening implies connected, never while speaking, and always when connected and not speaking |
| SessionView.MicDisabled | src/components/BoneQuestChat.tsx:319 | never disabled with permission or while connected; disabled when both are missing |
| SessionView.StatusLineOf | src/components/BoneQuestChat.tsx:323-330 | "listening" exactly when `isListening` (connected and not speaking); "speaking" exactly when connected and speaking; the wake-phrase prompt exactly when disconnected and listening for it; otherwise the click prompt |
| SessionView.DisabledOnlyWhileDisconnected | src/components/BoneQuestChat.tsx:319 | a disabled button only goes with a disconnected status line and never with `isListening` |
| BoneQuestChat.ConnectStep | src/components/BoneQuestChat.tsx:27-30 | `onConnect` makes the component ready and changes nothing else |
| BoneQuestChat.DisconnectStep | src/components/BoneQuestChat.tsx:31-40 | `onDisconnect` makes it not ready and schedules a re-arm exactly when the captured permission is held |
| BoneQuestChat.MessageStep | src/components/BoneQuestChat.tsx:41-53 | the new transcript is `AppendReceived` of the old one, so the old one is a prefix of it; nothing else changes |
| BoneQuestChat.ConversationErrorStep | src/components/BoneQuestChat.tsx:54-57 | a session error shows a toast and does nothing else |
| BoneQuestChat.PermissionCheckStep | src/components/BoneQuestChat.tsx:72-84 | the permission flag becomes the outcome; a refusal shows a toast |
| BoneQuestChat.UnmountStep | src/components/BoneQuestChat.tsx:88-95 | unmounting stops and forgets the recognizer |
| BoneQuestChat.StartStep | src/components/BoneQuestChat.tsx:110-216 | unsupported: only a toast. Otherwise the old recognizer is stopped and forgotten. On success the new one is the current, running one. If the constructor throws, the slot stays empty. If `start()` throws, the slot holds the new recognizer, unstarted. Both failures show a toast |
| BoneQuestChat.BeganStep | src/components/BoneQuestChat.tsx:130-133 | `onstart` sets the listening flag and nothing else |
| BoneQuestChat.ResultStep | src/components/BoneQuestChat.tsx:135-167 | a non-matching result changes nothing. On a match the recognizer is stopped and forgotten, and exactly one session open starts exactly when not connected |
| BoneQuestChat.EndedStep | src/components/BoneQuestChat.tsx:169-189 | the flag drops; a resume is scheduled exactly when not connected and the slot holds a recognizer |
| BoneQuestChat.ErroredStep | src/components/BoneQuestChat.tsx:191-205 | every code but `aborted` notifies; the slot is cleared and a re-arm scheduled exactly when the code is not `aborted` and not connected |
| BoneQuestChat.ToggleStep | src/components/BoneQuestChat.tsx:218-264 | permission missing and refused: only a toast, no session call. Connected: permission recorded and a session end starts. Otherwise permission is recorded, the listener is stopped and forgotten, and exactly one session open starts; nothing else changes, `isReady` and the transcript included |
| BoneQuestChat.TaskStep | src/components/BoneQuestChat.tsx:152-262 | a re-arm is a fresh start. A resume finding the slot empty does nothing. A resume whose `start()` throws, always so on a recognizer still running, clears the slot and schedules a re-arm; a successful one puts the recognizer back among the running. A settled open or end adds its toast, and a failed open or a confirmed end schedules a re-arm. Each case states the whole new state |
| BoneQuestChat.ChatComponent.constructor | src/components/BoneQuestChat.tsx:17-22 | empty transcript, all flags false, empty slot, nothing pending |
| BoneQuestChat.ChatComponent.OnConnect | src/components/BoneQuestChat.tsx:27-30 | the fields become `ConnectStep` of the old fields |
| BoneQuestChat.ChatComponent.OnDisconnect | src/components/BoneQuestChat.tsx:31-40 | the fields become `DisconnectStep` of the old fields |
| BoneQuestChat.ChatComponent.OnMessage | src/components/BoneQuestChat.tsx:41-53 | the fields become `MessageStep` of the old fields |
| BoneQuestChat.ChatComponent.OnConversationError | src/components/BoneQuestChat.tsx:54-57 | the fields become `ConversationErrorStep` of the old fields |
| BoneQuestChat.ChatComponent.CheckMicPermission | src/components/BoneQuestChat.tsx:72-84 | the fields become `PermissionCheckStep` of the old fields |
| BoneQuestChat.ChatComponent.Unmount | src/components/BoneQuestChat.tsx:88-95 | the fields become `UnmountStep` of the old fields |
| BoneQuestChat.ChatComponent.StartWakeWordDetection | src/components/BoneQuestChat.tsx:110-216 | the fields become `StartStep` of the old fields |
| BoneQuestChat.ChatComponent.OnRecognitionStart | src/components/BoneQuestChat.tsx:130-133 | the fields become `BeganStep` of the old fields |
| BoneQuestChat.ChatComponent.OnRecognitionResult | src/components/BoneQuestChat.tsx:135-167 | the fields become `ResultStep` of the old fields |
| BoneQuestChat.ChatComponent.OnRecognitionEnd | src/components/BoneQuestChat.tsx:169-189 | the fields become `EndedStep` of the old fields |
| BoneQuestChat.ChatComponent.OnRecognitionError | src/components/BoneQuestChat.tsx:191-205 | the fields become `ErroredStep` of the old fields |
| BoneQuestChat.ChatComponent.HandleMicToggle | src/components/BoneQuestChat.tsx:218-264 | the fields become `ToggleStep` of the old fields |
| BoneQuestChat.ChatComponent.Settle | src/components/BoneQuestChat.tsx:152-262 | the fields become `TaskStep` of the old fields |
| ChatProperties.ApplyKeepsTranscript | src/components/BoneQuestChat.tsx:45-52 | no event changes or drops earlier entries; only a reported message changes the list at all |
| ChatProperties.TranscriptOnlyGrows | src/components/BoneQuestChat.tsx:48-51 | after any run of events the old transcript is a prefix of the new one, across disconnects included |
| ChatProperties.DisconnectKeepsTranscriptAndRearms | src/components/BoneQuestChat.tsx:31-40 | a disconnect with permission keeps the transcript; from a state where the single-instance invariant holds, its re-arm brings up a new recognizer as the only running one |
| ChatProperties.FailedOpenFallsBackToListener | src/components/BoneQuestChat.tsx:252-262 | a failed open shows a toast and schedules a re-arm; from a state where the single-instance invariant holds, that re-arm brings up a new recognizer as the only running one |
| ChatProperties.EndedSessionRearms | src/components/BoneQuestChat.tsx:219-241 | with permission held or granted by the click, toggling while connected starts a session end; a confirmed end shows a toast and schedules a re-arm |
| ChatProperties.RapidTogglesOpenTwice | src/components/BoneQuestChat.tsx:219-253 | with permission held or granted by the clicks, two clicks while disconnected start two session opens: nothing prevents duplicate opens |
| ChatProperties.SingleInstanceStep | src/components/BoneQuestChat.tsx:174-204 | one step keeps the single-instance invariant exactly when it is neither an error from another recognizer nor a resume that finds the current recognizer running |
| ChatProperties.RunKeepsSingleInstance | src/components/BoneQuestChat.tsx:116-120 | a run with no orphaning step keeps at most one recognizer running, the current one |
| ChatProperties.RunKeepsWellFormed | src/components/BoneQuestChat.tsx:124 | every recognizer in the slot or running was created earlier |
| ChatProperties.StaleEndLeavesTwoRunning | src/components/BoneQuestChat.tsx:174-187 | the late `onend` of a replaced recognizer makes the resume throw on the running one and forget it, and the re-arm leaves two running |
| ChatProperties.TwoRearmsReachStaleSetting | src/components/BoneQuestChat.tsx:36-38 | two disconnects with permission and their re-arms reach that setting from the initial state |
| ChatProperties.AbortedErrorsAreIgnored | src/components/BoneQuestChat.tsx:193-204 | any number of `aborted` errors neither notify nor touch the slot or the timers |
| ChatProperties.ConnectedGateStopsRestarts | src/components/BoneQuestChat.tsx:151-201 | while connected, recognizer callbacks schedule nothing, open no session and create no recognizer |

## Left out

- Rendering: the JSX of `src/components/HologramBot.tsx`, `ChatMessage.tsx`, `MicButton.tsx`, `src/pages/Index.tsx` and the three.js animation of `RobotModel.tsx` (floating point over clock time). `InteractionPanel.tsx` repeats the button and status-line conditions modelled in `SessionView`.
- `src/hooks/useMicrophonePermission.ts` and the `getUserMedia` calls: a browser call whose outcome is the `granted` parameter. The await inside `handleMicToggle` is folded into the toggle step.
- The voice session client (`useConversation`, `startSession`, `endSession`, `status`, `isSpeaking`): an external service. Its status and speaking flag are inputs, and each awaited call settles later as success or failure (`ok`). `agentId` and the conversation id are not modelled.
- The browser recognizer: only its identity and whether it runs are modelled. `continuous`, `interimResults` and `lang` are fixed settings with no effect on the logic.
- A `stop()` that throws is not modelled: every call to `stop()` is treated as succeeding. Where a `try` catches the throw (`useSpeechRecognition.ts:58`, inside the `try` at `:50`, and `BoneQuestChat.tsx:145-149`, inside the `try` at `:137`), the throw would skip the nulling of the slot and the wake callback or session open that follow. Where nothing catches it (`useSpeechRecognition.ts:111`, `BoneQuestChat.tsx:91`, `:117-120` and `:246-250`), it would escape the function. Only the hook's own release at `useSpeechRecognition.ts:22-26` catches it and carries on, which is what the model does everywhere.
- Toasts are a log of notices; console output is dropped.
- Timing: 300, 500 and 1000 ms delays are not modelled. Any pending timer or awaited call may settle next, in any order.
- React effects: the effect that starts the listener when permission or connection changes (`BoneQuestChat.tsx:98-108`, which also stops the recognizer without forgetting it), the scroll effect, and re-rendering. Unmount is modelled as "stop and forget".
- Text.ToLower: maps only ASCII letters, where `toLowerCase` also maps other Unicode letters; the wake phrase and role names are ASCII.
- The component does not implement generation-stamped handles, a retry budget, transcript trimming or enumerated roles. No invariant that would depend on them is proved.
