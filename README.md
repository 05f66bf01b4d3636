# Voice concierge session model

A Dafny model of the session controller of the Potter Padilla & Pfau voice
concierge (`App.tsx`) and of its value types (`types.ts`). The controller
keeps one conversation with a remote speech model. It schedules the model's
audio fragments back to back on the output device's clock and stops them all
on barge-in. It gathers partial transcriptions into one user entry and one
assistant entry per turn. It captures consultation requests made through the
`scheduleConsultation` tool call and acknowledges them. It moves through the
connection states IDLE, CONNECTING, CONNECTED and ERROR.

Files:

- `types.dfy` (module `Types`): the types of `types.ts` and the string values
  of their unions and enum. `Show` gives what JavaScript produces when a
  possibly `undefined` string is concatenated.
- `playback.dfy` (module `Playback`): the playhead (`nextStartTimeRef`) as
  values. It gives the start times and the final playhead for a run of
  fragments, with no-overlap and gap-free lemmas.
- `transcript.dfy` (module `Transcript`): the transcription buffers
  (`transcriptionRef`), how messages are absorbed into them and how a turn is
  flushed.
- `toolcalls.dfy` (module `ToolCalls`): the effect of a list of tool calls,
  namely the responses, the transcript summaries and the consultation shown.
- `app.dfy` (module `App`): class `Session` holds the component state and refs
  of `App.tsx:28-38`. It has one method per handler. Class `Source` is a
  scheduled audio source node.

`Session.Valid()` is the scheduling invariant that every method keeps. The
playhead is never negative. Every active source is unstopped and ends by the
playhead. No two active sources overlap on the output clock. `Session.View()`
is a snapshot of all fields, so each method states its whole new state as an
update of the old snapshot.

Time is a `real`. Three inputs are parameters of the handlers:

- the output device's `currentTime`;
- the decoded buffer's duration, where `None` means decoding threw;
- the `Date.now()` reading used as a timestamp.

Each `onmessage` call is treated as one atomic step.

Two behaviours of the code are modelled as written:

- Connecting is possible from ERROR as well as from IDLE. The main button
  (`App.tsx:228-229`) calls `connectVoice` in every state but CONNECTED and
  is disabled only while CONNECTING. `App.Button` and `App.Session.Click`
  start a conversation from both states.
- A fragment that fails to decode ends the handler. The awaited decode at
  `App.tsx:113` throws out of the async `onmessage`, so lines 126-149 of that
  message do not run, although `isSpeaking` is already true and the playhead
  has already caught up with the device clock. `App.Session.HandleMessage`
  models this.

## Model

| member | source | states |
|---|---|---|
| Types.ParseRole | types.ts:13 | a string is a role exactly when it is `user` or `assistant`, and the parsed role names that string |
| Types.RoleNameRoundTrip | types.ts:13 | every role reads back from its string value |
| Types.ParseLanguage | types.ts:10 | exactly the three strings English, Spanish and Mandarin Chinese are languages, and each parses to the language with that name |
| Types.LanguageNameRoundTrip | types.ts:10 | every language reads back from its name |
| Types.ParseStatus | types.ts:18-23 | exactly IDLE, CONNECTING, CONNECTED and ERROR are statuses, and each parses to the status with that value |
| Types.StatusNameRoundTrip | types.ts:18-23 | every status reads back from its enum value |
| Playback.StartOf | App.tsx:112 | a unit starts no earlier than the playhead and no earlier than the device clock, and at one of the two |
| Playback.Starts | App.tsx:112-122 | one start time per fragment of the run |
| Playback.Final | App.tsx:112-122 | defines the playhead after a run of fragments; its meaning is stated by UnitsWithinPlayhead, BackToBack and ScheduleAppend |
| Playback.UnitsWithinPlayhead | App.tsx:112-122 | with non-negative durations the playhead never decreases, and every unit lies between the initial and the final playhead |
| Playback.EndsBeforeLaterStart | App.tsx:112-122 | each unit ends no later than any later unit of the run starts |
| Playback.NoOverlap | App.tsx:112-122 | no two units of a run between interruptions overlap |
| Playback.StartFollowsPrevious | App.tsx:112-122 | a unit starts exactly where the previous one ended when the device clock has not passed that end, and otherwise at the device clock |
| Playback.BackToBack | App.tsx:112-122 | while fragments arrive before the queued audio runs out, the units are gap-free: unit i starts at the initial playhead plus the earlier durations, and the playhead ends at the initial playhead plus the total |
| Playback.ScheduleAppend | App.tsx:112-122 | scheduling one more fragment appends its start, the later of the playhead and the device clock, and moves the playhead to that start plus its duration |
| Playback.TwoFragmentsFromZero | App.tsx:112-122 | fragments of 0.5 s and 0.3 s arriving at device time 0 start at 0 and 0.5 and leave the playhead at 0.8 |
| Types.Show | App.tsx:134 | defines JavaScript's concatenation of a possibly undefined string: the string itself, or "undefined" |
| Transcript.Absorb | App.tsx:133-138 | a present input part appends its text to the user buffer and a present output part appends its text to the model buffer, with absent text appended as "undefined"; an absent part leaves its buffer unchanged |
| Transcript.Flush | App.tsx:139-144 | a turn flush keeps the history. It appends a user entry exactly when the user buffer is non-empty, then an assistant entry exactly when the model buffer is non-empty. Both entries are non-empty, stamped with the given time and carry their buffer's text |
| Transcript.AbsorbAllConcatenates | App.tsx:133-138 | absorbing a run of messages appends all their input text to the user buffer and all their output text to the model buffer, in order |
| Transcript.TurnFlushIsAtomic | App.tsx:133-145 | a turn from cleared buffers adds at most one user entry with everything heard, then at most one assistant entry with everything said |
| ToolCalls.SummaryMentionsClient | App.tsx:57-61 | the synthetic transcript entry contains the client's name and the legal issue |
| ToolCalls.Handled | App.tsx:42-63 | the handled calls are exactly the scheduleConsultation calls of the list, each as often as it occurs there, and there are none when no call has that name |
| ToolCalls.HandledStep | App.tsx:147-149 | the handled calls keep list order: one more call is appended after the earlier handled calls exactly when it is a scheduleConsultation call |
| ToolCalls.CallsStep | App.tsx:148 | proof step for the dispatch loop: one more call adds its response and its summary after those of the earlier calls, and a scheduleConsultation call replaces the consultation |
| ToolCalls.ResponsesAnswerHandledCalls | App.tsx:42-63 | each scheduleConsultation call gets exactly one response, in order, with that call's id and name and the fixed acknowledgement |
| ToolCalls.SummariesDescribeHandledCalls | App.tsx:42-63 | each scheduleConsultation call appends exactly one assistant entry, in order, summarising its arguments |
| ToolCalls.LatestIsLastHandled | App.tsx:42-63 | the consultation shown is the arguments of the last scheduleConsultation call, or the previous one when there is none |
| ToolCalls.OtherCallsIgnored | App.tsx:43 | calls with any other name send nothing, record nothing and keep the consultation |
| ToolCalls.Summary | App.tsx:59 | the synthetic entry's text: it begins with the fixed "[SYSTEM] Consultation details captured for " lead and ends with a full stop, with the name right after the lead, then " regarding ", then the legal issue right before the full stop ("undefined" when absent); its length is the sum of its parts |
| ToolCalls.Responses | App.tsx:147-149 | defines the responses a list of calls sends, in call order; their meaning is stated by ResponsesAnswerHandledCalls |
| ToolCalls.Summaries | App.tsx:147-149 | defines the transcript entries a list of calls appends, in call order; their meaning is stated by SummariesDescribeHandledCalls |
| ToolCalls.Latest | App.tsx:147-149 | defines the consultation shown after a list of calls; its meaning is stated by LatestIsLastHandled |
| App.HasAudio | App.tsx:108-109 | defines the `if (audioData)` test: a missing or empty payload is skipped |
| App.Deliver | App.tsx:47-55 | nothing is sent without an open handle, and one message per response is sent with one |
| App.DeliverSendsEach | App.tsx:47-55 | with an open handle the k-th response is sent, in order, over that handle |
| App.Button | App.tsx:228-229 | the main button ends the conversation exactly when CONNECTED, is disabled exactly when CONNECTING, and starts a conversation exactly in IDLE or ERROR |
| App.AfterCallsStep | App.tsx:148 | handling calls one at a time in list order has the effect the list functions describe |
| App.ContentEffect | App.tsx:126-149 | the non-audio part of a message keeps the transcript history. It adds the flushed turn and one summary per consultation call. It clears or extends the buffers, lets the last consultation call win and acknowledges each one over the open handle. It leaves the connection alone and clears the playback state exactly on interruption |
| App.Source.constructor | App.tsx:114-121 | a new source has its start time and duration and is not stopped |
| App.Source.Stop | App.tsx:127 | the source is stopped |
| App.Session.constructor | App.tsx:28-38 | the initial state is IDLE, with no messages, no consultation, English, playhead 0, no sources, empty buffers and no handle |
| App.Session.EnqueueAudio | App.tsx:108-124 | the speaking indicator goes on. The new source starts at the later of the playhead and the device clock, after every active source, and the playhead moves to its end. It joins the active set and the invariant is kept. On a decode failure only the indicator and the caught-up playhead change |
| App.Session.SourceEnded | App.tsx:117-120 | the ended source leaves the active set, and the indicator goes off exactly when the set becomes empty |
| App.Session.Interrupt | App.tsx:126-131 | every active source is stopped, the set is emptied, the playhead is 0 and the indicator is off, and nothing else changes |
| App.Session.AppendTranscription | App.tsx:133-138 | input text goes to the user buffer and output text to the model buffer, with an absent text read as "undefined", and nothing else changes |
| App.Session.TurnComplete | App.tsx:139-145 | the buffers are flushed as Transcript.Flush states and cleared, and nothing else changes |
| App.Session.HandleToolCall | App.tsx:42-63 | a scheduleConsultation call replaces the consultation, is acknowledged with its id and name exactly when a handle is open, and appends its summary. Any other call changes nothing |
| App.Session.DispatchToolCalls | App.tsx:147-149 | the calls are handled in list order with the effect the list functions describe |
| App.Session.HandleContent | App.tsx:126-149 | interruption, transcription, turn completion and tool calls have the effect App.ContentEffect describes, and an interruption stops every source that was active |
| App.Session.HandleMessage | App.tsx:107-150 | audio is scheduled before the rest of the message is handled. Audio in an interrupting message is therefore stopped too. A decode failure ends the handler with only the indicator and the playhead changed |
| App.Session.ConnectAsWritten | App.tsx:67-72 | connecting sets CONNECTING and opens fresh audio contexts, and keeps the playhead and the sources |
| App.Session.Connect | App.tsx:67-72 | the corrected connect: it sets CONNECTING, opens fresh contexts, stops the old sources and resets playback to the new clock |
| App.Session.SessionResolved | App.tsx:161 | the resolved session becomes the open handle |
| App.Session.ConnectFailed | App.tsx:162-164 | a failed connect sets ERROR |
| App.Session.Opened | App.tsx:91-92 | onopen sets CONNECTED |
| App.Session.Errored | App.tsx:151-154 | onerror sets ERROR |
| App.Session.Closed | App.tsx:155-157 | onclose sets IDLE and keeps the handle |
| App.Session.Disconnect | App.tsx:168-179 | the open handle, if any, is closed and forgotten, the contexts are closed, the status is IDLE and the indicator is off. The playhead and the sources are kept |
| App.Session.Click | App.tsx:227-229 | the main button disconnects when CONNECTED, does nothing when CONNECTING, and connects from IDLE or ERROR with connectVoice as written, keeping the playhead and the sources |
| App.Session.ClickCorrected | App.tsx:227-229 | the same button with the corrected connect: connecting from IDLE or ERROR stops the old sources and resets playback to the new clock |
| App.Session.ChooseLanguage | App.tsx:196-199 | the language changes only while IDLE |
| App.Session.ClearHistory | App.tsx:40 | the transcript is emptied and nothing else changes |
| App.Session.DismissConsultation | App.tsx:262 | the consultation is cleared and nothing else changes |
| App.ReconnectAsWritten | App.tsx:65-72 | with the main button as written, after a reconnect, a fragment arriving at new-clock time t2 < d1 starts at d1, the end of the previous conversation's audio |
| App.ReconnectCorrected | App.tsx:65-72 | with the corrected button, which resets playback on connect, the new conversation's first fragment starts at the new clock's current time |

## Left out

- The SDK session set-up and transport (`App.tsx:68`, `78-90`, `159`) are left out. The handle is an abstract `Handle`, and sends are recorded in `outbox`.
- Microphone access, audio-context construction and the capture loop (`App.tsx:70-74`, `93-105`) are foreign calls and concurrent I/O. Only whether the contexts are open is kept.
- `decode`, `decodeAudioData` and `createBlob` live in services/audio-utils, which is not part of this model. A decoded fragment is its duration, given as a parameter, or `None` when decoding throws.
- The `await` at `App.tsx:113` lets other messages run while a fragment decodes. A message without audio that arrives then runs all of lines 126-149 first; its `turnComplete` can flush the buffers before the earlier message's transcription is appended (`App.tsx:133-145`), so that text lands in the next turn, and its interruption can run before the earlier fragment is started. Each `onmessage` is modelled as one atomic step, and `Transcript.TurnFlushIsAtomic` holds only under that assumption.
- `Date.now()` is read once per handler and passed as `now`. The source reads it separately for each entry, within the same handler.
- The system instruction and its language prefix (`App.tsx:76`) are left out, as are `constants.ts`, `components/VoiceVisualizer.tsx`, `server.js` and the JSX rendering (`App.tsx:183-308`). They are static text, presentation or an HTTP responder.
- The old contexts are not closed on a second connect, and callbacks of a superseded session may still fire. The model has one session's callbacks and a single contexts flag.
- A message whose `modelTurn` has no `parts` throws at `App.tsx:108`, because `parts[0]` is read without `?.`. The whole message is then lost: interruption, transcription, turn completion and tool calls. `ServerMessage` keeps only the payload, so the model cannot represent this case.
- A `toolCall` without `functionCalls` would throw at `App.tsx:148`. The model reads a missing list as empty.
- Consultation arguments absent from a call are modelled field by field as `None`. Arguments missing altogether (`args` undefined) are not modelled.
- `App.Session.EnqueueAudio`: the output clock is a `real`. The floating-point rounding of `currentTime` and of the durations is not modelled.

## Findings

| source | as written | input that shows it | evidently intended | confidence | as-written member | corrected member |
|---|---|---|---|---|---|---|
| App.tsx:65-72 | `nextStartTimeRef` survives disconnect and reconnect. The new output context's clock starts again at 0, so the first audio of the new conversation is scheduled at the old playhead | a first conversation plays d1 = 5 s of audio and is ended; in the new conversation a fragment arrives at new-clock time 0 and is started at 5 s, i.e. 5 s of silence | the playhead restarts with the new output context, as it does on interruption | not executed | App.ReconnectAsWritten (with App.Session.ConnectAsWritten, used by App.Session.Click) | App.ReconnectCorrected (with App.Session.Connect, used by App.Session.ClickCorrected) |
