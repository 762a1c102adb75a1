# Call-automation IVR controller, modelled in Dafny

The system is a small web application driving phone calls through a
call-automation provider. It places an outbound call, or answers an
offered inbound call. On a connected call it plays a main-menu prompt
while listening for one DTMF tone, and answers the tone with a
confirmation, goodbye or invalid prompt (a timeout prompt when nothing was
pressed). An outbound call is also recorded, and once any prompt ends the
recording is stopped and the call is hung up. An answered inbound call is
never recorded, and is hung up only when a prompt fails to play. All of
its decisions live in the handler bodies of `CallAutomationApp/Program.cs`.
Between requests it keeps five process-wide variables: the caller id, the
offered call's context, the current connection, the recording location and
the recording id.

This project states every handler as a pure function. A handler takes the
globals and its request and returns a `Reply`: the globals after the
request, the provider commands it issued in order, and its HTTP answer
(`Ok`, `Validated(code)`, `BadRequest`, or `Fault` for an unhandled
exception). Provider calls are `Command` values. Any id the provider hands
back is an input: the recording id from starting a recording, the
connection from answering, and the fresh GUID of an answer's callback
address.

Modules, one file each:

- `Calls` (`calls.dfy`): configuration, globals, events, commands and outcomes.
- `Text` (`text.dfy`): `string.Replace(char, char)`, and the decoding of `+`
  as a space in query-string values.
- `Fold` (`fold.dfy`): a generic left-to-right walk over a batch that
  threads the globals through, with a composition lemma.
- `Menu` (`menu.dfy`): the IVR logic both call-event dispatchers share.
  This covers the prompt URIs, the main-menu recognition options (one
  tone, barge-in, 5 s initial silence), the digit table and the
  silence-timeout prompt.
- `Outbound` (`outbound.dfy`): the `/api/callbacks` dispatcher of outbound calls.
- `PerCall` (`percall.dfy`): the `/api/calls/{contextId}` dispatcher of
  answered calls, with its caller-id repair.
- `Webhooks` (`webhooks.dfy`): the recording-status and incoming-call
  event-grid webhooks.
- `Operator` (`operator.dfy`): outbound call, answer, reject, hang up,
  redirect, transfer, add participant and download.
- `Flows` (`flows.dfy`): properties across handlers. These compare the
  two dispatchers, follow the caller id through the answer callback
  address, and show which later action uses which stored value.

Notable behaviours of the code:

- Answering, rejecting and redirecting never clear the offered context.
- Stopping a recording never clears the recording id.
- An answered inbound call is never recorded. On that path only
  `PlayFailed` hangs up; `PlayCompleted` does nothing.
- All handlers share one set of globals; the correlation id of an event
  is never consulted.
- A missing connection is dereferenced and ends the request with an
  unhandled exception (`Fault`).

The per-call handler reads and writes no global at all. Its `callerId`
parameter (line 193) and its local `callConnection` (line 207) shadow the
globals of the same names. It is therefore modelled without the globals.
Its null check at line 210 can only catch a connection without media: a
null connection already fails at line 208 (`Lookup.NoConnection` gives
`Fault`, `Lookup.NoMedia` gives `BadRequest`).

## Model

| member | source | states |
|---|---|---|
| Text.ReplaceChar | CallAutomationApp/Program.cs:199 | `Replace(' ', '+')`: the length is kept, every `from` becomes `to`, every other character stays in place, and no `from` is left |
| Menu.AudioUriInjective | CallAutomationApp/Program.cs:86-100 | the prompt files have pairwise different URIs below the callback host, so a played URI identifies the branch taken |
| Menu.RecognizeCompletedCommands | CallAutomationApp/Program.cs:81-101 | a completed recognition issues exactly one play-to-all on the event's connection, and it is never the menu or the timeout prompt |
| Menu.ToneTable | CallAutomationApp/Program.cs:84-100 | read back from the played URI, in both directions: Confirmed iff the tones are exactly "1", Goodbye iff exactly "2", Invalid iff anything else (including "" and multi-digit strings) |
| Menu.RecognizeFailedCommands | CallAutomationApp/Program.cs:102-111 | a failed recognition issues at most one command, and one iff the reason is the initial-silence timeout; that command is the timeout prompt on the event's connection |
| Outbound.OnEvent | CallAutomationApp/Program.cs:57-118 | every event makes its connection the shared one. Only `CallConnected` moves the recording id, to the provider's reply. Caller, context and recording location never move |
| Outbound.Callbacks | CallAutomationApp/Program.cs:55-120 | the webhook always answers 200. Afterwards the shared connection is the last event's (unchanged for an empty batch), and caller, context and recording location are untouched |
| Outbound.RecordingIdIsLatestReply | CallAutomationApp/Program.cs:65-70 | after a delivery the recording id is the reply to the last `CallConnected`, and unchanged when there was none: no other event changes it |
| Outbound.CallbacksSplit | CallAutomationApp/Program.cs:57-118 | handling two deliveries in a row is handling one delivery of both: the second starts from the globals the first left, and the commands follow one another |
| Outbound.CallConnectedRecordsThenListens | CallAutomationApp/Program.cs:65-80 | `CallConnected` issues exactly two commands. First it starts recording the event's server call. Then it starts recognition of 1 tone from the target number, prompt `/audio/MainMenu.wav`, barge-in on, 5 s initial silence. The returned id is stored |
| Outbound.PlayEndsCallEitherWay | CallAutomationApp/Program.cs:112-117 | `PlayCompleted` and `PlayFailed` on one connection have identical effects: stop the stored recording (even an empty id), then hang up for everyone |
| Outbound.PlayEndStopsLatestRecording | CallAutomationApp/Program.cs:112-117 | a prompt end at the close of a delivery appends exactly stop-recording (with the id the earlier events left) and hang-up-for-everyone |
| Outbound.OtherRecognizeFailureDoesNothing | CallAutomationApp/Program.cs:102-111 | a recognition failure for any reason other than the silence timeout issues nothing and changes nothing but the shared connection |
| PerCall.NormalizeCallerId | CallAutomationApp/Program.cs:197-200 | for an id starting with '4', every space becomes '+' and nothing else changes; any other id (including "") is returned unchanged; the length and the leading '4' are kept |
| PerCall.NormalizeIdempotent | CallAutomationApp/Program.cs:197-200 | repairing the caller id twice is the same as repairing it once |
| PerCall.NormalizeUndoesQueryDecode | CallAutomationApp/Program.cs:197-200 | the repair inverts the query-string decoding of '+' into a space for every id that starts with '4' and holds no space |
| PerCall.OnLiveEvent | CallAutomationApp/Program.cs:215-260 | on a live connection each event issues at most one command, and never a recording command |
| PerCall.Dispatch | CallAutomationApp/Program.cs:202-263 | the batch answers 200 iff every event's connection and media resolve; the answer is always 200, 400 or a fault, and it never records |
| PerCall.DispatchAllLive | CallAutomationApp/Program.cs:202-263 | when every event's connection and media resolve, the answer is 200 and the commands are each event's own, in batch order |
| PerCall.DispatchStopsAtFirstFailure | CallAutomationApp/Program.cs:202-213 | the request ends at the first event whose lookup fails: a missing connection faults (null dereference at line 208), a missing media object answers 400, and the commands are exactly those of the live events before it |
| PerCall.CallEvents | CallAutomationApp/Program.cs:190-200 | without the required `callerId` parameter the answer is 400 with no command; otherwise it answers 200 iff every connection resolves |
| PerCall.CallEventsUsesRepairedId | CallAutomationApp/Program.cs:197-213 | with `callerId` present the batch is handled under the repaired id: all live gives 200 and every event's commands in order; otherwise the first failing event gives 400 (no media) or a fault (no connection) after the live events' commands |
| PerCall.DispatchSplit | CallAutomationApp/Program.cs:202-213 | a batch is its halves one after another, unless the first half already stopped the request, in which case the second half is never looked at |
| PerCall.LiveEventTable | CallAutomationApp/Program.cs:215-260 | on a live connection: `CallConnected` starts recognition of 1 tone from the caller's raw id, with the main-menu prompt, barge-in and 5 s initial silence; tones "1", "2" and anything else play Confirmed, Goodbye and Invalid; a silence timeout plays the timeout prompt and any other failure nothing; `PlayFailed` hangs up for everyone; `PlayCompleted` issues nothing |
| Webhooks.RecordingFileStatus | CallAutomationApp/Program.cs:122-144 | no command is issued and only the recording location can move. A `Validated` answer echoes a code present in the batch, and a fault needs a status without chunks |
| Webhooks.RecordingPrefix | CallAutomationApp/Program.cs:124-142 | entries that neither validate nor lack chunks answer 200, and what follows them starts from the globals they left |
| Webhooks.RecordingValidationShortCircuits | CallAutomationApp/Program.cs:128-135 | the first validation entry answers with its own code; later entries have no effect on the globals |
| Webhooks.RecordingWithoutChunksFaults | CallAutomationApp/Program.cs:136-140 | a status with no chunks ends the request with an exception, keeping what earlier entries stored |
| Webhooks.RecordingLastStatusWins | CallAutomationApp/Program.cs:136-140 | without a stopping entry the location becomes chunk 0 of the last status, or stays put when there is no status |
| Webhooks.IncomingCall | CallAutomationApp/Program.cs:146-172 | no command is issued; only the caller id and the offered context can move; a `Validated` answer echoes a code present in the batch |
| Webhooks.IncomingPrefix | CallAutomationApp/Program.cs:150-170 | a run of offers answers 200 and what follows it starts from the globals it left |
| Webhooks.IncomingValidationShortCircuits | CallAutomationApp/Program.cs:157-164 | the first validation entry answers with its own code; later entries have no effect on the globals |
| Webhooks.IncomingLastOfferWins | CallAutomationApp/Program.cs:166-168 | after a batch of offers, the caller id and the context are both the last offer's |
| Operator.OutboundCall | CallAutomationApp/Program.cs:42-53 | one create-call to the target number, shown as coming from the resource's number, with `/api/callbacks` as the callback address; no global moves |
| Operator.Answer | CallAutomationApp/Program.cs:175-188 | entry i answers the stored context with the callback `/api/calls/<guid i>?callerId=<caller id>`. The current connection becomes the last answered one. The context is not cleared |
| Operator.Reject | CallAutomationApp/Program.cs:266-276 | every entry rejects the stored context with reason Forbidden; no global moves |
| Operator.HangUpCall | CallAutomationApp/Program.cs:279-287 | every entry hangs up the current connection for everyone; it faults iff there is an entry and the connection is still null |
| Operator.Redirect | CallAutomationApp/Program.cs:290-301 | every entry redirects the stored context to the target number, shown as coming from the resource's number; no global moves |
| Operator.Transfer | CallAutomationApp/Program.cs:304-316 | every entry transfers the current connection to the target number; it faults iff there is an entry and the connection is still null |
| Operator.AddToCall | CallAutomationApp/Program.cs:319-329 | every entry invites the configured participant into the current connection; it faults iff there is an entry and the connection is still null |
| Operator.Download | CallAutomationApp/Program.cs:331-335 | the stored location is downloaded to `testfile.wav`; an empty location is not a URI and the request faults |
| Flows.DispatchersDiffer | CallAutomationApp/Program.cs:65-260 | the two dispatchers against each other, event by event: on recognition results both issue exactly the shared digit-table prompt or timeout prompt. On `CallConnected` only the outbound one records, and the menu targets the target number there but the caller's raw id here. On `PlayFailed` the outbound one stops recording first. On `PlayCompleted` only the outbound one acts |
| Flows.AnsweredCallerIsRecognized | CallAutomationApp/Program.cs:182-218 | every answer puts the stored caller id into the `callerId` query value of its callback address, and that value comes back, through query decoding and the repair, as the identity the menu listens to |
| Flows.OfferContextSurvivesOperatorActions | CallAutomationApp/Program.cs:166-184 | after offers arrive, answer, reject (Forbidden) and redirect all use the last offer's context, and it is still stored afterwards |
| Flows.HangUpEndsAnsweredCall | CallAutomationApp/Program.cs:283-286 | a hang-up after an answer ends the connection returned for the last answered entry |
| Flows.HangUpFollowsLastCallback | CallAutomationApp/Program.cs:62 | a hang-up after a callback delivery ends the connection of the delivery's last event |
| Flows.TransferFollowsLastCallback | CallAutomationApp/Program.cs:308-315 | a transfer after a callback delivery hands the delivery's last event's call to the target number, once per entry, answering 200 |
| Flows.AddToCallFollowsLastCallback | CallAutomationApp/Program.cs:323-328 | adding a participant after a callback delivery invites the configured participant, from the resource's number, into the delivery's last event's call, once per entry |
| Flows.OutboundCallLeavesNoConnection | CallAutomationApp/Program.cs:45-51 | the connection created by placing a call is only logged, so from the initial globals a following hang-up, transfer or add-participant faults on the null connection |
| Flows.DownloadFetchesLastRecording | CallAutomationApp/Program.cs:331-335 | a download after a status delivery fetches chunk 0 of the last status |
| Flows.OutboundCallScenario | CallAutomationApp/Program.cs:55-120 | connect, press "1", finish the prompt: start recording, menu, Confirmed, stop that same recording, hang up for everyone |

## Left out

- ASP.NET hosting, routing, request binding, Swagger and static audio serving are not modelled. HTTP results are reduced to `Ok`, `Validated`, `BadRequest` and `Fault`.
- Provider SDK calls are not performed: each is an emitted `Command`. A provider error or exception raised by such a call is not modelled.
- Event parsing (`CallAutomationEventParser.Parse`, `TryGetSystemEventData`, the JSON reading of incoming-call data) is not modelled. Events arrive already decoded. A null parsed event, a missing `from` field and malformed JSON are left out.
- Outbound.OnEvent: assumes `GetCallConnection`/`GetCallMedia` yield objects. That handler has no null check, and a null there would be an unhandled exception.
- The answer callback URI's GUID, the recording id returned by starting a recording, and the connection returned by answering are inputs, because they come from outside the program.
- Logging and JSON serialisation are not modelled. They have no effect on decisions.
- Concurrent requests on the shared globals are not modelled. Handlers are sequential steps on one state.
- `TimeSpan.FromSeconds(5)` is the integer 5 (seconds).
- The DTMF tones reach the model as the string `ConvertToString` produces. That SDK conversion is not modelled.
- Media reason codes other than the initial-silence timeout are one case, `OtherReason`. Their numeric values are not modelled.
- Operator.Download: only the empty location is treated as an invalid URI. Other URI syntax checks of `new Uri` are not modelled.
- Flows.AnsweredCallerIsRecognized: assumes the web host decodes '+' in query values as a space and that `new Uri` leaves '+' unescaped. It does not model general percent-encoding.
- The connection string and the client construction (lines 17 and 39) are not modelled. They are configuration.
- PerCall.CallEvents: assumes nullable reference types are enabled for the project, so a request without `callerId` is rejected with 400 by parameter binding; with them disabled the parameter would bind null and the `StartsWith` call at line 197 would fault. The project file is not part of this model.
- The configured callback host is assumed to form an absolute URI with every path appended to it. The settings at lines 19-27 are empty strings as written, and with an empty or relative host the `new Uri(...)` calls at lines 47, 74-109, 182 and 220-253 would throw; that failure is not modelled.
- Calls.Identifier: `CommunicationIdentifier.FromRawId` (line 218) parses the raw id, so a `4:`-prefixed id denotes a phone number; the model keeps the raw id as it was given and does not model that prefix parsing.
