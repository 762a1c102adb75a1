/**
 The data the call controller works with: its configuration, the process-wide
 call state it remembers between requests, the call-automation events it
 receives, the provider commands it issues and the HTTP outcome it answers
 with. Provider calls are not performed here: a handler returns the commands
 it would issue, in order, and any identifier the provider hands back is an
 input of the handler.
 */
module Calls {

  datatype Option<+T> = None | Some(value: T)

  /** Startup configuration: the resource's own phone number (the caller of
      every outbound leg), the default target number, the public base URL of
      the callbacks, and the number invited by "add participant". */
  datatype Config = Config(
    acsPhoneNumber: string,
    targetPhoneNumber: string,
    callbackUriHost: string,
    participantToAdd: string)

  /** The globals of the controller. `callConnection` is `None` while the
      shared connection object is still null. */
  datatype State = State(
    callerId: string,
    incomingCallContext: string,
    callConnection: Option<string>,
    recordingLocation: string,
    recordingId: string)

  /** Every global starts empty: strings as "" and the connection as null. */
  const Initial: State := State("", "", None, "", "")

  /** A communication identifier: a phone number, or an identifier rebuilt
      from its raw id string. */
  datatype Identifier = PhoneNumber(number: string) | RawId(rawId: string)

  /** An invitation to `target`, showing `source` as the caller. */
  datatype CallInvite = CallInvite(target: Identifier, source: Identifier)

  datatype RejectReason = NoReason | Busy | Forbidden

  /** The options of a DTMF recognition request. */
  datatype RecognizeOptions = DtmfOptions(
    target: Identifier,
    maxTonesToCollect: nat,
    prompt: string,
    interruptPrompt: bool,
    initialSilenceSeconds: nat)

  /** One request to the telephony provider. */
  datatype Command =
    | CreateCall(invite: CallInvite, callbackUri: string)
    | AnswerCall(context: string, callbackUri: string)
    | RejectCall(context: string, reason: RejectReason)
    | RedirectCall(context: string, invite: CallInvite)
    | StartRecording(serverCallId: string)
    | StopRecording(recordingId: string)
    | StartRecognizing(connection: string, options: RecognizeOptions)
    | PlayToAll(connection: string, source: string)
    | HangUp(connection: string, forEveryone: bool)
    | TransferToParticipant(connection: string, destination: Identifier)
    | AddParticipant(connection: string, invite: CallInvite)
    | DownloadRecording(location: string, fileName: string)

  /** Media reason codes: the initial-silence timeout of a recognition is the
      one the controller tells apart; every other code is `OtherReason`. */
  datatype ReasonCode = RecognizeInitialSilenceTimedOut | OtherReason(name: string)

  /** The parsed call-automation events the dispatchers tell apart; every
      other event type is `OtherEvent`. */
  datatype EventKind =
    | CallConnected
    | RecognizeCompleted(tones: string)
    | RecognizeFailed(reason: ReasonCode)
    | PlayCompleted
    | PlayFailed
    | OtherEvent(typeName: string)

  /** A parsed call-automation event with the identifiers every event carries. */
  datatype CallEvent = CallEvent(
    callConnectionId: string,
    correlationId: string,
    serverCallId: string,
    kind: EventKind)

  /** The HTTP answer of a handler: 200 with no body, 200 echoing a
      subscription-validation code, 400, or an unhandled exception (500). */
  datatype Outcome = Ok | Validated(validationResponse: string) | BadRequest | Fault

  /** What a handler leaves behind: the globals after it, the provider
      commands it issued in order, and its HTTP answer. */
  datatype Reply = Reply(state: State, commands: seq<Command>, outcome: Outcome)
}
