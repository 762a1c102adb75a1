/**
 The operator-triggered endpoints. Each turns the globals into one provider
 command per entry of the request's batch (whose contents are not read):
 place the outbound call, answer, reject or redirect the offered call, hang
 up, transfer or extend the current call, and fetch the last recording.
 */
module Operator {
  import opened Calls

  /** `n` copies of one command, one per entry of the batch. */
  function Repeat(c: Command, n: nat): (cmds: seq<Command>)
    ensures |cmds| == n
    ensures forall x | x in cmds :: x == c
  {
    seq(n, _ => c)
  }

  /** The invitation the resource sends from its own number. */
  function FromResource(cfg: Config, number: string): CallInvite
  {
    CallInvite(PhoneNumber(number), PhoneNumber(cfg.acsPhoneNumber))
  }

  /** `/outboundCall`: one call from the resource's number to the target,
      whose events come back to `/api/callbacks`; no global moves (the
      created connection is only logged). */
  function OutboundCall(cfg: Config, s: State): (r: Reply)
    ensures r.state == s && r.outcome == Ok
    ensures |r.commands| == 1 && r.commands[0].CreateCall?
    ensures r.commands[0].invite == CallInvite(PhoneNumber(cfg.targetPhoneNumber), PhoneNumber(cfg.acsPhoneNumber))
    ensures r.commands[0].callbackUri == cfg.callbackUriHost + "/api/callbacks"
  {
    Reply(s, [CreateCall(FromResource(cfg, cfg.targetPhoneNumber), cfg.callbackUriHost + "/api/callbacks")], Ok)
  }

  /** The per-call callback address of an answered call: a fresh identifier
      in the path and the caller id as the `callerId` query parameter. */
  function AnswerCallbackUri(host: string, guid: string, callerId: string): string
  {
    host + "/api/calls/" + guid + "?callerId=" + callerId
  }

  /** What answering one entry draws from outside: the fresh identifier of
      the callback address and the connection the provider returns. */
  datatype AnswerDraw = AnswerDraw(guid: string, connectionId: string)

  /** `/api/answerCall`: every entry answers the offered context with a fresh
      callback address and makes the answered connection the current one; the
      context is read, never cleared. */
  function Answer(cfg: Config, s: State, draws: seq<AnswerDraw>): (r: Reply)
    ensures r.outcome == Ok
    ensures |r.commands| == |draws|
    ensures forall i | 0 <= i < |draws| ::
              r.commands[i] == AnswerCall(s.incomingCallContext,
                                          AnswerCallbackUri(cfg.callbackUriHost, draws[i].guid, s.callerId))
    ensures |draws| == 0 ==> r.state == s
    ensures |draws| > 0 ==> r.state == s.(callConnection := Some(draws[|draws| - 1].connectionId))
    decreases |draws|
  {
    if |draws| == 0 then Reply(s, [], Ok)
    else
      var n := |draws| - 1;
      var before := Answer(cfg, s, draws[..n]);
      var t := before.state;
      var answer := AnswerCall(t.incomingCallContext, AnswerCallbackUri(cfg.callbackUriHost, draws[n].guid, t.callerId));
      Reply(t.(callConnection := Some(draws[n].connectionId)), before.commands + [answer], Ok)
  }

  /** `/rejectCall`: every entry rejects the offered context as forbidden. */
  function Reject(s: State, entries: nat): (r: Reply)
    ensures r.state == s && r.outcome == Ok && |r.commands| == entries
    ensures forall c | c in r.commands :: c == RejectCall(s.incomingCallContext, Forbidden)
  {
    Reply(s, Repeat(RejectCall(s.incomingCallContext, Forbidden), entries), Ok)
  }

  /** `/redirect`: every entry redirects the offered context to the target,
      shown as coming from the resource's number. */
  function Redirect(cfg: Config, s: State, entries: nat): (r: Reply)
    ensures r.state == s && r.outcome == Ok && |r.commands| == entries
    ensures forall c | c in r.commands ::
              c == RedirectCall(s.incomingCallContext,
                                CallInvite(PhoneNumber(cfg.targetPhoneNumber), PhoneNumber(cfg.acsPhoneNumber)))
  {
    Reply(s, Repeat(RedirectCall(s.incomingCallContext, FromResource(cfg, cfg.targetPhoneNumber)), entries), Ok)
  }

  /** A command on the current connection for every entry; with the shared
      connection still null the first entry dereferences null. */
  function OnConnection(s: State, entries: nat, command: string -> Command): (r: Reply)
    ensures r.state == s
    ensures entries == 0 ==> r == Reply(s, [], Ok)
    ensures entries > 0 && s.callConnection.None? ==> r == Reply(s, [], Fault)
    ensures s.callConnection.Some? ==> r == Reply(s, Repeat(command(s.callConnection.value), entries), Ok)
  {
    if entries == 0 then Reply(s, [], Ok)
    else
      match s.callConnection
      case None => Reply(s, [], Fault)
      case Some(c) => Reply(s, Repeat(command(c), entries), Ok)
  }

  /** `/hangUp`: hang up the current call for everyone. */
  function HangUpCall(s: State, entries: nat): (r: Reply)
    ensures r.state == s
    ensures r.outcome == Ok ==> |r.commands| == entries
    ensures r.commands != [] ==> s.callConnection.Some? && forall c | c in r.commands :: c == HangUp(s.callConnection.value, true)
    ensures r.outcome == Fault <==> entries > 0 && s.callConnection.None?
    ensures r.outcome == Ok || r.outcome == Fault
    ensures s.callConnection.Some? ==> r == Reply(s, Repeat(HangUp(s.callConnection.value, true), entries), Ok)
  {
    OnConnection(s, entries, c => HangUp(c, true))
  }

  /** `/transfer`: hand the current call over to the target number. */
  function Transfer(cfg: Config, s: State, entries: nat): (r: Reply)
    ensures r.state == s
    ensures r.outcome == Ok ==> |r.commands| == entries
    ensures r.commands != [] ==> s.callConnection.Some? && forall c | c in r.commands ::
              c == TransferToParticipant(s.callConnection.value, PhoneNumber(cfg.targetPhoneNumber))
    ensures r.outcome == Fault <==> entries > 0 && s.callConnection.None?
    ensures r.outcome == Ok || r.outcome == Fault
    ensures s.callConnection.Some? ==>
              r == Reply(s, Repeat(TransferToParticipant(s.callConnection.value, PhoneNumber(cfg.targetPhoneNumber)), entries), Ok)
  {
    OnConnection(s, entries, c => TransferToParticipant(c, PhoneNumber(cfg.targetPhoneNumber)))
  }

  /** `/addParticipant`: invite the configured participant into the current
      call, shown as coming from the resource's number. */
  function AddToCall(cfg: Config, s: State, entries: nat): (r: Reply)
    ensures r.state == s
    ensures r.outcome == Ok ==> |r.commands| == entries
    ensures r.commands != [] ==> s.callConnection.Some? && forall c | c in r.commands ::
              c == AddParticipant(s.callConnection.value,
                                  CallInvite(PhoneNumber(cfg.participantToAdd), PhoneNumber(cfg.acsPhoneNumber)))
    ensures r.outcome == Fault <==> entries > 0 && s.callConnection.None?
    ensures r.outcome == Ok || r.outcome == Fault
    ensures s.callConnection.Some? ==>
              r == Reply(s, Repeat(AddParticipant(s.callConnection.value,
                                                  CallInvite(PhoneNumber(cfg.participantToAdd), PhoneNumber(cfg.acsPhoneNumber))),
                                   entries), Ok)
  {
    OnConnection(s, entries, c => AddParticipant(c, FromResource(cfg, cfg.participantToAdd)))
  }

  /** The local file a downloaded recording is written to. */
  const DownloadFileName: string := "testfile.wav"

  /** `/download`: fetch the last known recording; an empty location is not
      a URI, and the request fails. */
  function Download(s: State): (r: Reply)
    ensures r.state == s
    ensures s.recordingLocation == "" ==> r == Reply(s, [], Fault)
    ensures s.recordingLocation != "" ==> r == Reply(s, [DownloadRecording(s.recordingLocation, "testfile.wav")], Ok)
  {
    if s.recordingLocation == "" then Reply(s, [], Fault)
    else Reply(s, [DownloadRecording(s.recordingLocation, DownloadFileName)], Ok)
  }
}
