/**
 The call-event webhook of outbound calls (`/api/callbacks`): it walks the
 batch of parsed events in order, points the shared connection at each
 event's call, records the call once it connects, runs the DTMF menu against
 the configured target number, and on the end of any prompt stops the
 recording and hangs up for everyone.
 */
module Outbound {
  import opened Calls
  import opened Menu
  import Fold

  /** An event of the batch together with the recording id the provider
      returns if this event starts a recording (other events ignore it). */
  datatype Delivered = Delivered(event: CallEvent, recordingReply: string)

  /** One event: the shared connection becomes the event's, and the event's
      type decides the commands. */
  function OnEvent(cfg: Config, s: State, d: Delivered): (r: Fold.Run<State, Command>)
    ensures r.state.callConnection == Some(d.event.callConnectionId)
    ensures r.state.callerId == s.callerId
    ensures r.state.incomingCallContext == s.incomingCallContext
    ensures r.state.recordingLocation == s.recordingLocation
    ensures r.state.recordingId == if d.event.kind.CallConnected? then d.recordingReply else s.recordingId
  {
    var e := d.event;
    var s' := s.(callConnection := Some(e.callConnectionId));
    var conn := e.callConnectionId;
    match e.kind
    case CallConnected =>
      Fold.Run(s'.(recordingId := d.recordingReply),
               [StartRecording(e.serverCallId),
                StartRecognizing(conn, MenuRecognizeOptions(cfg.callbackUriHost, PhoneNumber(cfg.targetPhoneNumber)))])
    case RecognizeCompleted(tones) =>
      Fold.Run(s', RecognizeCompletedCommands(cfg.callbackUriHost, conn, tones))
    case RecognizeFailed(reason) =>
      Fold.Run(s', RecognizeFailedCommands(cfg.callbackUriHost, conn, reason))
    case PlayCompleted =>
      Fold.Run(s', [StopRecording(s.recordingId), HangUp(conn, true)])
    case PlayFailed =>
      Fold.Run(s', [StopRecording(s.recordingId), HangUp(conn, true)])
    case OtherEvent(_) =>
      Fold.Run(s', [])
  }

  function Dispatcher(cfg: Config): (State, Delivered) -> Fold.Run<State, Command>
  {
    (t, d) => OnEvent(cfg, t, d)
  }

  /** A whole delivery, event by event. The webhook always answers 200;
      afterwards the connection is the last event's, and neither the caller,
      the offered context nor the recording location has moved. */
  function Callbacks(cfg: Config, s: State, batch: seq<Delivered>): (r: Reply)
    ensures r.outcome == Ok
    ensures r.state.callerId == s.callerId
    ensures r.state.incomingCallContext == s.incomingCallContext
    ensures r.state.recordingLocation == s.recordingLocation
    ensures |batch| == 0 ==> r.state == s && r.commands == []
    ensures |batch| > 0 ==> r.state.callConnection == Some(batch[|batch| - 1].event.callConnectionId)
  {
    var run := Fold.Steps(Dispatcher(cfg), s, batch);
    Fold.StepsKeep(Dispatcher(cfg),
                   (t: State) => t.callerId == s.callerId && t.incomingCallContext == s.incomingCallContext
                        && t.recordingLocation == s.recordingLocation,
                   s, batch);
    Reply(run.state, run.out, Ok)
  }

  /** The event at `i` connected a call and no later one did. */
  ghost predicate LastConnected(batch: seq<Delivered>, i: int)
  {
    && 0 <= i < |batch|
    && batch[i].event.kind.CallConnected?
    && forall j | i < j < |batch| :: !batch[j].event.kind.CallConnected?
  }

  /** Only `CallConnected` moves the recording id: after a delivery it is the
      reply to the last `CallConnected`, and unchanged when there was none. */
  lemma RecordingIdIsLatestReply(cfg: Config, s: State, batch: seq<Delivered>)
    ensures (forall i | 0 <= i < |batch| :: !batch[i].event.kind.CallConnected?)
            ==> Callbacks(cfg, s, batch).state.recordingId == s.recordingId
    ensures forall i | LastConnected(batch, i) :: Callbacks(cfg, s, batch).state.recordingId == batch[i].recordingReply
  {
    Fold.StepsLastWrite(Dispatcher(cfg), (t: State) => t.recordingId,
                        (d: Delivered) => d.event.kind.CallConnected?, (d: Delivered) => d.recordingReply,
                        s, batch);
  }

  /** Two deliveries in a row have the effect of one delivery of both. */
  lemma CallbacksSplit(cfg: Config, s: State, a: seq<Delivered>, b: seq<Delivered>)
    ensures var first := Callbacks(cfg, s, a);
            var second := Callbacks(cfg, first.state, b);
            Callbacks(cfg, s, a + b) == Reply(second.state, first.commands + second.commands, Ok)
  {
    Fold.StepsSplit(Dispatcher(cfg), s, a, b);
  }

  /** A connected call is recorded by its server call id first, and then
      the main menu listens for one tone from the configured target, with
      barge-in and a 5 second initial silence timeout; the returned recording
      id is remembered. */
  lemma CallConnectedRecordsThenListens(cfg: Config, s: State, d: Delivered)
    requires d.event.kind == CallConnected
    ensures var r := OnEvent(cfg, s, d);
            && r.out == [StartRecording(d.event.serverCallId),
                         StartRecognizing(d.event.callConnectionId,
                           DtmfOptions(PhoneNumber(cfg.targetPhoneNumber), 1,
                                       cfg.callbackUriHost + "/audio/MainMenu.wav", true, 5))]
            && r.state.recordingId == d.recordingReply
  {
    assert "/audio/" + FileName(MainMenu) == "/audio/MainMenu.wav";
  }

  /** The end of a prompt, played or failed, stops the remembered recording
      (even an empty id) and then hangs up for everyone, whatever else the
      two events carry. */
  lemma PlayEndsCallEitherWay(cfg: Config, s: State, done: Delivered, failed: Delivered)
    requires done.event.kind == PlayCompleted && failed.event.kind == PlayFailed
    requires done.event.callConnectionId == failed.event.callConnectionId
    ensures OnEvent(cfg, s, done) == OnEvent(cfg, s, failed)
    ensures OnEvent(cfg, s, done).out == [StopRecording(s.recordingId), HangUp(done.event.callConnectionId, true)]
  {
  }

  /** A delivery that ends with the end of a prompt issues, after what the
      earlier events issued, exactly "stop the recording the earlier events
      left behind, then hang up that call for everyone". */
  lemma PlayEndStopsLatestRecording(cfg: Config, s: State, batch: seq<Delivered>, d: Delivered)
    requires d.event.kind == PlayCompleted || d.event.kind == PlayFailed
    ensures var before := Callbacks(cfg, s, batch);
            Callbacks(cfg, s, batch + [d]).commands
            == before.commands + [StopRecording(before.state.recordingId), HangUp(d.event.callConnectionId, true)]
  {
    Fold.StepsSnoc(Dispatcher(cfg), s, batch, d);
  }

  /** A recognition that failed for any reason but the initial silence
      timeout issues nothing and moves no global except the connection. */
  lemma OtherRecognizeFailureDoesNothing(cfg: Config, s: State, d: Delivered)
    requires d.event.kind.RecognizeFailed? && d.event.kind.reason != RecognizeInitialSilenceTimedOut
    ensures OnEvent(cfg, s, d) == Fold.Run(s.(callConnection := Some(d.event.callConnectionId)), [])
  {
  }
}
