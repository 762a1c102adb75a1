/**
 How the handlers fit together over the shared globals: what the two event
 dispatchers have in common and where they differ, how the caller id travels
 from the answer request to the per-call webhook, and which later operator
 actions see the values the webhooks and callbacks stored.
 */
module Flows {
  import opened Calls
  import opened Menu
  import Text
  import Fold
  import Outbound
  import PerCall
  import Webhooks
  import Operator

  /** The two dispatchers on one live event: recognition results are handled
      alike, both by the shared digit table and timeout prompt; a connected call is recorded only by the outbound one, and its
      menu listens to the target number there but to the caller here; the end
      of a prompt always ends an outbound call, while an answered call only
      hangs up when the prompt failed. */
  lemma DispatchersDiffer(cfg: Config, s: State, d: Outbound.Delivered, callerId: string)
    ensures var outbound := Outbound.OnEvent(cfg, s, d).out;
            var answered := PerCall.OnLiveEvent(cfg, callerId, d.event);
            var host := cfg.callbackUriHost;
            var conn := d.event.callConnectionId;
            match d.event.kind
            case CallConnected =>
              && answered == [StartRecognizing(conn, MenuRecognizeOptions(host, RawId(callerId)))]
              && outbound == [StartRecording(d.event.serverCallId),
                              StartRecognizing(conn, MenuRecognizeOptions(host, PhoneNumber(cfg.targetPhoneNumber)))]
            case RecognizeCompleted(tones) =>
              outbound == answered && answered == RecognizeCompletedCommands(host, conn, tones)
            case RecognizeFailed(reason) =>
              outbound == answered && answered == RecognizeFailedCommands(host, conn, reason)
            case PlayCompleted => answered == [] && outbound == [StopRecording(s.recordingId), HangUp(conn, true)]
            case PlayFailed => outbound == [StopRecording(s.recordingId)] + answered
            case OtherEvent(_) => outbound == [] && answered == []
  {
  }

  /** A provider that resolves every connection with its media. */
  function AlwaysLive(connectionId: string): PerCall.Lookup
  {
    PerCall.Live
  }

  /** The caller id of an answered call comes back through the query string
      of its callback address: every answer puts the stored caller id into
      the `callerId` query value, and for a phone-number raw id (starting
      with '4', no space) the repaired value is the original, so on the
      connected event the menu listens to exactly the caller that was
      offered. */
  lemma AnsweredCallerIsRecognized(cfg: Config, s: State, draws: seq<Operator.AnswerDraw>, e: CallEvent)
    requires PerCall.StartsWithFour(s.callerId) && ' ' !in s.callerId
    requires e.kind == CallConnected
    ensures forall i | 0 <= i < |draws| ::
              Operator.Answer(cfg, s, draws).commands[i]
              == AnswerCall(s.incomingCallContext, Operator.AnswerCallbackUri(cfg.callbackUriHost, draws[i].guid, s.callerId))
    ensures PerCall.CallEvents(cfg, Some(Text.QueryDecode(s.callerId)), AlwaysLive, [e])
            == PerCall.Response([StartRecognizing(e.callConnectionId,
                                   MenuRecognizeOptions(cfg.callbackUriHost, RawId(s.callerId)))], Ok)
  {
    PerCall.NormalizeUndoesQueryDecode(s.callerId);
    assert [e][1..] == [];
    assert PerCall.Dispatch(cfg, s.callerId, AlwaysLive, []) == PerCall.Response([], Ok);
  }

  /** After a batch of offers, answering, rejecting and redirecting all act on
      the last offer's context, and none of them clears it. */
  lemma OfferContextSurvivesOperatorActions(cfg: Config, s: State, offers: seq<Webhooks.IncomingEntry>,
                                            draws: seq<Operator.AnswerDraw>, rejects: nat, redirects: nat)
    requires |offers| > 0
    requires forall i | 0 <= i < |offers| :: offers[i].IncomingCallOffered?
    ensures var context := offers[|offers| - 1].incomingCallContext;
            var offered := Webhooks.IncomingCall(s, offers).state;
            var answered := Operator.Answer(cfg, offered, draws);
            var rejected := Operator.Reject(answered.state, rejects);
            var redirected := Operator.Redirect(cfg, rejected.state, redirects);
            && (forall c | c in answered.commands :: c.AnswerCall? && c.context == context)
            && (forall c | c in rejected.commands :: c == RejectCall(context, Forbidden))
            && (forall c | c in redirected.commands :: c.RedirectCall? && c.context == context)
            && redirected.state.incomingCallContext == context
  {
    Webhooks.IncomingLastOfferWins(s, offers);
    var offered := Webhooks.IncomingCall(s, offers).state;
    var answered := Operator.Answer(cfg, offered, draws);
    forall c | c in answered.commands
      ensures c.AnswerCall? && c.context == offers[|offers| - 1].incomingCallContext
    {
      var i :| 0 <= i < |answered.commands| && answered.commands[i] == c;
    }
  }

  /** Hanging up after an answer ends the connection the provider returned
      for the last answered entry. */
  lemma HangUpEndsAnsweredCall(cfg: Config, s: State, draws: seq<Operator.AnswerDraw>, entries: nat)
    requires |draws| > 0
    ensures var answered := Operator.Answer(cfg, s, draws).state;
            Operator.HangUpCall(answered, entries)
            == Reply(answered, Operator.Repeat(HangUp(draws[|draws| - 1].connectionId, true), entries), Ok)
  {
  }

  /** Hanging up after an outbound callback delivery ends the call of the
      delivery's last event. */
  lemma HangUpFollowsLastCallback(cfg: Config, s: State, batch: seq<Outbound.Delivered>, entries: nat)
    requires |batch| > 0
    ensures var after := Outbound.Callbacks(cfg, s, batch).state;
            Operator.HangUpCall(after, entries)
            == Reply(after, Operator.Repeat(HangUp(batch[|batch| - 1].event.callConnectionId, true), entries), Ok)
  {
  }

  /** A transfer after an outbound callback delivery hands over the call of
      the delivery's last event. */
  lemma TransferFollowsLastCallback(cfg: Config, s: State, batch: seq<Outbound.Delivered>, entries: nat)
    requires |batch| > 0
    ensures var after := Outbound.Callbacks(cfg, s, batch).state;
            Operator.Transfer(cfg, after, entries)
            == Reply(after, Operator.Repeat(TransferToParticipant(batch[|batch| - 1].event.callConnectionId,
                                                                  PhoneNumber(cfg.targetPhoneNumber)), entries), Ok)
  {
  }

  /** Adding a participant after an outbound callback delivery invites the
      configured participant into the call of the delivery's last event. */
  lemma AddToCallFollowsLastCallback(cfg: Config, s: State, batch: seq<Outbound.Delivered>, entries: nat)
    requires |batch| > 0
    ensures var after := Outbound.Callbacks(cfg, s, batch).state;
            Operator.AddToCall(cfg, after, entries)
            == Reply(after, Operator.Repeat(AddParticipant(batch[|batch| - 1].event.callConnectionId,
                                                           CallInvite(PhoneNumber(cfg.participantToAdd),
                                                                      PhoneNumber(cfg.acsPhoneNumber))), entries), Ok)
  {
  }

  /** Placing an outbound call does not make it the current connection:
      until its first callback arrives, hanging up, transferring or adding
      a participant fails on the null connection. */
  lemma OutboundCallLeavesNoConnection(cfg: Config, entries: nat)
    requires entries > 0
    ensures var placed := Operator.OutboundCall(cfg, Initial).state;
            && Operator.HangUpCall(placed, entries) == Reply(placed, [], Fault)
            && Operator.Transfer(cfg, placed, entries) == Reply(placed, [], Fault)
            && Operator.AddToCall(cfg, placed, entries) == Reply(placed, [], Fault)
  {
  }

  /** A download after a recording-status delivery fetches the first chunk
      of the delivery's last status into the fixed local file. */
  lemma DownloadFetchesLastRecording(s: State, entries: seq<Webhooks.RecordingEntry>, i: nat)
    requires forall j | 0 <= j < |entries| :: !Webhooks.RecordingStops(entries[j])
    requires Webhooks.LastStatusAt(entries, i)
    requires |entries[i].chunkLocations| > 0 && entries[i].chunkLocations[0] != ""
    ensures var after := Webhooks.RecordingFileStatus(s, entries).state;
            Operator.Download(after) == Reply(after, [DownloadRecording(entries[i].chunkLocations[0], "testfile.wav")], Ok)
  {
    Webhooks.RecordingLastStatusWins(s, entries);
  }

  /** A whole outbound call in one delivery: connect, press "1", hear the
      confirmation, and the recording the connection started is the one
      stopped before hanging up. */
  lemma OutboundCallScenario(cfg: Config, conn: string, corr: string, server: string, recording: string)
    ensures var batch := [Outbound.Delivered(CallEvent(conn, corr, server, CallConnected), recording),
                          Outbound.Delivered(CallEvent(conn, corr, server, RecognizeCompleted("1")), ""),
                          Outbound.Delivered(CallEvent(conn, corr, server, PlayCompleted), "")];
            Outbound.Callbacks(cfg, Initial, batch).commands
            == [StartRecording(server),
                StartRecognizing(conn, MenuRecognizeOptions(cfg.callbackUriHost, PhoneNumber(cfg.targetPhoneNumber))),
                PlayToAll(conn, AudioUri(cfg.callbackUriHost, Confirmed)),
                StopRecording(recording),
                HangUp(conn, true)]
  {
    var d0 := Outbound.Delivered(CallEvent(conn, corr, server, CallConnected), recording);
    var d1 := Outbound.Delivered(CallEvent(conn, corr, server, RecognizeCompleted("1")), "");
    var d2 := Outbound.Delivered(CallEvent(conn, corr, server, PlayCompleted), "");
    var step := Outbound.Dispatcher(cfg);
    var o0 := Outbound.OnEvent(cfg, Initial, d0);
    var o1 := Outbound.OnEvent(cfg, o0.state, d1);
    var o2 := Outbound.OnEvent(cfg, o1.state, d2);
    assert o1.out == [PlayToAll(conn, AudioUri(cfg.callbackUriHost, Confirmed))];
    assert o2.out == [StopRecording(recording), HangUp(conn, true)];
    assert Fold.Steps(step, Initial, [d0]) == Fold.Run(o0.state, o0.out) by {
      Fold.StepsSnoc(step, Initial, [], d0);
      assert [] + [d0] == [d0];
    }
    assert Fold.Steps(step, Initial, [d0, d1]) == Fold.Run(o1.state, o0.out + o1.out) by {
      Fold.StepsSnoc(step, Initial, [d0], d1);
      assert [d0] + [d1] == [d0, d1];
    }
    assert Fold.Steps(step, Initial, [d0, d1, d2]) == Fold.Run(o2.state, o0.out + o1.out + o2.out) by {
      Fold.StepsSnoc(step, Initial, [d0, d1], d2);
      assert [d0, d1] + [d2] == [d0, d1, d2];
    }
  }
}
