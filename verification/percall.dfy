/**
 The call-event webhook of answered inbound calls (`/api/calls/{contextId}`).
 It repairs the caller id taken from the query string, then walks the batch:
 each event's connection is looked up, the menu listens for one tone from the
 caller, and only a failed prompt hangs up. It neither records nor touches
 any global: its `callerId` parameter and its local connection shadow the
 globals of the same names.
 */
module PerCall {
  import opened Calls
  import opened Menu
  import Text
  import Fold

  /** What fetching the event's connection and its media yields: no
      connection at all, a connection without media, or both. */
  datatype Lookup = NoConnection | NoMedia | Live

  /** The handler's answer; it has no effect on the globals. */
  datatype Response = Response(commands: seq<Command>, outcome: Outcome)

  predicate StartsWithFour(s: string)
  {
    |s| > 0 && s[0] == '4'
  }

  /** The caller id repair: for a raw id that starts with '4' (a phone
      number, whose '+' the query string turned into a space) every space
      becomes '+'; any other id is left alone. */
  function NormalizeCallerId(callerId: string): (r: string)
    ensures |r| == |callerId|
    ensures StartsWithFour(r) == StartsWithFour(callerId)
    ensures StartsWithFour(callerId) ==> ' ' !in r
    ensures StartsWithFour(callerId) ==>
              forall i | 0 <= i < |callerId| :: r[i] == (if callerId[i] == ' ' then '+' else callerId[i])
    ensures !StartsWithFour(callerId) ==> r == callerId
  {
    if StartsWithFour(callerId) then Text.ReplaceChar(callerId, ' ', '+') else callerId
  }

  /** Repairing twice is repairing once. */
  lemma NormalizeIdempotent(callerId: string)
    ensures NormalizeCallerId(NormalizeCallerId(callerId)) == NormalizeCallerId(callerId)
  {
    if StartsWithFour(callerId) {
      Text.ReplaceCharIdempotent(callerId, ' ', '+');
    }
  }

  /** The repair undoes the query-string decoding of a phone-number raw id:
      an id starting with '4' and holding no space arrives as it was sent. */
  lemma NormalizeUndoesQueryDecode(callerId: string)
    requires StartsWithFour(callerId) && ' ' !in callerId
    ensures NormalizeCallerId(Text.QueryDecode(callerId)) == callerId
  {
    Text.ReplaceCharRoundTrip(callerId, '+', ' ');
  }

  /** One event on a live connection. */
  function OnLiveEvent(cfg: Config, callerId: string, e: CallEvent): (cmds: seq<Command>)
    ensures |cmds| <= 1
    ensures forall c | c in cmds :: !c.StartRecording? && !c.StopRecording?
  {
    var conn := e.callConnectionId;
    match e.kind
    case CallConnected =>
      [StartRecognizing(conn, MenuRecognizeOptions(cfg.callbackUriHost, RawId(callerId)))]
    case RecognizeCompleted(tones) =>
      RecognizeCompletedCommands(cfg.callbackUriHost, conn, tones)
    case RecognizeFailed(reason) =>
      RecognizeFailedCommands(cfg.callbackUriHost, conn, reason)
    case PlayFailed =>
      [HangUp(conn, true)]
    case PlayCompleted =>
      []
    case OtherEvent(_) =>
      []
  }

  /** The batch: it stops at the first event whose connection cannot be
      fetched (an unhandled null dereference) or has no media (400), keeping
      what the events before it issued; otherwise it answers 200. */
  function Dispatch(cfg: Config, callerId: string, lookup: string -> Lookup, events: seq<CallEvent>): (r: Response)
    ensures r.outcome == Ok <==> forall i | 0 <= i < |events| :: lookup(events[i].callConnectionId) == Live
    ensures r.outcome == Ok || r.outcome == BadRequest || r.outcome == Fault
    ensures forall c | c in r.commands :: !c.StartRecording? && !c.StopRecording?
    decreases |events|
  {
    if |events| == 0 then Response([], Ok)
    else
      match lookup(events[0].callConnectionId)
      case NoConnection => Response([], Fault)
      case NoMedia => Response([], BadRequest)
      case Live =>
        var rest := Dispatch(cfg, callerId, lookup, events[1..]);
        Response(OnLiveEvent(cfg, callerId, events[0]) + rest.commands, rest.outcome)
  }

  /** The commands a run of live events issues, event after event. */
  function Issued(cfg: Config, callerId: string, events: seq<CallEvent>): seq<Command>
    decreases |events|
  {
    if |events| == 0 then [] else OnLiveEvent(cfg, callerId, events[0]) + Issued(cfg, callerId, events[1..])
  }

  /** The event at `i` is the first whose connection or media cannot be
      fetched. */
  ghost predicate FirstFailure(lookup: string -> Lookup, events: seq<CallEvent>, i: int)
  {
    && 0 <= i < |events|
    && lookup(events[i].callConnectionId) != Live
    && forall j | 0 <= j < i :: lookup(events[j].callConnectionId) == Live
  }

  /** With no failing event every event issues its commands, in order, and
      the answer is 200. */
  lemma {:induction false} DispatchAllLive(cfg: Config, callerId: string, lookup: string -> Lookup,
                                           events: seq<CallEvent>)
    requires forall j | 0 <= j < |events| :: lookup(events[j].callConnectionId) == Live
    ensures Dispatch(cfg, callerId, lookup, events) == Response(Issued(cfg, callerId, events), Ok)
    decreases |events|
  {
    if |events| > 0 {
      var tail := events[1..];
      assert forall j | 0 <= j < |tail| :: lookup(tail[j].callConnectionId) == Live;
      DispatchAllLive(cfg, callerId, lookup, tail);
    }
  }

  /** The request ends at its first failing event: a missing connection is
      an unhandled null dereference, a connection without media answers 400,
      and the commands are exactly those of the live events before it. */
  lemma {:induction false} DispatchStopsAtFirstFailure(cfg: Config, callerId: string, lookup: string -> Lookup,
                                                       events: seq<CallEvent>, i: nat)
    requires FirstFailure(lookup, events, i)
    ensures Dispatch(cfg, callerId, lookup, events)
            == Response(Issued(cfg, callerId, events[..i]),
                        if lookup(events[i].callConnectionId) == NoMedia then BadRequest else Fault)
    decreases i
  {
    if i > 0 {
      var tail := events[1..];
      assert FirstFailure(lookup, tail, i - 1);
      DispatchStopsAtFirstFailure(cfg, callerId, lookup, tail, i - 1);
      assert events[..i][0] == events[0];
      assert events[..i][1..] == tail[..i - 1];
    } else {
      assert events[..0] == [];
    }
  }

  /** The whole request: without the required `callerId` query parameter
      the host answers 400 before the handler runs. */
  function CallEvents(cfg: Config, callerIdParam: Option<string>, lookup: string -> Lookup,
                      events: seq<CallEvent>): (r: Response)
    ensures callerIdParam.None? ==> r == Response([], BadRequest)
    ensures callerIdParam.Some? ==> (r.outcome == Ok <==> forall i | 0 <= i < |events| :: lookup(events[i].callConnectionId) == Live)
  {
    match callerIdParam
    case None => Response([], BadRequest)
    case Some(raw) => Dispatch(cfg, NormalizeCallerId(raw), lookup, events)
  }

  /** With the `callerId` parameter present, the batch is dispatched with
      the repaired caller id: an all-live batch answers 200 with every
      event's commands, and otherwise the first failing event decides the
      answer after the commands of the live events before it. */
  lemma CallEventsUsesRepairedId(cfg: Config, raw: string, lookup: string -> Lookup, events: seq<CallEvent>)
    ensures (forall j | 0 <= j < |events| :: lookup(events[j].callConnectionId) == Live)
            ==> CallEvents(cfg, Some(raw), lookup, events) == Response(Issued(cfg, NormalizeCallerId(raw), events), Ok)
    ensures forall i | FirstFailure(lookup, events, i) ::
              CallEvents(cfg, Some(raw), lookup, events)
              == Response(Issued(cfg, NormalizeCallerId(raw), events[..i]),
                          if lookup(events[i].callConnectionId) == NoMedia then BadRequest else Fault)
  {
    var id := NormalizeCallerId(raw);
    if forall j | 0 <= j < |events| :: lookup(events[j].callConnectionId) == Live {
      DispatchAllLive(cfg, id, lookup, events);
    }
    forall i | FirstFailure(lookup, events, i)
      ensures CallEvents(cfg, Some(raw), lookup, events)
              == Response(Issued(cfg, id, events[..i]),
                          if lookup(events[i].callConnectionId) == NoMedia then BadRequest else Fault)
    {
      DispatchStopsAtFirstFailure(cfg, id, lookup, events, i);
    }
  }

  /** A batch is handled as its two halves one after the other, unless the
      first half already stopped the request, in which case the second half
      is never looked at. */
  lemma {:induction false} DispatchSplit(cfg: Config, callerId: string, lookup: string -> Lookup,
                                         a: seq<CallEvent>, b: seq<CallEvent>)
    ensures var first := Dispatch(cfg, callerId, lookup, a);
            var second := Dispatch(cfg, callerId, lookup, b);
            Dispatch(cfg, callerId, lookup, a + b)
            == if first.outcome == Ok then Response(first.commands + second.commands, second.outcome) else first
    decreases |a|
  {
    if |a| == 0 {
      assert a + b == b;
    } else if lookup(a[0].callConnectionId) == Live {
      var head := OnLiveEvent(cfg, callerId, a[0]);
      var tail := Dispatch(cfg, callerId, lookup, a[1..]);
      var second := Dispatch(cfg, callerId, lookup, b);
      var rest := Dispatch(cfg, callerId, lookup, a[1..] + b);
      assert Dispatch(cfg, callerId, lookup, a) == Response(head + tail.commands, tail.outcome) by {
        assert a == [a[0]] + a[1..];
        DispatchLiveHead(cfg, callerId, lookup, a[0], a[1..]);
      }
      assert Dispatch(cfg, callerId, lookup, a + b) == Response(head + rest.commands, rest.outcome) by {
        assert a + b == [a[0]] + (a[1..] + b) by {
          assert a == [a[0]] + a[1..];
          Fold.Associative([a[0]], a[1..], b);
        }
        DispatchLiveHead(cfg, callerId, lookup, a[0], a[1..] + b);
      }
      DispatchSplit(cfg, callerId, lookup, a[1..], b);
      Fold.Associative(head, tail.commands, second.commands);
    } else {
      assert (a + b)[0] == a[0];
    }
  }

  /** An event on a live connection issues its commands ahead of the rest of
      the batch, which decides the answer. */
  lemma DispatchLiveHead(cfg: Config, callerId: string, lookup: string -> Lookup, e: CallEvent, rest: seq<CallEvent>)
    requires lookup(e.callConnectionId) == Live
    ensures var tail := Dispatch(cfg, callerId, lookup, rest);
            Dispatch(cfg, callerId, lookup, [e] + rest) == Response(OnLiveEvent(cfg, callerId, e) + tail.commands, tail.outcome)
  {
    assert ([e] + rest)[0] == e;
    assert ([e] + rest)[1..] == rest;
  }

  /** On a live connection a connected call gets the menu, listening for one
      tone from the caller with barge-in and a 5 second initial silence
      timeout; a failed prompt hangs up for everyone; a completed prompt does
      nothing. */
  lemma LiveEventTable(cfg: Config, callerId: string, e: CallEvent)
    ensures e.kind == CallConnected ==>
              OnLiveEvent(cfg, callerId, e)
              == [StartRecognizing(e.callConnectionId,
                    DtmfOptions(RawId(callerId), 1, cfg.callbackUriHost + "/audio/MainMenu.wav", true, 5))]
    ensures e.kind == PlayFailed ==> OnLiveEvent(cfg, callerId, e) == [HangUp(e.callConnectionId, true)]
    ensures e.kind == PlayCompleted ==> OnLiveEvent(cfg, callerId, e) == []
    ensures e.kind == RecognizeCompleted("1") ==>
              OnLiveEvent(cfg, callerId, e) == [PlayToAll(e.callConnectionId, AudioUri(cfg.callbackUriHost, Confirmed))]
    ensures e.kind == RecognizeCompleted("2") ==>
              OnLiveEvent(cfg, callerId, e) == [PlayToAll(e.callConnectionId, AudioUri(cfg.callbackUriHost, Goodbye))]
    ensures e.kind.RecognizeCompleted? && e.kind.tones != "1" && e.kind.tones != "2" ==>
              OnLiveEvent(cfg, callerId, e) == [PlayToAll(e.callConnectionId, AudioUri(cfg.callbackUriHost, Invalid))]
    ensures e.kind == RecognizeFailed(RecognizeInitialSilenceTimedOut) ==>
              OnLiveEvent(cfg, callerId, e) == [PlayToAll(e.callConnectionId, AudioUri(cfg.callbackUriHost, Timeout))]
    ensures e.kind.RecognizeFailed? && e.kind.reason != RecognizeInitialSilenceTimedOut ==> OnLiveEvent(cfg, callerId, e) == []
  {
    assert "/audio/" + FileName(MainMenu) == "/audio/MainMenu.wav";
  }
}
