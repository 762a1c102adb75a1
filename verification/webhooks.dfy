/**
 The two event-grid webhooks: recording file status (`/api/recordingFileStatus`)
 and incoming call (`/api/incomingCall`). Both answer a subscription-validation
 entry by echoing its code at once, ignoring the rest of the batch; otherwise
 every entry overwrites the globals it carries, so the last one wins.
 */
module Webhooks {
  import opened Calls

  /** An entry of a recording-status delivery: the validation handshake, a
      finished recording with the content locations of its chunks, or any
      other entry (another system event, or none at all). */
  datatype RecordingEntry =
    | RecordingValidation(validationCode: string)
    | RecordingFileStatusUpdated(chunkLocations: seq<string>)
    | OtherRecordingEntry

  /** An entry that ends the recording-status batch: the handshake, or a
      status without chunks, whose first chunk cannot be read. */
  predicate RecordingStops(e: RecordingEntry)
  {
    e.RecordingValidation? || (e.RecordingFileStatusUpdated? && |e.chunkLocations| == 0)
  }

  /** The recording-status webhook. It issues no command and moves only the
      recording location; a validation code is answered only if the batch
      holds it. */
  function RecordingFileStatus(s: State, entries: seq<RecordingEntry>): (r: Reply)
    ensures r.commands == []
    ensures r.state == s.(recordingLocation := r.state.recordingLocation)
    ensures r.outcome == Ok || r.outcome.Validated? || r.outcome == Fault
    ensures r.outcome.Validated? ==> RecordingValidation(r.outcome.validationResponse) in entries
    ensures r.outcome == Fault ==> RecordingFileStatusUpdated([]) in entries
    decreases |entries|
  {
    if |entries| == 0 then Reply(s, [], Ok)
    else
      match entries[0]
      case RecordingValidation(code) => Reply(s, [], Validated(code))
      case RecordingFileStatusUpdated(chunks) =>
        if |chunks| == 0 then Reply(s, [], Fault)
        else RecordingFileStatus(s.(recordingLocation := chunks[0]), entries[1..])
      case OtherRecordingEntry => RecordingFileStatus(s, entries[1..])
  }

  /** Entries that do not end the batch are handled as a batch of their own,
      and what follows starts from the state they left. */
  lemma {:induction false} RecordingPrefix(s: State, pre: seq<RecordingEntry>, rest: seq<RecordingEntry>)
    requires forall i | 0 <= i < |pre| :: !RecordingStops(pre[i])
    ensures RecordingFileStatus(s, pre).outcome == Ok
    ensures RecordingFileStatus(s, pre + rest) == RecordingFileStatus(RecordingFileStatus(s, pre).state, rest)
    decreases |pre|
  {
    if |pre| == 0 {
      assert pre + rest == rest;
    } else {
      assert (pre + rest)[0] == pre[0];
      assert (pre + rest)[1..] == pre[1..] + rest;
      assert !RecordingStops(pre[0]);
      var s' := if pre[0].RecordingFileStatusUpdated? then s.(recordingLocation := pre[0].chunkLocations[0]) else s;
      RecordingPrefix(s', pre[1..], rest);
    }
  }

  /** The first validation entry answers the batch with its own code; the
      entries after it have no effect. */
  lemma RecordingValidationShortCircuits(s: State, pre: seq<RecordingEntry>, code: string, post: seq<RecordingEntry>)
    requires forall i | 0 <= i < |pre| :: !RecordingStops(pre[i])
    ensures RecordingFileStatus(s, pre + [RecordingValidation(code)] + post)
            == Reply(RecordingFileStatus(s, pre).state, [], Validated(code))
  {
    assert pre + [RecordingValidation(code)] + post == pre + ([RecordingValidation(code)] + post);
    RecordingPrefix(s, pre, [RecordingValidation(code)] + post);
  }

  /** A status without chunks ends the request with an unhandled exception,
      keeping the locations the entries before it stored. */
  lemma RecordingWithoutChunksFaults(s: State, pre: seq<RecordingEntry>, post: seq<RecordingEntry>)
    requires forall i | 0 <= i < |pre| :: !RecordingStops(pre[i])
    ensures RecordingFileStatus(s, pre + [RecordingFileStatusUpdated([])] + post)
            == Reply(RecordingFileStatus(s, pre).state, [], Fault)
  {
    assert pre + [RecordingFileStatusUpdated([])] + post == pre + ([RecordingFileStatusUpdated([])] + post);
    RecordingPrefix(s, pre, [RecordingFileStatusUpdated([])] + post);
  }

  /** The entry at `i` is a recording status and no later one is. */
  ghost predicate LastStatusAt(entries: seq<RecordingEntry>, i: int)
  {
    && 0 <= i < |entries|
    && entries[i].RecordingFileStatusUpdated?
    && forall j | i < j < |entries| :: !entries[j].RecordingFileStatusUpdated?
  }

  /** In a batch without a stopping entry the last status wins: the location
      becomes the first chunk's location of the last status, or stays as it
      was when there is none. */
  lemma {:induction false} RecordingLastStatusWins(s: State, entries: seq<RecordingEntry>)
    requires forall i | 0 <= i < |entries| :: !RecordingStops(entries[i])
    ensures RecordingFileStatus(s, entries).outcome == Ok
    ensures (forall i | 0 <= i < |entries| :: !entries[i].RecordingFileStatusUpdated?)
            ==> RecordingFileStatus(s, entries).state == s
    ensures forall i | LastStatusAt(entries, i) && !RecordingStops(entries[i]) ::
              RecordingFileStatus(s, entries).state == s.(recordingLocation := entries[i].chunkLocations[0])
    decreases |entries|
  {
    if |entries| > 0 {
      assert !RecordingStops(entries[0]);
      var tail := entries[1..];
      var s' := if entries[0].RecordingFileStatusUpdated? then s.(recordingLocation := entries[0].chunkLocations[0]) else s;
      RecordingLastStatusWins(s', tail);
      forall i | LastStatusAt(entries, i) && !RecordingStops(entries[i])
        ensures RecordingFileStatus(s, entries).state == s.(recordingLocation := entries[i].chunkLocations[0])
      {
        if i > 0 {
          assert LastStatusAt(tail, i - 1);
        } else {
          assert forall j | 0 <= j < |tail| :: !tail[j].RecordingFileStatusUpdated?;
        }
      }
      if forall i | 0 <= i < |entries| :: !entries[i].RecordingFileStatusUpdated? {
        assert forall j | 0 <= j < |tail| :: !tail[j].RecordingFileStatusUpdated?;
      }
    }
  }

  /** An entry of an incoming-call delivery: the validation handshake, or an
      offered call with the caller's raw id and the context that answers,
      rejects or redirects it. */
  datatype IncomingEntry =
    | IncomingValidation(validationCode: string)
    | IncomingCallOffered(fromRawId: string, incomingCallContext: string)

  /** The incoming-call webhook. It issues no command and moves only the
      caller id and the offered context. */
  function IncomingCall(s: State, entries: seq<IncomingEntry>): (r: Reply)
    ensures r.commands == []
    ensures r.state == s.(callerId := r.state.callerId, incomingCallContext := r.state.incomingCallContext)
    ensures r.outcome == Ok || r.outcome.Validated?
    ensures r.outcome.Validated? ==> IncomingValidation(r.outcome.validationResponse) in entries
    decreases |entries|
  {
    if |entries| == 0 then Reply(s, [], Ok)
    else
      match entries[0]
      case IncomingValidation(code) => Reply(s, [], Validated(code))
      case IncomingCallOffered(from, context) =>
        IncomingCall(s.(callerId := from, incomingCallContext := context), entries[1..])
  }

  /** Offers before anything else are handled as a batch of their own. */
  lemma {:induction false} IncomingPrefix(s: State, pre: seq<IncomingEntry>, rest: seq<IncomingEntry>)
    requires forall i | 0 <= i < |pre| :: pre[i].IncomingCallOffered?
    ensures IncomingCall(s, pre).outcome == Ok
    ensures IncomingCall(s, pre + rest) == IncomingCall(IncomingCall(s, pre).state, rest)
    decreases |pre|
  {
    if |pre| == 0 {
      assert pre + rest == rest;
    } else {
      assert (pre + rest)[0] == pre[0];
      assert (pre + rest)[1..] == pre[1..] + rest;
      IncomingPrefix(s.(callerId := pre[0].fromRawId, incomingCallContext := pre[0].incomingCallContext),
                     pre[1..], rest);
    }
  }

  /** The first validation entry answers the batch with its own code; the
      entries after it have no effect. */
  lemma IncomingValidationShortCircuits(s: State, pre: seq<IncomingEntry>, code: string, post: seq<IncomingEntry>)
    requires forall i | 0 <= i < |pre| :: pre[i].IncomingCallOffered?
    ensures IncomingCall(s, pre + [IncomingValidation(code)] + post)
            == Reply(IncomingCall(s, pre).state, [], Validated(code))
  {
    assert pre + [IncomingValidation(code)] + post == pre + ([IncomingValidation(code)] + post);
    IncomingPrefix(s, pre, [IncomingValidation(code)] + post);
  }

  /** In a batch of offers the last one wins: the caller id and the context
      are both the last offer's, or unchanged for an empty batch. */
  lemma {:induction false} IncomingLastOfferWins(s: State, entries: seq<IncomingEntry>)
    requires forall i | 0 <= i < |entries| :: entries[i].IncomingCallOffered?
    ensures IncomingCall(s, entries).outcome == Ok
    ensures |entries| == 0 ==> IncomingCall(s, entries).state == s
    ensures |entries| > 0 ==>
              var last := entries[|entries| - 1];
              IncomingCall(s, entries).state
              == s.(callerId := last.fromRawId, incomingCallContext := last.incomingCallContext)
    decreases |entries|
  {
    if |entries| > 0 {
      IncomingLastOfferWins(s.(callerId := entries[0].fromRawId, incomingCallContext := entries[0].incomingCallContext),
                            entries[1..]);
    }
  }
}
