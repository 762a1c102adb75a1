/**
 The IVR menu both call-event dispatchers share: the prompt files, the DTMF
 recognition request that plays the main menu, the digit table that picks the
 answer prompt, and the reaction to a failed recognition.
 */
module Menu {
  import opened Calls
  import Text

  /** The prompt files served under `/audio`. */
  datatype Audio = MainMenu | Confirmed | Goodbye | Invalid | Timeout

  function FileName(a: Audio): string
  {
    match a
    case MainMenu => "MainMenu.wav"
    case Confirmed => "Confirmed.wav"
    case Goodbye => "Goodbye.wav"
    case Invalid => "Invalid.wav"
    case Timeout => "Timeout.wav"
  }

  /** The URI of a prompt file below the callback host. */
  function AudioUri(host: string, a: Audio): (uri: string)
    ensures uri == host + ("/audio/" + FileName(a))
  {
    host + "/audio/" + FileName(a)
  }

  /** Different prompts have different URIs, so a played URI names the
      prompt that was chosen. */
  lemma AudioUriInjective(host: string, a: Audio, b: Audio)
    requires AudioUri(host, a) == AudioUri(host, b)
    ensures a == b
  {
    Text.PrefixCancel(host + "/audio/", FileName(a), FileName(b));
  }

  /** The menu accepts one tone and gives the caller 5 seconds to start. */
  const MaxTones: nat := 1
  const InitialSilenceSeconds: nat := 5

  /** The recognition request that plays the main menu to `target`. */
  function MenuRecognizeOptions(host: string, target: Identifier): RecognizeOptions
  {
    DtmfOptions(target, MaxTones, AudioUri(host, MainMenu), true, InitialSilenceSeconds)
  }

  /** The prompt that answers the collected tones: an exact match on "1" or
      "2", anything else is invalid. */
  function ToneAudio(tones: string): Audio
  {
    if tones == "1" then Confirmed
    else if tones == "2" then Goodbye
    else Invalid
  }

  /** The reaction to a completed recognition: exactly one prompt, played to
      everyone on the connection, and never the menu or the timeout prompt. */
  function RecognizeCompletedCommands(host: string, connection: string, tones: string): (cmds: seq<Command>)
    ensures |cmds| == 1 && cmds[0].PlayToAll? && cmds[0].connection == connection
    ensures cmds[0].source != AudioUri(host, MainMenu)
    ensures cmds[0].source != AudioUri(host, Timeout)
  {
    var a := ToneAudio(tones);
    assert AudioUri(host, a) != AudioUri(host, MainMenu) by {
      if AudioUri(host, a) == AudioUri(host, MainMenu) { AudioUriInjective(host, a, MainMenu); }
    }
    assert AudioUri(host, a) != AudioUri(host, Timeout) by {
      if AudioUri(host, a) == AudioUri(host, Timeout) { AudioUriInjective(host, a, Timeout); }
    }
    [PlayToAll(connection, AudioUri(host, a))]
  }

  /** The reaction to a failed recognition: the timeout prompt on an initial
      silence timeout, nothing for any other reason. */
  function RecognizeFailedCommands(host: string, connection: string, reason: ReasonCode): (cmds: seq<Command>)
    ensures |cmds| <= 1
    ensures cmds != [] <==> reason == RecognizeInitialSilenceTimedOut
    ensures forall c :: c in cmds ==> c == PlayToAll(connection, AudioUri(host, Timeout))
  {
    if reason == RecognizeInitialSilenceTimedOut then [PlayToAll(connection, AudioUri(host, Timeout))]
    else []
  }

  /** The digit table, read back from the played URI in both directions:
      "1" and only "1" plays Confirmed, "2" and only "2" plays Goodbye, and
      every other string, the empty one and multi-digit ones included, plays
      Invalid. */
  lemma ToneTable(host: string, connection: string, tones: string)
    ensures RecognizeCompletedCommands(host, connection, tones) == [PlayToAll(connection, AudioUri(host, Confirmed))]
            <==> tones == "1"
    ensures RecognizeCompletedCommands(host, connection, tones) == [PlayToAll(connection, AudioUri(host, Goodbye))]
            <==> tones == "2"
    ensures RecognizeCompletedCommands(host, connection, tones) == [PlayToAll(connection, AudioUri(host, Invalid))]
            <==> tones != "1" && tones != "2"
  {
    var played := AudioUri(host, ToneAudio(tones));
    if played == AudioUri(host, Confirmed) { AudioUriInjective(host, ToneAudio(tones), Confirmed); }
    if played == AudioUri(host, Goodbye) { AudioUriInjective(host, ToneAudio(tones), Goodbye); }
    if played == AudioUri(host, Invalid) { AudioUriInjective(host, ToneAudio(tones), Invalid); }
  }
}
