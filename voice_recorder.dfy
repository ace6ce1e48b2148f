/**
 * The voice recorder: a small state machine over the browser's media
 * recorder. Its events (permission granted or refused, a data chunk, the
 * recorder's stop event, a one-second timer tick) are methods; a data chunk
 * is represented by its size, the recorded object URL is a parameter.
 */
module VoiceRecorder {
  import opened Wrappers
  import opened Text

  /** `r` reads as the minutes `m` (two digits or more), a colon and the two-digit seconds `s`. */
  predicate ShowsClock(r: string, m: nat, s: nat) {
    && |r| >= 5 && r[|r| - 3] == ':'
    && AllDigits(r[..|r| - 3]) && DecimalValue(r[..|r| - 3]) == m
    && AllDigits(r[|r| - 2..]) && DecimalValue(r[|r| - 2..]) == s
  }

  /** `formatTime`: the whole minutes and the remaining seconds, each padded to two digits, joined by a colon. */
  function FormatTime(seconds: nat): (r: string)
    ensures ShowsClock(r, seconds / 60, seconds % 60)
  {
    var mins := PadStart2(NatToString(seconds / 60));
    var secs := PadStart2(NatToString(seconds % 60));
    ClockShape(seconds / 60, seconds % 60, mins, secs);
    mins + ":" + secs
  }

  lemma ClockShape(m: nat, s: nat, mins: string, secs: string)
    requires s < 60 && mins == PadStart2(NatToString(m)) && secs == PadStart2(NatToString(s))
    ensures ShowsClock(mins + ":" + secs, m, s)
  {
    PaddedParts(m, s);
    ColonJoin(mins, secs);
  }

  /** The padded minutes have two digits or more and the padded seconds exactly two; both keep their value. */
  lemma PaddedParts(m: nat, s: nat)
    requires s < 60
    ensures var a := PadStart2(NatToString(m));
      |a| >= 2 && AllDigits(a) && DecimalValue(a) == m
    ensures var b := PadStart2(NatToString(s));
      |b| == 2 && AllDigits(b) && DecimalValue(b) == s
  {
    NatToStringRoundTrip(m);
    NatToStringRoundTrip(s);
    PadStart2Value(NatToString(m));
    PadStart2Value(NatToString(s));
  }

  /** Joining a part and a two-character part with a colon; both parts can be read back. */
  lemma ColonJoin(a: string, b: string)
    requires |b| == 2
    ensures var r := a + ":" + b;
      |r| == |a| + 3 && r[|r| - 3] == ':' && r[..|r| - 3] == a && r[|r| - 2..] == b
  {
  }

  /** Below 100 minutes the text is exactly "MM:SS". */
  lemma FormatTimeUnderHundredMinutes(seconds: nat)
    requires seconds < 6000
    ensures var r := FormatTime(seconds);
      && |r| == 5 && r[2] == ':'
      && DecimalValue(r[..2]) == seconds / 60 && DecimalValue(r[3..]) == seconds % 60
  {
    assert seconds / 60 < 100;
    var m := NatToString(seconds / 60);
    assert |PadStart2(m)| == 2;
  }

  /**
   * How an attempt to start ends. `Refused`: the microphone request is
   * rejected. `RecorderFailed`: the stream is obtained but creating the
   * media recorder throws (no supported MIME type). `StartFailed`: the
   * recorder is created but starting it throws. Each failure lands in the
   * same `catch`, which only sets the permission warning.
   */
  datatype StartOutcome = Started | Refused | RecorderFailed | StartFailed

  class Recorder {
    /** Gates the record button (`disabled` prop). */
    const disabled: bool
    var isRecording: bool
    var isPaused: bool
    var recordingTime: nat
    var audioUrl: Option<string>
    var permissionDenied: bool
    /** A media recorder has been created (`mediaRecorderRef.current`). */
    var hasRecorder: bool
    /** The one-second interval is set (`timerRef.current`). */
    var timerRunning: bool
    /** The microphone stream is held (`streamRef.current`). */
    var streamOpen: bool
    /** The sizes of the collected chunks (`chunksRef.current`). */
    var chunks: seq<nat>
    /** The chunks of the finished recording behind `audioUrl`. */
    var recording: seq<nat>

    /** The timer runs exactly while recording unpaused; pausing needs a recording, and a recording a recorder. */
    function Valid(): (b: bool)
      reads this
      ensures b ==> (timerRunning <==> isRecording && !isPaused)
      ensures b ==> forall i :: 0 <= i < |chunks| ==> chunks[i] > 0
    {
      && (timerRunning <==> isRecording && !isPaused)
      && (isPaused ==> isRecording)
      && (isRecording ==> hasRecorder)
      && (forall i :: 0 <= i < |chunks| ==> chunks[i] > 0)
    }

    constructor(disabled: bool)
      ensures Valid()
      ensures this.disabled == disabled
      ensures !isRecording && !isPaused && recordingTime == 0 && audioUrl == None && !permissionDenied
      ensures !hasRecorder && !timerRunning && !streamOpen && chunks == [] && recording == []
    {
      this.disabled := disabled;
      isRecording := false;
      isPaused := false;
      recordingTime := 0;
      audioUrl := None;
      permissionDenied := false;
      hasRecorder := false;
      timerRunning := false;
      streamOpen := false;
      chunks := [];
      recording := [];
    }

    /**
     * Start, with how the attempt ends. Started: a fresh recorder starts with
     * no chunks, the counter at zero, the timer running and the permission
     * warning cleared. Refused: only the warning is set. A failure after the
     * stream was obtained sets the warning and leaves that stream held; a
     * failure of `start()` also leaves the new recorder and its emptied
     * chunks in place. Nothing records after any failure.
     */
    method StartRecording(outcome: StartOutcome)
      requires Valid() && !isRecording
      modifies this
      ensures Valid()
      ensures outcome == Started ==>
        && isRecording && !isPaused && timerRunning && hasRecorder && streamOpen
        && chunks == [] && recordingTime == 0 && !permissionDenied
      ensures outcome != Started ==>
        && permissionDenied
        && isRecording == old(isRecording) && timerRunning == old(timerRunning)
        && recordingTime == old(recordingTime)
      ensures outcome == Refused ==>
        hasRecorder == old(hasRecorder) && streamOpen == old(streamOpen) && chunks == old(chunks)
      ensures outcome == RecorderFailed ==>
        streamOpen && hasRecorder == old(hasRecorder) && chunks == old(chunks)
      ensures outcome == StartFailed ==> streamOpen && hasRecorder && chunks == []
      ensures isPaused == old(isPaused) && audioUrl == old(audioUrl) && recording == old(recording)
    {
      if outcome == Refused {
        permissionDenied := true;
        return;
      }
      streamOpen := true;
      if outcome == RecorderFailed {
        permissionDenied := true;
        return;
      }
      hasRecorder := true;
      chunks := [];
      if outcome == StartFailed {
        permissionDenied := true;
        return;
      }
      isRecording := true;
      permissionDenied := false;
      recordingTime := 0;
      timerRunning := true;
    }

    /** `ondataavailable`: a chunk is kept only when it is not empty. */
    method DataAvailable(size: nat)
      requires Valid()
      modifies this
      ensures Valid()
      ensures size > 0 ==> chunks == old(chunks) + [size]
      ensures size == 0 ==> chunks == old(chunks)
      ensures isRecording == old(isRecording) && isPaused == old(isPaused) && timerRunning == old(timerRunning)
      ensures recordingTime == old(recordingTime) && audioUrl == old(audioUrl) && recording == old(recording)
      ensures permissionDenied == old(permissionDenied) && hasRecorder == old(hasRecorder) && streamOpen == old(streamOpen)
    {
      if size > 0 {
        chunks := chunks + [size];
      }
    }

    /** Stop acts only while recording with a recorder; it clears both flags and the timer. */
    method StopRecording()
      requires Valid()
      modifies this
      ensures Valid()
      ensures old(hasRecorder && isRecording) ==> !isRecording && !isPaused && !timerRunning
      ensures !old(hasRecorder && isRecording) ==>
        isRecording == old(isRecording) && isPaused == old(isPaused) && timerRunning == old(timerRunning)
      ensures recordingTime == old(recordingTime) && chunks == old(chunks) && audioUrl == old(audioUrl)
      ensures recording == old(recording) && permissionDenied == old(permissionDenied)
      ensures hasRecorder == old(hasRecorder) && streamOpen == old(streamOpen)
    {
      if hasRecorder && isRecording {
        isRecording := false;
        isPaused := false;
        timerRunning := false;
      }
    }

    /**
     * The recorder's `onstop`: the collected chunks become the recording
     * behind a new URL, and the stream is released. The URL effect's cleanup
     * then releases the URL this one replaces (after a re-record), which is
     * returned.
     */
    method RecorderStopped(url: string) returns (revoked: Option<string>)
      requires Valid()
      modifies this
      ensures Valid()
      ensures audioUrl == Some(url) && recording == old(chunks) && !streamOpen
      ensures Present(old(audioUrl)) && old(audioUrl) != Some(url) ==> revoked == old(audioUrl)
      ensures !(Present(old(audioUrl)) && old(audioUrl) != Some(url)) ==> revoked == None
      ensures isRecording == old(isRecording) && isPaused == old(isPaused) && timerRunning == old(timerRunning)
      ensures recordingTime == old(recordingTime) && chunks == old(chunks)
      ensures permissionDenied == old(permissionDenied) && hasRecorder == old(hasRecorder)
    {
      revoked := if Present(audioUrl) && audioUrl != Some(url) then audioUrl else None;
      recording := chunks;
      audioUrl := Some(url);
      streamOpen := false;
    }

    /** Pause acts only while recording unpaused: it sets the flag and stops the timer. */
    method PauseRecording()
      requires Valid()
      modifies this
      ensures Valid()
      ensures old(hasRecorder && isRecording && !isPaused) ==> isPaused && isRecording && !timerRunning
      ensures !old(hasRecorder && isRecording && !isPaused) ==> isPaused == old(isPaused) && timerRunning == old(timerRunning)
      ensures isRecording == old(isRecording) && recordingTime == old(recordingTime) && chunks == old(chunks)
      ensures audioUrl == old(audioUrl) && recording == old(recording) && permissionDenied == old(permissionDenied)
      ensures hasRecorder == old(hasRecorder) && streamOpen == old(streamOpen)
    {
      if hasRecorder && isRecording && !isPaused {
        isPaused := true;
        timerRunning := false;
      }
    }

    /** Resume acts only while recording paused: it clears the flag and restarts the timer. */
    method ResumeRecording()
      requires Valid()
      modifies this
      ensures Valid()
      ensures old(hasRecorder && isRecording && isPaused) ==> !isPaused && isRecording && timerRunning
      ensures !old(hasRecorder && isRecording && isPaused) ==> isPaused == old(isPaused) && timerRunning == old(timerRunning)
      ensures isRecording == old(isRecording) && recordingTime == old(recordingTime) && chunks == old(chunks)
      ensures audioUrl == old(audioUrl) && recording == old(recording) && permissionDenied == old(permissionDenied)
      ensures hasRecorder == old(hasRecorder) && streamOpen == old(streamOpen)
    {
      if hasRecorder && isRecording && isPaused {
        isPaused := false;
        timerRunning := true;
      }
    }

    /** A timer tick adds one second; without a running timer no tick arrives. */
    method Tick()
      requires Valid()
      modifies this
      ensures Valid()
      ensures timerRunning ==> recordingTime == old(recordingTime) + 1
      ensures !timerRunning ==> recordingTime == old(recordingTime)
      ensures isRecording == old(isRecording) && isPaused == old(isPaused) && timerRunning == old(timerRunning)
      ensures chunks == old(chunks) && audioUrl == old(audioUrl) && recording == old(recording)
      ensures permissionDenied == old(permissionDenied) && hasRecorder == old(hasRecorder) && streamOpen == old(streamOpen)
    {
      if timerRunning {
        recordingTime := recordingTime + 1;
      }
    }

    /**
     * Submit hands the finished recording to `onRecordingComplete` and
     * clears it with the counter; clearing the URL makes the URL effect's
     * cleanup release it, so it is returned. Without a recording it does
     * nothing.
     */
    method HandleSubmit() returns (completed: Option<seq<nat>>, revoked: Option<string>)
      requires Valid()
      modifies this
      ensures Valid()
      ensures completed.Some? <==> Present(old(audioUrl))
      ensures completed.Some? ==>
        completed.value == old(recording) && revoked == old(audioUrl) && audioUrl == None && recordingTime == 0
      ensures completed.None? ==> revoked == None && audioUrl == old(audioUrl) && recordingTime == old(recordingTime)
      ensures isRecording == old(isRecording) && isPaused == old(isPaused) && timerRunning == old(timerRunning)
      ensures chunks == old(chunks) && recording == old(recording) && permissionDenied == old(permissionDenied)
      ensures hasRecorder == old(hasRecorder) && streamOpen == old(streamOpen)
    {
      completed := None;
      revoked := None;
      if Present(audioUrl) {
        completed := Some(recording);
        revoked := audioUrl;
        audioUrl := None;
        recordingTime := 0;
      }
    }

    /** Discard releases the URL (returned) and clears the recording and the counter; without one it does nothing. */
    method HandleDiscard() returns (revoked: Option<string>)
      requires Valid()
      modifies this
      ensures Valid()
      ensures revoked.Some? <==> Present(old(audioUrl))
      ensures revoked.Some? ==> revoked == old(audioUrl) && audioUrl == None && recordingTime == 0
      ensures revoked.None? ==> audioUrl == old(audioUrl) && recordingTime == old(recordingTime)
      ensures isRecording == old(isRecording) && isPaused == old(isPaused) && timerRunning == old(timerRunning)
      ensures chunks == old(chunks) && recording == old(recording) && permissionDenied == old(permissionDenied)
      ensures hasRecorder == old(hasRecorder) && streamOpen == old(streamOpen)
    {
      revoked := None;
      if Present(audioUrl) {
        revoked := audioUrl;
        audioUrl := None;
        recordingTime := 0;
      }
    }

    /** Unmounting clears the timer and releases the stream; the component is gone afterwards. */
    method Unmount() returns (revoked: Option<string>)
      modifies this
      ensures !timerRunning && !streamOpen
      ensures Present(old(audioUrl)) ==> revoked == old(audioUrl)
      ensures !Present(old(audioUrl)) ==> revoked == None
    {
      timerRunning := false;
      streamOpen := false;
      revoked := if Present(audioUrl) then audioUrl else None;
    }
  }
}
