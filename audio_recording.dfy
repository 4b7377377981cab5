/** The `useAudioRecording` hook as an object. Each piece of React state
    (`recorderState`, `currentTime`, `recordedFile`, `recordedFileDuration`)
    and each ref (`mediaRecorderRef`, `audioElementRef`, `intervalRef`) is a
    field; each callback, host event handler and effect is a method that the
    host calls. Host objects are records: the media recorder keeps the setup
    its handlers closed over and whether it is running; the audio element
    keeps its object URL, playback position, paused flag and whether its
    `onended` handler is set. Timers are ids in `liveIntervals`. A thrown
    error is a `Fail`/`Failure` that leaves the state as it was. */
module AudioRecording {
  import opened Wrappers
  import opened Utils
  import JsNumber

  newtype byte = x: int | 0 <= x < 256

  /** A chunk of recorded data; its size is its length. */
  datatype Blob = Blob(bytes: seq<byte>)

  /** What the setup step shares through context: whether a microphone
      stream was obtained, the negotiated MIME type and its extension. */
  datatype AudioSetup = AudioSetup(hasMediaStream: bool, selectedMimeType: string, selectedExtension: string)

  /** The recorded `File`: its bytes, its name and its MIME type. */
  datatype AudioFile = AudioFile(content: seq<byte>, name: string, mimeType: string)

  /** A `MediaRecorder` built by `startRecording`, with the setup its
      `onstop` handler closed over. */
  datatype MediaRecorderHandle = MediaRecorderHandle(setup: AudioSetup, active: bool)

  /** An `Audio` element playing the recorded file's object URL. */
  datatype AudioElementHandle = AudioElementHandle(src: string, position: nat, paused: bool, hasEndedHandler: bool)

  const MaxRecordingLength := 10

  const UnsupportedMessage := "Ваш браузер/устройство не поддерживает запись звука"
  const NoStreamMessage := "Failed to start recording at startRecording: mediaStream is nullish."
  const StopWithoutRecorderMessage := "Failed to stop recording at stopRecording: mediaRecorderRef is nullish."
  const OnStopWithoutRecorderMessage :=
    "Failed to stop recording at mediaRecorderRef.current.onstop: mediaRecorderRef is nullish"
  const StopPlayingWithoutAudioMessage := "Failed to stop playing: audioElementRef.current is nullish"
  const StartPlayingWithoutAudioMessage := "Failed to start playing: audioElementRef.current is nullish"

  /** The file contents `new File(parts, ...)` produces: the parts one
      after the other. */
  function Concat(parts: seq<Blob>): seq<byte> {
    if parts == [] then [] else Concat(parts[..|parts| - 1]) + parts[|parts| - 1].bytes
  }

  /** The chunks the data-available handler keeps: the non-empty ones, in
      arrival order. */
  function NonEmptyChunks(parts: seq<Blob>): (r: seq<Blob>)
    ensures forall i :: 0 <= i < |r| ==> |r[i].bytes| > 0
  {
    if parts == [] then []
    else
      var last := parts[|parts| - 1];
      NonEmptyChunks(parts[..|parts| - 1]) + (if |last.bytes| == 0 then [] else [last])
  }

  lemma {:induction false} ConcatAppend(a: seq<Blob>, b: seq<Blob>)
    ensures Concat(a + b) == Concat(a) + Concat(b)
    decreases |b|
  {
    if b == [] {
      assert a + b == a;
    } else {
      var init := b[..|b| - 1];
      assert (a + b)[..|a + b| - 1] == a + init;
      ConcatAppend(a, init);
    }
  }

  /** Skipping empty chunks loses no data: the file built from the kept
      chunks has the bytes of everything that arrived, in arrival order. */
  lemma {:induction false} SkippingEmptyChunksKeepsContent(parts: seq<Blob>)
    ensures Concat(NonEmptyChunks(parts)) == Concat(parts)
  {
    if parts != [] {
      var init := parts[..|parts| - 1];
      var last := parts[|parts| - 1];
      SkippingEmptyChunksKeepsContent(init);
      var kept := if |last.bytes| == 0 then [] else [last];
      ConcatAppend(NonEmptyChunks(init), kept);
      assert Concat(kept) == last.bytes by {
        if kept != [] {
          assert kept[..0] == [];
        }
      }
    }
  }

  /** A status the one-second interval runs in. */
  predicate IsTicking(s: RecorderStatus) {
    s.Recording? || s.Playing?
  }

  class AudioRecorder {
    // Hook props.
    const autoRecord: bool
    const maxLength: int
    // The setup read from context.
    var userAudioSetup: Option<AudioSetup>
    // React state.
    var status: RecorderStatus
    var currentTime: nat
    var recordedFile: Option<AudioFile>
    var recordedFileDuration: Option<nat>
    // Refs.
    var mediaRecorder: Option<MediaRecorderHandle>
    var audioElement: Option<AudioElementHandle>
    var interval: Option<nat>
    // The chunk list the current recorder's handlers push to.
    var chunks: seq<Blob>
    // Host bookkeeping: running intervals, the next interval id, and the
    // object URLs revoked so far.
    var liveIntervals: set<nat>
    var nextIntervalId: nat
    var revokedUrls: seq<string>

    /** At most one interval runs, it is the one `intervalRef` holds, and it
        runs exactly while recording or playing. */
    ghost predicate TimerInvariant()
      reads this
      ensures TimerInvariant() ==> |liveIntervals| <= 1
    {
      && (liveIntervals == {} || (interval.Some? && liveIntervals == {interval.value}))
      && (liveIntervals != {} <==> IsTicking(status))
    }

    ghost predicate Valid()
      reads this
    {
      && TimerInvariant()
      && (status.Recording? ==> mediaRecorder.Some?)
      && (status.Playing? ==> audioElement.Some?)
      && (recordedFile.Some? <==> audioElement.Some?)
    }

    /** Mounting the hook: idle, counter at 0, nothing recorded, no handles;
        `maxLength` defaults to 10 seconds. */
    constructor (autoRecord: bool, maxLengthProp: Option<int>, userAudioSetup: Option<AudioSetup>)
      ensures Valid()
      ensures this.autoRecord == autoRecord && this.userAudioSetup == userAudioSetup
      ensures maxLength == if maxLengthProp.Some? then maxLengthProp.value else MaxRecordingLength
      ensures status == Idle && currentTime == 0
      ensures recordedFile.None? && recordedFileDuration.None?
      ensures mediaRecorder.None? && audioElement.None? && interval.None?
      ensures chunks == [] && liveIntervals == {} && revokedUrls == []
    {
      this.autoRecord := autoRecord;
      maxLength := if maxLengthProp.Some? then maxLengthProp.value else MaxRecordingLength;
      this.userAudioSetup := userAudioSetup;
      status := Idle;
      currentTime := 0;
      recordedFile := None;
      recordedFileDuration := None;
      mediaRecorder := None;
      audioElement := None;
      interval := None;
      chunks := [];
      liveIntervals := {};
      nextIntervalId := 1;
      revokedUrls := [];
    }

    /** The context provider publishes a new setup (or clears it). */
    method UpdateAudioSetup(setup: Option<AudioSetup>)
      modifies this`userAudioSetup
      ensures userAudioSetup == setup
    {
      userAudioSetup := setup;
    }

    /** `setRecorderState`, followed by the interval effect when its
        dependencies (`isRecording`, `isPlaying`) changed: the previous run's
        cleanup clears its interval, and a run in a ticking status clears
        any interval still held and starts a new one. */
    method SetRecorderState(s: RecorderStatus)
      requires TimerInvariant()
      modifies this`status, this`interval, this`liveIntervals, this`nextIntervalId
      ensures status == s && TimerInvariant()
      ensures old(status).Recording? == s.Recording? && old(status).Playing? == s.Playing? ==>
        interval == old(interval) && liveIntervals == old(liveIntervals) && nextIntervalId == old(nextIntervalId)
      ensures (old(status).Recording? != s.Recording? || old(status).Playing? != s.Playing?) && IsTicking(s) ==>
        interval == Some(old(nextIntervalId)) && liveIntervals == {old(nextIntervalId)} &&
        nextIntervalId == old(nextIntervalId) + 1
    {
      var wasTicking := IsTicking(status);
      var depsChanged := status.Recording? != s.Recording? || status.Playing? != s.Playing?;
      status := s;
      if depsChanged {
        if wasTicking && interval.Some? {
          liveIntervals := liveIntervals - {interval.value};
        }
        if IsTicking(s) {
          if interval.Some? {
            liveIntervals := liveIntervals - {interval.value};
          }
          interval := Some(nextIntervalId);
          liveIntervals := liveIntervals + {nextIntervalId};
          nextIntervalId := nextIntervalId + 1;
        }
      }
    }

    /** `startRecording`. Without `MediaRecorder` in the host
        (`hasMediaRecorder` false) the status becomes the error with the
        fixed message and no recorder is made. Without a setup holding a
        stream it throws. Otherwise it makes and starts a recorder with an
        empty chunk list and the status becomes recording; the counter is
        left as it was. */
    method StartRecording(hasMediaRecorder: bool) returns (r: Outcome<string>)
      requires Valid()
      modifies this`status, this`interval, this`liveIntervals, this`nextIntervalId, this`mediaRecorder, this`chunks
      ensures Valid()
      ensures !hasMediaRecorder ==>
        r == Pass && status == Error(UnsupportedMessage) &&
        mediaRecorder == old(mediaRecorder) && chunks == old(chunks)
      ensures hasMediaRecorder && (userAudioSetup.None? || !userAudioSetup.value.hasMediaStream) ==>
        r == Fail(NoStreamMessage) && unchanged(this)
      ensures hasMediaRecorder && userAudioSetup.Some? && userAudioSetup.value.hasMediaStream ==>
        r == Pass && status == Recording &&
        mediaRecorder == Some(MediaRecorderHandle(userAudioSetup.value, true)) && chunks == [] &&
        (old(status).Recording? ==> interval == old(interval) && liveIntervals == old(liveIntervals))
    {
      if !hasMediaRecorder {
        SetRecorderState(Error(UnsupportedMessage));
        return Pass;
      }
      if userAudioSetup.None? || !userAudioSetup.value.hasMediaStream {
        return Fail(NoStreamMessage);
      }
      mediaRecorder := Some(MediaRecorderHandle(userAudioSetup.value, true));
      chunks := [];
      SetRecorderState(Recording);
      r := Pass;
    }

    /** `ondataavailable`: an empty chunk is skipped, any other is appended. */
    method OnDataAvailable(data: Blob)
      modifies this`chunks
      ensures chunks == old(chunks) + NonEmptyChunks([data])
    {
      if |data.bytes| == 0 {
        return;
      }
      chunks := chunks + [data];
    }

    /** `onstop`: throws if the recorder ref was cleared. Otherwise builds
        the file from the chunks collected so far, named
        `<fileId>.<extension>` with the negotiated MIME type, empties the
        chunk list, keeps the file, and makes an audio element for its object
        URL. The status is not touched. The file returned is the one handed
        to `onRecordFinish`. */
    method OnStop(fileId: string, objectUrl: string) returns (r: Result<AudioFile, string>)
      requires Valid()
      modifies this`chunks, this`recordedFile, this`audioElement
      ensures Valid()
      ensures old(mediaRecorder).None? ==> r == Failure(OnStopWithoutRecorderMessage) && unchanged(this)
      ensures old(mediaRecorder).Some? ==>
        var setup := mediaRecorder.value.setup;
        && r.Success?
        && r.value.content == Concat(old(chunks))
        && r.value.name == fileId + "." + setup.selectedExtension
        && r.value.mimeType == setup.selectedMimeType
        && chunks == []
        && recordedFile == Some(r.value)
        && audioElement == Some(AudioElementHandle(objectUrl, 0, true, false))
    {
      if mediaRecorder.None? {
        return Failure(OnStopWithoutRecorderMessage);
      }
      var setup := mediaRecorder.value.setup;
      var file := AudioFile(Concat(chunks), fileId + "." + setup.selectedExtension, setup.selectedMimeType);
      chunks := [];
      recordedFile := Some(file);
      audioElement := Some(AudioElementHandle(objectUrl, 0, true, false));
      r := Success(file);
    }

    /** `stopRecording`: throws without a recorder. Otherwise stops it,
        records the counter as it is now as the duration, and the status
        becomes stopped, which stops the interval. */
    method StopRecording() returns (r: Outcome<string>)
      requires Valid()
      modifies this`status, this`interval, this`liveIntervals, this`nextIntervalId,
        this`mediaRecorder, this`recordedFileDuration
      ensures Valid()
      ensures old(mediaRecorder).None? ==> r == Fail(StopWithoutRecorderMessage) && unchanged(this)
      ensures old(mediaRecorder).Some? ==>
        r == Pass && mediaRecorder == Some(old(mediaRecorder).value.(active := false)) &&
        recordedFileDuration == Some(currentTime) && status == Stopped && liveIntervals == {}
    {
      if mediaRecorder.None? {
        return Fail(StopWithoutRecorderMessage);
      }
      mediaRecorder := Some(mediaRecorder.value.(active := false));
      recordedFileDuration := Some(currentTime);
      SetRecorderState(Stopped);
      r := Pass;
    }

    /** The auto-stop condition: recording, a non-zero limit, and the
        counter at or past it. */
    predicate AutoStopDue()
      reads this
    {
      status.Recording? && maxLength != 0 && currentTime >= maxLength
    }

    /** The auto-stop effect. When due it stops the recording, which never
        throws here because a recording always has a recorder; afterwards it
        is no longer due, so it fires once. */
    method AutoStopEffect() returns (r: Outcome<string>)
      requires Valid()
      modifies this`status, this`interval, this`liveIntervals, this`nextIntervalId,
        this`mediaRecorder, this`recordedFileDuration
      ensures Valid() && r == Pass && !AutoStopDue()
      ensures old(AutoStopDue()) ==>
        status == Stopped && recordedFileDuration == Some(currentTime) && liveIntervals == {} &&
        mediaRecorder == Some(old(mediaRecorder).value.(active := false))
      ensures !old(AutoStopDue()) ==> unchanged(this)
    {
      r := Pass;
      if AutoStopDue() {
        r := StopRecording();
      }
    }

    /** The auto-record effect: when idle and `autoRecord` is set, start
        recording, with each of `startRecording`'s outcomes. */
    method AutoRecordEffect(hasMediaRecorder: bool) returns (r: Outcome<string>)
      requires Valid()
      modifies this`status, this`interval, this`liveIntervals, this`nextIntervalId, this`mediaRecorder, this`chunks
      ensures Valid()
      ensures !(old(status).Idle? && autoRecord) ==> r == Pass && unchanged(this)
      ensures old(status).Idle? && autoRecord && !hasMediaRecorder ==>
        r == Pass && status == Error(UnsupportedMessage) &&
        mediaRecorder == old(mediaRecorder) && chunks == old(chunks)
      ensures (old(status).Idle? && autoRecord && hasMediaRecorder &&
               (userAudioSetup.None? || !userAudioSetup.value.hasMediaStream)) ==>
        r == Fail(NoStreamMessage) && unchanged(this)
      ensures (old(status).Idle? && autoRecord && hasMediaRecorder &&
               userAudioSetup.Some? && userAudioSetup.value.hasMediaStream) ==>
        r == Pass && status == Recording &&
        mediaRecorder == Some(MediaRecorderHandle(userAudioSetup.value, true)) && chunks == []
    {
      r := Pass;
      if status.Idle? && autoRecord {
        r := StartRecording(hasMediaRecorder);
      }
    }

    /** `stopPlaying` (also the element's `onended` handler): throws without
        an audio element; otherwise pauses and rewinds it to 0 and the status
        becomes stopped. */
    method StopPlaying() returns (r: Outcome<string>)
      requires Valid()
      modifies this`status, this`interval, this`liveIntervals, this`nextIntervalId, this`audioElement
      ensures Valid()
      ensures old(audioElement).None? ==> r == Fail(StopPlayingWithoutAudioMessage) && unchanged(this)
      ensures old(audioElement).Some? ==>
        r == Pass && audioElement == Some(old(audioElement).value.(paused := true, position := 0)) &&
        status == Stopped && liveIntervals == {}
    {
      if audioElement.None? {
        return Fail(StopPlayingWithoutAudioMessage);
      }
      audioElement := Some(audioElement.value.(paused := true, position := 0));
      SetRecorderState(Stopped);
      r := Pass;
    }

    /** `startPlaying`: throws without an audio element. Otherwise sets the
        `onended` handler and awaits `play()`, whose outcome the host gives
        as `play`. Only once it resolves is the counter zeroed and the
        status set to playing; a rejection is rethrown. */
    method StartPlaying(play: Outcome<string>) returns (r: Outcome<string>)
      requires Valid()
      modifies this`status, this`interval, this`liveIntervals, this`nextIntervalId,
        this`audioElement, this`currentTime
      ensures Valid()
      ensures old(audioElement).None? ==> r == Fail(StartPlayingWithoutAudioMessage) && unchanged(this)
      ensures old(audioElement).Some? && play.Fail? ==>
        r == play && audioElement == Some(old(audioElement).value.(hasEndedHandler := true)) &&
        status == old(status) && currentTime == old(currentTime)
      ensures old(audioElement).Some? && play.Pass? ==>
        r == Pass && audioElement == Some(old(audioElement).value.(hasEndedHandler := true, paused := false)) &&
        currentTime == 0 && status == Playing
    {
      if audioElement.None? {
        return Fail(StartPlayingWithoutAudioMessage);
      }
      audioElement := Some(audioElement.value.(hasEndedHandler := true));
      if play.Fail? {
        return play;
      }
      audioElement := Some(audioElement.value.(paused := false));
      currentTime := 0;
      SetRecorderState(Playing);
      r := Pass;
    }

    /** The interval callback: adds one second. Only a running interval
        fires, so this happens only while recording or playing. */
    method Tick(id: nat)
      requires Valid() && id in liveIntervals
      modifies this`currentTime
      ensures Valid()
      ensures currentTime == old(currentTime) + 1
      ensures IsTicking(status)
    {
      currentTime := currentTime + 1;
    }

    /** `resetRecording`: from any state, back to idle with no file, no
        duration, the counter at 0 and both handles cleared; the object URL
        of an existing audio element is revoked. Neither the recorder nor the
        stream's tracks are stopped, and the chunk list is left alone. */
    method ResetRecording()
      requires Valid()
      modifies this`recordedFile, this`recordedFileDuration, this`currentTime,
        this`status, this`interval, this`liveIntervals, this`nextIntervalId,
        this`revokedUrls, this`audioElement, this`mediaRecorder
      ensures Valid()
      ensures status == Idle && recordedFile.None? && recordedFileDuration.None? && currentTime == 0
      ensures audioElement.None? && mediaRecorder.None? && liveIntervals == {}
      ensures revokedUrls == old(revokedUrls) + (if old(audioElement).Some? then [old(audioElement).value.src] else [])
      ensures old(status).Idle? ==> interval == old(interval) && nextIntervalId == old(nextIntervalId)
    {
      recordedFile := None;
      recordedFileDuration := None;
      currentTime := 0;
      SetRecorderState(Idle);
      if audioElement.Some? {
        revokedUrls := revokedUrls + [audioElement.value.src];
      }
      audioElement := None;
      mediaRecorder := None;
    }

    /** The `asc` flag: count up when there is no limit or when playing. */
    function Ascending(): bool
      reads this
    {
      maxLength == 0 || status.Playing?
    }

    /** `timeCount`: the display with `asc` as the hook derives it. While
        recording or in error it counts down what is left of a non-zero
        limit and counts up without one; playback counts up; a stopped
        display shows the whole counter as seconds. */
    function TimeCount(): (r: Option<TimeDisplay>)
      reads this
      ensures r == GetRecordingCurrentTime(status, currentTime, maxLength, maxLength == 0 || status.Playing?)
      ensures r.None? <==> status.Idle?
      ensures (status.Recording? || status.Error?) && maxLength != 0 ==>
        r.Some? && DecodeDisplay(r.value) == Some(ClockFields(TimeLeft(maxLength, currentTime)))
      ensures (status.Recording? || status.Error?) && maxLength == 0 ==>
        r.Some? && DecodeDisplay(r.value) == Some((currentTime / 60, currentTime % 60, currentTime % 1000))
      ensures status.Playing? ==>
        r.Some? && DecodeDisplay(r.value) == Some((currentTime / 60, currentTime % 60, currentTime % 1000))
      ensures status.Stopped? ==>
        r.Some? && r.value.minutes == "00" && r.value.milliseconds == "000" &&
        JsNumber.DecodeField(r.value.seconds) == Some(currentTime)
    {
      if status.Stopped? then
        StoppedDisplay(currentTime, maxLength, Ascending());
        GetRecordingCurrentTime(status, currentTime, maxLength, Ascending())
      else if status.Idle? then
        GetRecordingCurrentTime(status, currentTime, maxLength, Ascending())
      else if Ascending() then
        AscendingDisplay(status, currentTime, maxLength);
        GetRecordingCurrentTime(status, currentTime, maxLength, true)
      else
        CountdownDisplay(status, currentTime, maxLength);
        GetRecordingCurrentTime(status, currentTime, maxLength, false)
    }

    /** `audioProgressPercent`; the division by zero of a zero limit or a
        zero duration is excluded. Within the limit, recording progress is
        between 0 and 100. */
    function AudioProgressPercent(): (r: real)
      reads this
      requires status.Recording? ==> maxLength != 0
      requires !status.Idle? && !status.Recording? ==> recordedFileDuration != Some(0)
      ensures status.Idle? ==> r == 0.0
      ensures status.Recording? && 0 < maxLength && currentTime <= maxLength ==> 0.0 <= r <= 100.0
    {
      if status.Recording? && 0 < maxLength && currentTime <= maxLength then
        RecordingProgressBounds(currentTime, maxLength);
        GetAudioProgressPercent(status, currentTime, maxLength, OptionalDuration())
      else
        GetAudioProgressPercent(status, currentTime, maxLength, OptionalDuration())
    }

    function OptionalDuration(): Option<int>
      reads this
    {
      if recordedFileDuration.Some? then Some(recordedFileDuration.value) else None
    }
  }
}
