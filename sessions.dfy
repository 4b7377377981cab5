/** Whole sessions driven the way the host drives the hook: ticks of the
    running interval, effects after each render, recorder events. */
module RecorderSessions {
  import opened Wrappers
  import opened Utils
  import opened AudioRecording

  /** With a 5-second limit, the auto-stop effect ends the recording on the
      fifth tick, records 5 as the duration and stops the interval; running
      the effect again changes nothing. */
  method AutoStopSession() returns (duration: Option<nat>, status: RecorderStatus, ticking: bool)
    ensures duration == Some(5) && status == Stopped && !ticking
  {
    var rec := new AudioRecorder(false, Some(5), Some(AudioSetup(true, "audio/webm", "webm")));
    var r := rec.StartRecording(true);
    var n := 0;
    while n < 5
      invariant 0 <= n <= 5 && rec.Valid() && rec.maxLength == 5 && rec.currentTime == n
      invariant n < 5 ==> rec.status == Recording
      invariant n == 5 ==> rec.status == Stopped && rec.recordedFileDuration == Some(5)
    {
      var id :| id in rec.liveIntervals;
      rec.Tick(id);
      r := rec.AutoStopEffect();
      n := n + 1;
    }
    r := rec.AutoStopEffect();
    duration, status, ticking := rec.recordedFileDuration, rec.status, rec.liveIntervals != {};
  }

  /** A recording whose recorder delivers `deliveries` (empty chunks
      included) before it stops: the finished file holds every delivered
      byte in order, is named after the id and the extension, and has the
      negotiated MIME type; the duration is the counter at stop time. */
  method RecordSession(setup: AudioSetup, seconds: nat, deliveries: seq<Blob>, fileId: string)
    returns (file: Result<AudioFile, string>, duration: Option<nat>)
    requires setup.hasMediaStream
    ensures file == Success(AudioFile(Concat(deliveries), fileId + "." + setup.selectedExtension, setup.selectedMimeType))
    ensures duration == Some(seconds)
  {
    var rec := new AudioRecorder(false, Some(0), Some(setup));
    var r := rec.StartRecording(true);
    var n := 0;
    while n < seconds
      invariant 0 <= n <= seconds && rec.Valid() && rec.status == Recording && rec.currentTime == n
      invariant rec.mediaRecorder == Some(MediaRecorderHandle(setup, true)) && rec.chunks == []
    {
      var id :| id in rec.liveIntervals;
      rec.Tick(id);
      n := n + 1;
    }
    r := rec.StopRecording();
    var i := 0;
    while i < |deliveries|
      invariant 0 <= i <= |deliveries| && rec.Valid()
      invariant rec.mediaRecorder == Some(MediaRecorderHandle(setup, false))
      invariant rec.recordedFileDuration == Some(seconds)
      invariant rec.chunks == NonEmptyChunks(deliveries[..i])
    {
      assert deliveries[..i + 1][..i] == deliveries[..i];
      rec.OnDataAvailable(deliveries[i]);
      i := i + 1;
    }
    assert deliveries[..i] == deliveries;
    SkippingEmptyChunksKeepsContent(deliveries);
    file := rec.OnStop(fileId, "blob:recording");
    duration := rec.recordedFileDuration;
  }

  /** Playback after a recording counts up from 0: after three ticks the
      display reads 00:03.003, and the element's end stops it, rewound. */
  method PlaybackSession() returns (shown: Option<TimeDisplay>, status: RecorderStatus, position: nat)
    ensures shown == Some(TimeDisplay("00", "03", "003"))
    ensures status == Stopped && position == 0
  {
    var rec := new AudioRecorder(false, None, Some(AudioSetup(true, "audio/ogg", "ogg")));
    var r := rec.StartRecording(true);
    r := rec.StopRecording();
    var f := rec.OnStop("id", "blob:recording");
    r := rec.StartPlaying(Pass);
    var n := 0;
    while n < 3
      invariant 0 <= n <= 3 && rec.Valid() && rec.status == Playing && rec.currentTime == n
    {
      var id :| id in rec.liveIntervals;
      rec.Tick(id);
      n := n + 1;
    }
    PlaybackExample(rec.maxLength);
    shown := rec.TimeCount();
    r := rec.StopPlaying();
    status, position := rec.status, rec.audioElement.value.position;
  }

  /** The part of the recorder's state that `resetRecording` sets or
      depends on. */
  function ResetState(rec: AudioRecorder): (Option<AudioFile>, Option<nat>, nat, RecorderStatus,
                                             Option<AudioElementHandle>, Option<MediaRecorderHandle>,
                                             Option<nat>, set<nat>, nat, seq<string>)
    reads rec
  {
    (rec.recordedFile, rec.recordedFileDuration, rec.currentTime, rec.status, rec.audioElement,
     rec.mediaRecorder, rec.interval, rec.liveIntervals, rec.nextIntervalId, rec.revokedUrls)
  }

  /** Resetting is idempotent: a second reset revokes nothing more and
      leaves the state the first one produced. */
  method ResetTwice(rec: AudioRecorder) returns (same: bool)
    requires rec.Valid()
    modifies rec
    ensures rec.Valid() && rec.status == Idle && same
  {
    rec.ResetRecording();
    var afterOne := ResetState(rec);
    rec.ResetRecording();
    assert rec.revokedUrls == afterOne.9;
    same := ResetState(rec) == afterOne;
  }
}
