/** The pure helpers of `src/lib/utils.ts` and the recorder status type they
    read (declared in `use-audio-recording.ts`). Counters are whole seconds:
    they start at 0 and move by 1, so `Math.floor` and `Math.round` of them
    are the identity and are left out. */
module Utils {
  import opened Wrappers
  import opened JsNumber
  import Constants

  /** The recorder status. In the source it is an object whose `status`
      field is one of five strings; only "error" carries a message. */
  datatype RecorderStatus = Idle | Recording | Playing | Stopped | Error(message: string) {
    /** The `status` string field. */
    function Name(): string {
      match this
      case Idle => "idle"
      case Recording => "recording"
      case Playing => "playing"
      case Stopped => "stopped"
      case Error(_) => "error"
    }
  }

  datatype StatusBooleans = StatusBooleans(
    isIdle: bool, isRecording: bool, isPlaying: bool, isStopped: bool, isError: bool)

  /** One flag per status, each set by comparing the `status` string. */
  function GetAudioRecorderStatusBooleans(status: RecorderStatus): (b: StatusBooleans)
    ensures b.isIdle <==> status.Idle?
    ensures b.isRecording <==> status.Recording?
    ensures b.isPlaying <==> status.Playing?
    ensures b.isStopped <==> status.Stopped?
    ensures b.isError <==> status.Error?
  {
    var name := status.Name();
    StatusBooleans(name == "idle", name == "recording", name == "playing",
                   name == "stopped", name == "error")
  }

  function CountTrue(b: StatusBooleans): nat {
    (if b.isIdle then 1 else 0) + (if b.isRecording then 1 else 0) +
    (if b.isPlaying then 1 else 0) + (if b.isStopped then 1 else 0) +
    (if b.isError then 1 else 0)
  }

  /** Whatever the status, exactly one of the five flags is set. */
  lemma ExactlyOneStatusFlag(status: RecorderStatus)
    ensures CountTrue(GetAudioRecorderStatusBooleans(status)) == 1
  {
  }

  /** The display value: zero-padded minutes, seconds and milliseconds. */
  datatype TimeDisplay = TimeDisplay(minutes: string, seconds: string, milliseconds: string)

  /** The three fields left-padded with '0' to 2, 2 and 3 characters. */
  function PadFields(minutes: string, seconds: string, milliseconds: string): (t: TimeDisplay)
    ensures |t.minutes| >= 2 && |t.seconds| >= 2 && |t.milliseconds| >= 3
  {
    TimeDisplay(PadStart(minutes, 2), PadStart(seconds, 2), PadStart(milliseconds, 3))
  }

  /** The three quantities the running display shows for `x` seconds:
      minutes rounded toward minus infinity (`Math.floor(x / 60)`), then
      `x % 60` and `x % 1000` with JavaScript's truncating remainder. */
  function ClockFields(x: int): (int, int, int) {
    (FloorDiv(x, 60), JsRem(x, 60), JsRem(x, 1000))
  }

  /** The running display of `x` seconds: each of its quantities
      `toString()`-ed and zero-padded. */
  function ClockDisplay(x: int): TimeDisplay {
    var f := ClockFields(x);
    PadFields(IntToString(f.0), IntToString(f.1), IntToString(f.2))
  }

  /** Reads a display back to the three integers it shows. */
  function DecodeDisplay(t: TimeDisplay): Option<(int, int, int)> {
    var m := DecodeField(t.minutes);
    var s := DecodeField(t.seconds);
    var ms := DecodeField(t.milliseconds);
    if m.Some? && s.Some? && ms.Some? then Some((m.value, s.value, ms.value)) else None
  }

  /** The running display reads back as exactly the quantities it was made
      from. */
  lemma ClockDisplayRoundTrip(x: int)
    ensures DecodeDisplay(ClockDisplay(x)) == Some(ClockFields(x))
  {
    var f := ClockFields(x);
    FieldRoundTrip(f.0, 2);
    FieldRoundTrip(f.1, 2);
    FieldRoundTrip(f.2, 3);
  }

  /** What is left of the recording limit: `maxLength - currentTime`. */
  function TimeLeft(maxLength: int, currentTime: int): int {
    maxLength - currentTime
  }

  /** `getRecordingCurrentTime`. Nothing while idle. When stopped: "00"
      minutes, the raw seconds counter (not wrapped at 60) and "00"
      milliseconds. Otherwise (recording, playing, and also error) the
      running display of `currentTime` when `asc`, else of what is left of
      `maxLength`. Every field is `toString()`-ed and zero-padded. */
  function GetRecordingCurrentTime(status: RecorderStatus, currentTime: int, maxLength: int, asc: bool)
    : (r: Option<TimeDisplay>)
    ensures r.None? <==> status.Idle?
    ensures r.Some? ==>
      |r.value.minutes| >= 2 && |r.value.seconds| >= 2 && |r.value.milliseconds| >= 3
  {
    var flags := GetAudioRecorderStatusBooleans(status);
    if flags.isIdle then None
    else if flags.isStopped then Some(PadFields("00", IntToString(currentTime), "00"))
    else if asc then Some(ClockDisplay(currentTime))
    else Some(ClockDisplay(TimeLeft(maxLength, currentTime)))
  }

  /** Stopped: the seconds field reads back as the whole counter, and the
      other two fields are all zeros. */
  lemma StoppedDisplay(currentTime: int, maxLength: int, asc: bool)
    ensures var r := GetRecordingCurrentTime(Stopped, currentTime, maxLength, asc);
      r.Some? && r.value.minutes == "00" && r.value.milliseconds == "000" &&
      DecodeField(r.value.seconds) == Some(currentTime)
  {
    assert PadStart("00", 3) == "000";
    FieldRoundTrip(currentTime, 2);
  }

  /** Outside idle and stopped the display is the running clock of the
      counter (counting up) or of the time left (counting down). */
  lemma RunningDisplayIsClock(status: RecorderStatus, currentTime: int, maxLength: int, asc: bool)
    requires !status.Idle? && !status.Stopped?
    ensures GetRecordingCurrentTime(status, currentTime, maxLength, asc) ==
      Some(ClockDisplay(if asc then currentTime else TimeLeft(maxLength, currentTime)))
  {
  }

  /** Counting up (recording or playing with `asc`): whole minutes, seconds
      within the minute, and the counter modulo 1000. */
  lemma AscendingDisplay(status: RecorderStatus, currentTime: nat, maxLength: int)
    requires !status.Idle? && !status.Stopped?
    ensures var r := GetRecordingCurrentTime(status, currentTime, maxLength, true);
      r.Some? && DecodeDisplay(r.value) == Some((currentTime / 60, currentTime % 60, currentTime % 1000))
  {
    ClockDisplayRoundTrip(currentTime);
    RunningDisplayIsClock(status, currentTime, maxLength, true);
  }

  /** Counting down: the display shows what is left of `maxLength`. Once the
      counter has passed `maxLength` the quantities are negative: minutes
      rounded down, seconds and milliseconds with the sign of the
      difference. */
  lemma CountdownDisplay(status: RecorderStatus, currentTime: int, maxLength: int)
    requires !status.Idle? && !status.Stopped?
    ensures var r := GetRecordingCurrentTime(status, currentTime, maxLength, false);
      r.Some? && DecodeDisplay(r.value) == Some(ClockFields(TimeLeft(maxLength, currentTime)))
  {
    RunningDisplayIsClock(status, currentTime, maxLength, false);
    ClockDisplayRoundTrip(TimeLeft(maxLength, currentTime));
  }

  /** 3 seconds into a 10-second recording the countdown shows 00:07. */
  lemma CountdownExample()
    ensures GetRecordingCurrentTime(Recording, 3, 10, false) == Some(TimeDisplay("00", "07", "007"))
  {
    assert IntToString(7) == "7";
    assert IntToString(0) == "0";
    assert ClockFields(7) == (0, 7, 7);
    assert PadStart("0", 2) == "00";
    assert PadStart("7", 2) == "07";
    assert PadStart("7", 3) == "007";
  }

  /** Three seconds into playback the display counts up: 00:03.003. */
  lemma PlaybackExample(maxLength: int)
    ensures GetRecordingCurrentTime(Playing, 3, maxLength, true) == Some(TimeDisplay("00", "03", "003"))
  {
    assert IntToString(3) == "3";
    assert IntToString(0) == "0";
    assert ClockFields(3) == (0, 3, 3);
    assert PadStart("0", 2) == "00";
    assert PadStart("3", 2) == "03";
    assert PadStart("3", 3) == "003";
  }

  /** A 65-second recording shows "65" seconds once stopped. */
  lemma StoppedExample()
    ensures GetRecordingCurrentTime(Stopped, 65, 10, true) == Some(TimeDisplay("00", "65", "000"))
  {
    assert NatToString(65) == NatToString(6) + ['5'];
    assert IntToString(65) == "65";
    assert PadStart("00", 3) == "000";
  }

  /** Two seconds past a 10-second limit the countdown shows "-1", "-2"
      and "0-2": the zero padding lands in front of the minus sign. */
  lemma OvershootExample()
    ensures GetRecordingCurrentTime(Recording, 12, 10, false) == Some(TimeDisplay("-1", "-2", "0-2"))
  {
    assert FloorDiv(-2, 60) == -1;
    assert JsRem(-2, 60) == -2 && JsRem(-2, 1000) == -2;
    assert IntToString(-1) == "-1" && IntToString(-2) == "-2";
    assert ClockFields(-2) == (-1, -2, -2);
    assert PadStart("-2", 3) == "0-2";
  }

  /** `getAudioProgressPercent`: 0 while idle; while recording, the share of
      `maxLength` used so far; otherwise the share of the recorded duration
      (1 when there is none). The result is not clamped. The JavaScript
      division by zero (Infinity or NaN) is excluded by the requires. */
  function GetAudioProgressPercent(
    status: RecorderStatus, currentTime: int, maxLength: int, recordedFileDuration: Option<int>)
    : (r: real)
    requires status.Recording? ==> maxLength != 0
    requires !status.Idle? && !status.Recording? ==> recordedFileDuration != Some(0)
    ensures status.Idle? ==> r == 0.0
    ensures status.Recording? ==> r * maxLength as real == currentTime as real * 100.0
    ensures !status.Idle? && !status.Recording? ==>
      r * (if recordedFileDuration.Some? then recordedFileDuration.value else 1) as real
        == currentTime as real * 100.0
  {
    var flags := GetAudioRecorderStatusBooleans(status);
    if flags.isIdle then 0.0
    else if flags.isRecording then currentTime as real / maxLength as real * 100.0
    else
      var duration := if recordedFileDuration.Some? then recordedFileDuration.value else 1;
      currentTime as real / duration as real * 100.0
  }

  /** A negative number times a positive one is negative. */
  lemma NegativeTimesPositive(x: real, m: real)
    requires 0.0 < m
    ensures x < 0.0 ==> x * m < 0.0
  {
  }

  /** While recording within the limit the progress stays in [0, 100] and
      reaches 100 exactly at the limit. */
  lemma RecordingProgressBounds(currentTime: nat, maxLength: int)
    requires 0 < maxLength && currentTime <= maxLength
    ensures var r := GetAudioProgressPercent(Recording, currentTime, maxLength, None);
      0.0 <= r <= 100.0 && (r == 100.0 <==> currentTime == maxLength)
  {
    var r := GetAudioProgressPercent(Recording, currentTime, maxLength, None);
    var m := maxLength as real;
    var c := currentTime as real;
    var share := c / m;
    assert r == share * 100.0;
    assert share * m == c;
    NegativeTimesPositive(share, m);
    assert (1.0 - share) * m == m - c;
    NegativeTimesPositive(1.0 - share, m);
    assert (share - 1.0) * m == c - m;
    NegativeTimesPositive(share - 1.0, m);
    assert r == 100.0 <==> share == 1.0;
  }

  /** 3 of 10 recorded seconds is 30 percent; 5 of a 10-second recording
      played back is 50 percent; 12 of 10 is 120: nothing clamps. */
  lemma ProgressExamples()
    ensures GetAudioProgressPercent(Recording, 3, 10, None) == 30.0
    ensures GetAudioProgressPercent(Stopped, 5, 99, Some(10)) == 50.0
    ensures GetAudioProgressPercent(Playing, 12, 99, Some(10)) == 120.0
  {
  }

  const NoSupportedMimeTypeMessage :=
    "Failed to select supported MIME type at getSupportedMIMETypes: no supported MIME types found."

  /** The candidates the host accepts, in candidate order: each accepted
      candidate is pushed once, when the reduce reaches it. */
  function Supported(candidates: seq<string>, isTypeSupported: string -> bool): (s: seq<string>)
    ensures |s| <= |candidates|
    ensures forall x :: x in s <==> x in candidates && isTypeSupported(x)
    ensures forall i :: 0 <= i < |s| ==> isTypeSupported(s[i])
  {
    if candidates == [] then []
    else
      var last := candidates[|candidates| - 1];
      Supported(candidates[..|candidates| - 1], isTypeSupported) +
        (if isTypeSupported(last) then [last] else [])
  }

  /** The first accepted candidate heads the accepted list, and an empty
      accepted list means no candidate is accepted. */
  lemma {:induction false} SupportedHead(candidates: seq<string>, isTypeSupported: string -> bool)
    ensures Supported(candidates, isTypeSupported) == [] <==>
      forall i :: 0 <= i < |candidates| ==> !isTypeSupported(candidates[i])
    ensures Supported(candidates, isTypeSupported) != [] ==>
      exists i :: 0 <= i < |candidates| && candidates[i] == Supported(candidates, isTypeSupported)[0] &&
        isTypeSupported(candidates[i]) &&
        forall j :: 0 <= j < i ==> !isTypeSupported(candidates[j])
  {
    if candidates != [] {
      var init := candidates[..|candidates| - 1];
      SupportedHead(init, isTypeSupported);
      if Supported(init, isTypeSupported) == [] {
        assert forall i :: 0 <= i < |init| ==> !isTypeSupported(candidates[i]) by {
          forall i | 0 <= i < |init| ensures !isTypeSupported(candidates[i]) {
            assert candidates[i] == init[i];
          }
        }
      } else {
        var i :| 0 <= i < |init| && init[i] == Supported(init, isTypeSupported)[0] &&
          isTypeSupported(init[i]) && forall j :: 0 <= j < i ==> !isTypeSupported(init[j]);
        assert candidates[i] == init[i];
        assert forall j :: 0 <= j < i ==> candidates[j] == init[j];
      }
    }
  }

  /** `getSupportedMIMEType`: collect the entries of `mimeTypes` the host
      reports as recordable (`MediaRecorder.isTypeSupported`, given here as
      `isTypeSupported`) and return the first; throw when it is missing or
      falsy. */
  method GetSupportedMimeType(isTypeSupported: string -> bool) returns (r: Result<string, string>)
    ensures r.Success? <==> exists i :: 0 <= i < |Constants.MimeTypes| && isTypeSupported(Constants.MimeTypes[i])
    ensures r.Success? ==>
      exists i :: 0 <= i < |Constants.MimeTypes| &&
        Constants.MimeTypes[i] == r.value && isTypeSupported(r.value) &&
        forall j :: 0 <= j < i ==> !isTypeSupported(Constants.MimeTypes[j])
    ensures r.Failure? ==> r.error == NoSupportedMimeTypeMessage
  {
    var candidates := Constants.MimeTypes;
    var supportedMimeTypes: seq<string> := [];
    var i := 0;
    while i < |candidates|
      invariant 0 <= i <= |candidates|
      invariant supportedMimeTypes == Supported(candidates[..i], isTypeSupported)
    {
      assert candidates[..i + 1][..i] == candidates[..i];
      if isTypeSupported(candidates[i]) {
        supportedMimeTypes := supportedMimeTypes + [candidates[i]];
      }
      i := i + 1;
    }
    assert candidates[..i] == candidates;
    SupportedHead(candidates, isTypeSupported);
    if supportedMimeTypes == [] || supportedMimeTypes[0] == "" {
      Constants.MimeTypesNonEmpty();
      r := Failure(NoSupportedMimeTypeMessage);
    } else {
      r := Success(supportedMimeTypes[0]);
    }
  }
}
