# Audio recorder core, modelled in Dafny

This project models the logic of a browser audio-recording widget:

- **`useAudioRecording`.** The React hook that records the microphone into a `File`, counts seconds while recording or playing, stops on its own at `maxLength`, plays the file back and resets.
- **The helpers in `src/lib/utils.ts`.** They derive the status flags, the `mm`/`ss`/`ms` display strings and the progress percentage, and they negotiate the MIME type.
- **The MIME-to-extension table in `src/constants.ts`.** Its keys are the ordered list of candidate MIME types.

Files, one module each:

| file | module | what |
|---|---|---|
| `wrappers.dfy` | `Wrappers` | `Option`, `Result`, `Outcome`. A JavaScript `throw` is a `Fail`/`Failure`. |
| `js_number.dfy` | `JsNumber` | JavaScript number semantics the helpers rely on: `toString`, `padStart`, `Math.floor` of a division and the truncating `%`. Also a decoder that reads a padded field back. |
| `constants.dfy` | `Constants` | The object literal as its ordered entries. `Object.keys` and the lookup are defined over those entries. |
| `utils.dfy` | `Utils` | The status type, `getAudioRecorderStatusBooleans`, `getRecordingCurrentTime`, `getAudioProgressPercent` and `getSupportedMIMEType`. |
| `audio_recording.dfy` | `AudioRecording` | The hook as the class `AudioRecorder`, described below. |
| `sessions.dfy` | `RecorderSessions` | Whole sessions driven through the class: auto-stop, recording to a file, playback, and a double reset. |

`AudioRecorder` maps the hook's parts onto Dafny as follows:

- Each state variable and ref is a field.
- Each callback, recorder event and effect is a method.
- Each derived value is a function.
- Host objects are records. The recorder handle holds the setup its handlers closed over and whether it is running. The audio element holds its object URL, playback position, paused flag and `onended` flag.
- Running intervals are a set of ids.
- `Valid()` states the class invariant:
  - at most one interval runs;
  - it is the one `intervalRef` holds;
  - it runs exactly while recording or playing;
  - a recording has a recorder;
  - playback has an audio element;
  - a recorded file exists exactly when an audio element does.

Host inputs are method parameters:

- whether `window.MediaRecorder` exists;
- `MediaRecorder.isTypeSupported`, as a function;
- the outcome of `play()`;
- the UUID and the object URL;
- the chunks the recorder delivers.

Four behaviours of the code that a reader might not expect, all modelled as written:

- A stopped display's milliseconds field is `"000"`, because `"00"` is padded to 3.
- `startRecording` leaves the counter as it is.
- `startPlaying` zeroes the counter only after `play()` resolves.
- `resetRecording` stops neither the recorder nor the stream's tracks.

## Model

| member | source | states |
|---|---|---|
| JsNumber.NatToString | src/lib/utils.ts:70-72 | `toString` of a whole number is a non-empty digit string with no leading zero (except "0") |
| JsNumber.IntToString | src/lib/utils.ts:70-72 | `toString` of an integer: a '-' exactly for negatives, then the digits of the magnitude |
| JsNumber.PadStart | src/lib/utils.ts:69-73 | `padStart(w, "0")`: length is max(w, old length), the original string is the suffix, everything before it is '0' (so a '-' is not moved) |
| JsNumber.FloorDivIsFloor | src/lib/utils.ts:59 | `Math.floor(a / b)` is the greatest q with q·b ≤ a |
| JsNumber.JsRem | src/lib/utils.ts:60-65 | JavaScript `%`: sign of the dividend, magnitude below the divisor |
| JsNumber.JsRemIsRemainder | src/lib/utils.ts:60-65 | a == b·trunc(a/b) + a % b |
| JsNumber.ParseNatToString | src/lib/utils.ts:70-72 | reading the digits of `toString(n)` gives n back |
| JsNumber.DecodePaddedNat | src/lib/utils.ts:69-73 | a zero-padded non-negative field reads back as its number |
| JsNumber.DecodePaddedNegative | src/lib/utils.ts:69-73 | a zero-padded negative field ("0-2") reads back as its number |
| JsNumber.FieldRoundTrip | src/lib/utils.ts:69-73 | every padded field reads back as the integer it was made from, at any width |
| Constants.ObjectKeysAreKeys | src/constants.ts:27 | `Object.keys` lists exactly the keys of the object built from the entries, without repeats |
| Constants.ObjectKeysInOrder | src/constants.ts:27 | with distinct keys, `Object.keys` is the entries' keys in declaration order |
| Constants.ObjectLookup | src/constants.ts:3-25 | with distinct keys, the object maps each entry's key to that entry's value |
| Constants.MimeKeysDistinct | src/constants.ts:4-24 | the table's 20 keys are pairwise distinct |
| Constants.MimeTypesAreTableKeys | src/constants.ts:3-27 | `mimeTypes` has 20 entries, no duplicates, is the table's keys in order and starts with "audio/webm" |
| Constants.EveryMimeTypeHasExtension | src/constants.ts:3-27 | a string is a candidate exactly when the table gives it an extension |
| Constants.MimeTypesNonEmpty | src/constants.ts:27 | no candidate is the empty string |
| Constants.ExtensionsNotInjective | src/constants.ts:4-23 | "audio/mp4" and "audio/x-m4a" both map to "m4a", "audio/webm" and "video/webm" both to "webm" |
| Utils.GetAudioRecorderStatusBooleans | src/lib/utils.ts:14-24 | each flag is set exactly when the status is that one |
| Utils.ExactlyOneStatusFlag | src/lib/utils.ts:14-24 | for every status exactly one of the five flags is set |
| Utils.PadFields | src/lib/utils.ts:69-73 | display fields are at least 2, 2 and 3 characters long |
| Utils.ClockDisplayRoundTrip | src/lib/utils.ts:58-73 | the running display reads back as floor(x/60), x rem 60, x rem 1000 |
| Utils.GetRecordingCurrentTime | src/lib/utils.ts:26-74 | no display exactly when idle; every display's fields are at least 2/2/3 long |
| Utils.StoppedDisplay | src/lib/utils.ts:52-56 | stopped: minutes "00", milliseconds "000", seconds read back as the whole counter (not wrapped at 60) |
| Utils.AscendingDisplay | src/lib/utils.ts:57-61 | in any status but idle and stopped (error included), the ascending display reads back as counter div 60, mod 60, mod 1000 |
| Utils.CountdownDisplay | src/lib/utils.ts:57-66 | in any status but idle and stopped (error included), the countdown display reads back as the floor/rem fields of maxLength − currentTime, negative after overshoot |
| Utils.CountdownExample | src/lib/utils.ts:62-73 | 3 s into a 10 s recording the display is "00", "07", "007" |
| Utils.PlaybackExample | src/lib/utils.ts:58-73 | 3 s into playback the display is "00", "03", "003" |
| Utils.StoppedExample | src/lib/utils.ts:52-73 | stopped at 65 s the display is "00", "65", "000" |
| Utils.OvershootExample | src/lib/utils.ts:62-73 | 2 s past a 10 s limit the display is "-1", "-2", "0-2" |
| Utils.GetAudioProgressPercent | src/lib/utils.ts:76-96 | 0 when idle; percent of maxLength while recording; else percent of the duration (1 when absent); not clamped |
| Utils.RecordingProgressBounds | src/lib/utils.ts:89-92 | recording within a positive limit: progress in [0, 100], and 100 exactly at the limit |
| Utils.ProgressExamples | src/lib/utils.ts:87-95 | 3 of 10 recording is 30, 5 of 10 stopped is 50, 12 of 10 playing is 120 |
| Utils.Supported | src/lib/utils.ts:101-107 | the list the reduce builds holds exactly the candidates the host accepts, every element accepted, no longer than the candidates |
| Utils.SupportedHead | src/lib/utils.ts:101-114 | the accepted list is empty exactly when nothing is accepted; otherwise its head is the first accepted candidate |
| Utils.GetSupportedMimeType | src/lib/utils.ts:98-117 | succeeds exactly when some candidate is accepted, with the first accepted candidate in table order; otherwise fails with the source's message |
| AudioRecording.NonEmptyChunks | src/lib/hooks/use-audio-recording.ts:100-105 | every kept chunk is non-empty |
| AudioRecording.ConcatAppend | src/lib/hooks/use-audio-recording.ts:122-124 | the file of two chunk lists is the first's bytes followed by the second's |
| AudioRecording.SkippingEmptyChunksKeepsContent | src/lib/hooks/use-audio-recording.ts:100-124 | dropping empty chunks leaves the file's bytes unchanged |
| AudioRecording.AudioRecorder.TimerInvariant | src/lib/hooks/use-audio-recording.ts:205-215 | at most one interval is live, the one in `intervalRef`, and one is live exactly while recording or playing |
| AudioRecording.AudioRecorder.constructor | src/lib/hooks/use-audio-recording.ts:43-64 | mount: idle, counter 0, no file, duration or handles; `maxLength` defaults to 10 |
| AudioRecording.AudioRecorder.UpdateAudioSetup | src/lib/hooks/use-audio-recording.ts:50 | the context's setup is replaced |
| AudioRecording.AudioRecorder.SetRecorderState | src/lib/hooks/use-audio-recording.ts:205-215 | the status changes; the interval is kept when (isRecording, isPlaying) is unchanged, else the old one is cleared and a fresh one starts exactly in a ticking status |
| AudioRecording.AudioRecorder.StartRecording | src/lib/hooks/use-audio-recording.ts:83-143 | no MediaRecorder: error status with the fixed message, no recorder; no stream: throws, nothing changes; else a running recorder with the current setup, empty chunks, status recording, counter untouched, a running interval kept |
| AudioRecording.AudioRecorder.OnDataAvailable | src/lib/hooks/use-audio-recording.ts:100-105 | an empty chunk is ignored, any other is appended at the end |
| AudioRecording.AudioRecorder.OnStop | src/lib/hooks/use-audio-recording.ts:107-135 | no recorder: throws; else file content = the chunks in order, name = id + "." + extension, type = the negotiated MIME; chunks emptied, file kept, fresh paused element at the file's URL; status untouched |
| AudioRecording.AudioRecorder.StopRecording | src/lib/hooks/use-audio-recording.ts:145-157 | no recorder: throws, nothing changes; else recorder stopped, duration = the counter at the call, status stopped, no interval |
| AudioRecording.AudioRecorder.AutoStopEffect | src/lib/hooks/use-audio-recording.ts:159-166 | when recording with a non-zero limit reached, stops as `stopRecording` does and never throws; otherwise nothing changes; afterwards it is never due again |
| AudioRecording.AudioRecorder.AutoRecordEffect | src/lib/hooks/use-audio-recording.ts:168-176 | when idle with `autoRecord` it has each outcome of `startRecording`: error status without MediaRecorder, a throw with nothing changed without a stream, else a running recorder with the current setup, empty chunks and status recording; otherwise nothing changes |
| AudioRecording.AudioRecorder.StopPlaying | src/lib/hooks/use-audio-recording.ts:178-188 | no element: throws, nothing changes; else paused, rewound to 0, status stopped, no interval |
| AudioRecording.AudioRecorder.StartPlaying | src/lib/hooks/use-audio-recording.ts:190-203 | no element: throws; else `onended` set; a rejected `play()` is rethrown with counter and status untouched; a resolved one leaves it playing, counter 0, status playing |
| AudioRecording.AudioRecorder.Tick | src/lib/hooks/use-audio-recording.ts:210 | a live interval adds exactly 1 to the counter, and only fires while recording or playing |
| AudioRecording.AudioRecorder.ResetRecording | src/lib/hooks/use-audio-recording.ts:217-228 | from any valid state: idle, no file, no duration, counter 0, both handles cleared, no interval; the element's URL is revoked when there is one |
| AudioRecording.AudioRecorder.TimeCount | src/lib/hooks/use-audio-recording.ts:237-242 | the display with `asc = !maxLength \|\| isPlaying`: none when idle; recording or error counts down the time left of a non-zero limit and counts up without one; playback counts up; stopped shows "00", the whole counter, "000" |
| AudioRecording.AudioRecorder.AudioProgressPercent | src/lib/hooks/use-audio-recording.ts:230-235 | 0 when idle; between 0 and 100 while recording within the limit |
| RecorderSessions.AutoStopSession | src/lib/hooks/use-audio-recording.ts:159-166 | with a 5 s limit the recording stops at 5 with duration 5, and no interval is left running |
| RecorderSessions.RecordSession | src/lib/hooks/use-audio-recording.ts:97-157 | after n ticks and any deliveries, the file holds every delivered byte in order with the right name and type, and the duration is n |
| RecorderSessions.PlaybackSession | src/lib/hooks/use-audio-recording.ts:190-215 | playback counts up from 0 (display 00/03/003 after three ticks); its end leaves it stopped and rewound |
| RecorderSessions.ResetTwice | src/lib/hooks/use-audio-recording.ts:217-228 | a second reset leaves the state of the first |

## Left out

- Browser APIs are parameters or records, not behaviour: `MediaRecorder`, `Audio`, `URL.createObjectURL`/`revokeObjectURL`, `crypto.randomUUID`, `setInterval`/`clearInterval`, `play()`. The host moving the playback position while audio plays is not modelled.
- React scheduling is not modelled. Each setter, callback and effect is one method call, and the host picks the order. The interval effect's re-run is folded into `SetRecorderState`, because it depends only on `(isRecording, isPlaying)`. Asynchronous interleaving is not modelled.
- Events of a superseded recorder are not modelled. A recorder replaced by a second `startRecording` still holds its own chunk list and its own setup; the model keeps one chunk list and the setup of the latest recorder.
- `onstop` also throws when the setup it closed over is null. That cannot happen, because `startRecording` checked it, so this branch is not modelled. `MediaRecorder.onerror` (it only rethrows the host's error) and the audio element's `onerror` logging are left out.
- AudioRecording.AudioRecorder.StopRecording: calling `stop()` on a recorder that is already inactive is host behaviour and is not modelled.
- Utils.GetAudioProgressPercent: `maxLength` 0 while recording, or a duration of 0 otherwise, gives Infinity or NaN in JavaScript. These are excluded by preconditions. Floating point in general is modelled as exact reals.
- `Math.floor`/`Math.round` of the counters are the identity, because the counters are whole seconds. A fractional or NaN `maxLength` is not modelled; `maxLength` is an integer.
- AudioRecording.AudioRecorder.AudioProgressPercent: states only the idle and in-limit recording cases. The other cases are stated on Utils.GetAudioProgressPercent.
- `cn` (`clsx` plus `tailwind-merge`), the setup hook `use-setup-audio-recording.ts` and the presentation components are not part of this model. The setup arrives through `UpdateAudioSetup`.
- The `ignore` flag of the auto-record effect is always false where it is read, so it is left out.
