# Recorder controller, modelled in Dafny

The repository is a browser page that records the microphone, the webcam and/or a shared
screen, shows a live preview, buffers what the browser's `MediaRecorder` encodes, and lets
the user download the result as a `.webm` file. All of its logic is the `Recorder` class in
`app.js`. This project models that class with the DOM and the browser APIs stripped away:

- `Media` (media.dfy): tracks, streams, encoded chunks, blobs and object URLs as values;
  `getVideoTracks`/`getAudioTracks` as `TracksOfKind`.
- `Capture` (capture.dfy): the three checkboxes, the two constraint records built from
  them, the host's answer to a capture request, and the composite track order.
- `RecorderModel` (recorder_model.dfy): the controller's state (`stream`, `videoData`,
  `mediaRecorder`, the live preview's `srcObject`, the recorded preview's `src`, the error
  message's visibility) and one transition function per method or event handler. Every
  call the controller makes into the browser (`getUserMedia`, `getDisplayMedia`, recorder
  `start`/`stop`, `track.stop()`, `createObjectURL`, the download click, `revokeObjectURL`)
  is appended to a trace `calls`, so that "nothing was requested" or "the revoke received
  null" can be stated.
- `RecorderProperties` (recorder_properties.dfy): lemmas relating several transitions.
- `Recording` (recorder.dfy): the class `Recorder`, whose fields the methods update in
  place as the source does (`videoData` appended to and reset, the tracks stopped in a
  loop, `getStream` building its track list step by step). Each method's `ensures` ties
  the new fields to the matching `RecorderModel` transition. The public methods and the
  two handlers also keep `Valid()`; the internal steps (`GetStream`, `SetupLocalPreview`,
  `SetupMediaRecorder`, `SetupRecordedPreview`) do not promise it on their own.

The browser is an input: the answers of `getUserMedia` and `getDisplayMedia` are
parameters of `StartRecording` (consulted only when the request is made), a chunk is the
parameter of the `dataavailable` handler, the object URL that `createObjectURL` returns is
the parameter of the `stop` handler, and the ISO timestamp is the parameter of the download.

Notable behaviours of the code, all modelled as written:

- the webcam alone is not enough to start: start needs the microphone or the screen;
- when an acquisition fails, tracks already acquired from user media are not stopped;
- `stopRecording` before any stream exists throws (the `tracks` getter reads `null`)
  rather than being a no-op; with a stream but no recorder it changes nothing;
- `stopRecording` does not reset `mediaRecorder`, so a second stop repeats the recorder
  and track stop calls;
- the download revokes the already-cleared `src`, not the downloaded object URL (see
  Findings);
- no check that the composite stream has a track, and no encoder error handler.

## Model

| member | source | states |
|---|---|---|
| `Media.TracksOfKind` | app.js:83 | the tracks of one kind keep each track of that kind exactly as often as the stream has it, and no other track |
| `Media.VideoThenAudioIsPermutation` | app.js:83 | video tracks followed by audio tracks are a permutation of the user stream's tracks: none lost, none added |
| `Media.FlattenAppend` | app.js:104 | the bytes of two runs of chunks laid end to end are the first run's bytes followed by the second's |
| `Capture.ConstraintsFor` | app.js:29-43 | start is refused exactly when neither microphone nor screen is checked; otherwise user constraints are `{audio: mic, video: webcam}` and display constraints `{video: screen}` |
| `Capture.Composite` | app.js:79-89 | the composite track list holds exactly the tracks of the obtained streams (multiset union) |
| `RecorderModel.Tracks` | app.js:10-12 | the getter fails exactly when there is no stream, else gives the stream's tracks |
| `RecorderModel.Inv` | app.js:45-47 | the invariant: a recorder encodes the current stream, and the live preview shows nothing or that stream; so the preview shows what the recorder encodes, and with a recorder the `tracks` getter cannot throw |
| `RecorderModel.Requests` | app.js:81-87 | user media is requested iff its constraints ask for audio or video (`Capture.WantsUserMedia`, the test at app.js:81); display media iff asked for video (`Capture.WantsDisplayMedia`, the test at app.js:85) and no user request was refused; exactly one request of each kind made, user first, and nothing else |
| `RecorderModel.GetStream` | app.js:78-92 | the calls made are those requests; it succeeds iff every requested source is granted; a failure names the first refused source, leaves `stream` unchanged and stops nothing; success stores the new stream |
| `RecorderModel.GetStreamRefused` | app.js:81-88 | when a requested source is refused: the requests made so far and that source's error, nothing else changed |
| `RecorderModel.GetStreamGranted` | app.js:79-91 | when every requested source is granted: the requests, and the stream of user video, user audio, then display tracks stored |
| `RecorderModel.SetupLocalPreview` | app.js:94-96 | the live preview shows the current stream; nothing else changes |
| `RecorderModel.SetupMediaRecorder` | app.js:112-123 | a recorder over the current stream, typed `video/webm`, is stored, and its start is the one call made; nothing else changes |
| `RecorderModel.StartRecording` | app.js:28-50 | rejection iff neither mic nor screen, and then only the error flag changes; started iff not rejected and every requested source is granted; a failure names the first refused source and keeps stream, recorder and live preview; a success previews the new stream and ends by starting a webm recorder bound to it; chunks and recorded `src` untouched |
| `RecorderModel.StopCalls` | app.js:57 | one `track.stop()` per track, in track order |
| `RecorderModel.StopRecording` | app.js:52-62 | throws iff there is no stream, then changing nothing; no recorder: no change; else recorder stop, then every track stopped, live preview cleared, recorder kept |
| `RecorderModel.OnDataAvailable` | app.js:115-117 | the chunk lands at the end of `videoData`; earlier chunks stay in place; nothing else changes |
| `RecorderModel.SetupRecordedPreview` | app.js:103-110 | one blob is created, typed `video/webm`, whose bytes are the buffered chunks in order; its URL becomes the recorded `src`; `videoData` becomes empty |
| `RecorderModel.DownloadName` | app.js:70 | the file name is `video_`, then the timestamp, then `.webm` (each part recoverable from the name) |
| `RecorderModel.DownloadRecording` | app.js:64-76 | no recorded `src`: no change; else a click on a link to `src` with the timestamp name, then `src` cleared, then a revoke of the cleared value |
| `RecorderModel.DownloadRecordingReleasing` | app.js:64-76 | the corrected download: the revoke gets the handle that was downloaded |
| `RecorderProperties.StartKeepsInv` | app.js:45-47 | a recorder encodes the current stream and the live preview shows it, before and after any start |
| `RecorderProperties.StopKeepsInv` | app.js:52-62 | stopping keeps that invariant |
| `RecorderProperties.HandlersKeepInv` | app.js:103-120 | the data and stop handlers keep that invariant |
| `RecorderProperties.DownloadKeepsInv` | app.js:64-76 | the download keeps that invariant, whether or not there is a recorder |
| `RecorderProperties.WebcamAloneIsRejected` | app.js:40-43 | a webcam-only selection is refused with only the error flag changed |
| `RecorderProperties.UnaskedSourceIsIgnored` | app.js:81-86 | the answer of a source that was not asked for cannot change the outcome |
| `RecorderProperties.AcceptedStartCalls` | app.js:45-47 | an accepted start makes exactly `getStream`'s requests, followed by the recorder's start if it started |
| `RecorderProperties.AcceptedStartRequests` | app.js:45 | an accepted start makes a request: user media iff mic or webcam; display media iff screen and user media was not refused |
| `RecorderProperties.FailedStartOnlyRequests` | app.js:82-90 | a failed acquisition made only capture requests: no track stopped, no recorder; stream, recorder, preview, chunks and recorded `src` as before |
| `RecorderProperties.GetStreamIsComposite` | app.js:79-90 | the stored stream is user video ++ user audio ++ display tracks |
| `RecorderProperties.StartedStreamIsComposite` | app.js:45-47 | a started recording's stream is that composite and holds exactly the granted tracks |
| `RecorderProperties.DeliveriesAppendInOrder` | app.js:115-117 | any run of `dataavailable` events appends its chunks in delivery order and changes nothing else |
| `RecorderProperties.ArtifactHoldsDeliveredBytes` | app.js:103-107 | the artifact's bytes are the buffered bytes followed by those delivered since, in order; then the buffer is empty |
| `RecorderProperties.StopTwice` | app.js:52-62 | a second stop has the same outcome and only repeats the first stop's calls |
| `RecorderProperties.DownloadTwice` | app.js:65-66 | a second download does nothing |
| `RecorderProperties.DownloadNeverRevokes` | app.js:73-74 | as written, a download revokes no object URL that was not already revoked |
| `RecorderProperties.RecordedUrlLeaks` | app.js:103-106 | the recording's own URL, once downloaded, is never revoked |
| `RecorderProperties.ReleasingDownloadRevokesAfterClick` | app.js:72-74 | the corrected download revokes the downloaded URL, right after the click |
| `RecorderProperties.MicrophoneStart` | app.js:28-50 | with only the mic checked and granted, start succeeds with the mic track as the whole stream and a recorder |
| `RecorderProperties.RecordStopDownload` | app.js:52-76 | from a recording with an empty buffer: chunks `a`, `b`, stop, `stop` event, download stop every track, make an artifact of `a + b`, name the file `video_<timestamp>.webm` and clear `src` |
| `RecorderProperties.MicrophoneSession` | app.js:28-123 | mic-only session with chunks `a`, `b`: start succeeds with the mic track, stop stops it, the artifact is `a + b`, the download is named `video_<timestamp>.webm` and clears `src` |
| `RecorderProperties.NothingSelectedSession` | app.js:40-43 | nothing checked: start is refused and only the error flag changes |
| `Recording.Recorder.constructor` | app.js:2-8 | no stream, no chunks, no recorder, nothing bound, nothing called |
| `Recording.Recorder.StartRecording` | app.js:28-50 | the fields and outcome are those of `RecorderModel.StartRecording`; `Valid()` kept |
| `Recording.Recorder.GetStream` | app.js:78-92 | the track list built request by request is the one `RecorderModel.GetStream` describes |
| `Recording.Recorder.SetupLocalPreview` | app.js:94-101 | the live preview shows the current stream; nothing else changes |
| `Recording.Recorder.SetupMediaRecorder` | app.js:112-123 | a webm recorder over the current stream is stored and started |
| `Recording.Recorder.StopRecording` | app.js:52-62 | the loop stops the tracks in order; the result is `RecorderModel.StopRecording`'s; by `Valid()`, with a recorder it never throws; `Valid()` kept |
| `Recording.Recorder.OnDataAvailable` | app.js:115-117 | as `RecorderModel.OnDataAvailable` |
| `Recording.Recorder.OnStop` | app.js:118-120 | as `RecorderModel.SetupRecordedPreview` |
| `Recording.Recorder.SetupRecordedPreview` | app.js:103-110 | as `RecorderModel.SetupRecordedPreview` |
| `Recording.Recorder.DownloadRecording` | app.js:64-76 | as `RecorderModel.DownloadRecording` |

## Left out

- DOM lookups, `hide` class toggling, button enabling and click-listener wiring
  (app.js:14-26 and the presentation lines of each method). They are presentation only;
  only the error message's visibility is kept, as `errorShown`.
- The real `navigator.mediaDevices`, `MediaStream`, `MediaRecorder`, `Blob`,
  `URL.createObjectURL`/`revokeObjectURL` and the anchor element. They are foreign browser
  APIs, replaced by values, parameters and the `calls` trace. The recorder's own
  inactive/recording state is not modelled, nor the browser's guarantee that `stop`
  fires after the last `dataavailable`.
- Interleaving across `await`. Each `await` is a point where other handlers can run
  (a click on stop, a chunk from an earlier recorder), and a second `startRecording` can
  overlap the first. The model runs `startRecording` to completion in one call, with the
  two requests' answers supplied up front.
- The `MediaStream` constructor's set semantics (a track given twice is kept once). The
  composite is a sequence; its inputs are distinct track objects in the source.
- Assigning `null` to `src` in a real page stores the string `"null"` resolved as a URL.
  The model treats the cleared `src` as absent, as the code evidently means it.
- RecorderModel.SetupMediaRecorder: the recorder's construction and `start()` are taken
  never to throw. In a browser that cannot record webm, `new MediaRecorder(...)` at
  app.js:114 throws `NotSupportedError`. By then the new stream is stored (app.js:90) and
  bound to the live preview (app.js:96), but `mediaRecorder` keeps its old value, since
  app.js:121 is not reached, and the error leaves `startRecording`. So "started iff
  every requested source is granted" (`RecorderModel.StartRecording`) and `Inv`'s "a
  recorder encodes the current stream" hold of the model only.
- RecorderProperties.DownloadTwice: holds of the model only. In a page the cleared `src`
  reads back as that `<base>/null` URL, which passes the guard at app.js:65, and the
  download button stays visible; a second click then downloads `<base>/null` as
  `video_<timestamp>.webm`.
- `new Date().toISOString()`: the timestamp string is a parameter.
- The `constraints` field (app.js:6): set to `null` and never read.
- `window.onload` bootstrapping (app.js:126-128).
- An encoder error: the source installs no error handler, so there is nothing to model.

## Findings

| source | as written | input that shows it | evidently intended | confidence | as-written member | corrected member |
|---|---|---|---|---|---|---|
| app.js:73-74 | `src` is set to `null`, then `revokeObjectURL(this.recordedPreview.src)` revokes that cleared value | any download after a recording's `stop` event gave `src` the object URL `u`: the calls are click on `u`, then revoke of `null`, and `u` is never revoked | revoke `u`, the URL just downloaded, after the click | not executed; high | `RecorderProperties.RecordedUrlLeaks` (about `RecorderModel.DownloadRecording`) | `RecorderProperties.ReleasingDownloadRevokesAfterClick` (about `RecorderModel.DownloadRecordingReleasing`) |

The class `Recording.Recorder` keeps the download as written, since it models the code;
`RecorderModel.DownloadRecordingReleasing` is the corrected transition, with the intended
property proved about it.
