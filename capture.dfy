/**
 * What `startRecording` asks of the host: the three checkboxes, the constraint records
 * built from them, the answers of `getUserMedia` and `getDisplayMedia`, and the order in
 * which `getStream` lays the returned tracks into one stream.
 */
module Capture {
  import opened Wrappers
  import opened Media

  /** The `checked` state of the microphone, webcam and screen checkboxes. */
  datatype CaptureOptions = CaptureOptions(mic: bool, webcam: bool, screen: bool)

  datatype UserMediaConstraints = UserMediaConstraints(audio: bool, video: bool)

  datatype DisplayMediaConstraints = DisplayMediaConstraints(video: bool)

  datatype Constraints = Constraints(user: UserMediaConstraints, display: DisplayMediaConstraints)

  /** The two capture sources, named in an acquisition error. */
  datatype Source = UserMediaSource | DisplayMediaSource

  /** Why the host refused a capture request (the promise rejected). */
  datatype AcquireError = PermissionDenied | DeviceUnavailable | NotSupported

  /** The host's answer to one capture request. */
  datatype Acquisition = Granted(stream: MediaStream) | Refused(error: AcquireError)

  /**
   * The start rule: the constraints are `{audio: mic, video: webcam}` for user media and
   * `{video: screen}` for display media, and there are none (start is refused) exactly
   * when neither the microphone nor the screen is checked, whatever the webcam says.
   */
  function ConstraintsFor(o: CaptureOptions): (r: Option<Constraints>)
    ensures r.None? <==> !o.mic && !o.screen
    ensures r.Some? ==> r.value.user.audio == o.mic && r.value.user.video == o.webcam
    ensures r.Some? ==> r.value.display.video == o.screen
  {
    var user := UserMediaConstraints(o.mic, o.webcam);
    var display := DisplayMediaConstraints(o.screen);
    if !o.screen && !o.mic then None else Some(Constraints(user, display))
  }

  /** User media is requested only when it is asked for audio or video. */
  predicate WantsUserMedia(c: UserMediaConstraints)
  {
    c.audio || c.video
  }

  /** Display media is requested only when it is asked for video. */
  predicate WantsDisplayMedia(c: DisplayMediaConstraints)
  {
    c.video
  }

  /**
   * The composite track list of a started recording: the user stream's video tracks,
   * then its audio tracks, then every display track; an absent stream contributes none.
   * It holds exactly the tracks of the streams that were obtained.
   */
  function Composite(user: Option<MediaStream>, display: Option<MediaStream>): (r: seq<Track>)
    ensures multiset(r) == (if user.Some? then multiset(user.value.tracks) else multiset{})
                           + (if display.Some? then multiset(display.value.tracks) else multiset{})
  {
    var fromDisplay := if display.Some? then display.value.tracks else [];
    match user
    case None => fromDisplay
    case Some(u) =>
      VideoThenAudioIsPermutation(u);
      VideoTracks(u) + AudioTracks(u) + fromDisplay
  }
}
