/**
 * The controller as an object whose methods update its fields in place, one method per
 * method or event handler of the source. Each method's effect is the matching
 * transition of `RecorderModel`, applied to the snapshot of the fields.
 */
module Recording {
  import opened Wrappers
  import opened Media
  import opened Capture
  import M = RecorderModel
  import P = RecorderProperties

  class Recorder {
    var stream: Option<MediaStream>
    var videoData: seq<Chunk>
    var mediaRecorder: Option<M.MediaRecorderRef>
    /** The local preview's `srcObject`. */
    var livePreview: Option<MediaStream>
    /** The recorded preview's `src`. */
    var recordedSrc: Option<Handle>
    /** Whether the error message is visible. */
    var errorShown: bool
    /** The calls made into the browser so far, oldest first. */
    var calls: seq<M.HostCall>

    function Snapshot(): M.RecorderState
      reads this
    {
      M.RecorderState(stream, videoData, mediaRecorder, livePreview, recordedSrc, errorShown, calls)
    }

    /**
     * The invariant `RecorderModel.Inv` of the fields. Every public method and handler keeps
     * it; `StopRecording` relies on it: with a recorder there is a stream, so it cannot throw.
     */
    predicate Valid()
      reads this
    {
      M.Inv(Snapshot())
    }

    constructor ()
      ensures Valid() && Snapshot() == M.Initial
    {
      stream := None;
      videoData := [];
      mediaRecorder := None;
      livePreview := None;
      recordedSrc := None;
      errorShown := false;
      calls := [];
    }

    method StartRecording(options: CaptureOptions, user: Acquisition, display: Acquisition)
      returns (outcome: M.StartOutcome)
      requires Valid()
      modifies this
      ensures Valid()
      ensures (Snapshot(), outcome) == M.StartRecording(old(Snapshot()), options, user, display)
    {
      var constraints := ConstraintsFor(options);
      if constraints.None? {
        errorShown := true;
        return M.Rejected;
      }
      errorShown := false;
      var got := GetStream(constraints.value, user, display);
      if got.Err? {
        return M.AcquisitionFailed(got.error.0, got.error.1);
      }
      SetupLocalPreview();
      SetupMediaRecorder();
      outcome := M.Started;
      P.StartKeepsInv(old(Snapshot()), options, user, display);
    }

    method GetStream(c: Constraints, user: Acquisition, display: Acquisition)
      returns (result: Result<MediaStream, (Source, AcquireError)>)
      modifies this
      ensures (Snapshot(), result) == M.GetStream(old(Snapshot()), c, user, display)
    {
      ghost var s0 := Snapshot();
      ghost var fromUser: seq<Track> := [];
      var tracks: seq<Track> := [];
      if WantsUserMedia(c.user) {
        calls := calls + [M.GetUserMedia(c.user)];
        if user.Refused? {
          result := Err((UserMediaSource, user.error));
          assert calls == s0.calls + M.Requests(c, user);
          M.GetStreamRefused(s0, c, user, display);
          return;
        }
        fromUser := VideoTracks(user.stream) + AudioTracks(user.stream);
        tracks := tracks + VideoTracks(user.stream) + AudioTracks(user.stream);
        assert tracks == fromUser;
      }
      if WantsDisplayMedia(c.display) {
        calls := calls + [M.GetDisplayMedia(c.display)];
        if display.Refused? {
          result := Err((DisplayMediaSource, display.error));
          assert calls == s0.calls + M.Requests(c, user);
          M.GetStreamRefused(s0, c, user, display);
          return;
        }
        tracks := tracks + display.stream.tracks;
      }
      assert calls == s0.calls + M.Requests(c, user);
      assert tracks == fromUser + (if WantsDisplayMedia(c.display) then display.stream.tracks else []);
      var composite := MediaStream(tracks);
      stream := Some(composite);
      result := Ok(composite);
      M.GetStreamGranted(s0, c, user, display);
    }

    method SetupLocalPreview()
      modifies this
      ensures Snapshot() == M.SetupLocalPreview(old(Snapshot()))
    {
      livePreview := stream;
    }

    method SetupMediaRecorder()
      requires stream.Some?
      modifies this
      ensures Snapshot() == M.SetupMediaRecorder(old(Snapshot()))
    {
      var recorder := M.MediaRecorderRef(stream.value, M.WebmType);
      mediaRecorder := Some(recorder);
      calls := calls + [M.StartRecorder(recorder)];
    }

    method StopRecording() returns (outcome: Outcome<M.ScriptError>)
      requires Valid()
      modifies this
      ensures Valid()
      ensures (Snapshot(), outcome) == M.StopRecording(old(Snapshot()))
      ensures old(mediaRecorder).Some? ==> outcome.Pass?
    {
      var got := M.Tracks(Snapshot());
      if got.Err? {
        return Fail(got.error);
      }
      var tracks := got.value;
      if mediaRecorder.None? {
        return Pass;
      }
      var log := calls + [M.StopRecorder(mediaRecorder.value)];
      var i := 0;
      while i < |tracks|
        invariant 0 <= i <= |tracks|
        invariant log == calls + [M.StopRecorder(mediaRecorder.value)] + M.StopCalls(tracks[..i])
      {
        assert tracks[..i + 1][..i] == tracks[..i];
        log := log + [M.StopTrack(tracks[i])];
        i := i + 1;
      }
      assert tracks[..i] == tracks;
      calls := log;
      livePreview := None;
      outcome := Pass;
    }

    /** The `dataavailable` handler of the recorder. */
    method OnDataAvailable(chunk: Chunk)
      requires mediaRecorder.Some?
      requires Valid()
      modifies this
      ensures Valid()
      ensures Snapshot() == M.OnDataAvailable(old(Snapshot()), chunk)
    {
      videoData := videoData + [chunk];
    }

    /** The `stop` handler of the recorder; `url` is the object URL the browser hands out. */
    method OnStop(url: Handle)
      requires mediaRecorder.Some?
      requires Valid()
      modifies this
      ensures Valid()
      ensures Snapshot() == M.SetupRecordedPreview(old(Snapshot()), url)
    {
      SetupRecordedPreview(url);
    }

    method SetupRecordedPreview(url: Handle)
      modifies this
      ensures Snapshot() == M.SetupRecordedPreview(old(Snapshot()), url)
    {
      var blob := Blob(videoData, M.WebmType);
      calls := calls + [M.CreateObjectURL(blob, url)];
      recordedSrc := Some(url);
      videoData := [];
    }

    method DownloadRecording(timestamp: string)
      requires Valid()
      modifies this
      ensures Valid()
      ensures Snapshot() == M.DownloadRecording(old(Snapshot()), timestamp)
    {
      if recordedSrc.None? {
        return;
      }
      calls := calls + [M.ClickDownload(recordedSrc.value, M.DownloadName(timestamp))];
      recordedSrc := None;
      calls := calls + [M.RevokeObjectURL(recordedSrc)];
    }
  }
}
