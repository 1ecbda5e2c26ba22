/**
 * The host's media values as the controller sees them: tracks, the streams that group
 * them, the encoded chunks the recorder delivers, the blob they are wrapped into, and
 * the object URL that names such a blob.
 */
module Media {

  newtype byte = x: int | 0 <= x < 256

  /** One encoded piece of media, as delivered by a `dataavailable` event. */
  type Chunk = seq<byte>

  datatype Kind = Audio | Video

  /** A media track; `id` tells apart tracks of the same kind. */
  datatype Track = Track(id: nat, kind: Kind)

  /** A stream is its ordered list of tracks (what `getTracks()` returns). */
  datatype MediaStream = MediaStream(tracks: seq<Track>)

  /**
   * The tracks of one kind: `getVideoTracks()` and `getAudioTracks()`. Each track of kind
   * `k` is kept as often as it occurs, and no other track is kept.
   */
  function TracksOfKind(ts: seq<Track>, k: Kind): (r: seq<Track>)
    ensures |r| <= |ts|
    ensures forall t :: multiset(r)[t] == if t.kind == k then multiset(ts)[t] else 0
  {
    if ts == [] then []
    else
      var rest := TracksOfKind(ts[1..], k);
      assert ts == [ts[0]] + ts[1..];
      if ts[0].kind == k then [ts[0]] + rest else rest
  }

  function VideoTracks(s: MediaStream): seq<Track> {
    TracksOfKind(s.tracks, Video)
  }

  function AudioTracks(s: MediaStream): seq<Track> {
    TracksOfKind(s.tracks, Audio)
  }

  /** Taking the video tracks and then the audio tracks loses and adds no track. */
  lemma VideoThenAudioIsPermutation(s: MediaStream)
    ensures multiset(VideoTracks(s) + AudioTracks(s)) == multiset(s.tracks)
  {
  }

  /** A blob: its parts in order and its declared media type. */
  datatype Blob = Blob(parts: seq<Chunk>, mimeType: string)

  /** The bytes of a sequence of parts laid end to end. */
  function Flatten(parts: seq<Chunk>): seq<byte> {
    if parts == [] then [] else parts[0] + Flatten(parts[1..])
  }

  function Bytes(b: Blob): seq<byte> {
    Flatten(b.parts)
  }

  /** Laying out two runs of parts one after the other gives their bytes one after the other. */
  lemma {:induction false} FlattenAppend(a: seq<Chunk>, b: seq<Chunk>)
    ensures Flatten(a + b) == Flatten(a) + Flatten(b)
  {
    if a == [] {
      assert a + b == b;
    } else {
      assert (a + b)[1..] == a[1..] + b;
      FlattenAppend(a[1..], b);
    }
  }

  /** An object URL made by `URL.createObjectURL`; opaque to the controller. */
  datatype Handle = Handle(id: nat)
}
