/**
 * The floating "Quick Report" modal of the user front end, as a state
 * machine: its React state variables become fields, its event handlers
 * become methods.
 *
 * The browser is not part of this model. The camera grant (how many
 * tracks the browser hands over, or a refusal), whether the preview has a
 * frame to draw, and the recorder's data events are inputs. Device tracks
 * and object URLs are opaque tokens, numbered in creation order so that a
 * new one differs from every earlier one.
 */
module ReportModal {
  import opened Wrappers

  /** A device track (camera or microphone) of a media stream. */
  type TrackId = nat

  /** A live capture stream and its tracks. */
  datatype MediaStream = MediaStream(tracks: seq<TrackId>)

  /** A piece of recorded media delivered by the recorder. */
  datatype Chunk = Chunk(data: nat, size: nat)

  /** The content behind an object URL. */
  datatype Blob = JpegFrame | WebmVideo(chunks: seq<Chunk>)

  /** An object URL: the `serial`-th one created, standing for `blob`. */
  datatype ObjectUrl = ObjectUrl(serial: nat, blob: Blob)

  /** The `n` tracks of a new stream, numbered from `first`. */
  function FreshTracks(first: nat, n: nat): seq<TrackId>
  {
    seq(n, k requires 0 <= k < n => first + k)
  }

  /** The tracks of a stream, none for no stream. */
  function TracksOf(stream: Option<MediaStream>): set<TrackId>
  {
    match stream
    case Some(s) => set t | t in s.tracks
    case None => {}
  }

  class FloatingReportModal {
    var isOpen: bool
    var capturedImage: Option<ObjectUrl>
    var capturedVideo: Option<ObjectUrl>
    var stream: Option<MediaStream>
    var recording: bool
    var recordedChunks: seq<Chunk>
    /** Whether `mediaRecorderRef.current` holds a recorder. */
    var hasRecorder: bool
    /** Device tracks handed to this modal and not stopped yet. */
    var liveTracks: set<TrackId>
    /** How many object URLs this modal has created. */
    var urlsCreated: nat
    /** How many device tracks the browser has handed to this modal. */
    var tracksCreated: nat

    /** At most one of photo and video is held; each held URL was created
        here and stands for the right kind of content; only non-empty
        chunks are kept; the held stream's tracks are live, and every live
        track was handed over here. */
    ghost predicate Valid()
      reads this
    {
      && TracksOf(stream) <= liveTracks
      && (forall t :: t in liveTracks ==> t < tracksCreated)
      && !(capturedImage.Some? && capturedVideo.Some?)
      && (capturedImage.Some? ==> capturedImage.value.serial < urlsCreated && capturedImage.value.blob == JpegFrame)
      && (capturedVideo.Some? ==> capturedVideo.value.serial < urlsCreated && capturedVideo.value.blob.WebmVideo?)
      && (forall k :: 0 <= k < |recordedChunks| ==> recordedChunks[k].size > 0)
    }

    /** The initial state: closed, nothing captured, no stream, not recording. */
    constructor ()
      ensures Valid()
      ensures !isOpen && capturedImage == None && capturedVideo == None && stream == None
      ensures !recording && recordedChunks == [] && !hasRecorder
      ensures liveTracks == {} && urlsCreated == 0 && tracksCreated == 0
    {
      isOpen := false;
      capturedImage := None;
      capturedVideo := None;
      stream := None;
      recording := false;
      recordedChunks := [];
      hasRecorder := false;
      liveTracks := {};
      urlsCreated := 0;
      tracksCreated := 0;
    }

    /** Asks for the camera. `grant` is the number of tracks the browser
        hands over in a new stream, or None when access is refused, in which
        case nothing changes. A stream already held is replaced without
        being stopped: its tracks stay live and are not the new stream's. */
    method StartCamera(grant: Option<nat>)
      requires Valid()
      modifies this`stream, this`liveTracks, this`tracksCreated
      ensures Valid()
      ensures grant.Some? ==>
                stream == Some(MediaStream(FreshTracks(old(tracksCreated), grant.value)))
                && tracksCreated == old(tracksCreated) + grant.value
                && liveTracks == old(liveTracks) + TracksOf(stream)
      ensures grant.Some? ==> TracksOf(stream) !! old(liveTracks)
      ensures grant.Some? ==> TracksOf(old(stream)) <= liveTracks && TracksOf(old(stream)) !! TracksOf(stream)
      ensures grant.None? ==>
                stream == old(stream) && liveTracks == old(liveTracks) && tracksCreated == old(tracksCreated)
    {
      if grant.Some? {
        stream := Some(MediaStream(FreshTracks(tracksCreated, grant.value)));
        tracksCreated := tracksCreated + grant.value;
        liveTracks := liveTracks + TracksOf(stream);
      }
    }

    /** Stops every track of the current stream and drops it; without a
        stream it does nothing, so a second call changes nothing. */
    method StopCamera()
      requires Valid()
      modifies this`stream, this`liveTracks
      ensures Valid()
      ensures stream == None
      ensures liveTracks == old(liveTracks) - TracksOf(old(stream))
      ensures old(stream) == None ==> liveTracks == old(liveTracks)
    {
      if stream.Some? {
        var tracks := stream.value.tracks;
        var i := 0;
        while i < |tracks|
          invariant 0 <= i <= |tracks|
          invariant liveTracks == old(liveTracks) - set t | t in tracks[..i]
        {
          assert tracks[..i + 1] == tracks[..i] + [tracks[i]];
          liveTracks := liveTracks - {tracks[i]};
          i := i + 1;
        }
        assert tracks[..i] == tracks;
        stream := None;
      }
    }

    /** Takes a still from the preview. Ignored while recording. When the
        preview has no frame (`frameReady` false: no stream yet), the canvas
        is empty, no blob is produced and nothing changes; otherwise the
        photo becomes a new URL and any video is dropped. */
    method CapturePhoto(frameReady: bool)
      requires Valid()
      modifies this`capturedImage, this`capturedVideo, this`urlsCreated
      ensures Valid()
      ensures old(recording) || !frameReady ==>
                capturedImage == old(capturedImage) && capturedVideo == old(capturedVideo)
                && urlsCreated == old(urlsCreated)
      ensures !old(recording) && frameReady ==>
                capturedImage == Some(ObjectUrl(old(urlsCreated), JpegFrame)) && capturedVideo == None
                && urlsCreated == old(urlsCreated) + 1
    {
      if recording {
        return;
      }
      if frameReady {
        capturedImage := Some(ObjectUrl(urlsCreated, JpegFrame));
        urlsCreated := urlsCreated + 1;
        capturedVideo := None;
      }
    }

    /** Starts recording, unless a photo is held. `recording` is set before
        the recorder is built; without a stream building it fails, so no
        recorder is stored. Captures and chunks are left alone. */
    method StartRecording()
      requires Valid()
      modifies this`recording, this`hasRecorder
      ensures Valid()
      ensures old(capturedImage).Some? ==> recording == old(recording) && hasRecorder == old(hasRecorder)
      ensures old(capturedImage).None? ==> recording && hasRecorder == (old(hasRecorder) || old(stream).Some?)
    {
      if capturedImage.Some? {
        return;
      }
      recording := true;
      if stream.Some? {
        hasRecorder := true;
      }
    }

    /** The recorder delivers a chunk; only a non-empty one is kept, after
        those already kept. */
    method ChunkAvailable(chunk: Chunk)
      requires Valid()
      requires hasRecorder
      modifies this`recordedChunks
      ensures Valid()
      ensures recordedChunks == if chunk.size > 0 then old(recordedChunks) + [chunk] else old(recordedChunks)
    {
      if chunk.size > 0 {
        recordedChunks := recordedChunks + [chunk];
      }
    }

    /** Stops the recorder and turns the chunks gathered so far into the
        video; drops any photo and empties the chunk list. Without a
        recorder the first step fails and nothing changes. */
    method StopRecording()
      requires Valid()
      modifies this`recording, this`capturedImage, this`capturedVideo, this`recordedChunks, this`urlsCreated
      ensures Valid()
      ensures !old(hasRecorder) ==>
                recording == old(recording) && capturedImage == old(capturedImage)
                && capturedVideo == old(capturedVideo) && recordedChunks == old(recordedChunks)
                && urlsCreated == old(urlsCreated)
      ensures old(hasRecorder) ==>
                !recording && capturedImage == None
                && capturedVideo == Some(ObjectUrl(old(urlsCreated), WebmVideo(old(recordedChunks))))
                && recordedChunks == [] && urlsCreated == old(urlsCreated) + 1
    {
      if !hasRecorder {
        return;
      }
      recording := false;
      capturedVideo := Some(ObjectUrl(urlsCreated, WebmVideo(recordedChunks)));
      urlsCreated := urlsCreated + 1;
      capturedImage := None;
      recordedChunks := [];
    }

    /** Submits: closes the modal, drops both captures and stops the camera.
        A recording in progress is not stopped. */
    method HandleSubmit()
      requires Valid()
      modifies this
      ensures Valid()
      ensures !isOpen && capturedImage == None && capturedVideo == None && stream == None
      ensures liveTracks == old(liveTracks) - TracksOf(old(stream))
      ensures old(liveTracks) <= TracksOf(old(stream)) ==> liveTracks == {}
      ensures recording == old(recording) && recordedChunks == old(recordedChunks)
      ensures hasRecorder == old(hasRecorder) && urlsCreated == old(urlsCreated)
      ensures tracksCreated == old(tracksCreated)
    {
      isOpen := false;
      capturedImage := None;
      capturedVideo := None;
      StopCamera();
    }

    /** Opens the modal and asks for the camera. */
    method OpenModal(grant: Option<nat>)
      requires Valid()
      modifies this`isOpen, this`stream, this`liveTracks, this`tracksCreated
      ensures Valid()
      ensures isOpen
      ensures grant.Some? ==>
                stream == Some(MediaStream(FreshTracks(old(tracksCreated), grant.value)))
                && tracksCreated == old(tracksCreated) + grant.value
                && liveTracks == old(liveTracks) + TracksOf(stream)
      ensures grant.Some? ==> TracksOf(stream) !! old(liveTracks)
      ensures grant.Some? ==> TracksOf(old(stream)) <= liveTracks && TracksOf(old(stream)) !! TracksOf(stream)
      ensures grant.None? ==>
                stream == old(stream) && liveTracks == old(liveTracks) && tracksCreated == old(tracksCreated)
    {
      isOpen := true;
      StartCamera(grant);
    }

    /** Closes the modal: stops the camera and drops both captures. */
    method CloseModal()
      requires Valid()
      modifies this
      ensures Valid()
      ensures !isOpen && capturedImage == None && capturedVideo == None && stream == None
      ensures liveTracks == old(liveTracks) - TracksOf(old(stream))
      ensures old(liveTracks) <= TracksOf(old(stream)) ==> liveTracks == {}
      ensures recording == old(recording) && recordedChunks == old(recordedChunks)
      ensures hasRecorder == old(hasRecorder) && urlsCreated == old(urlsCreated)
      ensures tracksCreated == old(tracksCreated)
    {
      isOpen := false;
      StopCamera();
      capturedImage := None;
      capturedVideo := None;
    }
  }
}
