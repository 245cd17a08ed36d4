/**
 * The media hook (src/hooks/useMedia.ts): three on/off flags, an error message and two
 * stream slots (`streamRef` for camera and microphone, `screenStreamRef` for the shared
 * screen). Each browser capture call is an input (`Capture`), whether a `<video>`
 * element is attached to its ref is an input, and `track.stop()` marks a track not live.
 */
module UseMedia {
  import opened Types

  datatype Kind = Audio | Video

  /** A media track; `live` is false once it has been stopped or has ended. */
  datatype Track = Track(kind: Kind, live: bool)

  datatype Stream = Stream(tracks: seq<Track>)

  /** What `getUserMedia` or `getDisplayMedia` does: resolve with a stream, or reject. */
  datatype Capture = Granted(stream: Stream) | Denied

  /** Which tracks a `forEach(track => track.stop())` walks: `getTracks()` or `getAudioTracks()`. */
  datatype TrackFilter = AllTracks | AudioTracks

  const CameraError: string := "Failed to access camera"
  const MicrophoneError: string := "Failed to access microphone"
  const ScreenError: string := "Failed to share screen"

  predicate Selects(f: TrackFilter, t: Track) {
    f == AllTracks || t.kind == Audio
  }

  /** The stream after every track the filter selects has been stopped. */
  function TracksStopped(s: Stream, f: TrackFilter): (r: Stream)
    ensures |r.tracks| == |s.tracks|
    ensures forall i :: 0 <= i < |s.tracks| ==> r.tracks[i].kind == s.tracks[i].kind
    ensures forall i :: 0 <= i < |s.tracks| ==> Selects(f, s.tracks[i]) ==> !r.tracks[i].live
    ensures forall i :: 0 <= i < |s.tracks| ==> !Selects(f, s.tracks[i]) ==> r.tracks[i] == s.tracks[i]
  {
    Stream(seq(|s.tracks|, i requires 0 <= i < |s.tracks| =>
      if Selects(f, s.tracks[i]) then s.tracks[i].(live := false) else s.tracks[i]))
  }

  /** `stream.getTracks().forEach(track => track.stop())` (or `getAudioTracks()`). */
  method StopTracks(s: Stream, f: TrackFilter) returns (r: Stream)
    ensures r == TracksStopped(s, f)
  {
    var tracks := s.tracks;
    var i := 0;
    while i < |tracks|
      invariant 0 <= i <= |tracks| == |s.tracks|
      invariant forall k :: 0 <= k < i ==> tracks[k] == TracksStopped(s, f).tracks[k]
      invariant forall k :: i <= k < |tracks| ==> tracks[k] == s.tracks[k]
    {
      if Selects(f, tracks[i]) {
        tracks := tracks[i := tracks[i].(live := false)];
      }
      i := i + 1;
    }
    r := Stream(tracks);
  }

  /** `stream.getVideoTracks()[0]`, as an index into the stream's tracks. */
  function FirstVideoTrack(s: Stream): (r: Option<nat>)
    ensures r.Some? ==> r.value < |s.tracks| && s.tracks[r.value].kind == Video
    ensures r.Some? ==> forall j :: 0 <= j < r.value ==> s.tracks[j].kind != Video
    ensures r.None? <==> forall j :: 0 <= j < |s.tracks| ==> s.tracks[j].kind != Video
    decreases |s.tracks|
  {
    if |s.tracks| == 0 then None
    else if s.tracks[0].kind == Video then Some(0)
    else
      match FirstVideoTrack(Stream(s.tracks[1..]))
      case None => None
      case Some(i) => Some(i + 1)
  }

  /** Only the kinds of the tracks decide which one is the first video track. */
  lemma FirstVideoTrackByKinds(a: Stream, b: Stream)
    requires |a.tracks| == |b.tracks|
    requires forall j :: 0 <= j < |a.tracks| ==> a.tracks[j].kind == b.tracks[j].kind
    ensures FirstVideoTrack(a) == FirstVideoTrack(b)
  {
  }

  predicate HasVideoTrack(s: Stream) {
    FirstVideoTrack(s).Some?
  }

  /** Stop the selected tracks of the stream a ref holds, if it holds one. */
  function StopSlot(slot: Option<Stream>, f: TrackFilter): Option<Stream> {
    match slot
    case None => None
    case Some(st) => Some(TracksStopped(st, f))
  }

  predicate NoLiveTrack(slot: Option<Stream>) {
    slot.Some? ==> forall i :: 0 <= i < |slot.value.tracks| ==> !slot.value.tracks[i].live
  }

  /** Everything the hook holds between handler calls. */
  datatype MediaState = MediaState(
    isVideoOn: bool,
    isAudioOn: bool,
    isScreenSharing: bool,
    error: Option<string>,
    stream: Option<Stream>,
    screenStream: Option<Stream>)

  predicate KnownError(e: string) {
    e == CameraError || e == MicrophoneError || e == ScreenError
  }

  /** What every handler keeps: a flag is on only while its ref holds a stream, and the
      error is absent or one of the three messages. */
  predicate Inv(s: MediaState) {
    && (s.isVideoOn ==> s.stream.Some?)
    && (s.isAudioOn ==> s.stream.Some?)
    && (s.isScreenSharing ==> s.screenStream.Some?)
    && (s.error.Some? ==> KnownError(s.error.value))
  }

  function Init(): (s: MediaState)
    ensures !s.isVideoOn && !s.isAudioOn && !s.isScreenSharing && s.error.None?
    ensures s.stream.None? && s.screenStream.None?
    ensures Inv(s)
  {
    MediaState(false, false, false, None, None, None)
  }

  /** `clearError`. */
  function ErrorCleared(s: MediaState): (r: MediaState)
    ensures r.error.None?
    ensures r.isVideoOn == s.isVideoOn && r.isAudioOn == s.isAudioOn && r.isScreenSharing == s.isScreenSharing
    ensures r.stream == s.stream && r.screenStream == s.screenStream
    ensures Inv(s) ==> Inv(r)
  {
    s.(error := None)
  }

  /** `toggleVideo`. The capture input is consulted only when the camera is off. Turning
      the camera off stops every track of BOTH slots but leaves `isScreenSharing` as it
      was; a granted capture turns the camera on only when the video element is attached. */
  function VideoToggled(s: MediaState, camera: Capture, videoAttached: bool): (r: MediaState)
    ensures r.isAudioOn == s.isAudioOn && r.isScreenSharing == s.isScreenSharing
    ensures r.isVideoOn <==> !s.isVideoOn && camera.Granted? && videoAttached
    ensures r.error == if !s.isVideoOn && camera.Denied? then Some(CameraError) else s.error
    ensures s.isVideoOn ==> r.stream == StopSlot(s.stream, AllTracks)
    ensures s.isVideoOn ==> r.screenStream == StopSlot(s.screenStream, AllTracks)
    ensures !s.isVideoOn ==> r.screenStream == s.screenStream
    ensures !s.isVideoOn ==> r.stream == if r.isVideoOn then Some(camera.stream) else s.stream
    ensures Inv(s) ==> Inv(r)
  {
    if s.isVideoOn then
      s.(stream := StopSlot(s.stream, AllTracks), screenStream := StopSlot(s.screenStream, AllTracks),
         isVideoOn := false)
    else
      match camera
      case Denied => s.(error := Some(CameraError))
      case Granted(st) => if videoAttached then s.(stream := Some(st), isVideoOn := true) else s
  }

  /** `toggleAudio`. Turning the microphone off stops only the audio tracks of
      `streamRef`; turning it on stores the new stream in that same slot, replacing
      whatever camera stream was there. */
  function AudioToggled(s: MediaState, microphone: Capture): (r: MediaState)
    ensures r.isVideoOn == s.isVideoOn && r.isScreenSharing == s.isScreenSharing
    ensures r.screenStream == s.screenStream
    ensures r.isAudioOn <==> !s.isAudioOn && microphone.Granted?
    ensures r.error == if !s.isAudioOn && microphone.Denied? then Some(MicrophoneError) else s.error
    ensures s.isAudioOn ==> r.stream == StopSlot(s.stream, AudioTracks)
    ensures !s.isAudioOn ==> r.stream == if r.isAudioOn then Some(microphone.stream) else s.stream
    ensures Inv(s) ==> Inv(r)
  {
    if s.isAudioOn then
      s.(stream := StopSlot(s.stream, AudioTracks), isAudioOn := false)
    else
      match microphone
      case Denied => s.(error := Some(MicrophoneError))
      case Granted(st) => s.(stream := Some(st), isAudioOn := true)
  }

  /** `toggleScreenShare`. A granted capture is kept only when the screen element is
      attached. Installing the `onended` handler on `getVideoTracks()[0]` throws when the
      stream has no video track; the catch then records the error although sharing was
      already switched on. */
  function ScreenShareToggled(s: MediaState, display: Capture, screenAttached: bool): (r: MediaState)
    ensures r.isVideoOn == s.isVideoOn && r.isAudioOn == s.isAudioOn && r.stream == s.stream
    ensures r.isScreenSharing <==> !s.isScreenSharing && display.Granted? && screenAttached
    ensures r.error ==
      if !s.isScreenSharing && (display.Denied? || (screenAttached && !HasVideoTrack(display.stream)))
      then Some(ScreenError) else s.error
    ensures s.isScreenSharing ==> r.screenStream == StopSlot(s.screenStream, AllTracks)
    ensures !s.isScreenSharing ==> r.screenStream == if r.isScreenSharing then Some(display.stream) else s.screenStream
    ensures Inv(s) ==> Inv(r)
  {
    if s.isScreenSharing then
      s.(screenStream := StopSlot(s.screenStream, AllTracks), isScreenSharing := false)
    else
      match display
      case Denied => s.(error := Some(ScreenError))
      case Granted(st) =>
        if !screenAttached then s
        else
          var shared := s.(screenStream := Some(st), isScreenSharing := true);
          if HasVideoTrack(st) then shared else shared.(error := Some(ScreenError))
  }

  /** The `onended` handler can fire: the shared stream's first video track, which carries
      it, is still live (a stopped track never fires `ended`). */
  predicate EndedHandlerArmed(s: MediaState) {
    && s.screenStream.Some?
    && HasVideoTrack(s.screenStream.value)
    && s.screenStream.value.tracks[FirstVideoTrack(s.screenStream.value).value].live
  }

  /** `after` is `before` with track `i` ended and every other track as it was. */
  predicate TrackEnded(before: Stream, after: Stream, i: nat) {
    && i < |before.tracks| == |after.tracks|
    && after.tracks[i] == before.tracks[i].(live := false)
    && forall j :: 0 <= j < |before.tracks| && j != i ==> after.tracks[j] == before.tracks[j]
  }

  /** The browser ends the shared screen's video track (the user stops sharing from the
      browser's own control); the handler clears `isScreenSharing`. */
  function ScreenTrackEnded(s: MediaState): (r: MediaState)
    ensures r.isVideoOn == s.isVideoOn && r.isAudioOn == s.isAudioOn
    ensures r.error == s.error && r.stream == s.stream
    ensures EndedHandlerArmed(s) ==> !r.isScreenSharing && !EndedHandlerArmed(r)
    ensures EndedHandlerArmed(s) ==>
      r.screenStream.Some? && TrackEnded(s.screenStream.value, r.screenStream.value, FirstVideoTrack(s.screenStream.value).value)
    ensures !EndedHandlerArmed(s) ==> r == s
    ensures Inv(s) ==> Inv(r)
  {
    if EndedHandlerArmed(s) then
      var st := s.screenStream.value;
      var i := FirstVideoTrack(st).value;
      var ended := Stream(st.tracks[i := st.tracks[i].(live := false)]);
      FirstVideoTrackByKinds(st, ended);
      s.(screenStream := Some(ended), isScreenSharing := false)
    else s
  }

  /** Turning the camera off while the screen is shared ends the screen's tracks too, yet
      the hook still reports that the screen is being shared. */
  lemma VideoOffEndsScreenShare(s: MediaState, camera: Capture, videoAttached: bool)
    requires s.isVideoOn && s.isScreenSharing
    ensures var r := VideoToggled(s, camera, videoAttached);
      !r.isVideoOn && r.isScreenSharing && NoLiveTrack(r.stream) && NoLiveTrack(r.screenStream)
  {
  }

  /** Turning the microphone on while the camera is on puts the microphone stream in the
      camera's slot; turning the camera off afterwards stops the microphone stream, and the
      camera stream is no longer reachable from the hook. */
  lemma AudioOnReplacesCameraStream(s: MediaState, mic: Stream, camera: Capture, videoAttached: bool)
    requires s.isVideoOn && !s.isAudioOn
    ensures AudioToggled(s, Granted(mic)).isVideoOn
    ensures AudioToggled(s, Granted(mic)).stream == Some(mic)
    ensures VideoToggled(AudioToggled(s, Granted(mic)), camera, videoAttached).stream == Some(TracksStopped(mic, AllTracks))
  {
  }

  /** Turning the camera off while the microphone stream sits in the shared slot stops the
      microphone's tracks too, yet the hook still reports the microphone as on. */
  lemma VideoOffStopsMicrophone(s: MediaState, mic: Stream, camera: Capture, videoAttached: bool)
    requires s.isVideoOn && s.isAudioOn && s.stream == Some(mic)
    ensures VideoToggled(s, camera, videoAttached).isAudioOn
    ensures NoLiveTrack(VideoToggled(s, camera, videoAttached).stream)
  {
  }

  /** Turning the camera on after the microphone puts the camera stream in the shared slot;
      turning the microphone off afterwards stops only that stream's audio tracks, so the
      microphone stream is never stopped although `isAudioOn` becomes false. */
  lemma CameraOnReplacesMicrophoneStream(s: MediaState, cam: Stream, mic: Capture)
    requires !s.isVideoOn && s.isAudioOn
    ensures VideoToggled(s, Granted(cam), true).stream == Some(cam)
    ensures AudioToggled(VideoToggled(s, Granted(cam), true), mic).stream == Some(TracksStopped(cam, AudioTracks))
    ensures !AudioToggled(VideoToggled(s, Granted(cam), true), mic).isAudioOn
  {
  }

  /** A shared stream without a video track turns sharing on and reports the error at once. */
  lemma ScreenShareWithoutVideoTrack(s: MediaState, st: Stream)
    requires !s.isScreenSharing
    requires forall j :: 0 <= j < |st.tracks| ==> st.tracks[j].kind != Video
    ensures ScreenShareToggled(s, Granted(st), true).isScreenSharing
    ensures ScreenShareToggled(s, Granted(st), true).error == Some(ScreenError)
  {
  }

  /** One call into the hook. */
  datatype MediaStep =
    | ToggleVideoStep(camera: Capture, videoAttached: bool)
    | ToggleAudioStep(microphone: Capture)
    | ToggleScreenShareStep(display: Capture, screenAttached: bool)
    | ScreenTrackEndStep
    | ClearErrorStep

  function Apply(s: MediaState, step: MediaStep): MediaState {
    match step
    case ToggleVideoStep(c, a) => VideoToggled(s, c, a)
    case ToggleAudioStep(c) => AudioToggled(s, c)
    case ToggleScreenShareStep(c, a) => ScreenShareToggled(s, c, a)
    case ScreenTrackEndStep => ScreenTrackEnded(s)
    case ClearErrorStep => ErrorCleared(s)
  }

  function Run(s: MediaState, steps: seq<MediaStep>): MediaState
    decreases |steps|
  {
    if |steps| == 0 then s else Run(Apply(s, steps[0]), steps[1..])
  }

  /** Every sequence of calls keeps the invariant. */
  lemma {:induction false} RunKeepsInv(s: MediaState, steps: seq<MediaStep>)
    requires Inv(s)
    ensures Inv(Run(s, steps))
    decreases |steps|
  {
    if |steps| > 0 {
      RunKeepsInv(Apply(s, steps[0]), steps[1..]);
    }
  }

  /** A flag is on only while its slot holds a stream, from the first render onwards;
      the only error ever shown is one of the three messages. */
  lemma ReachableInv(steps: seq<MediaStep>)
    ensures Inv(Run(Init(), steps))
  {
    RunKeepsInv(Init(), steps);
  }

  /** The hook instance: the state cells and the two mutable refs are fields. */
  class MediaHook {
    var isVideoOn: bool
    var isAudioOn: bool
    var isScreenSharing: bool
    var error: Option<string>
    var stream: Option<Stream>
    var screenStream: Option<Stream>

    function State(): MediaState
      reads this
    {
      MediaState(isVideoOn, isAudioOn, isScreenSharing, error, stream, screenStream)
    }

    predicate Valid()
      reads this
    {
      Inv(State())
    }

    constructor ()
      ensures State() == Init() && Valid()
    {
      isVideoOn, isAudioOn, isScreenSharing := false, false, false;
      error := None;
      stream, screenStream := None, None;
    }

    method ClearError()
      requires Valid()
      modifies this`error
      ensures State() == ErrorCleared(old(State()))
      ensures Valid()
    {
      error := None;
    }

    /** `stopMediaTracks`: stop every track of both slots. */
    method StopMediaTracks()
      modifies this`stream, this`screenStream
      ensures stream == StopSlot(old(stream), AllTracks)
      ensures screenStream == StopSlot(old(screenStream), AllTracks)
    {
      if stream.Some? {
        var st := StopTracks(stream.value, AllTracks);
        stream := Some(st);
      }
      if screenStream.Some? {
        var st := StopTracks(screenStream.value, AllTracks);
        screenStream := Some(st);
      }
    }

    method ToggleVideo(camera: Capture, videoAttached: bool)
      requires Valid()
      modifies this
      ensures State() == VideoToggled(old(State()), camera, videoAttached)
      ensures Valid()
    {
      if isVideoOn {
        StopMediaTracks();
        isVideoOn := false;
        return;
      }
      match camera
      case Denied =>
        error := Some(CameraError);
      case Granted(st) =>
        if videoAttached {
          stream := Some(st);
          isVideoOn := true;
        }
    }

    method ToggleAudio(microphone: Capture)
      requires Valid()
      modifies this
      ensures State() == AudioToggled(old(State()), microphone)
      ensures Valid()
    {
      if isAudioOn {
        if stream.Some? {
          var st := StopTracks(stream.value, AudioTracks);
          stream := Some(st);
        }
        isAudioOn := false;
        return;
      }
      match microphone
      case Denied =>
        error := Some(MicrophoneError);
      case Granted(st) =>
        stream := Some(st);
        isAudioOn := true;
    }

    method ToggleScreenShare(display: Capture, screenAttached: bool)
      requires Valid()
      modifies this
      ensures State() == ScreenShareToggled(old(State()), display, screenAttached)
      ensures Valid()
    {
      if isScreenSharing {
        if screenStream.Some? {
          var st := StopTracks(screenStream.value, AllTracks);
          screenStream := Some(st);
        }
        isScreenSharing := false;
        return;
      }
      match display
      case Denied =>
        error := Some(ScreenError);
      case Granted(st) =>
        if screenAttached {
          screenStream := Some(st);
          isScreenSharing := true;
          var first := FirstVideoTrack(st);
          if first.None? {
            error := Some(ScreenError);
          }
        }
    }

    /** The `onended` handler, when the browser ends the shared video track. */
    method OnScreenTrackEnded()
      requires Valid()
      modifies this
      ensures State() == ScreenTrackEnded(old(State()))
      ensures Valid()
    {
      if EndedHandlerArmed(State()) {
        var st := screenStream.value;
        var i := FirstVideoTrack(st).value;
        screenStream := Some(Stream(st.tracks[i := st.tracks[i].(live := false)]));
        isScreenSharing := false;
      }
    }
  }
}
