# Event manager session model

A Dafny model of the state machines in a single-tab, browser-based event coordination UI.
A user creates an event, or joins a locally created one by its join code. They then enter
a session view with camera, microphone and screen-share toggles, a one-person
participant list and a code-editor panel. There is no server. Joining only searches the
tab's own list of events.

The model has one module per component:

- `Types` holds the shared records: `Event` (with an optional `joinCode`), `User` and
  `JoinFormData`. It also defines `Option` and JavaScript truthiness of an optional string.
- `App` models the root view. Its state value `AppState` has three cells: the list of
  events, the open event and the current user. The value has three transitions, create,
  join and leave, with the invariant `Consistent`. Traces of steps are covered by
  inductive lemmas. The class `AppComponent` holds the same cells as fields, and its
  handlers are proved equal to the transitions.
- `EventForm` models the create form: the record `handleSubmit` builds and a component
  class whose submit clears the three fields. The events handed to the `onEventCreate`
  callback are kept, in order, in the field `submitted`.
- `UseMedia` models the media hook. Its state is three flags, an error and two stream
  slots, with one transition per handler. The hook's quirks are stated as lemmas:
  - turning the camera off ends the screen share's tracks too;
  - turning the microphone on overwrites the camera's slot;
  - a shared stream without a video track both turns sharing on and records an error.

  `Inv` holds along every trace. The class `MediaHook` keeps the refs and state cells as
  fields. `StopTracks` is the per-track `forEach(track => track.stop())` loop.
- `Dashboard` models the session view. It covers:
  - which notification shows (an error wins over a toast);
  - copy-join-code;
  - the compiler toggle and the editor value;
  - the participant list, which never changes;
  - the admin-only controls, which are gated on the event's flag and not the user's.

Inputs the code gets from outside become parameters of the model:
- every `uuidv4()` result is a string parameter;
- each `getUserMedia`/`getDisplayMedia` call is a `Capture` (`Granted(stream)` or
  `Denied`);
- whether a `<video>` element is attached to `videoRef`/`screenRef` is a `bool`;
- `track.stop()` sets a track's `live` to false.

## Model

| member | source | states |
|---|---|---|
| `App.ShowsSession` | src/App.tsx:43 | the session view renders exactly when both the open event and the user are non-null |
| `App.Init` | src/App.tsx:10-12 | no user, no open event, empty list; the invariant holds and the landing view shows |
| `App.FindByJoinCode` | src/App.tsx:26 | the result is the first index, in list order, whose event has `joinCode` equal to the code entered; there is none exactly when no event has that code (an absent code never matches) |
| `App.Create` | src/App.tsx:14-23 | the list grows by one; earlier events are unchanged and in order; the new event is last and is the open one; the user is `{userId, 'Admin', isAdmin: true}`; the session view shows |
| `App.Join` | src/App.tsx:25-36 | the list is unchanged; a code matching no event changes no state at all; otherwise the first matching event is opened with a user `{userId, name entered, isAdmin: false}`; the invariant is preserved |
| `App.Leave` | src/App.tsx:38-41 | the list is unchanged; the open event and user are both cleared; the landing view shows |
| `App.SessionViewWhenSelected` | src/App.tsx:43 | under the invariant, the session view shows exactly when an event is open, and exactly when a user is set |
| `App.RunKeepsConsistent` | src/App.tsx:20-22 | along any sequence of create, join and leave, the open event and the user are set together, and the open event is in the list |
| `App.RunAppendsCreatedEvents` | src/App.tsx:21 | along any sequence of handler calls, the list is the old list followed by the created events in creation order; join and leave never change it |
| `App.Reachable` | src/App.tsx:10-41 | every state reachable from the initial one is consistent, and its list is exactly the created events |
| `App.AppComponent.constructor` | src/App.tsx:10-12 | the component starts in the initial state |
| `App.AppComponent.HandleEventCreate` | src/App.tsx:14-23 | the new field values are `Create` of the old ones; the invariant holds |
| `App.AppComponent.HandleJoin` | src/App.tsx:25-36 | the new field values are `Join` of the old ones; the invariant is kept |
| `App.AppComponent.HandleLeave` | src/App.tsx:38-41 | the new field values are `Leave` of the old ones; the invariant holds |
| `EventForm.JoinCodeFrom` | src/components/EventForm.tsx:23 | `slice(0, 8)`: a prefix of the UUID and at most 8 characters; exactly 8 when the UUID is at least that long; the whole UUID when shorter |
| `EventForm.NewEvent` | src/components/EventForm.tsx:17-24 | title, description and date are copied verbatim; `isAdmin` is true; the join code is present, is a prefix of the second UUID and is at most 8 characters long |
| `EventForm.EventFormComponent.constructor` | src/components/EventForm.tsx:11-13 | all three fields start empty; no event has been submitted |
| `EventForm.EventFormComponent.SetTitle` | src/components/EventForm.tsx:41 | the title field takes the input's value |
| `EventForm.EventFormComponent.SetDescription` | src/components/EventForm.tsx:53 | the description field takes the input's value |
| `EventForm.EventFormComponent.SetDate` | src/components/EventForm.tsx:67 | the date field takes the input's value |
| `EventForm.EventFormComponent.HandleSubmit` | src/components/EventForm.tsx:15-29 | the callback gets exactly one new event, built from the values before the reset; afterwards all three fields are empty |
| `UseMedia.TracksStopped` | src/hooks/useMedia.ts:18 | the stream keeps its tracks and their kinds; every selected track is no longer live; unselected tracks are untouched |
| `UseMedia.StopTracks` | src/hooks/useMedia.ts:18-21 | the `forEach` loop over the tracks gives exactly `TracksStopped` |
| `UseMedia.FirstVideoTrack` | src/hooks/useMedia.ts:81 | `getVideoTracks()[0]`: the first video track's index; there is none exactly when the stream has no video track |
| `UseMedia.Init` | src/hooks/useMedia.ts:4-12 | all three flags start false, the error starts null and both stream refs start null |
| `UseMedia.ErrorCleared` | src/hooks/useMedia.ts:14 | `clearError` sets the error to null and changes no flag and no stream slot |
| `UseMedia.VideoToggled` | src/hooks/useMedia.ts:25-43 | turning the camera off stops every track of both slots and clears `isVideoOn`, leaving `isScreenSharing` as it was; a granted capture turns the camera on, storing the stream, only when the video element is attached; a denied capture sets 'Failed to access camera' and changes no flag; `isAudioOn` is never changed, though the microphone's tracks are stopped when its stream is in the slot; the invariant is preserved |
| `UseMedia.AudioToggled` | src/hooks/useMedia.ts:45-63 | turning the microphone off stops only the audio tracks of the camera/microphone slot; a granted capture stores its stream in that slot, replacing what was there; a denied capture sets 'Failed to access microphone' and changes no flag; the video and screen flags are never touched |
| `UseMedia.ScreenShareToggled` | src/hooks/useMedia.ts:65-89 | turning sharing off stops the screen slot's tracks; a granted capture turns sharing on only when the screen element is attached; a denied capture, or a stream with no video track shared to an attached element, sets 'Failed to share screen'; the camera slot and the other flags are never touched |
| `UseMedia.ScreenTrackEnded` | src/hooks/useMedia.ts:81-83 | when the browser ends the shared video track that carries the handler, `isScreenSharing` becomes false and the screen slot keeps the same stream with only that track ended; otherwise nothing changes |
| `UseMedia.EndedHandlerArmed` | src/hooks/useMedia.ts:81 | the `onended` handler sits on the first video track of the stream in the screen slot, and that track is still live |
| `UseMedia.VideoOffEndsScreenShare` | src/hooks/useMedia.ts:16-30 | turning the camera off during a share leaves no live track in either slot, yet `isScreenSharing` stays true |
| `UseMedia.AudioOnReplacesCameraStream` | src/hooks/useMedia.ts:56-58 | with the camera on, turning the microphone on puts the microphone stream in the camera's slot; a later camera-off stops that stream, not the camera's |
| `UseMedia.VideoOffStopsMicrophone` | src/hooks/useMedia.ts:16-30 | with the microphone stream in the shared slot, turning the camera off stops the microphone's tracks while `isAudioOn` stays true |
| `UseMedia.CameraOnReplacesMicrophoneStream` | src/hooks/useMedia.ts:33-38 | turning the camera on after the microphone puts the camera stream in the shared slot; a later microphone-off stops only that stream's audio tracks and clears `isAudioOn` |
| `UseMedia.ScreenShareWithoutVideoTrack` | src/hooks/useMedia.ts:78-87 | sharing a stream with no video track turns sharing on and records 'Failed to share screen' in the same call |
| `UseMedia.RunKeepsInv` | src/hooks/useMedia.ts:14-89 | along any sequence of handler calls, each flag is on only while its slot holds a stream, and the error is null or one of the three messages |
| `UseMedia.ReachableInv` | src/hooks/useMedia.ts:4-89 | the invariant holds in every state reachable from the initial state |
| `UseMedia.MediaHook.constructor` | src/hooks/useMedia.ts:4-12 | the hook starts in the initial state, where the invariant holds |
| `UseMedia.MediaHook.ClearError` | src/hooks/useMedia.ts:14 | the new state is `ErrorCleared` of the old one; the invariant is kept |
| `UseMedia.MediaHook.StopMediaTracks` | src/hooks/useMedia.ts:16-23 | every track of both slots is stopped, where a slot holds a stream |
| `UseMedia.MediaHook.ToggleVideo` | src/hooks/useMedia.ts:25-43 | the new state is `VideoToggled` of the old one; the invariant is kept |
| `UseMedia.MediaHook.ToggleAudio` | src/hooks/useMedia.ts:45-63 | the new state is `AudioToggled` of the old one; the invariant is kept |
| `UseMedia.MediaHook.ToggleScreenShare` | src/hooks/useMedia.ts:65-89 | the new state is `ScreenShareToggled` of the old one; the invariant is kept |
| `UseMedia.MediaHook.OnScreenTrackEnded` | src/hooks/useMedia.ts:81-83 | the new state is `ScreenTrackEnded` of the old one; the invariant is kept |
| `Dashboard.Notification` | src/components/Dashboard.tsx:170-173 | a notification shows exactly when the error is truthy or a toast exists; a truthy error gives its message with type 'error', overriding any toast; otherwise the toast is shown as it is |
| `Dashboard.NotificationPrecedence` | src/components/Dashboard.tsx:170-173 | with the hook's invariant, a notification shows exactly when error or toast is non-null, and an error always gives type 'error' |
| `Dashboard.CopiedJoinCode` | src/components/Dashboard.tsx:34-39 | with a non-empty join code, the toast becomes the success toast 'Join code copied to clipboard!'; otherwise the toast is unchanged |
| `Dashboard.EditedCode` | src/components/Dashboard.tsx:157 | an undefined editor value stores ''; any string is stored as it is |
| `Dashboard.ShowsCopyButton` | src/components/Dashboard.tsx:49 | the copy button renders exactly when the event is an admin event with a non-empty join code, so wherever it shows, the screen-share control shows too |
| `Dashboard.ShowsScreenShareControl` | src/components/Dashboard.tsx:70 | the screen-share control renders exactly when the event, not the user, is an admin event |
| `Dashboard.JoinerGetsAdminControls` | src/components/Dashboard.tsx:49-70 | after a series of create-form events, a join with one of their codes opens an event as a non-admin user; that user still gets the screen-share control, and the copy button for a non-empty code, because both are gated on `event.isAdmin` |
| `Dashboard.CreateStepsEvents` | src/components/EventForm.tsx:22-23 | every event a series of create-form submits hands to the root view is an admin event carrying its join code |
| `Dashboard.DashboardComponent.constructor` | src/components/Dashboard.tsx:29-32 | the compiler starts closed; the code starts as '// Start coding here'; no toast; the participants are exactly `[currentUser]`, a constant with no setter; the media hook starts in its initial state, with its invariant |
| `Dashboard.DashboardComponent.Shown` | src/components/Dashboard.tsx:170-173 | a notification is on screen exactly when the hook has a non-empty error or the view has a toast; an error is shown as an error toast |
| `Dashboard.DashboardComponent.CopyJoinCode` | src/components/Dashboard.tsx:34-39 | the toast becomes `CopiedJoinCode` of the old one |
| `Dashboard.DashboardComponent.CloseNotification` | src/components/Dashboard.tsx:174-177 | both the hook's error and the toast are cleared, nothing else in the hook changes, and no notification shows; the hook's invariant is kept |
| `Dashboard.DashboardComponent.ToggleCompiler` | src/components/Dashboard.tsx:144 | `isCompilerOpen` is negated |
| `Dashboard.DashboardComponent.EditorChange` | src/components/Dashboard.tsx:157 | the code becomes `EditedCode` of the editor's value |

## Left out

- The JSX markup, CSS classes and icons, and MediaControls.tsx: they only render state. The one fact taken from them is that the screen-share control and the copy button depend on `event.isAdmin` (Dashboard.tsx:49, 70; MediaControls.tsx:43).
- Toast.tsx: the 5-second auto-close timer is time behaviour. It calls the same close handler that `CloseNotification` models. The colour tables are constant lookups.
- JoinForm.tsx: it only forwards `{name, joinCode}`, which is the input of `App.Join`.
- The browser's `required` validation on the form inputs is not modelled. `EventForm.EventFormComponent.HandleSubmit` accepts any field values, which covers every case the browser allows.
- `uuidv4()`: each result is a string parameter. UUID format and uniqueness are not modelled, and the code never checks them.
- `App.FindByJoinCode` returns the index of the event `find` would return rather than the event itself. `Join` opens the event at that index.
- Assigning `srcObject` to the `<video>` elements is not modelled. Streams are values, so the model cannot show that an element keeps showing a camera stream after the slot has been overwritten by the microphone stream. It shows only that the slot no longer holds the camera stream.
- A stream that leaves both slots, or never enters one, drops out of the model, so the hook's leaks of live devices are not represented as state. Three cases are affected:
  - a granted capture with a detached element is neither stored nor stopped (useMedia.ts:33-38, 75-84), yet its device stays live;
  - the camera stream overwritten by the microphone stream (useMedia.ts:57) is never stopped;
  - the microphone stream overwritten by the camera stream (useMedia.ts:36) is never stopped, so the microphone keeps capturing after `isAudioOn` becomes false.

  The lemmas `UseMedia.AudioOnReplacesCameraStream` and `UseMedia.CameraOnReplacesMicrophoneStream` show only which stream the slot holds and which one a later stop reaches.
- `navigator.clipboard.writeText`, `console.error` and the Monaco editor are outside the model. The editor is only the source of `EditorChange`'s value.
- Async/await interleaving and React re-render timing, including stale `useCallback` closures: each handler is one atomic step on the current state.
- The date formatting with `toLocaleDateString` depends on locale and time zone.
- `UseMedia.ScreenTrackEnded`: what the browser does to a track when it ends is modelled only for the track that carries the `onended` handler.
