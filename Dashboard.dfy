/**
 * The session view (src/components/Dashboard.tsx): the notification built from the media
 * hook's error and the view's own toast, the copy-join-code handler, the code-editor panel
 * and the participant list, plus which controls an event's admin flag unlocks.
 */
module Dashboard {
  import opened Types
  import App
  import EventForm
  import UseMedia

  datatype ToastType = ErrorToast | SuccessToast | InfoToast

  /** The view's `toast` state cell, and what the notification shows. */
  datatype ToastMessage = ToastMessage(message: string, kind: ToastType)

  /** One submit of the create form: the field values, the two UUIDs `handleSubmit` draws
      (event id, join code) and the one `handleEventCreate` draws (user id). */
  datatype Submit = Submit(
    title: string, description: string, date: string,
    eventId: string, codeUuid: string, userId: string)

  const CopiedMessage: string := "Join code copied to clipboard!"
  const InitialCode: string := "// Start coding here"

  /** The notification rendered at the bottom of the view, if any: shown when `error || toast`
      is truthy, with message `error || toast?.message || ''` and type
      `error ? 'error' : (toast?.type || 'info')`. */
  function Notification(error: Option<string>, toast: Option<ToastMessage>): (n: Option<ToastMessage>)
    ensures n.Some? <==> Truthy(error) || toast.Some?
    ensures Truthy(error) ==> n == Some(ToastMessage(error.value, ErrorToast))
    ensures !Truthy(error) && toast.Some? ==> n == toast
  {
    if Truthy(error) || toast.Some? then
      Some(ToastMessage(
        if Truthy(error) then error.value
        else if toast.Some? && toast.value.message != "" then toast.value.message
        else "",
        if Truthy(error) then ErrorToast
        else if toast.Some? then toast.value.kind
        else InfoToast))
    else None
  }

  /** With the hook's invariant (its error is one of three non-empty messages), a notification
      is shown exactly when there is an error or a toast, and an error always wins. */
  lemma NotificationPrecedence(media: UseMedia.MediaState, toast: Option<ToastMessage>)
    requires UseMedia.Inv(media)
    ensures Notification(media.error, toast).Some? <==> media.error.Some? || toast.Some?
    ensures media.error.Some? ==> Notification(media.error, toast).value.kind == ErrorToast
    ensures media.error.None? && toast.Some? ==> Notification(media.error, toast) == toast
  {
  }

  /** `copyJoinCode`: the toast after the click. Nothing happens when the event's join code
      is absent or empty. */
  function CopiedJoinCode(event: Event, toast: Option<ToastMessage>): (r: Option<ToastMessage>)
    ensures Truthy(event.joinCode) ==> r == Some(ToastMessage(CopiedMessage, SuccessToast))
    ensures !Truthy(event.joinCode) ==> r == toast
  {
    if Truthy(event.joinCode) then Some(ToastMessage(CopiedMessage, SuccessToast)) else toast
  }

  /** The editor's `onChange`: `value || ''`, where Monaco may pass `undefined`. */
  function EditedCode(value: Option<string>): (code: string)
    ensures value.None? ==> code == ""
    ensures value.Some? ==> code == value.value
  {
    if Truthy(value) then value.value else ""
  }

  /** The copy-join-code button is rendered (`event.isAdmin && event.joinCode`). */
  predicate ShowsCopyButton(event: Event)
    ensures ShowsCopyButton(event) ==> ShowsScreenShareControl(event) && event.joinCode.Some?
  {
    event.isAdmin && Truthy(event.joinCode)
  }

  /** The screen-share control is rendered: `MediaControls` gets `isAdmin={event.isAdmin}`. */
  predicate ShowsScreenShareControl(event: Event) {
    event.isAdmin
  }

  /** When every event was made by the create form, a user who joins with a known code is
      not an admin, yet the session view still gives them the admin-only controls, since
      they are gated on the event's flag rather than the user's. */
  lemma JoinerGetsAdminControls(
    forms: seq<Submit>,
    data: JoinFormData, userId: string)
    requires exists k :: 0 <= k < |forms| && EventForm.JoinCodeFrom(forms[k].codeUuid) == data.joinCode
    ensures JoinedAfterCreates(forms, data, userId).currentUser == Some(User(userId, data.name, false))
    ensures JoinedAfterCreates(forms, data, userId).selectedEvent.Some?
    ensures ShowsScreenShareControl(JoinedAfterCreates(forms, data, userId).selectedEvent.value)
    ensures data.joinCode != "" ==> ShowsCopyButton(JoinedAfterCreates(forms, data, userId).selectedEvent.value)
  {
    var steps := CreateSteps(forms);
    App.Reachable(steps);
    CreateStepsEvents(forms);
    var events := App.Run(App.Init(), steps).events;
    assert events == App.CreatedEvents(steps);
    var k :| 0 <= k < |forms| && EventForm.JoinCodeFrom(forms[k].codeUuid) == data.joinCode;
    assert events[k].joinCode == Some(data.joinCode);
    var i := App.FindByJoinCode(events, data.joinCode).value;
    assert events[i].isAdmin;
  }

  /** The root view's state after the given create-form submits and then one join. */
  function JoinedAfterCreates(
    forms: seq<Submit>,
    data: JoinFormData, userId: string): App.AppState
  {
    App.Join(App.Run(App.Init(), CreateSteps(forms)), data, userId)
  }

  /** One create-form submit per entry, each followed by `handleEventCreate`. */
  function CreateSteps(forms: seq<Submit>): (steps: seq<App.Step>)
    decreases |forms|
  {
    if |forms| == 0 then []
    else
      var f := forms[0];
      [App.CreateEvent(EventForm.NewEvent(f.title, f.description, f.date, f.eventId, f.codeUuid), f.userId)]
        + CreateSteps(forms[1..])
  }

  lemma {:induction false} CreateStepsEvents(forms: seq<Submit>)
    ensures |App.CreatedEvents(CreateSteps(forms))| == |forms|
    ensures forall k :: 0 <= k < |forms| ==>
      && App.CreatedEvents(CreateSteps(forms))[k].isAdmin
      && App.CreatedEvents(CreateSteps(forms))[k].joinCode == Some(EventForm.JoinCodeFrom(forms[k].codeUuid))
    decreases |forms|
  {
    if |forms| > 0 {
      CreateStepsEvents(forms[1..]);
    }
  }

  /** The session view's state cells. `participants` has no setter, so it stays the
      one-element list it was initialised with. */
  class DashboardComponent {
    const event: Event
    const currentUser: User
    const participants: seq<User>
    const media: UseMedia.MediaHook
    var isCompilerOpen: bool
    var code: string
    var toast: Option<ToastMessage>

    constructor (event: Event, currentUser: User)
      ensures this.event == event && this.currentUser == currentUser
      ensures participants == [currentUser]
      ensures !isCompilerOpen && code == InitialCode && toast.None?
      ensures fresh(media) && media.State() == UseMedia.Init() && media.Valid()
    {
      this.event := event;
      this.currentUser := currentUser;
      participants := [currentUser];
      media := new UseMedia.MediaHook();
      isCompilerOpen := false;
      code := InitialCode;
      toast := None;
    }

    /** The notification currently shown: one is up exactly when the hook has a non-empty
        error or the view has a toast, and the hook's error wins. */
    function Shown(): (n: Option<ToastMessage>)
      reads this, media
      ensures n.Some? <==> Truthy(media.error) || toast.Some?
      ensures Truthy(media.error) ==> n.value.kind == ErrorToast
    {
      Notification(media.error, toast)
    }

    method CopyJoinCode()
      modifies this`toast
      ensures toast == CopiedJoinCode(event, old(toast))
    {
      if Truthy(event.joinCode) {
        toast := Some(ToastMessage(CopiedMessage, SuccessToast));
      }
    }

    /** The notification's `onClose`: clear the hook's error, then the toast. */
    method CloseNotification()
      requires media.Valid()
      modifies this`toast, media`error
      ensures toast.None?
      ensures media.State() == UseMedia.ErrorCleared(old(media.State()))
      ensures Shown().None? && media.Valid()
    {
      media.ClearError();
      toast := None;
    }

    /** The compiler panel's toggle button. */
    method ToggleCompiler()
      modifies this`isCompilerOpen
      ensures isCompilerOpen == !old(isCompilerOpen)
    {
      isCompilerOpen := !isCompilerOpen;
    }

    /** The editor's `onChange`. */
    method EditorChange(value: Option<string>)
      modifies this`code
      ensures code == EditedCode(value)
    {
      code := if Truthy(value) then value.value else "";
    }
  }
}
