/**
 * The create-event form (src/components/EventForm.tsx): three text fields and the
 * submit handler that builds an `Event`, hands it to `onEventCreate` and clears the form.
 * The two `uuidv4()` results a submit draws are parameters.
 */
module EventForm {
  import opened Types

  /** How many characters of a fresh UUID make a join code. */
  const JoinCodeLength: nat := 8

  /** `uuid.slice(0, 8)`: the first eight characters, or the whole string when shorter. */
  function JoinCodeFrom(uuid: string): (code: string)
    ensures |code| <= JoinCodeLength
    ensures code <= uuid
    ensures |uuid| >= JoinCodeLength ==> |code| == JoinCodeLength
    ensures |uuid| <= JoinCodeLength ==> code == uuid
  {
    if |uuid| <= JoinCodeLength then uuid else uuid[..JoinCodeLength]
  }

  /** The record `handleSubmit` builds from the field values at submit time. */
  function NewEvent(title: string, description: string, date: string, id: string, codeUuid: string): (e: Event)
    ensures e.id == id
    ensures e.title == title && e.description == description && e.date == date
    ensures e.isAdmin
    ensures e.joinCode.Some? && e.joinCode.value == JoinCodeFrom(codeUuid)
    ensures |e.joinCode.value| <= JoinCodeLength && e.joinCode.value <= codeUuid
  {
    Event(id, title, description, date, true, Some(JoinCodeFrom(codeUuid)))
  }

  /** The form component. `submitted` records, in order, every event passed to the
      `onEventCreate` callback. */
  class EventFormComponent {
    var title: string
    var description: string
    var date: string
    var submitted: seq<Event>

    constructor ()
      ensures title == "" && description == "" && date == ""
      ensures submitted == []
    {
      title, description, date := "", "", "";
      submitted := [];
    }

    /** The title input's `onChange`. */
    method SetTitle(value: string)
      modifies this`title
      ensures title == value
    {
      title := value;
    }

    /** The description textarea's `onChange`. */
    method SetDescription(value: string)
      modifies this`description
      ensures description == value
    {
      description := value;
    }

    /** The date input's `onChange`. */
    method SetDate(value: string)
      modifies this`date
      ensures date == value
    {
      date := value;
    }

    /** `handleSubmit`: the callback gets exactly one event, built from the values the
        fields held before the reset; afterwards all three fields are empty. */
    method HandleSubmit(id: string, codeUuid: string) returns (e: Event)
      modifies this
      ensures e == NewEvent(old(title), old(description), old(date), id, codeUuid)
      ensures submitted == old(submitted) + [e]
      ensures title == "" && description == "" && date == ""
    {
      e := Event(id, title, description, date, true, Some(JoinCodeFrom(codeUuid)));
      submitted := submitted + [e];
      title := "";
      description := "";
      date := "";
    }
  }
}
