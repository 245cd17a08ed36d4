/**
 * The root view (src/App.tsx): the list of events created in this tab, the event
 * currently open and the user who opened it, and the three handlers that change them.
 * `uuidv4()` is an oracle, so every fresh identifier is a parameter.
 */
module App {
  import opened Types

  /** The three state cells `events`, `selectedEvent` and `currentUser`. */
  datatype AppState = AppState(events: seq<Event>, selectedEvent: Option<Event>, currentUser: Option<User>)

  /** The invariant the handlers keep: the open event and the user are set and cleared
      together, and the open event is one of the events in the list. */
  predicate Consistent(s: AppState) {
    && (s.selectedEvent.Some? <==> s.currentUser.Some?)
    && (s.selectedEvent.Some? ==> s.selectedEvent.value in s.events)
  }

  /** The session view is rendered instead of the landing view (`selectedEvent && currentUser`). */
  predicate ShowsSession(s: AppState) {
    s.selectedEvent.Some? && s.currentUser.Some?
  }

  /** The state before any handler ran. */
  function Init(): (s: AppState)
    ensures |s.events| == 0 && s.selectedEvent.None? && s.currentUser.None?
    ensures Consistent(s) && !ShowsSession(s)
  {
    AppState([], None, None)
  }

  /** Index `i` is the first event, in list order, whose join code is `code`. */
  predicate IsFirstMatch(events: seq<Event>, code: string, i: int) {
    && 0 <= i < |events|
    && events[i].joinCode == Some(code)
    && forall j :: 0 <= j < i ==> events[j].joinCode != Some(code)
  }

  /** `events.find(e => e.joinCode === code)`, as the index of the event found.
      An event without a join code never matches, since `undefined !== code`. */
  function FindByJoinCode(events: seq<Event>, code: string): (r: Option<nat>)
    ensures r.Some? ==> IsFirstMatch(events, code, r.value)
    ensures r.None? <==> forall j :: 0 <= j < |events| ==> events[j].joinCode != Some(code)
  {
    if |events| == 0 then None
    else if events[0].joinCode == Some(code) then Some(0)
    else
      match FindByJoinCode(events[1..], code)
      case None => None
      case Some(i) => Some(i + 1)
  }

  /** `handleEventCreate`: the event created by the form is appended, opened, and an
      admin user named 'Admin' is made. */
  function Create(s: AppState, event: Event, userId: string): (r: AppState)
    ensures |r.events| == |s.events| + 1
    ensures r.events[..|s.events|] == s.events && r.events[|s.events|] == event
    ensures r.selectedEvent == Some(event)
    ensures r.currentUser == Some(User(userId, "Admin", true))
    ensures Consistent(r) && ShowsSession(r)
  {
    AppState(s.events + [event], Some(event), Some(User(userId, "Admin", true)))
  }

  /** `handleJoin`: open the first event whose join code is the one entered, as a
      non-admin user with the name entered; an unknown code changes nothing. */
  function Join(s: AppState, data: JoinFormData, userId: string): (r: AppState)
    ensures r.events == s.events
    ensures (forall j :: 0 <= j < |s.events| ==> s.events[j].joinCode != Some(data.joinCode)) ==> r == s
    ensures forall i :: IsFirstMatch(s.events, data.joinCode, i) ==>
              r.selectedEvent == Some(s.events[i]) && r.currentUser == Some(User(userId, data.name, false))
    ensures Consistent(s) ==> Consistent(r)
  {
    match FindByJoinCode(s.events, data.joinCode)
    case None => s
    case Some(i) => s.(currentUser := Some(User(userId, data.name, false)), selectedEvent := Some(s.events[i]))
  }

  /** `handleLeave`: close the event and forget the user; the list is kept. */
  function Leave(s: AppState): (r: AppState)
    ensures r.events == s.events
    ensures r.selectedEvent.None? && r.currentUser.None?
    ensures Consistent(r) && !ShowsSession(r)
  {
    s.(selectedEvent := None, currentUser := None)
  }

  /** Under the invariant, the session view shows exactly when an event is open. */
  lemma SessionViewWhenSelected(s: AppState)
    requires Consistent(s)
    ensures ShowsSession(s) <==> s.selectedEvent.Some?
    ensures ShowsSession(s) <==> s.currentUser.Some?
  {
  }

  /** One user action on the landing or session view. */
  datatype Step =
    | CreateEvent(event: Event, userId: string)
    | JoinEvent(data: JoinFormData, userId: string)
    | LeaveEvent

  function Apply(s: AppState, step: Step): AppState {
    match step
    case CreateEvent(e, id) => Create(s, e, id)
    case JoinEvent(d, id) => Join(s, d, id)
    case LeaveEvent => Leave(s)
  }

  function Run(s: AppState, steps: seq<Step>): AppState
    decreases |steps|
  {
    if |steps| == 0 then s else Run(Apply(s, steps[0]), steps[1..])
  }

  /** The events handed to `handleEventCreate` along a run, in order. */
  function CreatedEvents(steps: seq<Step>): seq<Event>
    decreases |steps|
  {
    if |steps| == 0 then []
    else (if steps[0].CreateEvent? then [steps[0].event] else []) + CreatedEvents(steps[1..])
  }

  /** Every sequence of handler calls keeps the invariant. */
  lemma {:induction false} RunKeepsConsistent(s: AppState, steps: seq<Step>)
    requires Consistent(s)
    ensures Consistent(Run(s, steps))
    decreases |steps|
  {
    if |steps| > 0 {
      RunKeepsConsistent(Apply(s, steps[0]), steps[1..]);
    }
  }

  /** The list only grows, by the created events at its end, in creation order: join and
      leave never change it and no earlier event is changed or reordered. */
  lemma {:induction false} RunAppendsCreatedEvents(s: AppState, steps: seq<Step>)
    ensures Run(s, steps).events == s.events + CreatedEvents(steps)
    decreases |steps|
  {
    if |steps| > 0 {
      var s1 := Apply(s, steps[0]);
      RunAppendsCreatedEvents(s1, steps[1..]);
      assert s1.events == s.events + (if steps[0].CreateEvent? then [steps[0].event] else []);
    }
  }

  /** From the initial state, every reachable state is consistent and its list is exactly
      the created events. */
  lemma Reachable(steps: seq<Step>)
    ensures Consistent(Run(Init(), steps))
    ensures Run(Init(), steps).events == CreatedEvents(steps)
  {
    RunKeepsConsistent(Init(), steps);
    RunAppendsCreatedEvents(Init(), steps);
  }

  /** The root component: its state cells are fields, its handlers are methods. */
  class AppComponent {
    var events: seq<Event>
    var selectedEvent: Option<Event>
    var currentUser: Option<User>

    function State(): AppState
      reads this
    {
      AppState(events, selectedEvent, currentUser)
    }

    predicate Valid()
      reads this
    {
      Consistent(State())
    }

    constructor ()
      ensures State() == Init() && Valid()
    {
      events := [];
      selectedEvent := None;
      currentUser := None;
    }

    method HandleEventCreate(event: Event, userId: string)
      modifies this
      ensures State() == Create(old(State()), event, userId)
      ensures Valid()
    {
      var user := User(userId, "Admin", true);
      currentUser := Some(user);
      events := events + [event];
      selectedEvent := Some(event);
    }

    method HandleJoin(data: JoinFormData, userId: string)
      requires Valid()
      modifies this
      ensures State() == Join(old(State()), data, userId)
      ensures Valid()
    {
      var found := FindByJoinCode(events, data.joinCode);
      if found.Some? {
        var user := User(userId, data.name, false);
        currentUser := Some(user);
        selectedEvent := Some(events[found.value]);
      }
    }

    method HandleLeave()
      modifies this
      ensures State() == Leave(old(State()))
      ensures Valid()
    {
      selectedEvent := None;
      currentUser := None;
    }
  }
}
