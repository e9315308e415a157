/**
 * The event pages (Events and SpeedSync): grouping events by day and the
 * create/edit dialog with its form reducers. Both pages carry the same
 * reducers; they differ only in the format of the day heading, which is a
 * parameter here.
 */
module EventDialog {
  import opened Common

  datatype EventType = RECURRING | ONE_TIME

  datatype Attendee = Attendee(id: string, name: Option<string>, image: Option<string>)

  datatype Event = Event(
    id: string,
    title: string,
    description: Option<string>,
    startTime: string,
    endTime: string,
    eventType: EventType,
    attendees: seq<Attendee>
  )

  // ---------------------------------------------------------------------
  // Grouping by day

  /** The events whose start falls on the day headed `day`. */
  function OnDay(dayKey: string -> string, day: string): Event -> bool {
    (e: Event) => dayKey(e.startTime) == day
  }

  function Group(events: seq<Event>, dayKey: string -> string, day: string): seq<Event> {
    Filter(events, OnDay(dayKey, day))
  }

  /**
   * `groupEventsByDay` / `groupEventsByDate`: a reduce whose accumulator gets a
   * new list for each day heading met and the event pushed onto it. `dayKey`
   * stands for the locale-dependent date formatting of the start time.
   */
  method GroupByDay(events: seq<Event>, dayKey: string -> string) returns (acc: map<string, seq<Event>>)
    ensures acc.Keys == set e | e in events :: dayKey(e.startTime)
    ensures forall day :: day in acc ==> acc[day] == Group(events, dayKey, day)
  {
    acc := map[];
    for i := 0 to |events|
      invariant acc.Keys == set e | e in events[..i] :: dayKey(e.startTime)
      invariant forall day :: day in acc ==> acc[day] == Group(events[..i], dayKey, day)
    {
      var event := events[i];
      ghost var done := events[..i];
      assert events[..i + 1] == done + [event];
      var day := dayKey(event.startTime);
      if day !in acc {
        if Group(done, dayKey, day) != [] {
          var first := Group(done, dayKey, day)[0];
          FilterMembership(done, OnDay(dayKey, day), first);
          assert false;
        }
        acc := acc[day := []];
      }
      acc := acc[day := acc[day] + [event]];
      forall d | d in acc
        ensures acc[d] == Group(done + [event], dayKey, d)
      {
        FilterAppend(done, [event], OnDay(dayKey, d));
        assert Filter([event], OnDay(dayKey, d)) == if day == d then [event] else [];
      }
    }
    assert events[..|events|] == events;
  }

  /** Each event is in the group of its own day, in no other, and groups keep the input order. */
  lemma EventInExactlyOneGroup(events: seq<Event>, dayKey: string -> string, e: Event, day: string)
    requires e in events
    ensures e in Group(events, dayKey, day) <==> day == dayKey(e.startTime)
    ensures IsSubsequence(Group(events, dayKey, day), events)
  {
    FilterMembership(events, OnDay(dayKey, day), e);
    FilterKeepsOrder(events, OnDay(dayKey, day));
  }

  // ---------------------------------------------------------------------
  // The dialog and its form

  datatype EventForm = EventForm(
    id: Option<string>,
    title: string,
    description: string,
    startTime: string,
    endTime: string,
    eventType: EventType,
    attendeeIds: seq<string>
  )

  datatype DialogMode = Create | Edit

  /** The dialog state: `dialogMode`, `form`, `formError` and `showDialog`. */
  datatype Dialog = Dialog(mode: DialogMode, form: EventForm, formError: string, open: bool)

  /** The blank form: no id, empty texts, a one-time event, nobody invited. */
  const EMPTY_FORM: EventForm := EventForm(None, "", "", "", "", ONE_TIME, [])

  /** The dialog state the page starts with: closed, in create mode, with the blank form and no error. */
  const INITIAL_DIALOG: Dialog := Dialog(Create, EMPTY_FORM, "", false)

  /**
   * `openCreateDialog`: an open create dialog with a blank one-time form and
   * no error, which is the page's first state with the dialog shown.
   */
  function OpenCreateDialog(): (d: Dialog)
    ensures d.mode == Create && d.open && d.formError == ""
    ensures d.form.id.None? && d.form.eventType == ONE_TIME && d.form.attendeeIds == []
    ensures d.form.title == d.form.description == d.form.startTime == d.form.endTime == ""
    ensures d == INITIAL_DIALOG.(open := true)
  {
    Dialog(Create, EMPTY_FORM, "", true)
  }

  function AttendeeIds(attendees: seq<Attendee>): (ids: seq<string>)
    ensures |ids| == |attendees|
    ensures forall i :: 0 <= i < |attendees| ==> ids[i] == attendees[i].id
  {
    if attendees == [] then [] else [attendees[0].id] + AttendeeIds(attendees[1..])
  }

  /**
   * `openEditDialog(event)`: an open edit dialog whose form holds the event,
   * with the times cut to their first 16 characters (the `yyyy-MM-ddTHH:mm`
   * an input of type datetime-local takes).
   */
  function OpenEditDialog(e: Event): (d: Dialog)
    ensures d.mode == Edit && d.open && d.formError == ""
    ensures d.form.id == Some(e.id) && d.form.title == e.title && d.form.eventType == e.eventType
    ensures StartsWith(e.startTime, d.form.startTime) && |d.form.startTime| == if |e.startTime| < 16 then |e.startTime| else 16
    ensures StartsWith(e.endTime, d.form.endTime) && |d.form.endTime| == if |e.endTime| < 16 then |e.endTime| else 16
    ensures d.form.description == "" <==> !Truthy(e.description)
    ensures Truthy(e.description) ==> d.form.description == e.description.value
    ensures |d.form.attendeeIds| == |e.attendees|
    ensures forall i :: 0 <= i < |e.attendees| ==> d.form.attendeeIds[i] == e.attendees[i].id
  {
    Dialog(Edit,
           EventForm(Some(e.id), e.title, OrEmpty(e.description), Take(e.startTime, 16), Take(e.endTime, 16),
                     e.eventType, AttendeeIds(e.attendees)),
           "", true)
  }

  /** The text inputs, by their `name` attribute. */
  datatype FormField = Title | Description | StartTime | EndTime

  function FieldValue(f: EventForm, field: FormField): string {
    match field
    case Title => f.title
    case Description => f.description
    case StartTime => f.startTime
    case EndTime => f.endTime
  }

  /** `handleFormChange`: `{ ...f, [e.target.name]: e.target.value }`. */
  function HandleFormChange(f: EventForm, field: FormField, value: string): (r: EventForm)
    ensures FieldValue(r, field) == value
    ensures forall other :: other != field ==> FieldValue(r, other) == FieldValue(f, other)
    ensures r.id == f.id && r.eventType == f.eventType && r.attendeeIds == f.attendeeIds
  {
    match field
    case Title => f.(title := value)
    case Description => f.(description := value)
    case StartTime => f.(startTime := value)
    case EndTime => f.(endTime := value)
  }

  function Other(id: string): string -> bool {
    (x: string) => x != id
  }

  /** The attendee toggle: remove `id` if it is selected, append it otherwise. */
  function Toggle(ids: seq<string>, id: string): seq<string> {
    if id in ids then Filter(ids, Other(id)) else ids + [id]
  }

  /** `handleAttendeeChange(id)`: toggles `id` and leaves every other form field alone. */
  function HandleAttendeeChange(f: EventForm, id: string): (r: EventForm)
    ensures r.(attendeeIds := f.attendeeIds) == f
    ensures r.attendeeIds == Toggle(f.attendeeIds, id)
    ensures id in r.attendeeIds <==> id !in f.attendeeIds
  {
    ToggleFlipsOnlyId(f.attendeeIds, id, id);
    f.(attendeeIds := Toggle(f.attendeeIds, id))
  }

  /** `handleTypeChange(val)`: sets the type and nothing else. */
  function HandleTypeChange(f: EventForm, t: EventType): (r: EventForm)
    ensures r.eventType == t && r.(eventType := f.eventType) == f
  {
    f.(eventType := t)
  }

  /** Toggling flips the membership of `id` and of no other id. */
  lemma ToggleFlipsOnlyId(ids: seq<string>, id: string, x: string)
    ensures x in Toggle(ids, id) <==> if x == id then id !in ids else x in ids
  {
    if id in ids {
      FilterMembership(ids, Other(id), x);
    }
  }

  /**
   * Toggling a selected id removes every occurrence of it and keeps the
   * other ids, each as often as before, in order; toggling an unselected id
   * appends it.
   */
  lemma ToggleShape(ids: seq<string>, id: string)
    ensures id in ids ==> IsSubsequence(Toggle(ids, id), ids) && id !in Toggle(ids, id)
    ensures id in ids ==> multiset(Toggle(ids, id)) == multiset(ids)[id := 0]
    ensures id !in ids ==> Toggle(ids, id) == ids + [id]
  {
    if id in ids {
      FilterKeepsOrder(ids, Other(id));
      FilterMembership(ids, Other(id), id);
      forall x
        ensures multiset(Toggle(ids, id))[x] == multiset(ids)[id := 0][x]
      {
        FilterMultiset(ids, Other(id), x);
      }
    }
  }

  /** Selecting an unselected id and then deselecting it restores the list. */
  lemma ToggleTwiceRestores(ids: seq<string>, id: string)
    requires id !in ids
    ensures Toggle(Toggle(ids, id), id) == ids
  {
    FilterAppend(ids, [id], Other(id));
    FilterAll(ids, Other(id));
  }

  // ---------------------------------------------------------------------
  // Submitting

  datatype EventPayload = EventPayload(
    title: string, description: string, startTime: string, endTime: string,
    eventType: EventType, attendeeIds: seq<string>)

  datatype Verb = POST | PUT

  datatype SaveRequest = SaveRequest(verb: Verb, url: string, payload: EventPayload)

  /** `handleFormSubmit`: POST to the collection in create mode, PUT to the event in edit mode. */
  function SubmitRequest(d: Dialog): (r: SaveRequest)
    ensures r.verb == POST <==> d.mode == Create
    ensures r.payload == EventPayload(d.form.title, d.form.description, d.form.startTime, d.form.endTime,
                                      d.form.eventType, d.form.attendeeIds)
    ensures d.mode == Create ==> r.url == "/api/events"
    ensures d.mode == Edit && d.form.id.Some? ==> r.url == "/api/events/" + d.form.id.value
  {
    var f := d.form;
    var payload := EventPayload(f.title, f.description, f.startTime, f.endTime, f.eventType, f.attendeeIds);
    if d.mode == Create then SaveRequest(POST, "/api/events", payload)
    else SaveRequest(PUT, "/api/events/" + (if f.id.Some? then f.id.value else "undefined"), payload)
  }

  /** How a save request ends: accepted, refused with an optional `error` message, or not sent at all. */
  datatype SaveOutcome = Saved | Refused(error: Option<string>) | Failed

  /**
   * The dialog after `handleFormSubmit` settles: closed when the save was
   * accepted; otherwise open with the server's message, or "Failed to save
   * event." when there is none. The form itself is never touched.
   */
  function AfterSubmit(d: Dialog, outcome: SaveOutcome): (r: Dialog)
    ensures r.form == d.form && r.mode == d.mode
    ensures outcome.Saved? ==> !r.open && r.formError == ""
    ensures !outcome.Saved? ==> r.open == d.open && r.formError != ""
    ensures outcome.Refused? && Truthy(outcome.error) ==> r.formError == outcome.error.value
    ensures outcome.Failed? || (outcome.Refused? && !Truthy(outcome.error)) ==> r.formError == "Failed to save event."
  {
    match outcome
    case Saved => d.(formError := "", open := false)
    case Refused(error) => d.(formError := if Truthy(error) then error.value else "Failed to save event.")
    case Failed => d.(formError := "Failed to save event.")
  }

  /**
   * Editing an event and saving without changes PUTs the event's fields
   * back, except that each time is cut to its first 16 characters: an ISO
   * time as the API sends it ("2025-01-01T10:00:00.000Z", 24 characters)
   * goes back without its seconds, milliseconds and zone designator.
   */
  lemma EditSaveRoundTrip(e: Event)
    ensures var r := SubmitRequest(OpenEditDialog(e));
      r.verb == PUT && r.url == "/api/events/" + e.id &&
      r.payload == EventPayload(e.title, OrEmpty(e.description), Take(e.startTime, 16), Take(e.endTime, 16),
                                e.eventType, AttendeeIds(e.attendees))
    ensures var r := SubmitRequest(OpenEditDialog(e));
      (r.payload.startTime == e.startTime <==> |e.startTime| <= 16) &&
      (r.payload.endTime == e.endTime <==> |e.endTime| <= 16)
  {
  }
}
