/**
 * The `/api/events` route: the choice of the `startTime` filter for GET and
 * the validation of the body for POST. Date parsing and the local-time
 * `setHours` are parameters: they depend on the server's time zone.
 */
module EventsRoute {
  import opened Common

  /** `parseDate(dateStr)`: nothing for a missing or empty string or one `parse` rejects. */
  function ParseDate(dateStr: Option<string>, parse: string -> Option<Millis>): (r: Option<Millis>)
    ensures !Truthy(dateStr) ==> r.None?
    ensures Truthy(dateStr) ==> r == parse(dateStr.value)
  {
    if !Truthy(dateStr) then None else parse(dateStr.value)
  }

  /** The `where` clause on `startTime`. */
  datatype Where =
    | NoFilter
    | DayRange(gte: Millis, lt: Millis)
    | Between(gte: Millis, lte: Millis)

  datatype GetResult = Filtered(where: Where) | BadRequest(error: string)

  function Status(r: GetResult): int {
    if r.BadRequest? then 400 else 200
  }

  /**
   * GET's filter from the `date`, `start` and `end` query parameters.
   * `setHours(t, h)` is `Date.prototype.setHours(h, 0, 0, 0)` on the instant
   * `t`; the day bounds are taken one after the other on the same date
   * object, so the upper bound is computed from the lower one.
   */
  function SelectWhere(date: Option<string>, start: Option<string>, end: Option<string>,
                       parse: string -> Option<Millis>, setHours: (Millis, int) -> Millis): (r: GetResult)
    ensures Truthy(date) && parse(date.value).None? ==> r == BadRequest("Invalid date")
    ensures Truthy(date) && parse(date.value).Some? ==>
      var midnight := setHours(parse(date.value).value, 0);
      r == Filtered(DayRange(midnight, setHours(midnight, 24)))
    ensures !Truthy(date) && Truthy(start) && Truthy(end) ==>
      (r.BadRequest? <==> parse(start.value).None? || parse(end.value).None?) &&
      (r.BadRequest? ==> r.error == "Invalid start or end date") &&
      (r.Filtered? ==> r.where == Between(parse(start.value).value, parse(end.value).value))
    ensures !Truthy(date) && !(Truthy(start) && Truthy(end)) ==> r == Filtered(NoFilter)
  {
    if Truthy(date) then
      var d := ParseDate(date, parse);
      if d.None? then BadRequest("Invalid date")
      else
        var gte := setHours(d.value, 0);
        var lt := setHours(gte, 24);
        Filtered(DayRange(gte, lt))
    else if Truthy(start) && Truthy(end) then
      var s := ParseDate(start, parse);
      var e := ParseDate(end, parse);
      if s.None? || e.None? then BadRequest("Invalid start or end date")
      else Filtered(Between(s.value, e.value))
    else Filtered(NoFilter)
  }

  /** Whether an event starting at `t` passes the filter. */
  predicate Matches(w: Where, t: Millis) {
    match w
    case NoFilter => true
    case DayRange(gte, lt) => gte <= t < lt
    case Between(gte, lte) => gte <= t <= lte
  }

  /** A `date` parameter decides alone: `start` and `end` are not even looked at. */
  lemma DateTakesPrecedence(date: Option<string>, s1: Option<string>, e1: Option<string>,
                            s2: Option<string>, e2: Option<string>,
                            parse: string -> Option<Millis>, setHours: (Millis, int) -> Millis)
    requires Truthy(date)
    ensures SelectWhere(date, s1, e1, parse, setHours) == SelectWhere(date, s2, e2, parse, setHours)
  {
  }

  /** A lone `start` or `end` is ignored, even an unparseable one: every event is returned. */
  lemma LoneBoundIgnored(date: Option<string>, start: Option<string>, end: Option<string>,
                         parse: string -> Option<Millis>, setHours: (Millis, int) -> Millis, t: Millis)
    requires !Truthy(date) && (!Truthy(start) || !Truthy(end))
    ensures var r := SelectWhere(date, start, end, parse, setHours);
      r.Filtered? && Matches(r.where, t) && Status(r) == 200
  {
  }

  /** The start/end range includes both of its ends; the day range includes its start and excludes its end. */
  lemma RangeEnds(a: Millis, b: Millis)
    requires a <= b
    ensures Matches(Between(a, b), a) && Matches(Between(a, b), b)
    ensures a < b ==> Matches(DayRange(a, b), a)
    ensures !Matches(DayRange(a, b), b)
  {
  }

  /** A 400 answer comes only from a parameter that is present but does not parse. */
  lemma BadRequestNeedsUnparseableInput(date: Option<string>, start: Option<string>, end: Option<string>,
                                        parse: string -> Option<Millis>, setHours: (Millis, int) -> Millis)
    requires SelectWhere(date, start, end, parse, setHours).BadRequest?
    ensures (Truthy(date) && parse(date.value).None?) ||
            (!Truthy(date) && Truthy(start) && Truthy(end) &&
             (parse(start.value).None? || parse(end.value).None?))
  {
  }

  // ---------------------------------------------------------------------
  // POST

  /** The event handed to the database: the body's fields, with the attendees to connect. */
  datatype EventDraft = EventDraft(
    title: Json, description: Json, startTime: Json, endTime: Json, eventType: Json, attendeeIds: seq<Json>)

  datatype PostResult = Created(draft: EventDraft) | Rejected(error: string)

  function PostStatus(r: PostResult): int {
    if r.Rejected? then 400 else 201
  }

  /**
   * POST's checks on the body: the four required fields must be truthy,
   * then `attendeeIds` must be an array.
   */
  function ValidateEvent(title: Json, startTime: Json, endTime: Json, eventType: Json,
                         attendeeIds: Json, description: Json): (r: PostResult)
    ensures r.Rejected? <==>
      !JsonTruthy(title) || !JsonTruthy(startTime) || !JsonTruthy(endTime) || !JsonTruthy(eventType) || !attendeeIds.Arr?
    ensures r.Rejected? ==> PostStatus(r) == 400
    ensures r.Rejected? && r.error == "attendeeIds must be an array" ==>
      JsonTruthy(title) && JsonTruthy(startTime) && JsonTruthy(endTime) && JsonTruthy(eventType)
    ensures r.Created? ==> PostStatus(r) == 201
    ensures r.Created? ==> r.draft == EventDraft(title, description, startTime, endTime, eventType, attendeeIds.elems)
  {
    if !JsonTruthy(title) || !JsonTruthy(startTime) || !JsonTruthy(endTime) || !JsonTruthy(eventType) then
      Rejected("Missing required fields")
    else if !attendeeIds.Arr? then
      Rejected("attendeeIds must be an array")
    else
      Created(EventDraft(title, description, startTime, endTime, eventType, attendeeIds.elems))
  }

  /** The required-field check comes first: a body failing both checks is reported as missing fields. */
  lemma RequiredFieldsCheckedFirst(title: Json, startTime: Json, endTime: Json, eventType: Json,
                                   attendeeIds: Json, description: Json)
    requires !JsonTruthy(title) || !JsonTruthy(startTime) || !JsonTruthy(endTime) || !JsonTruthy(eventType)
    ensures ValidateEvent(title, startTime, endTime, eventType, attendeeIds, description)
            == Rejected("Missing required fields")
  {
  }

  /** An empty attendee list is accepted; a missing one is not. */
  lemma AttendeeListExamples(title: string, startTime: string, endTime: string)
    requires title != "" && startTime != "" && endTime != ""
    ensures ValidateEvent(Str(title), Str(startTime), Str(endTime), Str("ONE_TIME"), Arr([]), Missing).Created?
    ensures ValidateEvent(Str(title), Str(startTime), Str(endTime), Str("ONE_TIME"), Missing, Missing)
            == Rejected("attendeeIds must be an array")
  {
  }
}
