/** `_toEvent`: turning one Home Assistant calendar record into the event
    object the calendar widget displays. */
module Events {
  import opened Wrappers
  import opened Decimal
  import opened Js
  import opened Color

  /** The object `_toEvent` returns. `entityId` is `extendedProps.entity_id`. */
  datatype Event = Event(
    id: JsString,
    title: JsValue,
    start: JsValue,
    end: JsValue,
    allDay: bool,
    backgroundColor: JsValue,
    color: JsValue,
    textColor: JsValue,
    entityId: JsString)

  /** Property names read from a calendar record. */
  const StartKey: JsString := Ascii("start")
  const EndKey: JsString := Ascii("end")
  const DateKey: JsString := Ascii("date")
  const DateTimeKey: JsString := Ascii("dateTime")
  const UidKey: JsString := Ascii("uid")
  const IdKey: JsString := Ascii("id")
  const SummaryKey: JsString := Ascii("summary")
  const TitleKey: JsString := Ascii("title")

  const Untitled: JsValue := Str(Ascii("(untitled)"))
  const Midnight: JsString := Ascii("T00:00:00")
  const Colon: JsString := Ascii(":")

  /** `w?.dateTime || (w?.date ? `${w.date}T00:00:00` : null)` for the
      `start` or `end` member `w` of a record. */
  function ResolveWhen(w: JsValue): (r: JsValue)
    ensures Truthy(OptGet(w, DateTimeKey)) ==> r == OptGet(w, DateTimeKey)
    ensures !Truthy(OptGet(w, DateTimeKey)) && Truthy(OptGet(w, DateKey)) ==>
              r == Str(ToString(OptGet(w, DateKey)) + Midnight)
    ensures r == Null <==> !Truthy(OptGet(w, DateTimeKey)) && !Truthy(OptGet(w, DateKey))
  {
    var date := OptGet(w, DateKey);
    Or(OptGet(w, DateTimeKey),
       if Truthy(date) then Str(ToString(date) + Midnight) else Null)
  }

  /** `ev.summary || ev.title || "(untitled)"`. */
  function EventTitle(ev: JsValue): (r: JsValue)
    ensures Truthy(r)
    ensures Truthy(OptGet(ev, SummaryKey)) ==> r == OptGet(ev, SummaryKey)
    ensures !Truthy(OptGet(ev, SummaryKey)) && Truthy(OptGet(ev, TitleKey)) ==> r == OptGet(ev, TitleKey)
    ensures !Truthy(OptGet(ev, SummaryKey)) && !Truthy(OptGet(ev, TitleKey)) ==> r == Untitled
  {
    Or(Or(OptGet(ev, SummaryKey), OptGet(ev, TitleKey)), Untitled)
  }

  /** The middle part of the id, `ev.uid || ev.id || idx`: the first
      truthy identifier the record carries, else its index in the list. */
  function RecordKey(ev: JsValue, idx: nat): (r: JsValue)
    ensures Truthy(OptGet(ev, UidKey)) ==> r == OptGet(ev, UidKey)
    ensures !Truthy(OptGet(ev, UidKey)) && Truthy(OptGet(ev, IdKey)) ==> r == OptGet(ev, IdKey)
    ensures !Truthy(OptGet(ev, UidKey)) && !Truthy(OptGet(ev, IdKey)) ==> r == Num(idx)
  {
    Or(Or(OptGet(ev, UidKey), OptGet(ev, IdKey)), Num(idx))
  }

  /** `!!ev.start?.date && !!ev.end?.date`. An all-day record is an object
      whose start and end are objects, and it always gets a start and an end
      (neither resolves to null). */
  predicate IsAllDay(ev: JsValue): (b: bool)
    ensures b ==> ev.Obj? && OptGet(ev, StartKey).Obj? && OptGet(ev, EndKey).Obj?
    ensures b ==> ResolveWhen(OptGet(ev, StartKey)) != Null && ResolveWhen(OptGet(ev, EndKey)) != Null
  {
    Truthy(OptGet(OptGet(ev, StartKey), DateKey)) && Truthy(OptGet(OptGet(ev, EndKey), DateKey))
  }

  /** `_toEvent(ev, entityId, idx)` with the card's colour overrides passed
      in. Reading `ev.start` throws when `ev` is null or undefined; that
      outcome is None. */
  function ToEvent(ev: JsValue, entityId: JsString, idx: nat, colors: JsValue): (r: Option<Event>)
    ensures r.None? <==> Nullish(ev)
    ensures r.Some? ==>
      var e := r.value;
      && e.entityId == entityId
      && Colors(e.backgroundColor, e.textColor) == ColorForEntity(colors, entityId)
      && e.color == e.backgroundColor
      && Truthy(e.title)
      && entityId + Colon <= e.id
  {
    var startMember :- Get(ev, StartKey);
    var start := ResolveWhen(startMember);
    var colors := ColorForEntity(colors, entityId);
    Some(Event(
      id := entityId + Colon + ToString(RecordKey(ev, idx)) + Colon + ToString(start),
      title := EventTitle(ev),
      start := start,
      end := ResolveWhen(OptGet(ev, EndKey)),
      allDay := IsAllDay(ev),
      backgroundColor := colors.bg,
      color := colors.bg,
      textColor := colors.text,
      entityId := entityId))
  }
}
