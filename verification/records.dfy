/** The calendar records Home Assistant actually returns, as a typed view:
    every field is an optional string. A reference normaliser stated in
    terms of "present and non-empty" is proved to agree with `_toEvent`
    run on the record's JSON form. */
module Records {
  import opened Wrappers
  import opened Decimal
  import opened Js
  import opened Color
  import opened Events

  /** The `start` or `end` member of a record. */
  datatype When = When(dateTime: Option<JsString>, date: Option<JsString>)

  /** A calendar record as the Home Assistant calendar API returns it. */
  datatype Record = Record(
    start: Option<When>,
    end: Option<When>,
    uid: Option<JsString>,
    id: Option<JsString>,
    summary: Option<JsString>,
    title: Option<JsString>)

  /** Adds member `key` when the value is present. */
  function Put(m: map<JsString, JsValue>, key: JsString, v: Option<JsValue>): map<JsString, JsValue> {
    if v.Some? then m[key := v.value] else m
  }

  function StrOf(v: Option<JsString>): Option<JsValue> {
    if v.Some? then Some(Str(v.value)) else None
  }

  function EncodeWhen(w: When): JsValue {
    Obj(Put(Put(map[], DateTimeKey, StrOf(w.dateTime)), DateKey, StrOf(w.date)))
  }

  /** The JSON object of a record: exactly the members that are present. */
  function Encode(r: Record): JsValue {
    var m0 := Put(map[], StartKey, if r.start.Some? then Some(EncodeWhen(r.start.value)) else None);
    var m1 := Put(m0, EndKey, if r.end.Some? then Some(EncodeWhen(r.end.value)) else None);
    var m2 := Put(Put(m1, UidKey, StrOf(r.uid)), IdKey, StrOf(r.id));
    Obj(Put(Put(m2, SummaryKey, StrOf(r.summary)), TitleKey, StrOf(r.title)))
  }

  /** Reading a member of an object built with Put: the value put under that
      key, else `undefined`. */
  function Read(v: Option<JsValue>): JsValue {
    if v.Some? then v.value else Undefined
  }

  /** What JavaScript's truthiness means for an optional string. */
  predicate Present(o: Option<JsString>) {
    o.Some? && |o.value| > 0
  }

  function FirstPresent(a: Option<JsString>, b: Option<JsString>): (r: Option<JsString>)
    ensures r.Some? ==> Present(r)
  {
    if Present(a) then a else if Present(b) then b else None
  }

  function DateOf(w: Option<When>): Option<JsString> {
    if w.Some? then w.value.date else None
  }

  /** The instant a `start`/`end` member resolves to: its date-time when
      present, else its date at midnight, else nothing. */
  function Resolved(w: Option<When>): Option<JsString> {
    if w.None? then None
    else if Present(w.value.dateTime) then w.value.dateTime
    else if Present(w.value.date) then Some(w.value.date.value + Midnight)
    else None
  }

  function AsValue(t: Option<JsString>): JsValue {
    if t.Some? then Str(t.value) else Null
  }

  /** The reference display fields of a record. A missing start prints as
      `null` inside the id. */
  function ReferenceId(r: Record, entityId: JsString, idx: nat): JsString {
    var key := match FirstPresent(r.uid, r.id) case Some(k) => k case None => Digits(idx);
    var start := match Resolved(r.start) case Some(s) => s case None => Ascii("null");
    entityId + Colon + key + Colon + start
  }

  function ReferenceTitle(r: Record): JsString {
    match FirstPresent(r.summary, r.title)
    case Some(t) => t
    case None => Ascii("(untitled)")
  }

  predicate ReferenceAllDay(r: Record) {
    Present(DateOf(r.start)) && Present(DateOf(r.end))
  }

  lemma KeysDistinct()
    ensures StartKey != EndKey && StartKey != UidKey && StartKey != IdKey
    ensures StartKey != SummaryKey && StartKey != TitleKey
    ensures EndKey != UidKey && EndKey != IdKey && EndKey != SummaryKey && EndKey != TitleKey
    ensures UidKey != IdKey && UidKey != SummaryKey && UidKey != TitleKey
    ensures IdKey != SummaryKey && IdKey != TitleKey && SummaryKey != TitleKey
    ensures DateKey != DateTimeKey
  {
    assert StartKey == [115, 116, 97, 114, 116];
    assert EndKey == [101, 110, 100];
    assert UidKey == [117, 105, 100];
    assert IdKey == [105, 100];
    assert SummaryKey == [115, 117, 109, 109, 97, 114, 121];
    assert TitleKey == [116, 105, 116, 108, 101];
    assert DateKey == [100, 97, 116, 101];
    assert DateTimeKey == [100, 97, 116, 101, 84, 105, 109, 101];
  }

  function WhenValue(w: Option<When>): JsValue {
    if w.Some? then EncodeWhen(w.value) else Undefined
  }

  /** Each member read by `_toEvent` finds what the record holds. */
  lemma ReadEncoded(r: Record)
    ensures OptGet(Encode(r), StartKey) == WhenValue(r.start)
    ensures OptGet(Encode(r), EndKey) == WhenValue(r.end)
    ensures OptGet(Encode(r), UidKey) == Read(StrOf(r.uid))
    ensures OptGet(Encode(r), IdKey) == Read(StrOf(r.id))
    ensures OptGet(Encode(r), SummaryKey) == Read(StrOf(r.summary))
    ensures OptGet(Encode(r), TitleKey) == Read(StrOf(r.title))
  {
    KeysDistinct();
  }

  lemma ResolveEncoded(w: Option<When>)
    ensures ResolveWhen(WhenValue(w)) == AsValue(Resolved(w))
    ensures Truthy(OptGet(WhenValue(w), DateKey)) == Present(DateOf(w))
  {
    KeysDistinct();
    if w.Some? {
      assert OptGet(WhenValue(w), DateKey) == Read(StrOf(w.value.date));
      assert OptGet(WhenValue(w), DateTimeKey) == Read(StrOf(w.value.dateTime));
    }
  }

  lemma TitleOnRecord(r: Record)
    ensures EventTitle(Encode(r)) == Str(ReferenceTitle(r))
  {
    ReadEncoded(r);
  }

  lemma KeyOnRecord(r: Record, idx: nat)
    ensures ToString(RecordKey(Encode(r), idx))
         == match FirstPresent(r.uid, r.id) case Some(k) => k case None => Digits(idx)
  {
    ReadEncoded(r);
    DigitsRoundTrip(idx, []);
    assert Digits(idx) + [] == Digits(idx);
  }

  lemma WhenOnRecord(r: Record)
    ensures ResolveWhen(OptGet(Encode(r), StartKey)) == AsValue(Resolved(r.start))
    ensures ResolveWhen(OptGet(Encode(r), EndKey)) == AsValue(Resolved(r.end))
    ensures IsAllDay(Encode(r)) == ReferenceAllDay(r)
  {
    ReadEncoded(r);
    ResolveEncoded(r.start);
    ResolveEncoded(r.end);
  }

  /** `_toEvent` on a Home Assistant record agrees with the reference
      normaliser: all-day exactly when both dates are non-empty, start and
      end resolved date-time first, the first non-empty of summary and
      title, and the id `entityId:(uid || id || idx):start`. */
  lemma ToEventOnRecord(r: Record, entityId: JsString, idx: nat, colors: JsValue)
    ensures
      var c := ColorForEntity(colors, entityId);
      ToEvent(Encode(r), entityId, idx, colors) == Some(Event(
        id := ReferenceId(r, entityId, idx),
        title := Str(ReferenceTitle(r)),
        start := AsValue(Resolved(r.start)),
        end := AsValue(Resolved(r.end)),
        allDay := ReferenceAllDay(r),
        backgroundColor := c.bg,
        color := c.bg,
        textColor := c.text,
        entityId := entityId))
  {
    TitleOnRecord(r);
    KeyOnRecord(r, idx);
    WhenOnRecord(r);
    var start := AsValue(Resolved(r.start));
    assert ToString(start) == match Resolved(r.start) case Some(s) => s case None => Ascii("null");
  }

  /** A record whose start and end are both plain dates is an all-day event
      starting at midnight of its start date. */
  lemma DateOnlyRecord(r: Record, entityId: JsString, idx: nat, colors: JsValue, d1: JsString, d2: JsString)
    requires r.start == Some(When(None, Some(d1))) && r.end == Some(When(None, Some(d2)))
    requires |d1| > 0 && |d2| > 0
    ensures ToEvent(Encode(r), entityId, idx, colors).value.allDay
    ensures ToEvent(Encode(r), entityId, idx, colors).value.start == Str(d1 + Midnight)
    ensures ToEvent(Encode(r), entityId, idx, colors).value.end == Str(d2 + Midnight)
  {
    ToEventOnRecord(r, entityId, idx, colors);
  }

  /** A record with no start at all still normalises, with a null start and
      an id ending in `:null`. */
  lemma MissingStart(r: Record, entityId: JsString, idx: nat, colors: JsValue)
    requires r.start.None?
    ensures ToEvent(Encode(r), entityId, idx, colors).value.start == Null
    ensures var id := ToEvent(Encode(r), entityId, idx, colors).value.id;
      |id| >= 5 && id[|id| - 5..] == Ascii(":null")
  {
    ToEventOnRecord(r, entityId, idx, colors);
    var key := match FirstPresent(r.uid, r.id) case Some(k) => k case None => Digits(idx);
    var id := ReferenceId(r, entityId, idx);
    assert id == (entityId + Colon + key) + Ascii(":null");
  }

  /** Whether an event is all-day depends on the two dates alone: adding,
      changing or removing either date-time leaves it unchanged. */
  lemma AllDayIgnoresDateTime(r: Record, entityId: JsString, idx: nat, colors: JsValue,
                              startTime: Option<JsString>, endTime: Option<JsString>)
    requires r.start.Some? && r.end.Some?
    ensures var r' := r.(start := Some(r.start.value.(dateTime := startTime)),
                         end := Some(r.end.value.(dateTime := endTime)));
      ToEvent(Encode(r'), entityId, idx, colors).value.allDay
        == ToEvent(Encode(r), entityId, idx, colors).value.allDay
  {
    var r' := r.(start := Some(r.start.value.(dateTime := startTime)),
                 end := Some(r.end.value.(dateTime := endTime)));
    ToEventOnRecord(r, entityId, idx, colors);
    ToEventOnRecord(r', entityId, idx, colors);
  }

  /** A timed record without uid or id, such as a stand-up from
      2024-01-08T09:00:00Z to 09:15: the id uses the record's position, the
      title its summary, it is not all-day, and its times pass through. */
  lemma TimedRecordWithoutIds(startTime: JsString, endTime: JsString, summary: JsString,
                              entityId: JsString, idx: nat, colors: JsValue)
    requires |startTime| > 0 && |endTime| > 0 && |summary| > 0
    ensures
      var r := Record(Some(When(Some(startTime), None)), Some(When(Some(endTime), None)),
                      None, None, Some(summary), None);
      var e := ToEvent(Encode(r), entityId, idx, colors).value;
      && e.id == entityId + Colon + Digits(idx) + Colon + startTime
      && e.title == Str(summary)
      && !e.allDay
      && e.start == Str(startTime)
      && e.end == Str(endTime)
  {
    var r := Record(Some(When(Some(startTime), None)), Some(When(Some(endTime), None)),
                    None, None, Some(summary), None);
    ToEventOnRecord(r, entityId, idx, colors);
  }
}
