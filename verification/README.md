# local-calendars-pro: a verified model of the card's pure rules

`local-calendars-pro.js` is a Home Assistant Lovelace card that shows the
host's `calendar.*` entities in an EventCalendar widget. Most of the file is
DOM, script loading and widget plumbing. Under that sits a small set of
deterministic rules, and this project models them in Dafny:

- **Colour assignment** (`_hashColor`, `_colorForEntity`). A Java-style
  rolling hash over UTF-16 code units uses multiplier 31 and signed 32-bit
  wrap-around. `Math.abs(h) % 360` turns it into a hue. The colour is
  `hsl(H 65% 48%)`. Per-entity overrides take precedence over it: a string
  override, or an object override whose `bg` and `text` each fall back on
  their own.
- **Event normalisation** (`_toEvent`). A Home Assistant calendar record
  becomes a display event. The rules cover all-day detection, the fallback
  from a date to `dateT00:00:00`, the title default, the composite id
  `entity:(uid || id || idx):start`, and the entity's colours.
- **Window cache and merge** (the pure part of `_onDatesSet`). The key is
  `startIso__endIso`. A hit serves the stored list. A miss fetches every
  entity, normalises each list, flattens the lists in entity order and
  stores the result.
- **Configuration and entity resolution** (`setConfig`, the `hass`
  setter). Most fields default with `??`. `colors` defaults with `||`.
  `entities` is kept only when it is an array. Without configured entities,
  the card uses the host's `calendar.` state keys.

JavaScript semantics are modelled explicitly (module `Js`). Strings are
sequences of UTF-16 code units. Values form a JSON-shaped datatype plus
`undefined`. `Truthy` gives the meaning of `||` and `!!`, and `Nullish`
gives the meaning of `??` and `?.`. Reading a property of `null` or
`undefined` throws, and this is modelled as `None`. The conversion a
template literal applies is modelled too, so `${null}` is `"null"`. `| 0`
and `Math.imul` are `Int32.ToInt32` and `Int32.Imul`.

Modules follow the source's concerns: `Decimal` (printing and reading
numbers), `Js`, `Int32`, `Color`, `Events` (`_toEvent`), `Records` (a typed
view of Home Assistant records with a reference normaliser), `WindowCache`
(`_onDatesSet`), `Config` (`setConfig` and entity discovery) and
`CardState` (the card's fields across the host's calls).

Partners proved against each operation:

- The hash has two partners: the exact polynomial (Java's
  `String.hashCode`) and the loop as written.
- The colour string has an `hsl(...)` reader, and printing then reading
  gives the numbers back.
- `_toEvent` has a reference normaliser over typed records, stated in
  "present and non-empty" terms.
- The merge has an index characterisation in both directions
  (`FlattenAt`, `Locate`).
- The configuration defaulting is proved idempotent.
- The entity filter is characterised by the positions it keeps.

Behaviour of the code that the model keeps as written:

- **Fetch failure.** The window's requests are combined with `Promise.all`.
  One rejected request, or one `null` record that makes `_toEvent` throw,
  rejects the whole window: nothing is cached and nothing is shown
  (`FetchAll`, `DatesSet`).
- **Event ids.** No uniqueness is enforced. A `uid` or an entity id
  containing `:` can make two ids collide, so the model claims none.
- **All-day flag.** Only the two `date` members are read: both must be
  non-empty. Any `dateTime` is ignored for this flag
  (`AllDayIgnoresDateTime`), while `start`/`end` still prefer `dateTime`.
- **Missing start.** A record with no usable start gets a `null` start,
  and the text `null` appears inside its id (`MissingStart`).
- **Reconfiguration.** `setConfig` clears the widget handle `_ec` but not
  `_initStarted`, so on a card whose widget exists the widget is never
  created again (see Findings).

## Model

| member | source | states |
|---|---|---|
| Int32.ToInt32 | local-calendars-pro.js:151 | a bitwise-or with 0 gives the unique value in [-2^31, 2^31) congruent to x modulo 2^32; 32-bit values are unchanged |
| Int32.WrapInside | local-calendars-pro.js:151 | for every multiplier m, `Math.imul(m, h) + c` or-ed with 0 equals the exact `m*h + c` wrapped once |
| Color.Hash | local-calendars-pro.js:150-151 | the rolling hash of any string is a signed 32-bit value |
| Color.HashAppend | local-calendars-pro.js:151 | the empty string hashes to 0, and appending a code unit c maps hash h to ToInt32(31*h + c) |
| Color.HashIsPolynomial | local-calendars-pro.js:151 | the wrapped rolling hash equals the exact polynomial sum of c[i]*31^(n-1-i) wrapped once to 32 bits (Java's String.hashCode on code units) |
| Color.HashLoop | local-calendars-pro.js:151 | the `for` loop as written computes the recursive hash and the wrapped polynomial |
| Color.Hue | local-calendars-pro.js:152 | `Math.abs(h) % 360` is always in [0, 359] |
| Color.FormatThenParse | local-calendars-pro.js:153 | reading back the text `hsl(H S% L%)` yields exactly the three numbers printed |
| Color.FormatHsl | local-calendars-pro.js:153 | the colour text starts with `hsl(` and reads back as exactly the hue, saturation and lightness it was given |
| Color.HashColor | local-calendars-pro.js:149-154 | the colour string is non-empty and reads back as hue Hue(Hash(str)) < 360, saturation 65, lightness 48, for every input string |
| Color.ColorForEntity | local-calendars-pro.js:156-161 | a missing or falsy override gives hash colour and `#fff`; a string override gives itself and `#fff`; an object override falls back separately for `bg` and `text`; both colours are always truthy |
| Color.ColorIndependentOfOtherOverrides | local-calendars-pro.js:157 | adding, changing or removing another entity's override never changes an entity's colours |
| Js.OrAgreesWithCoalesceUnlessFalsyPresent | local-calendars-pro.js:14-19 | nullish coalescing and logical or agree except on falsy non-nullish values (`""`, `0`, `false`), which coalescing keeps and logical or replaces |
| Js.Or | local-calendars-pro.js:140 | the logical or of a and b is truthy exactly when a or b is |
| Js.Coalesce | local-calendars-pro.js:14 | `a ?? b` is null or undefined exactly when both a and b are |
| Js.ToString | local-calendars-pro.js:135-139 | a template substitution prints a string as itself, a number as decimal text that reads back as the number, and every value other than a string or array as non-empty text |
| Js.IntToString | local-calendars-pro.js:139 | a number printed in a template reads back as the same integer, with a leading minus sign exactly for negatives |
| Decimal.DigitsRoundTrip | local-calendars-pro.js:153 | printing a non-negative integer in decimal and reading it back gives the integer and leaves the following non-digit text untouched |
| Events.ResolveWhen | local-calendars-pro.js:135-136 | start/end is the truthy `dateTime`, else `date` followed by `T00:00:00` when `date` is truthy, else null, and null exactly when neither is truthy |
| Events.IsAllDay | local-calendars-pro.js:134 | an all-day record is an object whose start and end are objects, and neither its start nor its end resolves to null |
| Events.EventTitle | local-calendars-pro.js:140 | the title is the summary if truthy, else the title if truthy, else `(untitled)`, and is always truthy |
| Events.RecordKey | local-calendars-pro.js:139 | the id's middle part is the uid if truthy, else the record id if truthy, else the index |
| Events.ToEvent | local-calendars-pro.js:132-147 | throws (None) exactly on a null or undefined record; otherwise the event refers to its entity, carries that entity's colours with `color` equal to `backgroundColor`, has a truthy title, and its id starts with `entityId:` |
| Records.ToEventOnRecord | local-calendars-pro.js:132-147 | on a Home Assistant record `_toEvent` agrees with the reference normaliser: all-day iff both dates non-empty, start/end resolved date-time first, the first non-empty of summary and title else `(untitled)`, id `entityId:` then the first truthy of uid, id and idx, then `:start` |
| Records.DateOnlyRecord | local-calendars-pro.js:134-136 | a record whose start and end are non-empty dates is all-day and starts and ends at midnight of those dates |
| Records.MissingStart | local-calendars-pro.js:135-139 | a record without a start gets a null start and an id ending in `:null` |
| Records.AllDayIgnoresDateTime | local-calendars-pro.js:134 | adding, changing or removing either `dateTime` never changes the all-day flag |
| Records.TimedRecordWithoutIds | local-calendars-pro.js:132-147 | a timed record without uid or id gets id `entity:idx:start`, its summary as title, all-day false, and its times unchanged |
| WindowCache.CacheKey | local-calendars-pro.js:120 | the key starts with the start string and ends with the end string, two code units apart |
| WindowCache.CacheKeyInjective | local-calendars-pro.js:118-120 | for start strings of equal length, as `toISOString` produces, two windows share a key iff they are the same window |
| WindowCache.NormalizeList | local-calendars-pro.js:125 | `arr.map` succeeds iff no record is null or undefined, and then element i is `_toEvent(arr[i], eid, i)` |
| WindowCache.FetchAll | local-calendars-pro.js:123-126 | `Promise.all` resolves iff every request succeeds and every list normalises, and then list k is entity k's normalised list |
| WindowCache.Flatten | local-calendars-pro.js:127 | `lists.flat()` is empty exactly when every list is empty, and holds exactly the events of the lists |
| WindowCache.FlattenAt | local-calendars-pro.js:127 | element j of list k sits at position Offset(k) + j of `lists.flat()` |
| WindowCache.Locate | local-calendars-pro.js:127 | every position of `lists.flat()` lies in some list k at some index j with Offset(k) + j equal to it |
| WindowCache.DatesSet | local-calendars-pro.js:120-129 | a hit returns the stored list and leaves the cache unchanged; a miss stores and shows the flattened lists exactly when every fetch succeeds; no other key is added and no existing entry changes |
| WindowCache.MergedAt | local-calendars-pro.js:123-128 | record j of entity k becomes merged event Offset(k) + j, normalised with index j |
| WindowCache.MergedFrom | local-calendars-pro.js:123-128 | every merged event is record j of some entity k normalised with index j, and refers back to entity k |
| WindowCache.RevisitServedFromCache | local-calendars-pro.js:121 | after a window has been shown, revisiting it returns the same list and cache whatever the network would now answer |
| Config.NormalizeConfig | local-calendars-pro.js:12-20 | title, view, locale and theme are replaced by their defaults exactly when null or undefined (so `""` and `0` are kept); colours become `{}` exactly when falsy; entities kept iff an array |
| Config.ArrayOrNull | local-calendars-pro.js:16 | `entities` is kept exactly when it is an array, with its elements unchanged |
| Config.NormalizeIdempotent | local-calendars-pro.js:12-20 | configuring with an already-normalised configuration gives the same configuration |
| Config.FalsyPresentDefaults | local-calendars-pro.js:14-19 | a present falsy value (`""`, `0`, `false`) is kept by the `??` fields title, view, locale and theme, while the colour table is replaced by `{}` |
| Config.CalendarPositions | local-calendars-pro.js:37 | the kept positions are strictly increasing, each holds a `calendar.` key, and every `calendar.` key's position is kept |
| Config.CalendarKeys | local-calendars-pro.js:37 | the filter keeps exactly the keys starting with `calendar.`, in their original order |
| Config.ResolveEntities | local-calendars-pro.js:36-40 | a configured array is used as-is (even empty); otherwise the entities are the discovered `calendar.` keys in order |
| CardState.SetConfig | local-calendars-pro.js:12-31 | stores the normalised configuration, empties the cache, clears the widget handle, and leaves the host, entity list and `_initStarted` untouched |
| CardState.SetHass | local-calendars-pro.js:33-44 | records the host and the resolved entity list, and schedules `_initCalendar` exactly on the first call; configuration, cache and widget handle untouched |
| CardState.InitCalendar | local-calendars-pro.js:98-111 | without a container, that is before any `setConfig`, nothing changes; otherwise the widget handle is set and nothing else changes |
| CardState.OnDatesSet | local-calendars-pro.js:116-130 | without a host or with an empty entity list nothing changes; otherwise the cache step runs over the entity ids with the configured colours, and its list is shown only while the widget handle is set |
| CardState.ReconfigureRefetches | local-calendars-pro.js:116-130 | after a new configuration the next window callback misses the emptied cache, stores the window exactly when every fetch succeeds, and shows nothing because the widget handle was cleared |
| CardState.ReconfiguredCardStaysBlank | local-calendars-pro.js:21-43 | on a card whose widget exists, a second `setConfig` followed by a `hass` update schedules no `_initCalendar`, leaves the handle cleared, and no window is shown whatever the network answers |
| CardState.SetConfigReinit | local-calendars-pro.js:12-31 | the corrected `setConfig`: as SetConfig, but `_initStarted` is cleared too |
| CardState.ReinitShowsAgain | local-calendars-pro.js:33-130 | with the corrected `setConfig`, the next `hass` update schedules `_initCalendar`, the widget is created, and a window is shown exactly when every fetch succeeds, as the merged lists |
| CardState.NoCalendarsIsIdle | local-calendars-pro.js:117 | without configured entities and with no `calendar.` keys on the host, the window callback changes nothing and shows nothing |

## Left out

- Script and stylesheet loading from the CDN (`_ensureLoaded`) is left out. It is browser I/O.
- DOM and element lifecycle are left out: `_render`, `_renderLegend`, `connectedCallback`, `disconnectedCallback`, `getCardSize`, `getStubConfig`, `_toolbar`, `_onEventClick` and `_fire`. They are UI only.
- EventCalendar widget calls (`_initCalendar`, `setOption`) are left out. The widget is a foreign library. The list handed to `setOption` is the `shown` result.
- `hass.callApi` is a function parameter (`WindowCache.Fetch`). It maps an entity id to the records returned for the window, or to None when the request rejects or does not return an array. URL encoding is not modelled.
- `Date` parsing and `toISOString` are left out. The ISO strings are opaque inputs.
- Overlapping `_onDatesSet` calls are left out. Their interleaving is an asynchronous race, not a sequential property.
- The host object is reduced to the keys of `hass.states`, the only part the rules read.
- Numbers are integers. Fractions, `NaN`, `-0`, infinities and exponent notation in number printing are left out.
- Property reads are modelled only on objects' own members. Indices and `length` of strings and arrays, and inherited prototype members, read as `undefined`.
- `setConfig` is modelled for object arguments only. A `null` configuration would throw.
- Literals are built from ASCII text (`Js.Ascii`). Every literal the card uses is ASCII.
- CardState.OnDatesSet: requires every resolved entity id to be a string. A configured `entities` array with non-string elements would send them to `_hashColor` (a number has no `length`, giving hue 0; `null` throws) and stringify them in ids and URLs. That behaviour is not modelled.
- CardState.OnDatesSet: requires a stored configuration. The widget that calls it is created only after `_initCalendar` has read `_config`.
- Event id uniqueness is not claimed. The code does not enforce it.
- The widget handle `_ec` is modelled only as set or cleared. Widget options, the initial `getView` call inside `_initCalendar` (modelled as a separate window callback), `_lastRange` and the asynchronous gap between the `hass` update and `_initCalendar` are left out.

## Findings

| source | as written | input that shows it | evidently intended | confidence | as-written member | corrected member |
|---|---|---|---|---|---|---|
| local-calendars-pro.js:21-43 | `setConfig` sets `_ec` to null but leaves `_initStarted` set, so `_initCalendar` never runs again and every later window callback throws at `this._ec.setOption` (line 129) | a card whose widget exists receives a second `setConfig`, then a `hass` update, then a window change | a reconfigured card keeps showing its windows | medium, not executed | CardState.ReconfiguredCardStaysBlank | CardState.SetConfigReinit |

`CardState.SetConfig` models the code as written, so the card model keeps
the defect. `CardState.ReinitShowsAgain` proves the intended behaviour for
the corrected transition `CardState.SetConfigReinit`.
