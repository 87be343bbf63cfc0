/** The card's state across the host's calls: `setConfig`, the `hass`
    setter and the widget's `datesSet` callback. */
module CardState {
  import opened Wrappers
  import opened Js
  import opened Events
  import opened Config
  import opened WindowCache

  /** The fields the rules read and write: `_config`, `_hass` (only its
      state keys matter), `_entities`, `_eventsCache`, whether the widget
      handle `_ec` is set, and `_initStarted`. */
  datatype Card = Card(
    config: Option<CardConfig>,
    hass: Option<seq<JsString>>,
    entities: Option<seq<JsValue>>,
    cache: Cache,
    widget: bool,
    initStarted: bool)

  const NewCard: Card := Card(None, None, None, map[], false, false)

  /** A widget exists only once loading has started and a configuration
      has been stored. Every transition below keeps this. */
  predicate Consistent(card: Card) {
    card.widget ==> card.initStarted && card.config.Some?
  }

  /** `setConfig`: stores the normalised configuration, starts a fresh,
      empty cache and clears the widget handle. The entity list is not
      recomputed until the next `hass` update, and `_initStarted` keeps its
      value. */
  function SetConfig(card: Card, raw: RawConfig): (r: Card)
    ensures r.config == Some(NormalizeConfig(raw))
    ensures r.cache == map[] && !r.widget
    ensures r.hass == card.hass && r.entities == card.entities && r.initStarted == card.initStarted
    ensures Consistent(r)
  {
    card.(config := Some(NormalizeConfig(raw)), cache := map[], widget := false)
  }

  /** The `hass` setter: records the host and resolves the entity list. The
      second component says whether this call schedules loading and
      `_initCalendar`, which happens on the first call only. */
  function SetHass(card: Card, stateKeys: seq<JsString>): (r: (Card, bool))
    ensures r.0.hass == Some(stateKeys)
    ensures r.0.entities == Some(ResolveEntities(card.config, stateKeys))
    ensures r.0.initStarted && (r.1 <==> !card.initStarted)
    ensures r.0.config == card.config && r.0.cache == card.cache && r.0.widget == card.widget
    ensures Consistent(card) ==> Consistent(r.0)
  {
    (card.(hass := Some(stateKeys), entities := Some(ResolveEntities(card.config, stateKeys)),
           initStarted := true),
     !card.initStarted)
  }

  /** `_initCalendar`, once the widget library is loaded: without a
      container, which only `setConfig` creates, it returns at once;
      otherwise it creates the widget. The widget's first window callback
      is a separate OnDatesSet step. */
  function InitCalendar(card: Card): (r: Card)
    ensures card.config.None? ==> r == card
    ensures card.config.Some? ==> r.widget
    ensures r.(widget := card.widget) == card
    ensures Consistent(card) && card.initStarted ==> Consistent(r)
  {
    if card.config.None? then card else card.(widget := true)
  }

  /** Entity ids as strings. */
  predicate StringEntities(es: seq<JsValue>) {
    forall i :: 0 <= i < |es| ==> es[i].Str?
  }

  function EntityIds(es: seq<JsValue>): (ids: seq<JsString>)
    requires StringEntities(es)
    ensures |ids| == |es| && forall i :: 0 <= i < |es| ==> es[i] == Str(ids[i])
  {
    seq(|es|, i requires 0 <= i < |es| => es[i].s)
  }

  /** `_onDatesSet`: nothing happens without a host or with no entities;
      otherwise the window is served from or added to the cache, and the
      list reaches the widget through `this._ec.setOption`. With the handle
      cleared that call throws: a hit then changes nothing, and a miss has
      already stored the window. The widget that calls it is only created
      after `_config` has been read, so a configuration is present. */
  function OnDatesSet(card: Card, startIso: JsString, endIso: JsString, fetch: Fetch): (r: (Card, Option<seq<Event>>))
    requires card.config.Some?
    requires card.entities.Some? ==> StringEntities(card.entities.value)
    ensures card.hass.None? || card.entities.None? || |card.entities.value| == 0 ==> r == (card, None)
    ensures card.hass.Some? && card.entities.Some? && |card.entities.value| > 0 ==>
      var o := DatesSet(card.cache, EntityIds(card.entities.value), card.config.value.colors, startIso, endIso, fetch);
      && r.0 == card.(cache := o.cache)
      && r.1 == (if card.widget then o.shown else None)
    ensures !card.widget ==> r.1.None?
    ensures r.0.config == card.config && r.0.hass == card.hass && r.0.entities == card.entities
    ensures r.0.widget == card.widget && r.0.initStarted == card.initStarted
  {
    if card.hass.None? || card.entities.None? || |card.entities.value| == 0 then (card, None)
    else
      var o := DatesSet(card.cache, EntityIds(card.entities.value), card.config.value.colors, startIso, endIso, fetch);
      (card.(cache := o.cache), if card.widget then o.shown else None)
  }

  /** A new configuration forgets every cached window and the widget
      handle: the next window callback asks the network again, stores the
      window exactly when every request succeeds, and shows nothing. */
  lemma ReconfigureRefetches(card: Card, raw: RawConfig, startIso: JsString, endIso: JsString, fetch: Fetch)
    requires card.hass.Some? && card.entities.Some? && |card.entities.value| > 0
    requires StringEntities(card.entities.value)
    ensures var c := SetConfig(card, raw);
      var ids := EntityIds(card.entities.value);
      var r := OnDatesSet(c, startIso, endIso, fetch);
      && (CacheKey(startIso, endIso) in r.0.cache <==> FetchAll(ids, fetch, c.config.value.colors).Some?)
      && r.1.None?
  {
  }

  /** As written, a card whose widget exists stays blank after a second
      `setConfig`: `_initStarted` is still set, so no later `hass` update
      schedules `_initCalendar`, the handle stays cleared, and no window is
      shown again whatever the network answers. */
  lemma ReconfiguredCardStaysBlank(card: Card, raw: RawConfig, stateKeys: seq<JsString>,
                                   startIso: JsString, endIso: JsString, fetch: Fetch)
    requires Consistent(card) && card.widget
    requires StringEntities(ResolveEntities(Some(NormalizeConfig(raw)), stateKeys))
    ensures var h := SetHass(SetConfig(card, raw), stateKeys);
      && !h.1 && !h.0.widget
      && OnDatesSet(h.0, startIso, endIso, fetch).1 == None
  {
  }

  /** The evidently intended reconfiguration: as SetConfig, but also
      clearing `_initStarted`, so the next `hass` update creates the widget
      again. */
  function SetConfigReinit(card: Card, raw: RawConfig): (r: Card)
    ensures r.config == Some(NormalizeConfig(raw))
    ensures r.cache == map[] && !r.widget && !r.initStarted
    ensures r.hass == card.hass && r.entities == card.entities
    ensures Consistent(r)
  {
    card.(config := Some(NormalizeConfig(raw)), cache := map[], widget := false, initStarted := false)
  }

  /** With SetConfigReinit a reconfigured card shows windows again: the next
      `hass` update schedules `_initCalendar`, the widget is created, and a
      window is shown exactly when every request succeeds, as the merged
      lists of its entities. */
  lemma ReinitShowsAgain(card: Card, raw: RawConfig, stateKeys: seq<JsString>,
                         startIso: JsString, endIso: JsString, fetch: Fetch)
    requires var es := ResolveEntities(Some(NormalizeConfig(raw)), stateKeys);
      |es| > 0 && StringEntities(es)
    ensures var h := SetHass(SetConfigReinit(card, raw), stateKeys);
      var w := InitCalendar(h.0);
      var ids := EntityIds(ResolveEntities(Some(NormalizeConfig(raw)), stateKeys));
      var lists := FetchAll(ids, fetch, NormalizeConfig(raw).colors);
      var r := OnDatesSet(w, startIso, endIso, fetch);
      && h.1 && w.widget && Consistent(w)
      && (r.1.Some? <==> lists.Some?)
      && (lists.Some? ==> r.1 == Some(Flatten(lists.value)))
  {
  }

  /** Without configured entities, a host with no `calendar.` keys leaves
      the card idle: the window callback neither fetches nor caches. */
  lemma NoCalendarsIsIdle(raw: RawConfig, stateKeys: seq<JsString>, startIso: JsString, endIso: JsString, fetch: Fetch)
    requires !Prop(raw, EntitiesKey).Arr?
    requires forall i :: 0 <= i < |stateKeys| ==> !IsCalendarKey(stateKeys[i])
    ensures var c := SetHass(SetConfig(NewCard, raw), stateKeys).0;
      OnDatesSet(c, startIso, endIso, fetch) == (c, None)
  {
  }
}
