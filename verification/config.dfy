/** `setConfig`'s defaulting and the entity list chosen by the `hass`
    setter: the configured array, or the host's `calendar.*` state keys. */
module Config {
  import opened Wrappers
  import opened Js

  /** The object `setConfig` stores in `_config`. `entities` is None where
      the source stores `null`. */
  datatype CardConfig = CardConfig(
    title: JsValue,
    defaultView: JsValue,
    entities: Option<seq<JsValue>>,
    locale: JsValue,
    theme: JsValue,
    colors: JsValue)

  /** The own properties of the object passed to `setConfig`. */
  type RawConfig = map<JsString, JsValue>

  const TitleKey: JsString := Ascii("title")
  const ViewKey: JsString := Ascii("default_view")
  const EntitiesKey: JsString := Ascii("entities")
  const LocaleKey: JsString := Ascii("locale")
  const ThemeKey: JsString := Ascii("theme")
  const ColorsKey: JsString := Ascii("colors")

  const DefaultTitle: JsValue := Str(Ascii("Calendar"))
  const DefaultView: JsValue := Str(Ascii("timeGridWeek"))
  const DefaultLocale: JsValue := Str(Ascii("en"))
  const DefaultTheme: JsValue := Str(Ascii("auto"))
  const NoColors: JsValue := Obj(map[])

  /** `config.key`: the property, or `undefined` when absent. */
  function Prop(raw: RawConfig, key: JsString): JsValue {
    if key in raw then raw[key] else Undefined
  }

  /** `Array.isArray(v) ? v : null`. */
  function ArrayOrNull(v: JsValue): (r: Option<seq<JsValue>>)
    ensures r.Some? <==> v.Arr?
    ensures r.Some? ==> r.value == v.items
  {
    if v.Arr? then Some(v.items) else None
  }

  /** `setConfig`: `??` defaults for title, view, locale and theme (only a
      missing, null or undefined value is replaced), `||` for colours (any
      falsy value is replaced by `{}`), and `entities` kept only when it is
      an array. */
  function NormalizeConfig(raw: RawConfig): (c: CardConfig)
    ensures !Nullish(Prop(raw, TitleKey)) ==> c.title == Prop(raw, TitleKey)
    ensures Nullish(Prop(raw, TitleKey)) ==> c.title == DefaultTitle
    ensures !Nullish(Prop(raw, ViewKey)) ==> c.defaultView == Prop(raw, ViewKey)
    ensures Nullish(Prop(raw, ViewKey)) ==> c.defaultView == DefaultView
    ensures !Nullish(Prop(raw, LocaleKey)) ==> c.locale == Prop(raw, LocaleKey)
    ensures Nullish(Prop(raw, LocaleKey)) ==> c.locale == DefaultLocale
    ensures !Nullish(Prop(raw, ThemeKey)) ==> c.theme == Prop(raw, ThemeKey)
    ensures Nullish(Prop(raw, ThemeKey)) ==> c.theme == DefaultTheme
    ensures Truthy(Prop(raw, ColorsKey)) ==> c.colors == Prop(raw, ColorsKey)
    ensures !Truthy(Prop(raw, ColorsKey)) ==> c.colors == NoColors
    ensures c.entities.Some? <==> Prop(raw, EntitiesKey).Arr?
    ensures c.entities.Some? ==> c.entities.value == Prop(raw, EntitiesKey).items
    ensures !Nullish(c.title) && !Nullish(c.defaultView) && !Nullish(c.locale) && !Nullish(c.theme)
    ensures Truthy(c.colors)
  {
    CardConfig(
      title := Coalesce(Prop(raw, TitleKey), DefaultTitle),
      defaultView := Coalesce(Prop(raw, ViewKey), DefaultView),
      entities := ArrayOrNull(Prop(raw, EntitiesKey)),
      locale := Coalesce(Prop(raw, LocaleKey), DefaultLocale),
      theme := Coalesce(Prop(raw, ThemeKey), DefaultTheme),
      colors := Or(Prop(raw, ColorsKey), NoColors))
  }

  /** A stored configuration written back out as a `setConfig` argument;
      a null `entities` is written as `null`. */
  function ToRaw(c: CardConfig): RawConfig {
    map[TitleKey := c.title, ViewKey := c.defaultView,
        EntitiesKey := if c.entities.Some? then Arr(c.entities.value) else Null,
        LocaleKey := c.locale, ThemeKey := c.theme, ColorsKey := c.colors]
  }

  lemma ConfigKeysDistinct()
    ensures TitleKey != ViewKey && TitleKey != EntitiesKey && TitleKey != LocaleKey
    ensures TitleKey != ThemeKey && TitleKey != ColorsKey
    ensures ViewKey != EntitiesKey && ViewKey != LocaleKey && ViewKey != ThemeKey && ViewKey != ColorsKey
    ensures EntitiesKey != LocaleKey && EntitiesKey != ThemeKey && EntitiesKey != ColorsKey
    ensures LocaleKey != ThemeKey && LocaleKey != ColorsKey && ThemeKey != ColorsKey
  {
    assert TitleKey[1] != ThemeKey[1];
    assert LocaleKey[0] != ColorsKey[0];
  }

  /** Configuring with an already-normalised configuration changes nothing:
      every default `setConfig` fills in survives a second pass. */
  lemma NormalizeIdempotent(raw: RawConfig)
    ensures NormalizeConfig(ToRaw(NormalizeConfig(raw))) == NormalizeConfig(raw)
  {
    ConfigKeysDistinct();
  }

  /** The two defaulting operators part ways on a falsy value that is
      present (`""`, `0`, `false`): the `??` fields keep it, while the
      colour table is replaced by `{}`. */
  lemma FalsyPresentDefaults(raw: RawConfig, v: JsValue)
    requires !Nullish(v) && !Truthy(v)
    ensures var c := NormalizeConfig(raw[TitleKey := v][ViewKey := v][LocaleKey := v][ThemeKey := v][ColorsKey := v]);
      && c.title == v && c.defaultView == v && c.locale == v && c.theme == v
      && c.colors == NoColors
  {
    ConfigKeysDistinct();
  }

  const CalendarPrefix: JsString := Ascii("calendar.")

  /** `e.startsWith("calendar.")`. */
  predicate IsCalendarKey(k: JsString) {
    CalendarPrefix <= k
  }

  /** The positions of the `calendar.` keys among `keys`, in order. */
  function CalendarPositions(keys: seq<JsString>): (pos: seq<nat>)
    ensures forall i :: 0 <= i < |pos| ==> pos[i] < |keys| && IsCalendarKey(keys[pos[i]])
    ensures forall i, j :: 0 <= i < j < |pos| ==> pos[i] < pos[j]
    ensures forall q :: 0 <= q < |keys| && IsCalendarKey(keys[q]) ==> q in pos
  {
    if |keys| == 0 then []
    else
      var n := |keys| - 1;
      CalendarPositions(keys[..n]) + (if IsCalendarKey(keys[n]) then [n] else [])
  }

  /** `Object.keys(hass.states).filter((e) => e.startsWith("calendar."))`:
      the `calendar.` keys, in their original order, each as often as it
      occurs. */
  function CalendarKeys(keys: seq<JsString>): (r: seq<JsString>)
    ensures forall k :: k in r <==> k in keys && IsCalendarKey(k)
    ensures |r| == |CalendarPositions(keys)|
    ensures forall i :: 0 <= i < |r| ==> r[i] == keys[CalendarPositions(keys)[i]]
  {
    var pos := CalendarPositions(keys);
    var r := seq(|pos|, i requires 0 <= i < |pos| => keys[pos[i]]);
    assert forall q :: 0 <= q < |keys| && IsCalendarKey(keys[q]) ==> keys[q] in r by {
      forall q | 0 <= q < |keys| && IsCalendarKey(keys[q])
        ensures keys[q] in r
      {
        var i :| 0 <= i < |pos| && pos[i] == q;
        assert r[i] == keys[q];
      }
    }
    r
  }

  /** The entity list the `hass` setter stores: the configured array as-is
      (even when empty), otherwise the discovered `calendar.` keys. */
  function ResolveEntities(config: Option<CardConfig>, keys: seq<JsString>): (r: seq<JsValue>)
    ensures config.Some? && config.value.entities.Some? ==> r == config.value.entities.value
    ensures config.None? || config.value.entities.None? ==>
      && |r| == |CalendarKeys(keys)|
      && forall i :: 0 <= i < |r| ==> r[i] == Str(CalendarKeys(keys)[i])
  {
    if config.Some? && config.value.entities.Some? then config.value.entities.value
    else
      var found := CalendarKeys(keys);
      seq(|found|, i requires 0 <= i < |found| => Str(found[i]))
  }
}
