/** The pure part of `_onDatesSet`: the window key, the per-entity fetch and
    normalisation joined by `Promise.all`, the flattening merge, and the
    never-evicted cache of merged lists. The network request is a function
    parameter: for one window it maps an entity id to the records returned,
    or None when the request rejects or does not return an array. */
module WindowCache {
  import opened Wrappers
  import opened Js
  import opened Events

  /** Merged event lists by window key. Entries are never evicted. */
  type Cache = map<JsString, seq<Event>>

  /** The calendar API as seen for one window. */
  type Fetch = JsString -> Option<seq<JsValue>>

  const Separator: JsString := Ascii("__")

  /** The template `${startIso}__${endIso}`. */
  function CacheKey(startIso: JsString, endIso: JsString): (k: JsString)
    ensures startIso <= k && |k| == |startIso| + 2 + |endIso|
    ensures k[|startIso| + 2..] == endIso
  {
    startIso + Separator + endIso
  }

  /** Windows whose start strings have the same length (as `toISOString`
      always produces for years 0 to 9999) share a key only when they are
      the same window. */
  lemma CacheKeyInjective(s1: JsString, e1: JsString, s2: JsString, e2: JsString)
    requires |s1| == |s2|
    ensures CacheKey(s1, e1) == CacheKey(s2, e2) <==> s1 == s2 && e1 == e2
  {
    if CacheKey(s1, e1) == CacheKey(s2, e2) {
      assert s1 == CacheKey(s1, e1)[..|s1|];
      assert s2 == CacheKey(s2, e2)[..|s2|];
    }
  }

  /** `arr.map((e, idx) => this._toEvent(e, eid, idx))`; None when some
      element is null or undefined, which makes `_toEvent` throw. */
  function NormalizeList(arr: seq<JsValue>, entityId: JsString, colors: JsValue): (r: Option<seq<Event>>)
    ensures r.Some? <==> forall i :: 0 <= i < |arr| ==> !Nullish(arr[i])
    ensures r.Some? ==> |r.value| == |arr|
    ensures r.Some? ==> forall i :: 0 <= i < |arr| ==> Some(r.value[i]) == ToEvent(arr[i], entityId, i, colors)
  {
    if exists i :: 0 <= i < |arr| && Nullish(arr[i]) then None
    else Some(seq(|arr|, i requires 0 <= i < |arr| => ToEvent(arr[i], entityId, i, colors).value))
  }

  /** The per-entity lists `Promise.all` resolves to, in entity order; None
      when any request rejects or any record throws, since `Promise.all`
      then rejects as a whole. */
  function FetchAll(entities: seq<JsString>, fetch: Fetch, colors: JsValue): (r: Option<seq<seq<Event>>>)
    ensures r.Some? <==> forall k :: 0 <= k < |entities| ==>
      fetch(entities[k]).Some? && NormalizeList(fetch(entities[k]).value, entities[k], colors).Some?
    ensures r.Some? ==> |r.value| == |entities|
    ensures r.Some? ==> forall k :: 0 <= k < |entities| ==>
      Some(r.value[k]) == NormalizeList(fetch(entities[k]).value, entities[k], colors)
  {
    if |entities| == 0 then Some([])
    else
      var last := entities[|entities| - 1];
      var init :- FetchAll(entities[..|entities| - 1], fetch, colors);
      var raw :- fetch(last);
      var list :- NormalizeList(raw, last, colors);
      Some(init + [list])
  }

  /** `lists.flat()`: empty exactly when every list is empty, and holding
      exactly the events of the lists. */
  function Flatten(lists: seq<seq<Event>>): (r: seq<Event>)
    ensures r == [] <==> forall k :: 0 <= k < |lists| ==> lists[k] == []
    ensures forall k, e :: 0 <= k < |lists| && e in lists[k] ==> e in r
    ensures forall e :: e in r ==> exists k :: 0 <= k < |lists| && e in lists[k]
  {
    if |lists| == 0 then [] else Flatten(lists[..|lists| - 1]) + lists[|lists| - 1]
  }

  /** Where list `k` starts inside the flattened sequence. */
  function Offset(lists: seq<seq<Event>>, k: nat): nat
    requires k <= |lists|
  {
    |Flatten(lists[..k])|
  }

  lemma {:induction false} OffsetMonotone(lists: seq<seq<Event>>, k: nat)
    requires k < |lists|
    ensures Offset(lists, k) + |lists[k]| <= |Flatten(lists)|
    ensures Offset(lists, k + 1) == Offset(lists, k) + |lists[k]|
    decreases |lists|
  {
    assert lists[..k + 1][..k] == lists[..k];
    if k + 1 < |lists| {
      var init := lists[..|lists| - 1];
      OffsetMonotone(init, k);
      assert init[..k] == lists[..k] && init[..k + 1] == lists[..k + 1];
    } else {
      assert lists[..k + 1] == lists;
    }
  }

  /** Element `j` of list `k` sits at `Offset(lists, k) + j` once flattened. */
  lemma {:induction false} FlattenAt(lists: seq<seq<Event>>, k: nat, j: nat)
    requires k < |lists| && j < |lists[k]|
    ensures Offset(lists, k) + j < |Flatten(lists)|
    ensures Flatten(lists)[Offset(lists, k) + j] == lists[k][j]
    decreases |lists|
  {
    OffsetMonotone(lists, k);
    var init := lists[..|lists| - 1];
    if k + 1 < |lists| {
      FlattenAt(init, k, j);
      assert init[..k] == lists[..k];
    } else {
      assert lists[..k] == init;
    }
  }

  /** The inverse of FlattenAt: every position of the flattened sequence
      lies in exactly one list, at a known index. */
  function Locate(lists: seq<seq<Event>>, p: nat): (kj: (nat, nat))
    requires p < |Flatten(lists)|
    ensures kj.0 < |lists| && kj.1 < |lists[kj.0]|
    ensures Offset(lists, kj.0) + kj.1 == p
    decreases |lists|
  {
    var init := lists[..|lists| - 1];
    var n := |Flatten(init)|;
    assert lists[..|lists| - 1] == init;
    if p < n then
      var kj := Locate(init, p);
      assert init[..kj.0] == lists[..kj.0];
      kj
    else
      (|lists| - 1, p - n)
  }

  /** What `_onDatesSet` leaves behind: the cache and the list handed to
      the widget, if any. */
  datatype Outcome = Outcome(cache: Cache, shown: Option<seq<Event>>)

  /** `_onDatesSet` from the key onwards: serve a cached window, else fetch
      every entity, merge in entity order and record the merged list. */
  function DatesSet(cache: Cache, entities: seq<JsString>, colors: JsValue,
                    startIso: JsString, endIso: JsString, fetch: Fetch): (r: Outcome)
    ensures var key := CacheKey(startIso, endIso);
      && (key in cache ==> r == Outcome(cache, Some(cache[key])))
      && (key !in cache ==> (r.shown.Some? <==> FetchAll(entities, fetch, colors).Some?))
      && (key !in cache && r.shown.Some? ==>
            && r.shown.value == Flatten(FetchAll(entities, fetch, colors).value)
            && r.cache == cache[key := r.shown.value])
      && (r.shown.None? ==> r.cache == cache)
      && (forall k :: k in r.cache && k != key ==> k in cache)
      && (forall k :: k in cache ==> k in r.cache && r.cache[k] == cache[k])
  {
    var key := CacheKey(startIso, endIso);
    if key in cache then Outcome(cache, Some(cache[key]))
    else match FetchAll(entities, fetch, colors)
      case None => Outcome(cache, None)
      case Some(lists) =>
        var merged := Flatten(lists);
        Outcome(cache[key := merged], Some(merged))
  }

  lemma ListAt(entities: seq<JsString>, colors: JsValue, fetch: Fetch, k: nat, j: nat)
    requires FetchAll(entities, fetch, colors).Some?
    requires k < |entities| && j < |fetch(entities[k]).value|
    ensures j < |FetchAll(entities, fetch, colors).value[k]|
    ensures Some(FetchAll(entities, fetch, colors).value[k][j])
         == ToEvent(fetch(entities[k]).value[j], entities[k], j, colors)
  {
    var lists := FetchAll(entities, fetch, colors).value;
    var raw := fetch(entities[k]).value;
    assert Some(lists[k]) == NormalizeList(raw, entities[k], colors);
  }

  /** When every request succeeds, record `j` of entity `k` becomes event
      number `Offset + j` of the merged list, normalised with index `j`. */
  lemma MergedAt(entities: seq<JsString>, colors: JsValue, fetch: Fetch, k: nat, j: nat)
    requires FetchAll(entities, fetch, colors).Some?
    requires k < |entities| && j < |fetch(entities[k]).value|
    ensures var lists := FetchAll(entities, fetch, colors).value;
      && Offset(lists, k) + j < |Flatten(lists)|
      && Some(Flatten(lists)[Offset(lists, k) + j])
         == ToEvent(fetch(entities[k]).value[j], entities[k], j, colors)
  {
    ListAt(entities, colors, fetch, k, j);
    FlattenAt(FetchAll(entities, fetch, colors).value, k, j);
  }

  /** Conversely, every merged event is record `j` of some entity `k`,
      normalised with index `j`, and refers back to that entity. */
  lemma MergedFrom(entities: seq<JsString>, colors: JsValue, fetch: Fetch, p: nat)
    requires FetchAll(entities, fetch, colors).Some?
    requires p < |Flatten(FetchAll(entities, fetch, colors).value)|
    ensures var lists := FetchAll(entities, fetch, colors).value;
      var kj := Locate(lists, p);
      && kj.0 < |entities| && kj.1 < |fetch(entities[kj.0]).value|
      && Some(Flatten(lists)[p])
         == ToEvent(fetch(entities[kj.0]).value[kj.1], entities[kj.0], kj.1, colors)
      && Flatten(lists)[p].entityId == entities[kj.0]
  {
    var lists := FetchAll(entities, fetch, colors).value;
    var kj := Locate(lists, p);
    ListAt(entities, colors, fetch, kj.0, kj.1);
    FlattenAt(lists, kj.0, kj.1);
  }

  /** Returning to a window already shown serves the stored list without
      consulting the network, whatever the network would now answer. */
  lemma RevisitServedFromCache(cache: Cache, entities: seq<JsString>, colors: JsValue,
                               startIso: JsString, endIso: JsString, first: Fetch, later: Fetch)
    requires DatesSet(cache, entities, colors, startIso, endIso, first).shown.Some?
    ensures var r1 := DatesSet(cache, entities, colors, startIso, endIso, first);
      DatesSet(r1.cache, entities, colors, startIso, endIso, later) == r1
  {
  }
}
