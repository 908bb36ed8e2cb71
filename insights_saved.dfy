/** lib/insights/saved.ts: the list of saved insight summaries kept in one storage slot,
    normalised on every read, newest first, at most three. */
module InsightsSaved {
  import opened Strings
  import opened JsValues
  import opened InsightTypes

  const SavedKey := "drislam:insights:saved"
  /** `slice(0, 3)`: how many summaries are kept. */
  const Capacity := 3

  /** One saved summary after normalisation.  `level` is whatever the stored entry held
      (the source casts it without checking), with `informational` for a missing one. */
  datatype SavedInsight = SavedInsight(id: string, moduleSlug: string, at: JsNumber,
                                       level: JsValue, summary: Localized)

  /** The storage slot under `SavedKey` as `getItem` and `JSON.parse` see it: no item, the
      empty string, text that does not parse, or the parsed value. */
  datatype Slot = Absent | EmptyText | Unparsable | Json(value: JsValue)

  /** First filter: `x && typeof x === 'object'` (arrays pass, as in JavaScript). */
  predicate IsObjectLike(x: JsValue) {
    Truthy(x) && TypeOf(x) == "object"
  }

  function KeepObjects(xs: seq<JsValue>): (r: seq<JsValue>)
    ensures |r| <= |xs|
    ensures forall k :: 0 <= k < |r| ==> IsObjectLike(r[k])
  {
    if xs == [] then []
    else (if IsObjectLike(xs[0]) then [xs[0]] else []) + KeepObjects(xs[1..])
  }

  /** The `map` step: every field read with its default. */
  function Normalize(x: JsValue): (r: SavedInsight)
    ensures !Nullish(r.level)
    ensures Nullish(Get(x, "level")) ==> r.level == JStr("informational")
    ensures !Nullish(Get(x, "level")) ==> r.level == Get(x, "level")
    ensures Nullish(Get(x, "id")) ==> r.id == ""
    ensures Get(x, "id").JStr? ==> r.id == Get(x, "id").s
    ensures Nullish(Get(x, "module")) ==> r.moduleSlug == ""
    ensures Get(x, "module").JStr? ==> r.moduleSlug == Get(x, "module").s
    ensures Nullish(Get(Get(x, "summary"), "en")) ==> r.summary.en == ""
    ensures Nullish(Get(Get(x, "summary"), "ar")) ==> r.summary.ar == ""
    ensures Get(x, "at").JNum? ==> r.at == Num(Get(x, "at").n)
    ensures Nullish(Get(x, "at")) ==> r.at == Num(0)
  {
    var summary := Get(x, "summary");
    SavedInsight(TextOr(Get(x, "id")), TextOr(Get(x, "module")),
                 ToNumber(Coalesce(Get(x, "at"), JNum(0))),
                 Coalesce(Get(x, "level"), JStr("informational")),
                 Localized(TextOr(Get(summary, "en")), TextOr(Get(summary, "ar"))))
  }

  function NormalizeAll(xs: seq<JsValue>): (r: seq<SavedInsight>)
    ensures |r| == |xs| && forall k :: 0 <= k < |xs| ==> r[k] == Normalize(xs[k])
  {
    if xs == [] then [] else [Normalize(xs[0])] + NormalizeAll(xs[1..])
  }

  /** Second filter: `x.id && x.module && x.at`. */
  predicate Complete(e: SavedInsight) {
    e.id != "" && e.moduleSlug != "" && NumTruthy(e.at)
  }

  function KeepComplete(es: seq<SavedInsight>): (r: seq<SavedInsight>)
    ensures |r| <= |es|
    ensures forall k :: 0 <= k < |r| ==> Complete(r[k]) && r[k] in es
  {
    if es == [] then []
    else (if Complete(es[0]) then [es[0]] else []) + KeepComplete(es[1..])
  }

  function Take(es: seq<SavedInsight>, n: nat): (r: seq<SavedInsight>)
    ensures |es| <= n ==> r == es
    ensures |es| > n ==> r == es[..n]
  {
    if |es| <= n then es else es[..n]
  }

  /** The `filter`, `map`, `filter`, `slice` pipeline over the stored array. */
  function Pipeline(items: seq<JsValue>): seq<SavedInsight> {
    Take(KeepComplete(NormalizeAll(KeepObjects(items))), Capacity)
  }

  /** Well-formed saved list: what `loadSaved` can return. */
  predicate WellFormed(es: seq<SavedInsight>) {
    |es| <= Capacity && forall k :: 0 <= k < |es| ==> Complete(es[k]) && !Nullish(es[k].level)
  }

  /** `loadSaved`: nothing without a window, for a missing, empty or unparsable item, or for
      a value that is not an array; otherwise the pipeline's result. */
  function LoadFrom(hasWindow: bool, slot: Slot): (r: seq<SavedInsight>)
    ensures WellFormed(r)
    ensures !hasWindow || !slot.Json? || !slot.value.JArr? ==> r == []
  {
    if !hasWindow then []
    else
      match slot
      case Json(JArr(items)) =>
        var r := Pipeline(items);
        assert forall k :: 0 <= k < |r| ==> exists j :: 0 <= j < |KeepObjects(items)| && r[k] == Normalize(KeepObjects(items)[j]);
        r
      case _ => []
  }

  /** Whether a stored item passes both filters. */
  predicate Survives(x: JsValue) {
    IsObjectLike(x) && Complete(Normalize(x))
  }

  /** An independent, single-pass reading of the pipeline: walk the stored array once,
      keeping each object-like entry whose normalised form is complete, until `room` runs
      out. */
  function Scan(items: seq<JsValue>, room: nat): (r: seq<SavedInsight>)
    ensures |r| <= room
  {
    if items == [] || room == 0 then []
    else if Survives(items[0]) then
      [Normalize(items[0])] + Scan(items[1..], room - 1)
    else Scan(items[1..], room)
  }

  /** The surviving entries of `items`, in stored order, without a cap. */
  function Survivors(items: seq<JsValue>): seq<SavedInsight> {
    if items == [] then []
    else (if Survives(items[0]) then [Normalize(items[0])] else []) + Survivors(items[1..])
  }

  /** The first `filter`, the `map` and the second `filter`, on a stored array that starts
      with `x`. */
  lemma {:induction false} FiltersCons(x: JsValue, rest: seq<JsValue>)
    ensures KeepComplete(NormalizeAll(KeepObjects([x] + rest))) ==
      (if Survives(x) then [Normalize(x)] else []) + KeepComplete(NormalizeAll(KeepObjects(rest)))
  {
    assert ([x] + rest)[1..] == rest;
    var objs := KeepObjects(rest);
    if IsObjectLike(x) {
      assert KeepObjects([x] + rest) == [x] + objs;
      assert NormalizeAll([x] + objs) == [Normalize(x)] + NormalizeAll(objs);
      var ns := [Normalize(x)] + NormalizeAll(objs);
      assert ns[1..] == NormalizeAll(objs);
      assert KeepComplete(ns) ==
        (if Complete(Normalize(x)) then [Normalize(x)] else []) + KeepComplete(NormalizeAll(objs));
    } else {
      assert KeepObjects([x] + rest) == objs;
    }
  }

  /** The two filters and the map keep exactly the survivors, in stored order. */
  lemma {:induction false} SurvivorsAreFiltered(items: seq<JsValue>)
    ensures Survivors(items) == KeepComplete(NormalizeAll(KeepObjects(items)))
  {
    if items != [] {
      assert items == [items[0]] + items[1..];
      FiltersCons(items[0], items[1..]);
      SurvivorsAreFiltered(items[1..]);
    }
  }

  lemma {:induction false} TakeCons(e: SavedInsight, es: seq<SavedInsight>, n: nat)
    ensures Take([e] + es, n + 1) == [e] + Take(es, n)
  {
    if |es| > n {
      assert ([e] + es)[..n + 1] == [e] + es[..n];
    }
  }

  /** The scan keeps the first `room` survivors, in their stored order. */
  lemma {:induction false} ScanTakesSurvivors(items: seq<JsValue>, room: nat)
    ensures Scan(items, room) == Take(Survivors(items), room)
  {
    if items != [] && room > 0 {
      var x, rest := items[0], items[1..];
      if Survives(x) {
        ScanTakesSurvivors(rest, room - 1);
        TakeCons(Normalize(x), Survivors(rest), room - 1);
      } else {
        ScanTakesSurvivors(rest, room);
      }
    }
  }

  /** Walking the stored array once and stopping at three is the filter, map, filter and
      slice pipeline. */
  lemma ScanIsPipeline(items: seq<JsValue>)
    ensures Scan(items, Capacity) == Pipeline(items)
  {
    ScanTakesSurvivors(items, Capacity);
    SurvivorsAreFiltered(items);
  }

  /** `{ ...entry, id }` as `saveInsight` builds it: the id is `module:at`. */
  function NewEntry(moduleSlug: string, at: int, level: Level, summary: Localized): (r: SavedInsight)
    ensures r.id == moduleSlug + ":" + IntToString(at)
    ensures r.moduleSlug == moduleSlug && r.at == Num(at) && r.summary == summary
    ensures r.level == JStr(level.Name())
  {
    SavedInsight(moduleSlug + ":" + IntToString(at), moduleSlug, Num(at), JStr(level.Name()), summary)
  }

  /** `filter((e) => e.id !== id)`. */
  function WithoutId(es: seq<SavedInsight>, id: string): (r: seq<SavedInsight>)
    ensures |r| <= |es|
    ensures forall k :: 0 <= k < |r| ==> r[k].id != id && r[k] in es
    ensures forall e :: e in es && e.id != id ==> e in r
    ensures (forall k :: 0 <= k < |es| ==> es[k].id != id) ==> r == es
    ensures |es| == 1 ==> r == (if es[0].id != id then es else [])
  {
    if es == [] then []
    else (if es[0].id != id then [es[0]] else []) + WithoutId(es[1..], id)
  }

  /** The filter works entry by entry: filtering a concatenation filters each part and
      keeps the parts in order, so the surviving entries keep their stored order. */
  lemma {:induction false} WithoutIdAppend(a: seq<SavedInsight>, b: seq<SavedInsight>, id: string)
    ensures WithoutId(a + b, id) == WithoutId(a, id) + WithoutId(b, id)
  {
    if a != [] {
      assert (a + b)[0] == a[0] && (a + b)[1..] == a[1..] + b;
      WithoutIdAppend(a[1..], b, id);
    } else {
      assert a + b == b;
    }
  }

  /** The list `saveInsight` writes: the new entry first, then the earlier entries with a
      different id, cut to three. */
  function SaveList(existing: seq<SavedInsight>, e: SavedInsight): (r: seq<SavedInsight>)
    ensures 1 <= |r| <= Capacity
    ensures r[0] == e
    ensures forall k :: 1 <= k < |r| ==> r[k].id != e.id && r[k] in existing
    ensures var rest := WithoutId(existing, e.id);
      |r| == (if 1 + |rest| < Capacity then 1 + |rest| else Capacity) && r[1..] == rest[..|r| - 1]
  {
    Take([e] + WithoutId(existing, e.id), Capacity)
  }

  /** The JSON object `JSON.stringify` writes for one entry, as it parses back. */
  function Encode(e: SavedInsight): JsValue {
    JObj(map["id" := JStr(e.id), "module" := JStr(e.moduleSlug), "at" := NumberToJson(e.at),
             "level" := e.level,
             "summary" := JObj(map["en" := JStr(e.summary.en), "ar" := JStr(e.summary.ar)])])
  }

  function EncodeAll(es: seq<SavedInsight>): (r: seq<JsValue>)
    ensures |r| == |es| && forall k :: 0 <= k < |es| ==> r[k] == Encode(es[k])
  {
    if es == [] then [] else [Encode(es[0])] + EncodeAll(es[1..])
  }

  /** A complete entry reads back as itself. */
  lemma NormalizeEncode(e: SavedInsight)
    requires Complete(e) && !Nullish(e.level)
    ensures IsObjectLike(Encode(e))
    ensures Normalize(Encode(e)) == e
  {
    var x := Encode(e);
    assert Get(x, "summary") == JObj(map["en" := JStr(e.summary.en), "ar" := JStr(e.summary.ar)]);
    assert Get(x, "at") == NumberToJson(e.at);
  }

  /** Reading back a written well-formed list gives the same list. */
  lemma {:induction false} LoadEncoded(es: seq<SavedInsight>)
    requires WellFormed(es)
    ensures LoadFrom(true, Json(JArr(EncodeAll(es)))) == es
  {
    SurvivorsEncoded(es);
    SurvivorsAreFiltered(EncodeAll(es));
  }

  lemma {:induction false} SurvivorsEncoded(es: seq<SavedInsight>)
    requires forall k :: 0 <= k < |es| ==> Complete(es[k]) && !Nullish(es[k].level)
    ensures Survivors(EncodeAll(es)) == es
  {
    if es != [] {
      var x, rest := Encode(es[0]), EncodeAll(es[1..]);
      assert EncodeAll(es) == [x] + rest;
      assert ([x] + rest)[0] == x && ([x] + rest)[1..] == rest;
      NormalizeEncode(es[0]);
      SurvivorsEncoded(es[1..]);
      assert es == [es[0]] + es[1..];
    }
  }

  /** The storage slot and whether a `window` exists (server rendering has none). */
  class SavedStore {
    var hasWindow: bool
    var slot: Slot

    constructor (hasWindow: bool, slot: Slot)
      ensures this.hasWindow == hasWindow && this.slot == slot
    {
      this.hasWindow := hasWindow;
      this.slot := slot;
    }

    /** `loadSaved()`. */
    function Load(): seq<SavedInsight>
      reads this
    {
      LoadFrom(hasWindow, slot)
    }

    /** `saveInsight(entry)`: no-op without a window; otherwise writes `SaveList` of the
        current list and the new entry. */
    method SaveInsight(moduleSlug: string, at: int, level: Level, summary: Localized)
      modifies this
      ensures hasWindow == old(hasWindow)
      ensures !old(hasWindow) ==> slot == old(slot)
      ensures old(hasWindow) ==>
        slot == Json(JArr(EncodeAll(SaveList(old(Load()), NewEntry(moduleSlug, at, level, summary)))))
    {
      if !hasWindow {
        return;
      }
      var entry := NewEntry(moduleSlug, at, level, summary);
      var existing := Load();
      slot := Json(JArr(EncodeAll(SaveList(existing, entry))));
    }

    /** `removeSaved(id)`: no-op without a window; otherwise writes the current list
        without the entries carrying `id`. */
    method RemoveSaved(id: string)
      modifies this
      ensures hasWindow == old(hasWindow)
      ensures !old(hasWindow) ==> slot == old(slot)
      ensures old(hasWindow) ==> slot == Json(JArr(EncodeAll(WithoutId(old(Load()), id))))
    {
      if !hasWindow {
        return;
      }
      var next := WithoutId(Load(), id);
      slot := Json(JArr(EncodeAll(next)));
    }
  }

  /** After a save with a non-empty module and a non-zero time, the list reads back with
      the new entry first and exactly one entry carrying its id. */
  lemma LoadAfterSave(existing: seq<SavedInsight>, moduleSlug: string, at: int, level: Level,
                      summary: Localized)
    requires WellFormed(existing)
    requires moduleSlug != "" && at != 0
    ensures var e := NewEntry(moduleSlug, at, level, summary);
            var loaded := LoadFrom(true, Json(JArr(EncodeAll(SaveList(existing, e)))));
            && loaded == SaveList(existing, e)
            && loaded[0] == e
            && forall k :: 1 <= k < |loaded| ==> loaded[k].id != e.id
  {
    var e := NewEntry(moduleSlug, at, level, summary);
    var r := SaveList(existing, e);
    forall k | 0 <= k < |r|
      ensures Complete(r[k]) && !Nullish(r[k].level)
    {
      if k > 0 {
        assert r[k] in existing;
      }
    }
    LoadEncoded(r);
  }

  /** Saving the same module and time twice still leaves one entry with that id. */
  lemma SaveTwiceKeepsOne(existing: seq<SavedInsight>, moduleSlug: string, at: int,
                          level: Level, summary: Localized)
    requires WellFormed(existing)
    requires moduleSlug != "" && at != 0
    ensures var e := NewEntry(moduleSlug, at, level, summary);
            var once := SaveList(existing, e);
            var twice := SaveList(LoadFrom(true, Json(JArr(EncodeAll(once)))), e);
            && twice[0] == e
            && forall k :: 1 <= k < |twice| ==> twice[k].id != e.id
  {
    LoadAfterSave(existing, moduleSlug, at, level, summary);
  }

  /** After a removal the list reads back as the earlier list without that id, in order. */
  lemma LoadAfterRemove(existing: seq<SavedInsight>, id: string)
    requires WellFormed(existing)
    ensures var loaded := LoadFrom(true, Json(JArr(EncodeAll(WithoutId(existing, id)))));
            && loaded == WithoutId(existing, id)
            && (forall k :: 0 <= k < |loaded| ==> loaded[k].id != id)
            && forall k :: 0 <= k <= |existing| ==>
                 loaded == WithoutId(existing[..k], id) + WithoutId(existing[k..], id)
  {
    forall k | 0 <= k <= |existing|
      ensures WithoutId(existing, id) == WithoutId(existing[..k], id) + WithoutId(existing[k..], id)
    {
      assert existing[..k] + existing[k..] == existing;
      WithoutIdAppend(existing[..k], existing[k..], id);
    }
    var r := WithoutId(existing, id);
    assert forall k :: 0 <= k < |r| ==> r[k] in existing;
    LoadEncoded(r);
  }
}
