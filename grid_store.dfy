/**
 * The widget state store: the single source of truth of the dashboard. It
 * holds the ordered widget list, the drag flag with the dragged widget's id
 * and the per-widget page numbers. Every action replaces the state at once;
 * the per-widget transforms are the pure functions below and the `Store`
 * class applies them to its fields.
 */
module GridStore {
  import opened Wrappers
  import WidgetConstants

  datatype WidgetType = UserTable | UserStats | UserActivity | UserGrowth | UserLocations | Custom

  /** The literal each widget type is written as. */
  function TypeName(t: WidgetType): string {
    match t
    case UserTable => "user-table"
    case UserStats => "user-stats"
    case UserActivity => "user-activity"
    case UserGrowth => "user-growth"
    case UserLocations => "user-locations"
    case Custom => "custom"
  }

  /**
   * A widget's content object. The store copies it around without looking
   * inside; the seed's five blobs are told apart by their key.
   */
  datatype Payload = Payload(key: nat)

  datatype GridWidgetData = GridWidgetData(
    id: string,
    title: string,
    widgetType: WidgetType,
    data: Payload,
    visible: bool,
    x: int,
    y: int,
    w: int,
    h: int)
  {
    function Rect(): WidgetConstants.Rect {
      WidgetConstants.Rect(x, y, w, h)
    }

    /** Equal to `other` except perhaps in x, y, w and h. */
    predicate SameExceptPosition(other: GridWidgetData) {
      this == other.(x := x, y := y, w := w, h := h)
    }
  }

  /** The seed list: what the store starts with and what `restoreAllWidgets` brings back. */
  const InitialWidgets: seq<GridWidgetData> := [
    GridWidgetData("widget-1", "Clientes Registrados", UserTable, Payload(1), true, 0, 0, 6, 4),
    GridWidgetData("widget-2", "Estadísticas de Clientes", UserStats, Payload(2), true, 0, 4, 3, 2),
    GridWidgetData("widget-3", "Actividad de Clientes", UserActivity, Payload(3), true, 3, 4, 3, 2),
    GridWidgetData("widget-4", "Crecimiento de Clientes", UserGrowth, Payload(4), true, 0, 6, 3, 3),
    GridWidgetData("widget-5", "Ubicaciones de Clientes", UserLocations, Payload(5), true, 3, 6, 3, 3)
  ]

  /** The key the persisted state is stored under. */
  const PersistKey: string := "grid-storage"

  predicate DistinctIds(ws: seq<GridWidgetData>) {
    forall i, j :: 0 <= i < j < |ws| ==> ws[i].id != ws[j].id
  }

  /** The seed is the default layout: the same ids, in numbering order, at the default rectangles. */
  lemma SeedMatchesDefaults()
    ensures |InitialWidgets| == |WidgetConstants.DefaultIds|
    ensures forall i :: 0 <= i < |InitialWidgets| ==>
              InitialWidgets[i].id == WidgetConstants.DefaultIds[i]
              && InitialWidgets[i].Rect() == WidgetConstants.DefaultPositions[InitialWidgets[i].id]
    ensures DistinctIds(InitialWidgets)
    ensures forall i :: 0 <= i < |InitialWidgets| ==> InitialWidgets[i].visible
    ensures PersistKey == WidgetConstants.GridStorage
  {
  }

  // ---------------------------------------------------------------- updateWidget

  /** `Partial<GridWidgetData>`: a field is present exactly when it is `Some`. */
  datatype WidgetPatch = WidgetPatch(
    id: Option<string>,
    title: Option<string>,
    widgetType: Option<WidgetType>,
    data: Option<Payload>,
    visible: Option<bool>,
    x: Option<int>,
    y: Option<int>,
    w: Option<int>,
    h: Option<int>)

  const EmptyPatch: WidgetPatch := WidgetPatch(None, None, None, None, None, None, None, None, None)

  function PositionPatch(x: int, y: int, w: int, h: int): WidgetPatch {
    EmptyPatch.(x := Some(x), y := Some(y), w := Some(w), h := Some(h))
  }

  /** A field after `{ ...widget, ...updates }`: the update's value if present, else the old one. */
  predicate Overwritten<T(==)>(now: T, given: Option<T>, before: T) {
    if given.Some? then now == given.value else now == before
  }

  /** `{ ...widget, ...updates }`. */
  function ApplyPatch(w: GridWidgetData, p: WidgetPatch): (r: GridWidgetData)
    ensures Overwritten(r.id, p.id, w.id) && Overwritten(r.title, p.title, w.title)
    ensures Overwritten(r.widgetType, p.widgetType, w.widgetType) && Overwritten(r.data, p.data, w.data)
    ensures Overwritten(r.visible, p.visible, w.visible)
    ensures Overwritten(r.x, p.x, w.x) && Overwritten(r.y, p.y, w.y)
    ensures Overwritten(r.w, p.w, w.w) && Overwritten(r.h, p.h, w.h)
  {
    GridWidgetData(p.id.GetOr(w.id), p.title.GetOr(w.title), p.widgetType.GetOr(w.widgetType),
                   p.data.GetOr(w.data), p.visible.GetOr(w.visible),
                   p.x.GetOr(w.x), p.y.GetOr(w.y), p.w.GetOr(w.w), p.h.GetOr(w.h))
  }

  /** `updateWidget(id, updates)`: every widget with that id takes the update; the rest stay. */
  function PatchWidgets(ws: seq<GridWidgetData>, id: string, p: WidgetPatch): (r: seq<GridWidgetData>)
    ensures |r| == |ws|
    ensures forall i :: 0 <= i < |ws| && ws[i].id == id ==> r[i] == ApplyPatch(ws[i], p)
    ensures forall i :: 0 <= i < |ws| && ws[i].id != id ==> r[i] == ws[i]
  {
    seq(|ws|, i requires 0 <= i < |ws| => if ws[i].id == id then ApplyPatch(ws[i], p) else ws[i])
  }

  /** An update with no fields changes nothing; applying the same update twice is applying it once. */
  lemma PatchWidgetsNeutralAndIdempotent(ws: seq<GridWidgetData>, id: string, p: WidgetPatch)
    ensures PatchWidgets(ws, id, EmptyPatch) == ws
    ensures p.id.None? ==> PatchWidgets(PatchWidgets(ws, id, p), id, p) == PatchWidgets(ws, id, p)
  {
    assert PatchWidgets(ws, id, EmptyPatch) == ws;
  }

  // ---------------------------------------------------------------- updateWidgetPosition

  /**
   * `updateWidgetPosition(id, x, y, w, h)`: the widgets with that id take the
   * four values exactly as given (no clamping); nothing else changes.
   */
  function MoveWidgets(ws: seq<GridWidgetData>, id: string, x: int, y: int, w: int, h: int)
    : (r: seq<GridWidgetData>)
    ensures |r| == |ws|
    ensures forall i :: 0 <= i < |ws| ==> r[i].SameExceptPosition(ws[i])
    ensures forall i :: 0 <= i < |ws| && ws[i].id == id ==> r[i].Rect() == WidgetConstants.Rect(x, y, w, h)
    ensures forall i :: 0 <= i < |ws| && ws[i].id != id ==> r[i] == ws[i]
  {
    seq(|ws|, i requires 0 <= i < |ws| =>
      if ws[i].id == id then ws[i].(x := x, y := y, w := w, h := h) else ws[i])
  }

  /** Moving a widget is the update that carries only the four position fields. */
  lemma MoveIsPositionPatch(ws: seq<GridWidgetData>, id: string, x: int, y: int, w: int, h: int)
    ensures MoveWidgets(ws, id, x, y, w, h) == PatchWidgets(ws, id, PositionPatch(x, y, w, h))
  {
  }

  /** An unknown id leaves the list as it is. */
  lemma MoveUnknownId(ws: seq<GridWidgetData>, id: string, x: int, y: int, w: int, h: int)
    requires forall i :: 0 <= i < |ws| ==> ws[i].id != id
    ensures MoveWidgets(ws, id, x, y, w, h) == ws
  {
  }

  /** A rectangle outside the container is stored as given. */
  lemma MoveStoresUnclamped()
    ensures var r := MoveWidgets(InitialWidgets, "widget-2", 5, 39, 4, 3);
            r[1].Rect() == WidgetConstants.Rect(5, 39, 4, 3)
            && !WidgetConstants.InContainer(r[1].Rect())
  {
  }

  // ---------------------------------------------------------------- removeWidget

  /** `removeWidget(id)`: keeps the widgets with a different id, in their order. */
  function RemoveById(ws: seq<GridWidgetData>, id: string): (r: seq<GridWidgetData>)
    ensures |r| <= |ws|
    ensures forall i :: 0 <= i < |r| ==> r[i].id != id
    ensures (forall i :: 0 <= i < |ws| ==> ws[i].id != id) ==> r == ws
  {
    if ws == [] then []
    else (if ws[0].id == id then [] else [ws[0]]) + RemoveById(ws[1..], id)
  }

  /** Exactly the widgets with a different id survive. */
  lemma {:induction false} RemoveByIdMembers(ws: seq<GridWidgetData>, id: string)
    ensures forall w :: w in RemoveById(ws, id) <==> w in ws && w.id != id
  {
    if ws != [] {
      RemoveByIdMembers(ws[1..], id);
      assert ws == [ws[0]] + ws[1..];
    }
  }

  /** One step of the removal, on a list written as head and tail. */
  lemma RemoveByIdCons(x: GridWidgetData, rest: seq<GridWidgetData>, id: string)
    ensures RemoveById([x] + rest, id) == (if x.id == id then [] else [x]) + RemoveById(rest, id)
  {
    assert ([x] + rest)[0] == x;
    assert ([x] + rest)[1..] == rest;
  }

  /** Removal works piecewise, so the survivors keep their relative order. */
  lemma {:induction false} RemoveByIdAppend(a: seq<GridWidgetData>, b: seq<GridWidgetData>, id: string)
    ensures RemoveById(a + b, id) == RemoveById(a, id) + RemoveById(b, id)
  {
    if a != [] {
      var head := if a[0].id == id then [] else [a[0]];
      assert a + b == [a[0]] + (a[1..] + b);
      RemoveByIdCons(a[0], a[1..] + b, id);
      RemoveByIdAppend(a[1..], b, id);
      assert RemoveById(a, id) == head + RemoveById(a[1..], id);
      assert head + (RemoveById(a[1..], id) + RemoveById(b, id))
          == (head + RemoveById(a[1..], id)) + RemoveById(b, id);
    } else {
      assert a + b == b;
    }
  }

  /** Removing twice is removing once. */
  lemma {:induction false} RemoveByIdIdempotent(ws: seq<GridWidgetData>, id: string)
    ensures RemoveById(RemoveById(ws, id), id) == RemoveById(ws, id)
  {
    if ws != [] {
      RemoveByIdIdempotent(ws[1..], id);
      if ws[0].id != id {
        var r := RemoveById(ws, id);
        assert r == [ws[0]] + RemoveById(ws[1..], id);
        assert r[0] == ws[0] && r[1..] == RemoveById(ws[1..], id);
      }
    }
  }

  // ---------------------------------------------------------------- toggleWidgetVisibility

  /** `toggleWidgetVisibility(id)`: flips `visible` of the widgets with that id, and only that. */
  function ToggleVisibility(ws: seq<GridWidgetData>, id: string): (r: seq<GridWidgetData>)
    ensures |r| == |ws|
    ensures forall i :: 0 <= i < |ws| ==> r[i] == ws[i].(visible := r[i].visible)
    ensures forall i :: 0 <= i < |ws| ==> r[i].visible == (if ws[i].id == id then !ws[i].visible else ws[i].visible)
  {
    seq(|ws|, i requires 0 <= i < |ws| =>
      if ws[i].id == id then ws[i].(visible := !ws[i].visible) else ws[i])
  }

  /** Toggling twice gives back the original list. */
  lemma ToggleTwice(ws: seq<GridWidgetData>, id: string)
    ensures ToggleVisibility(ToggleVisibility(ws, id), id) == ws
  {
    var once := ToggleVisibility(ws, id);
    var twice := ToggleVisibility(once, id);
    forall i | 0 <= i < |ws| ensures twice[i] == ws[i] {
      assert once[i].id == ws[i].id;
    }
  }

  // ---------------------------------------------------------------- setDragging

  /** `widgetId || null`: an omitted or empty id is recorded as null. */
  function DraggedId(widgetId: Option<string>): (r: Option<string>)
    ensures r.Some? <==> widgetId.Some? && widgetId.value != ""
    ensures r.Some? ==> r == widgetId
  {
    if widgetId.Some? && widgetId.value != "" then widgetId else None
  }

  // ---------------------------------------------------------------- pagination

  /** `setWidgetPage(id, page)`: that id's entry becomes `page`; every other entry stays. */
  function SetPage(pages: map<string, int>, id: string, page: int): (r: map<string, int>)
    ensures r.Keys == pages.Keys + {id}
    ensures r[id] == page
    ensures forall k :: k in pages && k != id ==> r[k] == pages[k]
  {
    pages[id := page]
  }

  /** `widgetPagination[id] || 1`: the stored page, or 1 when none is stored or the stored one is 0. */
  function PageOf(pages: map<string, int>, id: string): (p: int)
    ensures p != 0
    ensures id in pages && pages[id] != 0 ==> p == pages[id]
    ensures id !in pages || pages[id] == 0 ==> p == WidgetConstants.DefaultPage
  {
    if id in pages && pages[id] != 0 then pages[id] else 1
  }

  /** Reading back a page that was just set, and reading any other page. */
  lemma PageAfterSetPage(pages: map<string, int>, id: string, page: int, other: string)
    requires other != id
    ensures PageOf(SetPage(pages, id, page), id) == if page == 0 then 1 else page
    ensures PageOf(SetPage(pages, id, page), other) == PageOf(pages, other)
  {
  }

  // ---------------------------------------------------------------- syncPositionsFromDOM

  /**
   * What `syncPositionsFromDOM` reads from one `.grid-stack-item` element: its
   * `data-gs-id` and the integers its `data-gs-x/y/w/h` attributes parse to.
   * `None` is an attribute that is absent or empty.
   */
  datatype DomElement = DomElement(
    gsId: Option<string>,
    gsX: Option<int>,
    gsY: Option<int>,
    gsW: Option<int>,
    gsH: Option<int>)

  /** Elements without an id, or with an empty one, are skipped. */
  predicate HasId(e: DomElement) {
    e.gsId.Some? && e.gsId.value != ""
  }

  /** A missing x or y reads as 0, a missing w or h as 1. */
  function ReadRect(e: DomElement): WidgetConstants.Rect {
    WidgetConstants.Rect(e.gsX.GetOr(0), e.gsY.GetOr(0), e.gsW.GetOr(1), e.gsH.GetOr(1))
  }

  /** The `positionUpdates` dictionary after the `forEach` has visited `els` in order. */
  function PositionUpdates(els: seq<DomElement>): map<string, WidgetConstants.Rect> {
    if els == [] then map[]
    else
      var before := PositionUpdates(els[..|els| - 1]);
      var e := els[|els| - 1];
      if HasId(e) then before[e.gsId.value := ReadRect(e)] else before
  }

  /** The loop of `syncPositionsFromDOM` that fills `positionUpdates`. */
  method CollectPositionUpdates(els: seq<DomElement>) returns (updates: map<string, WidgetConstants.Rect>)
    ensures updates == PositionUpdates(els)
  {
    updates := map[];
    var i := 0;
    while i < |els|
      invariant 0 <= i <= |els|
      invariant updates == PositionUpdates(els[..i])
    {
      var e := els[i];
      if e.gsId.Some? && e.gsId.value != "" {
        updates := updates[e.gsId.value := ReadRect(e)];
      }
      assert els[..i + 1][..i] == els[..i];
      i := i + 1;
    }
    assert els[..i] == els;
  }

  /** An id has an entry exactly when some element carries it. */
  lemma {:induction false} PositionUpdatesKeys(els: seq<DomElement>, id: string)
    ensures id in PositionUpdates(els) <==> exists i :: 0 <= i < |els| && HasId(els[i]) && els[i].gsId.value == id
  {
    if els != [] {
      var init := els[..|els| - 1];
      PositionUpdatesKeys(init, id);
      if id in PositionUpdates(init) {
        var i :| 0 <= i < |init| && HasId(init[i]) && init[i].gsId.value == id;
        assert els[i] == init[i];
      }
      if exists i :: 0 <= i < |els| && HasId(els[i]) && els[i].gsId.value == id {
        var i :| 0 <= i < |els| && HasId(els[i]) && els[i].gsId.value == id;
        if i < |els| - 1 {
          assert init[i] == els[i];
        }
      }
    }
  }

  /** For an id carried by several elements, the last of them wins. */
  lemma {:induction false} PositionUpdatesLastWins(els: seq<DomElement>, i: nat)
    requires i < |els| && HasId(els[i])
    requires forall j :: i < j < |els| ==> els[j].gsId != els[i].gsId
    ensures els[i].gsId.value in PositionUpdates(els)
    ensures PositionUpdates(els)[els[i].gsId.value] == ReadRect(els[i])
  {
    if i < |els| - 1 {
      var init := els[..|els| - 1];
      assert init[i] == els[i];
      PositionUpdatesLastWins(init, i);
    }
  }

  /** One widget in the `map` of `syncPositionsFromDOM`. */
  function SyncWidget(w: GridWidgetData, updates: map<string, WidgetConstants.Rect>): (r: GridWidgetData)
    ensures r.SameExceptPosition(w)
    ensures w.id in updates ==> r.Rect() == updates[w.id]
    ensures w.id !in updates ==> r == w
  {
    if w.id in updates then
      var p := updates[w.id];
      var hasChanged := w.x != p.x || w.y != p.y || w.w != p.w || w.h != p.h;
      if hasChanged then w.(x := p.x, y := p.y, w := p.w, h := p.h) else w
    else w
  }

  /**
   * The new widget list of `syncPositionsFromDOM`: widgets with a DOM entry
   * take its rectangle, the others stay; length, order and every other field
   * are preserved.
   */
  function MergeDomPositions(ws: seq<GridWidgetData>, updates: map<string, WidgetConstants.Rect>)
    : (r: seq<GridWidgetData>)
    ensures |r| == |ws|
    ensures forall i :: 0 <= i < |ws| ==> r[i].SameExceptPosition(ws[i])
    ensures forall i :: 0 <= i < |ws| && ws[i].id in updates ==> r[i].Rect() == updates[ws[i].id]
    ensures forall i :: 0 <= i < |ws| && ws[i].id !in updates ==> r[i] == ws[i]
  {
    seq(|ws|, i requires 0 <= i < |ws| => SyncWidget(ws[i], updates))
  }

  /** A second sync against the same DOM changes nothing. */
  lemma MergeDomPositionsIdempotent(ws: seq<GridWidgetData>, els: seq<DomElement>)
    ensures var u := PositionUpdates(els);
            MergeDomPositions(MergeDomPositions(ws, u), u) == MergeDomPositions(ws, u)
  {
    var u := PositionUpdates(els);
    var once := MergeDomPositions(ws, u);
    var twice := MergeDomPositions(once, u);
    forall i | 0 <= i < |ws| ensures twice[i] == once[i] {
      assert once[i].id == ws[i].id;
    }
  }

  /** A widget whose id the last element carrying it places at r ends up at r. */
  lemma SyncTakesLastElement(ws: seq<GridWidgetData>, els: seq<DomElement>, k: nat, i: nat)
    requires k < |ws| && i < |els| && els[i].gsId == Some(ws[k].id) && ws[k].id != ""
    requires forall j :: i < j < |els| ==> els[j].gsId != els[i].gsId
    ensures MergeDomPositions(ws, PositionUpdates(els))[k].Rect() == ReadRect(els[i])
  {
    PositionUpdatesLastWins(els, i);
  }

  /** A widget that no element names keeps its position. */
  lemma {:induction false} SyncKeepsUnnamed(ws: seq<GridWidgetData>, els: seq<DomElement>, k: nat)
    requires k < |ws|
    requires forall i :: 0 <= i < |els| ==> els[i].gsId != Some(ws[k].id)
    ensures MergeDomPositions(ws, PositionUpdates(els))[k] == ws[k]
  {
    PositionUpdatesKeys(els, ws[k].id);
    assert ws[k].id !in PositionUpdates(els);
  }

  // ---------------------------------------------------------------- hydration check

  /** The fields the hydration callback compares. */
  datatype LoadedWidget = LoadedWidget(id: string, x: int, y: int, w: int, h: int, visible: bool)

  function Loaded(w: GridWidgetData): LoadedWidget {
    LoadedWidget(w.id, w.x, w.y, w.w, w.h, w.visible)
  }

  function LoadedList(ws: seq<GridWidgetData>): (r: seq<LoadedWidget>)
    ensures |r| == |ws| && forall i :: 0 <= i < |ws| ==> r[i] == Loaded(ws[i])
  {
    seq(|ws|, i requires 0 <= i < |ws| => Loaded(ws[i]))
  }

  /** `ws.find(w => w.id === id)`: the first widget with that id. */
  function FindById(ws: seq<GridWidgetData>, id: string): (r: Option<GridWidgetData>)
    ensures r.None? <==> forall i :: 0 <= i < |ws| ==> ws[i].id != id
    ensures r.Some? ==> exists i :: 0 <= i < |ws| && ws[i] == r.value && ws[i].id == id
                                    && forall j :: 0 <= j < i ==> ws[j].id != id
  {
    if ws == [] then None
    else if ws[0].id == id then Some(ws[0])
    else
      var r := FindById(ws[1..], id);
      assert r.Some? ==> exists i :: 0 <= i < |ws| && ws[i] == r.value && ws[i].id == id
                                     && forall j :: 0 <= j < i ==> ws[j].id != id by {
        if r.Some? {
          var i :| 0 <= i < |ws[1..]| && ws[1..][i] == r.value && ws[1..][i].id == id
                   && forall j :: 0 <= j < i ==> ws[1..][j].id != id;
          assert ws[i + 1] == r.value;
          forall j | 0 <= j < i + 1 ensures ws[j].id != id {
            if j > 0 { assert ws[j] == ws[1..][j - 1]; }
          }
        }
      }
      r
  }

  /** The loaded widget has a seed counterpart and differs from it in position or visibility. */
  predicate ChangedAgainst(l: LoadedWidget, initial: seq<GridWidgetData>) {
    var seed := FindById(initial, l.id);
    seed.Some? && (l.x != seed.value.x || l.y != seed.value.y || l.w != seed.value.w
                   || l.h != seed.value.h || l.visible != seed.value.visible)
  }

  /** `loadedWidgets.some(...)`. */
  function AnyChanged(loaded: seq<LoadedWidget>, initial: seq<GridWidgetData>): (b: bool)
    ensures b <==> exists k :: 0 <= k < |loaded| && ChangedAgainst(loaded[k], initial)
  {
    if loaded == [] then false
    else
      var rest := AnyChanged(loaded[1..], initial);
      assert rest <==> exists k :: 1 <= k < |loaded| && ChangedAgainst(loaded[k], initial) by {
        if rest {
          var k :| 0 <= k < |loaded[1..]| && ChangedAgainst(loaded[1..][k], initial);
          assert loaded[k + 1] == loaded[1..][k];
        }
        if exists k :: 1 <= k < |loaded| && ChangedAgainst(loaded[k], initial) {
          var k :| 1 <= k < |loaded| && ChangedAgainst(loaded[k], initial);
          assert loaded[1..][k - 1] == loaded[k];
        }
      }
      ChangedAgainst(loaded[0], initial) || rest
  }

  /** `hasChanges` of the hydration callback; `None` is a state without a widget list. */
  function HasChanges(loaded: Option<seq<LoadedWidget>>, initial: seq<GridWidgetData>): (b: bool)
    ensures b <==> loaded.Some? && exists k :: 0 <= k < |loaded.value| && ChangedAgainst(loaded.value[k], initial)
  {
    loaded.Some? && AnyChanged(loaded.value, initial)
  }

  /** A list with distinct ids, loaded back against itself, shows no change. */
  lemma NoChangesAgainstItself(ws: seq<GridWidgetData>)
    requires DistinctIds(ws)
    ensures !HasChanges(Some(LoadedList(ws)), ws)
  {
    var loaded := LoadedList(ws);
    forall k | 0 <= k < |loaded| ensures !ChangedAgainst(loaded[k], ws) {
      var found := FindById(ws, ws[k].id);
      var i :| 0 <= i < |ws| && ws[i] == found.value && ws[i].id == ws[k].id
               && forall j :: 0 <= j < i ==> ws[j].id != ws[k].id;
      assert i == k;
    }
  }

  /** Hiding a seed widget is detected as a change on the next hydration. */
  lemma HidingIsAChange()
    ensures HasChanges(Some(LoadedList(ToggleVisibility(InitialWidgets, "widget-3"))), InitialWidgets)
  {
    var loaded := LoadedList(ToggleVisibility(InitialWidgets, "widget-3"));
    assert loaded[2].id == "widget-3" && !loaded[2].visible;
    assert FindById(InitialWidgets, "widget-3") == Some(InitialWidgets[2]);
    assert ChangedAgainst(loaded[2], InitialWidgets);
  }

  // ---------------------------------------------------------------- the store

  /** The zustand store `useGridStore`, its state fields and its actions. */
  class Store {
    var widgets: seq<GridWidgetData>
    var isDragging: bool
    var draggedWidgetId: Option<string>
    var widgetPagination: map<string, int>

    /** The state before hydration: the seed, no drag, no pages. */
    constructor ()
      ensures widgets == InitialWidgets && !isDragging && draggedWidgetId == None
      ensures widgetPagination == map[]
    {
      widgets := InitialWidgets;
      isDragging := false;
      draggedWidgetId := None;
      widgetPagination := map[];
    }

    method SetWidgets(ws: seq<GridWidgetData>)
      modifies this`widgets
      ensures widgets == ws
    {
      widgets := ws;
    }

    method UpdateWidget(id: string, updates: WidgetPatch)
      modifies this`widgets
      ensures widgets == PatchWidgets(old(widgets), id, updates)
    {
      widgets := PatchWidgets(widgets, id, updates);
    }

    method UpdateWidgetPosition(id: string, x: int, y: int, w: int, h: int)
      modifies this`widgets
      ensures widgets == MoveWidgets(old(widgets), id, x, y, w, h)
    {
      widgets := MoveWidgets(widgets, id, x, y, w, h);
    }

    method RemoveWidget(id: string)
      modifies this`widgets
      ensures widgets == RemoveById(old(widgets), id)
    {
      widgets := RemoveById(widgets, id);
    }

    /** Flips visibility only: no position is read from the DOM here. */
    method ToggleWidgetVisibility(id: string)
      modifies this`widgets
      ensures widgets == ToggleVisibility(old(widgets), id)
    {
      widgets := ToggleVisibility(widgets, id);
    }

    method SetDragging(dragging: bool, widgetId: Option<string>)
      modifies this`isDragging, this`draggedWidgetId
      ensures isDragging == dragging
      ensures draggedWidgetId == DraggedId(widgetId)
    {
      isDragging := dragging;
      draggedWidgetId := DraggedId(widgetId);
    }

    /** Brings back the whole seed list: positions, visibility and removed widgets revert. */
    method RestoreAllWidgets()
      modifies this`widgets
      ensures widgets == InitialWidgets
    {
      widgets := InitialWidgets;
    }

    method SetWidgetPage(id: string, page: int)
      modifies this`widgetPagination
      ensures widgetPagination == SetPage(old(widgetPagination), id, page)
    {
      widgetPagination := SetPage(widgetPagination, id, page);
    }

    function GetWidgetPage(id: string): (p: int)
      reads this
      ensures p != 0
      ensures p == PageOf(widgetPagination, id)
    {
      PageOf(widgetPagination, id)
    }

    /** Pulls the rectangles the DOM elements `dom` carry into the widget list. */
    method SyncPositionsFromDOM(dom: seq<DomElement>)
      modifies this`widgets
      ensures widgets == MergeDomPositions(old(widgets), PositionUpdates(dom))
    {
      var positionUpdates := CollectPositionUpdates(dom);
      widgets := MergeDomPositions(widgets, positionUpdates);
    }

    /** Syncs from the DOM; writing to storage is left to the persistence layer. */
    method SaveCurrentLayout(dom: seq<DomElement>)
      modifies this`widgets
      ensures widgets == MergeDomPositions(old(widgets), PositionUpdates(dom))
    {
      SyncPositionsFromDOM(dom);
    }
  }

  /** Saving twice against the same DOM leaves the same widget list as saving once. */
  method SaveTwice(store: Store, dom: seq<DomElement>)
    modifies store`widgets
    ensures store.widgets == MergeDomPositions(old(store.widgets), PositionUpdates(dom))
  {
    store.SaveCurrentLayout(dom);
    store.SaveCurrentLayout(dom);
    MergeDomPositionsIdempotent(old(store.widgets), dom);
  }
}
