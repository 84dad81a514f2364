/**
 * The dashboard's layout constants: the grid, the bounded container (the
 * "fishbowl" of 6 columns by 40 rows), pagination, the five default
 * rectangles, the widget numbering and the storage key.
 */
module WidgetConstants {

  // WIDGET_CONFIG.GRID
  const CellHeight: int := 70
  const Columns: int := 6
  const Margin: int := 8
  const MinRow: int := 1

  // WIDGET_CONFIG.CONTAINER
  const ContainerMinWidth: int := 6
  const ContainerMaxWidth: int := 6
  const ContainerMinHeight: int := 12
  const ContainerMaxHeight: int := 40
  const ContainerPadding: int := 16
  const ContainerBorderWidth: int := 2
  const ConstrainToContainer: bool := true

  // WIDGET_CONFIG.PAGINATION
  const ItemsPerPage: int := 5
  const DefaultPage: int := 1

  // WIDGET_CONFIG.ANIMATION (milliseconds)
  const HydrationDelay: int := 100
  const SyncDelay: int := 50
  const PersistDelay: int := 100

  // STORAGE_KEYS.GRID_STORAGE
  const GridStorage: string := "grid-storage"

  /** A rectangle in grid cells. */
  datatype Rect = Rect(x: int, y: int, w: int, h: int)

  /** The ids of the default widgets, in their numbering order. */
  const DefaultIds: seq<string> := ["widget-1", "widget-2", "widget-3", "widget-4", "widget-5"]

  // WIDGET_DEFAULTS.POSITIONS
  const DefaultPositions: map<string, Rect> := map[
    "widget-1" := Rect(0, 0, 6, 4),
    "widget-2" := Rect(0, 4, 3, 2),
    "widget-3" := Rect(3, 4, 3, 2),
    "widget-4" := Rect(0, 6, 3, 3),
    "widget-5" := Rect(3, 6, 3, 3)
  ]

  // WIDGET_NUMBERS
  const WidgetNumbers: map<string, int> := map[
    "widget-1" := 1,
    "widget-2" := 2,
    "widget-3" := 3,
    "widget-4" := 4,
    "widget-5" := 5
  ]

  /** Fully inside the container: the bound CONSTRAIN_TO_CONTAINER documents. */
  predicate InContainer(r: Rect) {
    0 <= r.x && 0 <= r.y && 1 <= r.w && 1 <= r.h
    && r.x + r.w <= ContainerMaxWidth && r.y + r.h <= ContainerMaxHeight
  }

  /** The two rectangles share at least one cell. */
  predicate Overlap(a: Rect, b: Rect) {
    a.x < b.x + b.w && b.x < a.x + a.w && a.y < b.y + b.h && b.y < a.y + a.h
  }

  /** The grid is exactly as wide as the container, whose height range is non-empty. */
  lemma GridMatchesContainer()
    ensures Columns == ContainerMinWidth == ContainerMaxWidth == 6
    ensures ContainerMinHeight <= ContainerMaxHeight == 40
    ensures ConstrainToContainer
  {
  }

  /** The default positions are keyed by exactly the default ids, which are distinct. */
  lemma DefaultIdsAreKeys()
    ensures forall id :: id in DefaultPositions <==> id in DefaultIds
    ensures forall i, j :: 0 <= i < j < |DefaultIds| ==> DefaultIds[i] != DefaultIds[j]
  {
  }

  /** Every default rectangle lies inside the 6 x 40 container. */
  lemma DefaultsInContainer()
    ensures forall id :: id in DefaultPositions ==> InContainer(DefaultPositions[id])
  {
  }

  /** No two default rectangles share a cell. */
  lemma DefaultsDisjoint()
    ensures forall a, b :: a in DefaultPositions && b in DefaultPositions && a != b
              ==> !Overlap(DefaultPositions[a], DefaultPositions[b])
  {
  }

  /** WIDGET_NUMBERS numbers exactly the default ids: the i-th id gets i. */
  lemma WidgetNumbersMatchDefaults()
    ensures WidgetNumbers.Keys == DefaultPositions.Keys
    ensures forall i :: 0 <= i < |DefaultIds| ==> WidgetNumbers[DefaultIds[i]] == i + 1
  {
  }
}
