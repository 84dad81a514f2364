/**
 * The grid item component: the effect that copies the store's rectangle into
 * the element's `data-gs-*` attributes, the render guard for hidden widgets,
 * the edit-mode eye button and the `WidgetContent` type dispatch.
 */
module GridWidget {
  import opened Wrappers
  import Decimal
  import GridStore

  /** The four position attributes; `None` is an attribute `getAttribute` returns null for. */
  datatype GsAttributes = GsAttributes(x: Option<string>, y: Option<string>, w: Option<string>, h: Option<string>)

  /** The attributes that mirror the widget's rectangle (`widget.x.toString()` and so on). */
  function AttributesOf(widget: GridStore.GridWidgetData): GsAttributes {
    GsAttributes(Some(Decimal.IntToString(widget.x)), Some(Decimal.IntToString(widget.y)),
                 Some(Decimal.IntToString(widget.w)), Some(Decimal.IntToString(widget.h)))
  }

  /** The effect writes when no drag is in progress and some attribute differs. */
  predicate NeedsWrite(attrs: GsAttributes, widget: GridStore.GridWidgetData, isDragging: bool) {
    !isDragging
    && (attrs.x != Some(Decimal.IntToString(widget.x)) || attrs.y != Some(Decimal.IntToString(widget.y))
        || attrs.w != Some(Decimal.IntToString(widget.w)) || attrs.h != Some(Decimal.IntToString(widget.h)))
  }

  /**
   * The attributes after the effect: untouched during a drag, otherwise equal
   * to the widget's rectangle (written, or already equal).
   */
  function AfterSync(attrs: GsAttributes, widget: GridStore.GridWidgetData, isDragging: bool): (r: GsAttributes)
    ensures isDragging ==> r == attrs
    ensures !isDragging ==> r == AttributesOf(widget)
  {
    if NeedsWrite(attrs, widget, isDragging) then AttributesOf(widget) else attrs
  }

  /** Running the effect twice is running it once, and the second run writes nothing. */
  lemma AfterSyncIdempotent(attrs: GsAttributes, widget: GridStore.GridWidgetData, isDragging: bool)
    ensures AfterSync(AfterSync(attrs, widget, isDragging), widget, isDragging) == AfterSync(attrs, widget, isDragging)
    ensures !NeedsWrite(AfterSync(attrs, widget, isDragging), widget, isDragging)
  {
  }

  /** Attributes that mirror two widgets' rectangles equally belong to the same rectangle. */
  lemma AttributesDetermineRect(a: GridStore.GridWidgetData, b: GridStore.GridWidgetData)
    requires AttributesOf(a) == AttributesOf(b)
    ensures a.Rect() == b.Rect()
  {
    if a.x != b.x { Decimal.IntToStringInjective(a.x, b.x); }
    if a.y != b.y { Decimal.IntToStringInjective(a.y, b.y); }
    if a.w != b.w { Decimal.IntToStringInjective(a.w, b.w); }
    if a.h != b.h { Decimal.IntToStringInjective(a.h, b.h); }
  }

  /** A `.grid-stack-item` element: its position attributes and how many `setAttribute` calls it has seen. */
  class GridItemElement {
    var attrs: GsAttributes
    var setAttributeCalls: nat

    constructor (initial: GsAttributes)
      ensures attrs == initial && setAttributeCalls == 0
    {
      attrs := initial;
      setAttributeCalls := 0;
    }

    method SetX(v: string)
      modifies this
      ensures attrs == old(attrs).(x := Some(v)) && setAttributeCalls == old(setAttributeCalls) + 1
    {
      attrs := attrs.(x := Some(v));
      setAttributeCalls := setAttributeCalls + 1;
    }

    method SetY(v: string)
      modifies this
      ensures attrs == old(attrs).(y := Some(v)) && setAttributeCalls == old(setAttributeCalls) + 1
    {
      attrs := attrs.(y := Some(v));
      setAttributeCalls := setAttributeCalls + 1;
    }

    method SetW(v: string)
      modifies this
      ensures attrs == old(attrs).(w := Some(v)) && setAttributeCalls == old(setAttributeCalls) + 1
    {
      attrs := attrs.(w := Some(v));
      setAttributeCalls := setAttributeCalls + 1;
    }

    method SetH(v: string)
      modifies this
      ensures attrs == old(attrs).(h := Some(v)) && setAttributeCalls == old(setAttributeCalls) + 1
    {
      attrs := attrs.(h := Some(v));
      setAttributeCalls := setAttributeCalls + 1;
    }
  }

  /**
   * The store-to-DOM effect. `draggedWidgetId` is read from the store but
   * plays no part: any drag in progress suppresses the write. A missing
   * element (`widgetRef.current` null) does nothing.
   */
  method SyncAttributesEffect(element: GridItemElement?, widget: GridStore.GridWidgetData,
                              isDragging: bool, draggedWidgetId: Option<string>)
    modifies element
    ensures element != null ==> element.attrs == AfterSync(old(element.attrs), widget, isDragging)
    ensures element != null ==>
              element.setAttributeCalls
              == old(element.setAttributeCalls) + (if NeedsWrite(old(element.attrs), widget, isDragging) then 4 else 0)
  {
    if element == null {
      return;
    }
    if !isDragging {
      var currentX, currentY, currentW, currentH := element.attrs.x, element.attrs.y, element.attrs.w, element.attrs.h;
      if currentX != Some(Decimal.IntToString(widget.x)) || currentY != Some(Decimal.IntToString(widget.y))
         || currentW != Some(Decimal.IntToString(widget.w)) || currentH != Some(Decimal.IntToString(widget.h))
      {
        element.SetX(Decimal.IntToString(widget.x));
        element.SetY(Decimal.IntToString(widget.y));
        element.SetW(Decimal.IntToString(widget.w));
        element.SetH(Decimal.IntToString(widget.h));
      }
    }
  }

  // ---------------------------------------------------------------- rendering

  datatype Display = Block | DisplayNone

  /** What the component renders, markup aside. `eyeButtonToggles` is the id the eye button hands to `onToggleVisibility`. */
  datatype Rendered =
    | Nothing
    | Item(dimmed: bool, display: Display, eyeButtonToggles: Option<string>, eyeOpen: bool,
           hiddenOverlay: bool, editBadge: bool)

  function Render(widget: GridStore.GridWidgetData, isEditMode: bool): (r: Rendered)
    ensures r.Nothing? <==> !widget.visible && !isEditMode
    ensures r.Item? ==> r.display == Block
    ensures r.Item? ==> (r.dimmed <==> !widget.visible) && (r.hiddenOverlay <==> !widget.visible)
    ensures r.Item? ==> (r.eyeButtonToggles.Some? <==> isEditMode) && (r.editBadge <==> isEditMode)
    ensures r.Item? && r.eyeButtonToggles.Some? ==> r.eyeButtonToggles.value == widget.id
    ensures r.Item? ==> (r.eyeOpen <==> widget.visible)
  {
    if !widget.visible && !isEditMode then Nothing
    else
      Item(dimmed := !widget.visible,
           display := if !widget.visible && !isEditMode then DisplayNone else Block,
           eyeButtonToggles := if isEditMode then Some(widget.id) else None,
           eyeOpen := widget.visible,
           hiddenOverlay := !widget.visible && isEditMode,
           editBadge := isEditMode)
  }

  // ---------------------------------------------------------------- WidgetContent

  datatype ContentCase = Analytics | Revenue | ActivityBar | Orders | Stats | CustomOrDefault

  /** The `switch (widget.type)` of `WidgetContent`. */
  function ContentCaseOf(typeName: string): (c: ContentCase)
    ensures c != CustomOrDefault <==> typeName in {"analytics", "revenue", "activity", "orders", "stats"}
  {
    match typeName
    case "analytics" => Analytics
    case "revenue" => Revenue
    case "activity" => ActivityBar
    case "orders" => Orders
    case "stats" => Stats
    case _ => CustomOrDefault
  }

  /** None of the store's six widget types has a case of its own. */
  lemma StoreTypesTakeDefault(t: GridStore.WidgetType)
    ensures ContentCaseOf(GridStore.TypeName(t)) == CustomOrDefault
  {
  }

  /** The default case's text: `data.message || "Custom widget content"`. */
  function DefaultContentText(message: Option<string>): (s: string)
    ensures s != ""
    ensures message.Some? && message.value != "" ==> s == message.value
  {
    if message.Some? && message.value != "" then message.value else "Custom widget content"
  }
}
