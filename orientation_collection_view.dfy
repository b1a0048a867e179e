/**
 * The orientation-aware collection view. Its items are laid out in a grid whose scrolling
 * direction follows the screen: horizontal in landscape, vertical otherwise, or the other way
 * round when InvertOrientationLayout is set. Span and ItemSpacing are validated properties that
 * are copied into the current grid layout; the grid layout is rebuilt whenever the orientation or
 * the inversion changes.
 */
module OrientationCollectionViewModel {
  import opened Views

  /** ItemsLayoutOrientation of a grid items layout. */
  datatype ItemsLayoutOrientation = Vertical | Horizontal

  /** The default of Span. */
  const DefaultSpan: int := 1

  /** The default of ItemSpacing. */
  const DefaultItemSpacing: real := 0.0

  /** The Span validator: a span of at least one column or row. */
  predicate SpanIsValid(n: int)
  {
    n >= 1
  }

  /** The ItemSpacing validator: a spacing that is not negative. */
  predicate ItemSpacingIsValid(d: real)
  {
    d >= 0.0
  }

  /** Both defaults pass their validators. */
  lemma DefaultsAreValid()
    ensures SpanIsValid(DefaultSpan) && ItemSpacingIsValid(DefaultItemSpacing)
  {
  }

  /**
   * GetItemsLayoutOrientation: Landscape scrolls horizontally and every other orientation
   * (Portrait, Unknown and whatever else the enumeration holds) vertically, unless inverted.
   */
  function ItemsLayoutOrientationFor(o: DisplayOrientation, invert: bool): (r: ItemsLayoutOrientation)
    ensures r == Horizontal <==> (o == Landscape) != invert
  {
    match o
    case Landscape => if invert then Vertical else Horizontal
    case _ => if invert then Horizontal else Vertical
  }

  /** Flipping the inversion always flips the orientation. */
  lemma InversionFlipsOrientation(o: DisplayOrientation, invert: bool)
    ensures ItemsLayoutOrientationFor(o, !invert) != ItemsLayoutOrientationFor(o, invert)
  {
  }

  /** Without inversion, only a rotation between landscape and anything else changes the orientation. */
  lemma OnlyLandscapeMatters(o1: DisplayOrientation, o2: DisplayOrientation, invert: bool)
    ensures ItemsLayoutOrientationFor(o1, invert) == ItemsLayoutOrientationFor(o2, invert) <==>
      (o1 == Landscape <==> o2 == Landscape)
  {
  }

  /** A grid items layout: its orientation is fixed when it is built, the rest can be changed. */
  class GridItemsLayout {
    const orientation: ItemsLayoutOrientation
    var span: int
    var horizontalItemSpacing: real
    var verticalItemSpacing: real

    /** A grid of `span` columns or rows with no spacing. */
    constructor (span: int, orientation: ItemsLayoutOrientation)
      requires SpanIsValid(span)
      ensures this.span == span && this.orientation == orientation
      ensures horizontalItemSpacing == 0.0 && verticalItemSpacing == 0.0
    {
      this.span := span;
      this.orientation := orientation;
      horizontalItemSpacing := 0.0;
      verticalItemSpacing := 0.0;
    }
  }

  class OrientationCollectionView {
    var screenOrientation: DisplayOrientation
    var invertOrientationLayout: bool
    var itemSpacing: real
    var span: int
    /** The items layout when it is a grid; null while the collection view's default list layout is in use. */
    var itemsLayout: GridItemsLayout?
    /** How many subscriptions to the display-information event this view holds. */
    var displaySubscriptions: nat

    /**
     * The properties hold validated values, and a grid layout, once there is one, has the current
     * span, the current spacing on both axes and the orientation the screen and the inversion ask for.
     */
    ghost predicate Valid()
      reads this, itemsLayout
    {
      SpanIsValid(span) && ItemSpacingIsValid(itemSpacing) &&
      (itemsLayout != null ==>
        itemsLayout.span == span &&
        itemsLayout.horizontalItemSpacing == itemSpacing &&
        itemsLayout.verticalItemSpacing == itemSpacing &&
        itemsLayout.orientation == ItemsLayoutOrientationFor(screenOrientation, invertOrientationLayout))
    }

    /** A collection view with default properties, reading the display orientation, on the default list layout. */
    constructor (displayOrientation: DisplayOrientation)
      ensures Valid()
      ensures screenOrientation == displayOrientation && !invertOrientationLayout
      ensures span == DefaultSpan && itemSpacing == DefaultItemSpacing
      ensures itemsLayout == null && displaySubscriptions == 0
    {
      screenOrientation := displayOrientation;
      invertOrientationLayout := false;
      itemSpacing := DefaultItemSpacing;
      span := DefaultSpan;
      itemsLayout := null;
      displaySubscriptions := 0;
    }

    /** RefreshLayout: a new grid with the current span and orientation, spaced alike on both axes. */
    method RefreshLayout()
      requires SpanIsValid(span) && ItemSpacingIsValid(itemSpacing)
      modifies this`itemsLayout
      ensures Valid()
      ensures fresh(itemsLayout)
      ensures itemsLayout.orientation == ItemsLayoutOrientationFor(screenOrientation, invertOrientationLayout)
      ensures itemsLayout.span == span
      ensures itemsLayout.horizontalItemSpacing == itemSpacing && itemsLayout.verticalItemSpacing == itemSpacing
    {
      var layout := new GridItemsLayout(span, ItemsLayoutOrientationFor(screenOrientation, invertOrientationLayout));
      layout.horizontalItemSpacing := itemSpacing;
      layout.verticalItemSpacing := itemSpacing;
      itemsLayout := layout;
    }

    /**
     * OnHandlerChanged: with a handler the view reads the display orientation, subscribes to its
     * changes and builds its grid; without one it drops a subscription.
     */
    method OnHandlerChanged(hasHandler: bool, displayOrientation: DisplayOrientation)
      requires Valid()
      modifies this`screenOrientation, this`displaySubscriptions, this`itemsLayout
      ensures Valid()
      ensures hasHandler ==> screenOrientation == displayOrientation && fresh(itemsLayout)
      ensures hasHandler ==> displaySubscriptions == old(displaySubscriptions) + 1
      ensures !hasHandler ==> screenOrientation == old(screenOrientation) && itemsLayout == old(itemsLayout)
      ensures !hasHandler ==> displaySubscriptions == if old(displaySubscriptions) > 0 then old(displaySubscriptions) - 1 else 0
    {
      if hasHandler {
        screenOrientation := displayOrientation;
        displaySubscriptions := displaySubscriptions + 1;
        RefreshLayout();
      } else if displaySubscriptions > 0 {
        displaySubscriptions := displaySubscriptions - 1;
      }
    }

    /** OnMainDisplayInfoChanged: the new orientation is stored and the grid rebuilt for it. */
    method OnMainDisplayInfoChanged(o: DisplayOrientation)
      requires Valid()
      modifies this`screenOrientation, this`itemsLayout
      ensures Valid()
      ensures screenOrientation == o && fresh(itemsLayout)
    {
      screenOrientation := o;
      RefreshLayout();
    }

    /** OnItemSpacingPropertyChanged: a new spacing goes to both axes of a grid layout. */
    method OnItemSpacingPropertyChanged(oldValue: real, newValue: real)
      modifies itemsLayout
      ensures itemsLayout != null && oldValue != newValue ==>
        itemsLayout.horizontalItemSpacing == newValue && itemsLayout.verticalItemSpacing == newValue
      ensures itemsLayout != null ==> itemsLayout.span == old(itemsLayout.span)
      ensures itemsLayout != null && oldValue == newValue ==>
        itemsLayout.horizontalItemSpacing == old(itemsLayout.horizontalItemSpacing) &&
        itemsLayout.verticalItemSpacing == old(itemsLayout.verticalItemSpacing)
    {
      if oldValue == newValue {
        return;
      }
      var layout := itemsLayout;
      if layout != null {
        layout.horizontalItemSpacing := newValue;
        layout.verticalItemSpacing := newValue;
      }
    }

    /** OnSpanPropertyChanged: a new span goes to a grid layout. */
    method OnSpanPropertyChanged(oldValue: int, newValue: int)
      modifies itemsLayout
      ensures itemsLayout != null && oldValue != newValue ==> itemsLayout.span == newValue
      ensures itemsLayout != null && oldValue == newValue ==> itemsLayout.span == old(itemsLayout.span)
      ensures itemsLayout != null ==>
        itemsLayout.horizontalItemSpacing == old(itemsLayout.horizontalItemSpacing) &&
        itemsLayout.verticalItemSpacing == old(itemsLayout.verticalItemSpacing)
    {
      if oldValue == newValue {
        return;
      }
      var layout := itemsLayout;
      if layout != null {
        layout.span := newValue;
      }
    }

    /** OnInvertOrientationLayoutPropertyChanged: a real change rebuilds the grid. */
    method OnInvertOrientationLayoutPropertyChanged(oldValue: bool, newValue: bool)
      requires SpanIsValid(span) && ItemSpacingIsValid(itemSpacing)
      modifies this`itemsLayout
      ensures oldValue != newValue ==> Valid() && fresh(itemsLayout)
      ensures oldValue == newValue ==> itemsLayout == old(itemsLayout)
    {
      if oldValue == newValue {
        return;
      }
      RefreshLayout();
    }

    /**
     * Assigning ItemSpacing: a negative spacing is rejected and changes nothing; an accepted one
     * is stored and, when it differs, copied into the grid.
     */
    method SetItemSpacing(d: real) returns (accepted: bool)
      requires Valid()
      modifies this`itemSpacing, itemsLayout
      ensures Valid()
      ensures accepted <==> ItemSpacingIsValid(d)
      ensures itemSpacing == if accepted then d else old(itemSpacing)
      ensures itemsLayout == old(itemsLayout)
      ensures !accepted && itemsLayout != null ==>
        itemsLayout.horizontalItemSpacing == old(itemsLayout.horizontalItemSpacing) &&
        itemsLayout.verticalItemSpacing == old(itemsLayout.verticalItemSpacing)
    {
      if !ItemSpacingIsValid(d) {
        return false;
      }
      accepted := true;
      if d == itemSpacing {
        return;
      }
      var oldValue := itemSpacing;
      itemSpacing := d;
      OnItemSpacingPropertyChanged(oldValue, d);
    }

    /**
     * Assigning Span: a span below one is rejected and changes nothing; an accepted one is stored
     * and, when it differs, copied into the grid.
     */
    method SetSpan(n: int) returns (accepted: bool)
      requires Valid()
      modifies this`span, itemsLayout
      ensures Valid()
      ensures accepted <==> SpanIsValid(n)
      ensures span == if accepted then n else old(span)
      ensures itemsLayout == old(itemsLayout)
      ensures !accepted && itemsLayout != null ==> itemsLayout.span == old(itemsLayout.span)
    {
      if !SpanIsValid(n) {
        return false;
      }
      accepted := true;
      if n == span {
        return;
      }
      var oldValue := span;
      span := n;
      OnSpanPropertyChanged(oldValue, n);
    }

    /** Assigning InvertOrientationLayout: a real change flips the grid's orientation. */
    method SetInvertOrientationLayout(b: bool)
      requires Valid()
      modifies this`invertOrientationLayout, this`itemsLayout
      ensures Valid()
      ensures invertOrientationLayout == b
      ensures b == old(invertOrientationLayout) ==> itemsLayout == old(itemsLayout)
      ensures b != old(invertOrientationLayout) ==> fresh(itemsLayout)
      ensures b != old(invertOrientationLayout) && old(itemsLayout) != null ==>
        itemsLayout.orientation != old(itemsLayout.orientation)
    {
      if b == invertOrientationLayout {
        return;
      }
      var oldValue := invertOrientationLayout;
      invertOrientationLayout := b;
      InversionFlipsOrientation(screenOrientation, oldValue);
      OnInvertOrientationLayoutPropertyChanged(oldValue, b);
    }
  }
}
