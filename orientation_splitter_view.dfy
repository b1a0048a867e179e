/**
 * The orientation splitter. Two content views sit in a stack with no spacing between them; the
 * stack runs top to bottom in portrait (and while the orientation is unknown) and left to right in
 * landscape, and SplitPercentage, clamped into [0, 1], says how much of the allocated extent along
 * the stacking axis goes to the first view. The second view takes the rest.
 */
module OrientationSplitterViewModel {
  import opened Views

  /** StackOrientation of the inner stack layout. */
  datatype StackOrientation = Vertical | Horizontal

  /** The default of SplitPercentage. */
  const DefaultSplitPercentage: real := 0.5

  /** The value a view's WidthRequest and HeightRequest hold until something sets them. */
  const UnsetRequest: real := -1.0

  /** The width or height OnSizeAllocated receives while the size is not known yet. */
  const UnknownExtent: real := -1.0

  /** OnSplitPercentageCoerceValue: Math.Clamp into [0, 1]. */
  function CoerceSplitPercentage(v: real): (r: real)
    ensures 0.0 <= r <= 1.0
    ensures 0.0 <= v <= 1.0 ==> r == v
    ensures v < 0.0 ==> r == 0.0
    ensures v > 1.0 ==> r == 1.0
  {
    if v < 0.0 then 0.0 else if v > 1.0 then 1.0 else v
  }

  /** Coercing an already coerced percentage changes nothing. */
  lemma CoercionIsIdempotent(v: real)
    ensures CoerceSplitPercentage(CoerceSplitPercentage(v)) == CoerceSplitPercentage(v)
  {
  }

  /** The default percentage survives coercion unchanged. */
  lemma DefaultIsCoerced()
    ensures CoerceSplitPercentage(DefaultSplitPercentage) == DefaultSplitPercentage
  {
  }

  /** The two extents an allocated extent is cut into along the stacking axis. */
  datatype Split = Split(first: real, second: real)

  /** 0 <= e * p <= e for an extent e >= 0 and a fraction p in [0, 1]. */
  lemma FractionOfExtent(e: real, p: real)
    requires e >= 0.0 && 0.0 <= p <= 1.0
    ensures 0.0 <= e * p <= e
  {
    assert e * p <= e * 1.0 by {
      assert e * (1.0 - p) >= 0.0;
    }
  }

  /**
   * The extent times the percentage for the first view and the extent times its complement for
   * the second: together they cover the extent exactly, and for a percentage in [0, 1] neither is
   * negative nor larger than the extent.
   */
  function SplitExtent(extent: real, p: real): (r: Split)
    ensures r.first + r.second == extent
    ensures r.first == extent * p
    ensures extent >= 0.0 && 0.0 <= p <= 1.0 ==> 0.0 <= r.first <= extent && 0.0 <= r.second <= extent
  {
    if extent >= 0.0 && 0.0 <= p <= 1.0 then
      FractionOfExtent(extent, p);
      FractionOfExtent(extent, 1.0 - p);
      Split(extent * p, extent * (1.0 - p))
    else
      Split(extent * p, extent * (1.0 - p))
  }

  /** Splitting at the complementary percentage swaps the two parts. */
  lemma ComplementSwapsTheParts(extent: real, p: real)
    ensures SplitExtent(extent, 1.0 - p) == Split(SplitExtent(extent, p).second, SplitExtent(extent, p).first)
  {
  }

  /** The default split gives both views half of the extent. */
  lemma DefaultSplitIsEven(extent: real)
    ensures SplitExtent(extent, DefaultSplitPercentage).first == SplitExtent(extent, DefaultSplitPercentage).second
  {
  }

  /** What RecalculateSize writes: the stack's orientation and the two views' size requests. */
  datatype Arrangement = Arrangement(
    stack: StackOrientation,
    firstWidth: real,
    firstHeight: real,
    secondWidth: real,
    secondHeight: real)

  /**
   * RecalculateSize on an allocated width and height. Portrait and Unknown stack vertically: both
   * views are as wide as the allocation and share its height. Landscape stacks horizontally: both
   * are as tall as the allocation and share its width. Any other orientation writes nothing.
   */
  function Arranged(a: Arrangement, o: DisplayOrientation, width: real, height: real, p: real): (r: Arrangement)
    ensures o.Other? ==> r == a
    ensures (o.Unknown? || o.Portrait?) ==>
      r.stack == Vertical && r.firstWidth == width && r.secondWidth == width &&
      r.firstHeight + r.secondHeight == height && r.firstHeight == height * p
    ensures o.Landscape? ==>
      r.stack == Horizontal && r.firstHeight == height && r.secondHeight == height &&
      r.firstWidth + r.secondWidth == width && r.firstWidth == width * p
  {
    match o
    case Unknown | Portrait =>
      var s := SplitExtent(height, p);
      Arrangement(Vertical, width, s.first, width, s.second)
    case Landscape =>
      var s := SplitExtent(width, p);
      Arrangement(Horizontal, s.first, height, s.second, height)
    case Other(_) => a
  }

  /**
   * The two views tile the allocation: along the stacking axis their extents add up to the
   * allocated extent and each lies within it, and across it each takes the whole allocated extent.
   */
  lemma ArrangedTilesTheAllocation(a: Arrangement, o: DisplayOrientation, width: real, height: real, p: real)
    requires !o.Other?
    requires width >= 0.0 && height >= 0.0 && 0.0 <= p <= 1.0
    ensures var r := Arranged(a, o, width, height, p);
      AlongAxis(r).first + AlongAxis(r).second == AllocatedAlong(r.stack, width, height) &&
      0.0 <= AlongAxis(r).first <= AllocatedAlong(r.stack, width, height) &&
      0.0 <= AlongAxis(r).second <= AllocatedAlong(r.stack, width, height) &&
      AcrossAxis(r).first == AllocatedAcross(r.stack, width, height) &&
      AcrossAxis(r).second == AllocatedAcross(r.stack, width, height)
  {
    var s := if o.Landscape? then SplitExtent(width, p) else SplitExtent(height, p);
    assert 0.0 <= s.first && 0.0 <= s.second;
  }

  /** Arranging twice with the same allocation gives what arranging once gives. */
  lemma ArrangedIsIdempotent(a: Arrangement, o: DisplayOrientation, width: real, height: real, p: real)
    ensures Arranged(Arranged(a, o, width, height, p), o, width, height, p) == Arranged(a, o, width, height, p)
  {
  }

  /** The requests of the two views along the stacking axis. */
  function AlongAxis(r: Arrangement): Split
  {
    if r.stack == Vertical then Split(r.firstHeight, r.secondHeight) else Split(r.firstWidth, r.secondWidth)
  }

  /** The requests of the two views across the stacking axis. */
  function AcrossAxis(r: Arrangement): Split
  {
    if r.stack == Vertical then Split(r.firstWidth, r.secondWidth) else Split(r.firstHeight, r.secondHeight)
  }

  /** The allocated extent along a stacking axis. */
  function AllocatedAlong(stack: StackOrientation, width: real, height: real): real
  {
    if stack == Vertical then height else width
  }

  /** The allocated extent across a stacking axis. */
  function AllocatedAcross(stack: StackOrientation, width: real, height: real): real
  {
    if stack == Vertical then width else height
  }

  /** OnSizeAllocated: the arrangement is recomputed only once both extents are known. */
  function Allocated(a: Arrangement, o: DisplayOrientation, width: real, height: real, p: real): (r: Arrangement)
    ensures width == UnknownExtent || height == UnknownExtent ==> r == a
    ensures width != UnknownExtent && height != UnknownExtent ==> r == Arranged(a, o, width, height, p)
  {
    if width != UnknownExtent && height != UnknownExtent then Arranged(a, o, width, height, p) else a
  }

  /** One of the two inner content views. */
  class ContentSlot {
    var content: Option<ViewId>
    var widthRequest: real
    var heightRequest: real

    /** An empty content view with no size requested. */
    constructor ()
      ensures content == None && widthRequest == UnsetRequest && heightRequest == UnsetRequest
    {
      content := None;
      widthRequest := UnsetRequest;
      heightRequest := UnsetRequest;
    }
  }

  /** The inner stack layout holding the two content views. */
  class MainStack {
    var orientation: StackOrientation
    var spacing: real
    var children: seq<ContentSlot>

    /** An empty vertical stack. */
    constructor ()
      ensures orientation == Vertical && children == []
    {
      orientation := Vertical;
      spacing := 0.0;
      children := [];
    }
  }

  class OrientationSplitterView {
    const mainStack: MainStack
    const firstContentView: ContentSlot
    const secondContentView: ContentSlot
    /** ScreenOrientation, written only from the display information. */
    var screenOrientation: DisplayOrientation
    var firstView: Option<ViewId>
    var secondView: Option<ViewId>
    var splitPercentage: real
    /** How many subscriptions to the display-information event this view holds. */
    var displaySubscriptions: nat
    /** How many times the view has asked for a new layout pass. */
    var layoutInvalidations: nat

    /**
     * The stack holds exactly the two distinct content views, with no spacing; the percentage is a
     * coerced one; each content view shows the view assigned to its slot.
     */
    ghost predicate Valid()
      reads this, mainStack, firstContentView, secondContentView
    {
      firstContentView != secondContentView &&
      mainStack.children == [firstContentView, secondContentView] &&
      mainStack.spacing == 0.0 &&
      0.0 <= splitPercentage <= 1.0 &&
      firstContentView.content == firstView &&
      secondContentView.content == secondView
    }

    /** The orientation and size requests RecalculateSize writes. */
    function Current(): Arrangement
      reads this, mainStack, firstContentView, secondContentView
    {
      Arrangement(mainStack.orientation, firstContentView.widthRequest, firstContentView.heightRequest,
                  secondContentView.widthRequest, secondContentView.heightRequest)
    }

    /** Two empty content views stacked vertically, split at the default percentage. */
    constructor ()
      ensures Valid()
      ensures screenOrientation == Unknown && splitPercentage == DefaultSplitPercentage
      ensures firstView == None && secondView == None
      ensures Current() == Arrangement(Vertical, UnsetRequest, UnsetRequest, UnsetRequest, UnsetRequest)
      ensures displaySubscriptions == 0 && layoutInvalidations == 0
    {
      var stack := new MainStack();
      var first := new ContentSlot();
      var second := new ContentSlot();
      stack.spacing := 0.0;
      stack.children := stack.children + [first];
      stack.children := stack.children + [second];
      mainStack := stack;
      firstContentView := first;
      secondContentView := second;
      screenOrientation := Unknown;
      firstView := None;
      secondView := None;
      splitPercentage := DefaultSplitPercentage;
      displaySubscriptions := 0;
      layoutInvalidations := 0;
    }

    /**
     * OnHandlerChanged: with a handler the view reads the display orientation and subscribes to
     * its changes; without one it drops a subscription.
     */
    method OnHandlerChanged(hasHandler: bool, displayOrientation: DisplayOrientation)
      modifies this`screenOrientation, this`displaySubscriptions
      ensures hasHandler ==> screenOrientation == displayOrientation && displaySubscriptions == old(displaySubscriptions) + 1
      ensures !hasHandler ==> screenOrientation == old(screenOrientation)
      ensures !hasHandler ==> displaySubscriptions == if old(displaySubscriptions) > 0 then old(displaySubscriptions) - 1 else 0
    {
      if hasHandler {
        screenOrientation := displayOrientation;
        displaySubscriptions := displaySubscriptions + 1;
      } else if displaySubscriptions > 0 {
        displaySubscriptions := displaySubscriptions - 1;
      }
    }

    /** OnFirstViewPropertyChanged: a new first view goes into the first content view. */
    method OnFirstViewPropertyChanged(oldValue: Option<ViewId>, newValue: Option<ViewId>)
      modifies firstContentView`content
      ensures oldValue != newValue ==> firstContentView.content == newValue
      ensures oldValue == newValue ==> firstContentView.content == old(firstContentView.content)
    {
      if oldValue == newValue {
        return;
      }
      firstContentView.content := newValue;
    }

    /** OnSecondViewPropertyChanged: a new second view goes into the second content view. */
    method OnSecondViewPropertyChanged(oldValue: Option<ViewId>, newValue: Option<ViewId>)
      modifies secondContentView`content
      ensures oldValue != newValue ==> secondContentView.content == newValue
      ensures oldValue == newValue ==> secondContentView.content == old(secondContentView.content)
    {
      if oldValue == newValue {
        return;
      }
      secondContentView.content := newValue;
    }

    /** Assigning FirstView: an equal value changes nothing, another one shows in the first slot. */
    method SetFirstView(v: Option<ViewId>)
      requires Valid()
      modifies this`firstView, firstContentView`content
      ensures Valid()
      ensures firstView == v && firstContentView.content == v
      ensures secondContentView.content == old(secondContentView.content)
      ensures old(firstView) == v ==> firstContentView.content == old(firstContentView.content)
    {
      if v == firstView {
        return;
      }
      var oldValue := firstView;
      firstView := v;
      OnFirstViewPropertyChanged(oldValue, v);
    }

    /** Assigning SecondView: an equal value changes nothing, another one shows in the second slot. */
    method SetSecondView(v: Option<ViewId>)
      requires Valid()
      modifies this`secondView, secondContentView`content
      ensures Valid()
      ensures secondView == v && secondContentView.content == v
      ensures firstContentView.content == old(firstContentView.content)
      ensures old(secondView) == v ==> secondContentView.content == old(secondContentView.content)
    {
      if v == secondView {
        return;
      }
      var oldValue := secondView;
      secondView := v;
      OnSecondViewPropertyChanged(oldValue, v);
    }

    /**
     * Assigning SplitPercentage: the value is clamped into [0, 1]; only a real change is stored,
     * and it asks for a new layout pass.
     */
    method SetSplitPercentage(v: real)
      requires Valid()
      modifies this`splitPercentage, this`layoutInvalidations
      ensures Valid()
      ensures splitPercentage == CoerceSplitPercentage(v)
      ensures layoutInvalidations == old(layoutInvalidations) + (if CoerceSplitPercentage(v) == old(splitPercentage) then 0 else 1)
    {
      var coerced := CoerceSplitPercentage(v);
      if coerced == splitPercentage {
        return;
      }
      splitPercentage := coerced;
      layoutInvalidations := layoutInvalidations + 1;
    }

    /** OnMainDisplayInfoChanged: the new orientation is stored and a layout pass requested. */
    method OnMainDisplayInfoChanged(o: DisplayOrientation)
      modifies this`screenOrientation, this`layoutInvalidations
      ensures screenOrientation == o && layoutInvalidations == old(layoutInvalidations) + 1
    {
      screenOrientation := o;
      layoutInvalidations := layoutInvalidations + 1;
    }

    /** RecalculateSize: the stack's orientation and the views' requests follow `Arranged`. */
    method RecalculateSize(width: real, height: real)
      requires Valid()
      modifies mainStack`orientation, firstContentView`widthRequest, firstContentView`heightRequest,
        secondContentView`widthRequest, secondContentView`heightRequest
      ensures Valid()
      ensures Current() == Arranged(old(Current()), screenOrientation, width, height, splitPercentage)
    {
      match screenOrientation
      case Unknown | Portrait =>
        mainStack.orientation := Vertical;
        firstContentView.widthRequest := width;
        secondContentView.widthRequest := width;
        firstContentView.heightRequest := height * splitPercentage;
        secondContentView.heightRequest := height * (1.0 - splitPercentage);
      case Landscape =>
        mainStack.orientation := Horizontal;
        firstContentView.widthRequest := width * splitPercentage;
        secondContentView.widthRequest := width * (1.0 - splitPercentage);
        firstContentView.heightRequest := height;
        secondContentView.heightRequest := height;
      case Other(_) =>
    }

    /**
     * OnSizeAllocated: once width and height are both known the views are re-arranged; while
     * either is -1 nothing changes.
     */
    method OnSizeAllocated(width: real, height: real)
      requires Valid()
      modifies mainStack`orientation, firstContentView`widthRequest, firstContentView`heightRequest,
        secondContentView`widthRequest, secondContentView`heightRequest
      ensures Valid()
      ensures Current() == Allocated(old(Current()), screenOrientation, width, height, splitPercentage)
    {
      if width != UnknownExtent && height != UnknownExtent {
        RecalculateSize(width, height);
      }
    }
  }
}
