/**
 * The floating action button: its size and padding tables, its show/hide transitions, the
 * search of the visual tree for a scroll view to hide on, and its attachment to the scroll
 * registry.
 *
 * The visual tree is a value (`Element`); the button's chain of ancestors, nearest first, is a
 * field that OnParentSet replaces. The animated show/hide paths are taken to reach their final
 * scale and opacity at once.
 */
module FloatingActionButtonModel {
  import opened Views
  import opened ScrollViewExtensions

  // ---------------------------------------------------------------------------------------------
  // Size and padding

  /** Padding on the four sides. */
  datatype Thickness = Thickness(left: real, top: real, right: real, bottom: real)

  /** The horizontal placement of the button in its container. */
  datatype LayoutOptions = Fill | Start | Center | End

  /** The height, width and corner radius requested for the button; a width of -1 means auto. */
  datatype Size = Size(height: real, width: real, cornerRadius: real)

  const StandardDiameter: real := 56.0
  const MiniDiameter: real := 40.0
  /** The width request that lets the button size itself to its content. */
  const AutoWidth: real := -1.0

  /**
   * The size UpdateSize applies: a circle of 40 (mini) or 56 (standard), except that an extended
   * button gets an automatic width.
   */
  function SizeFor(isMini: bool, isExtended: bool): (r: Size)
    ensures r.height == (if isMini then MiniDiameter else StandardDiameter)
    ensures r.cornerRadius * 2.0 == r.height
    ensures isExtended <==> r.width == AutoWidth
    ensures !isExtended ==> r.width == r.height
  {
    var d := if isMini then MiniDiameter else StandardDiameter;
    Size(d, if isExtended then AutoWidth else d, d / 2.0)
  }

  /**
   * The padding UpdatePadding applies: 16 horizontally and none vertically for an extended
   * button, otherwise the same on all sides, 8 for a mini button and 16 for a standard one.
   */
  function PaddingFor(isMini: bool, isExtended: bool): (r: Thickness)
    ensures isExtended ==> r == Thickness(16.0, 0.0, 16.0, 0.0)
    ensures !isExtended ==> r.left == r.top == r.right == r.bottom == (if isMini then 8.0 else 16.0)
    ensures r.left == r.right && r.top == r.bottom
  {
    if isExtended then Thickness(16.0, 0.0, 16.0, 0.0)
    else if isMini then Thickness(8.0, 8.0, 8.0, 8.0)
    else Thickness(16.0, 16.0, 16.0, 16.0)
  }

  /** A non-extended button's padding leaves a square content area of 24 by 24. */
  lemma ContentAreaIsTwentyFour(isMini: bool)
    ensures var s, p := SizeFor(isMini, false), PaddingFor(isMini, false);
      s.width - p.left - p.right == 24.0 && s.height - p.top - p.bottom == 24.0
  {
  }

  // ---------------------------------------------------------------------------------------------
  // Show and hide

  /** The properties the show/hide transitions change. */
  datatype Appearance = Appearance(scale: real, opacity: real, isVisible: bool)

  /** Fully shown. */
  const ShownLook := Appearance(1.0, 1.0, true)
  /** Fully hidden. */
  const HiddenLook := Appearance(0.0, 0.0, false)

  /**
   * ShowAsync: acts only when the button is collapsed (scale 0) or transparent (opacity 0), and
   * then ends fully shown; any other appearance is left as it is.
   */
  function ShowTransition(a: Appearance): (r: Appearance)
    ensures a.scale == 0.0 || a.opacity == 0.0 ==> r == ShownLook
    ensures a.scale != 0.0 && a.opacity != 0.0 ==> r == a
    ensures r.scale != 0.0 && r.opacity != 0.0
  {
    if a.scale == 0.0 || a.opacity == 0.0 then ShownLook else a
  }

  /**
   * HideAsync: acts only when the button is at full scale or full opacity, and then ends fully
   * hidden; any other appearance is left as it is.
   */
  function HideTransition(a: Appearance): (r: Appearance)
    ensures a.scale == 1.0 || a.opacity == 1.0 ==> r == HiddenLook
    ensures a.scale != 1.0 && a.opacity != 1.0 ==> r == a
    ensures r.scale != 1.0 && r.opacity != 1.0
  {
    if a.scale == 1.0 || a.opacity == 1.0 then HiddenLook else a
  }

  /** A second show or hide changes nothing, and hiding then showing again restores the look. */
  lemma TransitionsSettle(a: Appearance)
    ensures ShowTransition(ShowTransition(a)) == ShowTransition(a)
    ensures HideTransition(HideTransition(a)) == HideTransition(a)
    ensures ShowTransition(HideTransition(ShownLook)) == ShownLook
    ensures HideTransition(ShowTransition(HiddenLook)) == HiddenLook
  {
  }

  /**
   * A button caught half-way (scale and opacity 0.5) is neither shown nor hidden: the guards
   * test the exact end values.
   */
  lemma PartialAppearancesAreStuck()
    ensures ShowTransition(Appearance(0.5, 0.5, true)) == Appearance(0.5, 0.5, true)
    ensures HideTransition(Appearance(0.5, 0.5, true)) == Appearance(0.5, 0.5, true)
  {
  }

  // ---------------------------------------------------------------------------------------------
  // The visual tree

  /** An element of the visual tree, as far as the scroll-view search distinguishes them. */
  datatype Element =
    | ScrollViewNode(id: ViewId)
    | LayoutNode(children: seq<Element>)
    | ContentViewNode(content: Option<Element>)
    | OtherNode

  /** The first element of a sequence, if any. */
  function First(s: seq<ViewId>): Option<ViewId>
  {
    if s == [] then None else Some(s[0])
  }

  /** Every scroll view in the tree of `e`, in depth-first pre-order. */
  function ScrollViews(e: Element): seq<ViewId>
    decreases e, 1
  {
    match e
    case ScrollViewNode(id) => [id]
    case LayoutNode(children) => ScrollViewsIn(children)
    case ContentViewNode(content) => if content.Some? then ScrollViews(content.value) else []
    case OtherNode => []
  }

  function ScrollViewsIn(children: seq<Element>): seq<ViewId>
    decreases children, 0
  {
    if children == [] then [] else ScrollViews(children[0]) + ScrollViewsIn(children[1..])
  }

  /**
   * FindInElement: the element itself when it is a scroll view, else the first hit among a
   * layout's children, else the search of a content view's content.
   */
  function FindInElement(e: Element): Option<ViewId>
    decreases e, 1
  {
    match e
    case ScrollViewNode(id) => Some(id)
    case LayoutNode(children) => FindInChildren(children)
    case ContentViewNode(content) => if content.Some? then FindInElement(content.value) else None
    case OtherNode => None
  }

  /** The `foreach` of FindInElement: the first child whose search succeeds. */
  function FindInChildren(children: seq<Element>): Option<ViewId>
    decreases children, 0
  {
    if children == [] then None
    else
      var found := FindInElement(children[0]);
      if found.Some? then found else FindInChildren(children[1..])
  }

  /** FindInElement returns the first scroll view of the tree in pre-order, and null when there is none. */
  lemma {:induction false} FindInElementIsFirstInPreOrder(e: Element)
    ensures FindInElement(e) == First(ScrollViews(e))
    decreases e, 1
  {
    match e
    case ScrollViewNode(id) =>
    case LayoutNode(children) => FindInChildrenIsFirstInPreOrder(children);
    case ContentViewNode(content) =>
      if content.Some? {
        FindInElementIsFirstInPreOrder(content.value);
      }
    case OtherNode =>
  }

  lemma {:induction false} FindInChildrenIsFirstInPreOrder(children: seq<Element>)
    ensures FindInChildren(children) == First(ScrollViewsIn(children))
    decreases children, 0
  {
    if children != [] {
      FindInElementIsFirstInPreOrder(children[0]);
      FindInChildrenIsFirstInPreOrder(children[1..]);
    }
  }

  /**
   * The scroll views FindParentOfType can return from one ancestor: the ancestor itself when it
   * is a scroll view, the scroll views inside a content view's content, and none for a layout.
   */
  function AncestorHits(a: Element): seq<ViewId>
  {
    match a
    case ScrollViewNode(id) => [id]
    case ContentViewNode(content) => if content.Some? then ScrollViews(content.value) else []
    case _ => []
  }

  /** The hits of a chain of ancestors, nearest ancestor first. */
  function ChainHits(ancestors: seq<Element>): seq<ViewId>
  {
    if ancestors == [] then [] else AncestorHits(ancestors[0]) + ChainHits(ancestors[1..])
  }

  lemma {:induction false} ChainHitsAppend(a: seq<Element>, b: seq<Element>)
    ensures ChainHits(a + b) == ChainHits(a) + ChainHits(b)
    decreases |a|
  {
    if a == [] {
      assert a + b == b;
    } else {
      assert (a + b)[0] == a[0];
      assert (a + b)[1..] == a[1..] + b;
      ChainHitsAppend(a[1..], b);
    }
  }
  /** The hits of a chain are those of its first `k` ancestors followed by those of the rest. */
  lemma ChainHitsSplit(ancestors: seq<Element>, k: int)
    requires 0 <= k <= |ancestors|
    ensures ChainHits(ancestors) == ChainHits(ancestors[..k]) + ChainHits(ancestors[k..])
  {
    var a, b := ancestors[..k], ancestors[k..];
    assert a + b == ancestors;
    ChainHitsAppend(a, b);
  }

  /** A chain of one ancestor has that ancestor's hits. */
  lemma ChainHitsSingle(a: Element)
    ensures ChainHits([a]) == AncestorHits(a)
  {
    assert [a][1..] == [];
  }

  /** The first element of a concatenation whose left part is not empty comes from that part. */
  lemma FirstOfAppend(a: seq<ViewId>, b: seq<ViewId>)
    requires a != []
    ensures First(a + b) == Some(a[0])
  {
    assert (a + b)[0] == a[0];
  }

  /**
   * One step of the walk up: once the ancestors below index `i` have no hits, the hits of the
   * chain begin with those of ancestor `i`, and the ancestors up to `i` have only its hits.
   */
  lemma ChainHitsStep(ancestors: seq<Element>, i: int)
    requires 0 <= i < |ancestors| && ChainHits(ancestors[..i]) == []
    ensures ChainHits(ancestors[..i + 1]) == AncestorHits(ancestors[i])
    ensures AncestorHits(ancestors[i]) != [] ==> First(ChainHits(ancestors)) == Some(AncestorHits(ancestors[i])[0])
  {
    var upTo := ancestors[..i + 1];
    ChainHitsSplit(upTo, i);
    assert upTo[..i] == ancestors[..i] && upTo[i..] == [ancestors[i]];
    ChainHitsSingle(ancestors[i]);
    assert ChainHits(upTo) == AncestorHits(ancestors[i]);
    ChainHitsSplit(ancestors, i + 1);
    if AncestorHits(ancestors[i]) != [] {
      FirstOfAppend(AncestorHits(ancestors[i]), ChainHits(ancestors[i + 1..]));
    }
  }

  /** The rule that picks the scroll view to attach to. */
  function AttachTarget(scrollView: Option<ViewId>, autoHideOnScroll: bool, ancestors: seq<Element>): (r: Option<ViewId>)
    ensures scrollView.Some? ==> r == scrollView
    ensures scrollView.None? && (!autoHideOnScroll || ancestors == []) ==> r.None?
    ensures scrollView.None? && autoHideOnScroll ==> r == First(ChainHits(ancestors))
  {
    if scrollView.Some? then scrollView
    else if autoHideOnScroll && ancestors != [] then First(ChainHits(ancestors))
    else None
  }

  // ---------------------------------------------------------------------------------------------
  // The control

  class FloatingActionButton {
    /** The identity the scroll registry records for this button. */
    const id: ViewId
    var isMini: bool
    var isExtended: bool
    var autoHideOnScroll: bool
    /** The ScrollView property: an explicitly chosen scroll view. */
    var scrollView: Option<ViewId>
    /** `_attachedScrollView`: the scroll view this button last attached to. */
    var attachedScrollView: Option<ViewId>
    var animationEnabled: bool
    var heightRequest: real
    var widthRequest: real
    var cornerRadius: real
    var padding: Thickness
    var horizontalOptions: LayoutOptions
    var scale: real
    var opacity: real
    var isVisible: bool
    /** `Parent`, `Parent.Parent`, ...: the chain of ancestors, nearest first; empty when unparented. */
    var ancestors: seq<Element>

    function Look(): Appearance
      reads this
    {
      Appearance(scale, opacity, isVisible)
    }

    /** What AttachFab reads from the button. */
    function Info(): FabInfo
      reads this
    {
      FabInfo(id, opacity, scale, isVisible)
    }

    /** The size, width and padding requested are those of the size and padding tables. */
    ghost predicate SizedForFlags()
      reads this
    {
      var s := SizeFor(isMini, isExtended);
      && heightRequest == s.height && widthRequest == s.width && cornerRadius == s.cornerRadius
      && padding == PaddingFor(isMini, isExtended)
    }

    /**
     * A standard, unparented, fully shown button. The constructor requests the standard circle
     * but sets the padding to 0, not to the 16 of UpdatePadding.
     */
    constructor (id: ViewId)
      ensures this.id == id && !isMini && !isExtended && !autoHideOnScroll && animationEnabled
      ensures scrollView == None && attachedScrollView == None && ancestors == []
      ensures heightRequest == StandardDiameter && widthRequest == StandardDiameter && cornerRadius == 28.0
      ensures padding == Thickness(0.0, 0.0, 0.0, 0.0) && horizontalOptions == Fill
      ensures Look() == ShownLook
      ensures !SizedForFlags()
    {
      this.id := id;
      isMini := false;
      isExtended := false;
      autoHideOnScroll := false;
      scrollView := None;
      attachedScrollView := None;
      animationEnabled := true;
      padding := Thickness(0.0, 0.0, 0.0, 0.0);
      cornerRadius := 28.0;
      heightRequest := StandardDiameter;
      widthRequest := StandardDiameter;
      horizontalOptions := Fill;
      scale := 1.0;
      opacity := 1.0;
      isVisible := true;
      ancestors := [];
    }

    /** UpdatePadding: applies the padding table. */
    method UpdatePadding()
      modifies this`padding
      ensures padding == PaddingFor(isMini, isExtended)
    {
      if isExtended {
        padding := Thickness(16.0, 0.0, 16.0, 0.0);
      } else {
        padding := if isMini then Thickness(8.0, 8.0, 8.0, 8.0) else Thickness(16.0, 16.0, 16.0, 16.0);
      }
    }

    /** UpdateSize: applies the size table and then the padding table. */
    method UpdateSize()
      modifies this`heightRequest, this`widthRequest, this`cornerRadius, this`padding
      ensures SizedForFlags()
    {
      if isMini {
        heightRequest := MiniDiameter;
        widthRequest := if isExtended then AutoWidth else MiniDiameter;
        cornerRadius := 20.0;
      } else {
        heightRequest := StandardDiameter;
        widthRequest := if isExtended then AutoWidth else StandardDiameter;
        cornerRadius := 28.0;
      }
      UpdatePadding();
    }

    /**
     * UpdateLayout: an extended button gets an automatic width and is placed at the start; any
     * other is resized by UpdateSize and centred. The padding is applied in both cases.
     */
    method UpdateLayout()
      modifies this`heightRequest, this`widthRequest, this`cornerRadius, this`padding, this`horizontalOptions
      ensures horizontalOptions == if isExtended then Start else Center
      ensures widthRequest == SizeFor(isMini, isExtended).width
      ensures padding == PaddingFor(isMini, isExtended)
      ensures isExtended ==> heightRequest == old(heightRequest) && cornerRadius == old(cornerRadius)
      ensures !isExtended ==> SizedForFlags()
    {
      if isExtended {
        widthRequest := AutoWidth;
        horizontalOptions := Start;
      } else {
        UpdateSize();
        horizontalOptions := Center;
      }
      UpdatePadding();
    }

    /** The IsMini change handler. */
    method OnIsMiniPropertyChanged(oldValue: bool, newValue: bool)
      modifies this`heightRequest, this`widthRequest, this`cornerRadius, this`padding
      ensures oldValue == newValue ==> unchanged(this)
      ensures oldValue != newValue ==> SizedForFlags()
    {
      if oldValue == newValue {
        return;
      }
      UpdateSize();
    }

    /** The IsMini setter: a real change is committed and handled; the button ends sized for its flags. */
    method SetIsMini(b: bool)
      modifies this`isMini, this`heightRequest, this`widthRequest, this`cornerRadius, this`padding
      ensures isMini == b
      ensures b == old(isMini) ==> unchanged(this)
      ensures b != old(isMini) || old(SizedForFlags()) ==> SizedForFlags()
    {
      if b != isMini {
        var oldValue := isMini;
        isMini := b;
        OnIsMiniPropertyChanged(oldValue, b);
      }
    }

    /** The IsExtended change handler. */
    method OnIsExtendedPropertyChanged(oldValue: bool, newValue: bool)
      modifies this`heightRequest, this`widthRequest, this`cornerRadius, this`padding, this`horizontalOptions
      ensures oldValue == newValue ==> unchanged(this)
      ensures oldValue != newValue ==>
        && horizontalOptions == (if isExtended then Start else Center)
        && widthRequest == SizeFor(isMini, isExtended).width
        && padding == PaddingFor(isMini, isExtended)
        && (isExtended ==> heightRequest == old(heightRequest) && cornerRadius == old(cornerRadius))
        && (!isExtended ==> SizedForFlags())
    {
      if oldValue == newValue {
        return;
      }
      UpdateLayout();
    }

    /**
     * The IsExtended setter. Extending keeps the height and corner radius, so a button whose
     * sizes matched the table before still matches it afterwards.
     */
    method SetIsExtended(b: bool)
      modifies this`isExtended, this`heightRequest, this`widthRequest, this`cornerRadius, this`padding,
        this`horizontalOptions
      ensures isExtended == b
      ensures b == old(isExtended) ==> unchanged(this)
      ensures b != old(isExtended) ==> horizontalOptions == (if b then Start else Center)
      ensures (b != old(isExtended) && !b) || old(SizedForFlags()) ==> SizedForFlags()
    {
      if b != isExtended {
        var oldValue := isExtended;
        isExtended := b;
        OnIsExtendedPropertyChanged(oldValue, b);
      }
    }

    /**
     * FindParentOfType: walks the ancestors nearest first; an ancestor that is a scroll view is
     * returned, and a content view's content is searched before moving further up.
     */
    method FindParentOfType() returns (r: Option<ViewId>)
      ensures r == First(ChainHits(ancestors))
    {
      var i := 0;
      while i < |ancestors|
        invariant 0 <= i <= |ancestors|
        invariant ChainHits(ancestors[..i]) == []
      {
        var current := ancestors[i];
        ChainHitsStep(ancestors, i);
        if current.ScrollViewNode? {
          return Some(current.id);
        }
        if current.ContentViewNode? && current.content.Some? {
          var found := FindInElement(current.content.value);
          FindInElementIsFirstInPreOrder(current.content.value);
          if found.Some? {
            return found;
          }
        }
        i := i + 1;
      }
      assert ancestors[..i] == ancestors;
      return None;
    }

    /**
     * The registry after a re-attachment: the previously attached scroll view has lost its
     * record and its Scrolled subscription (its ScrollY listener stays), and the newly
     * attached one, if any, has a fresh record and both subscriptions.
     */
    twostate predicate Reattached(registry: ScrollRegistry, nowMs: int)
      reads this, registry
    {
      var previous := old(attachedScrollView);
      var states := if previous.Some? then old(registry.states) - {previous.value} else old(registry.states);
      var handlers := if previous.Some? then old(registry.scrolledHandlers) - {previous.value}
                      else old(registry.scrolledHandlers);
      var listeners := old(registry.scrollYListeners);
      && registry.states == (if attachedScrollView.Some? then states[attachedScrollView.value := FreshRecord(Info(), nowMs)]
                             else states)
      && registry.scrolledHandlers == (if attachedScrollView.Some? then handlers + {attachedScrollView.value} else handlers)
      && registry.scrollYListeners == (if attachedScrollView.Some? then listeners + {attachedScrollView.value} else listeners)
    }

    /**
     * UpdateScrollViewAttachment: detaches from the previously attached scroll view, then
     * attaches to the explicit ScrollView if there is one, else, when AutoHideOnScroll is set
     * and the button has a parent, to the nearest scroll view FindParentOfType finds.
     */
    method UpdateScrollViewAttachment(registry: ScrollRegistry, nowMs: int)
      requires registry.Valid()
      modifies this`attachedScrollView, registry
      ensures registry.Valid()
      ensures attachedScrollView == AttachTarget(scrollView, autoHideOnScroll, ancestors)
      ensures Reattached(registry, nowMs)
    {
      if attachedScrollView.Some? {
        registry.DetachFab(attachedScrollView);
        attachedScrollView := None;
      }
      if scrollView.Some? {
        attachedScrollView := scrollView;
        registry.AttachFab(attachedScrollView, Some(Info()), true, nowMs);
        return;
      }
      if autoHideOnScroll && ancestors != [] {
        var found := FindParentOfType();
        if found.Some? {
          attachedScrollView := found;
          registry.AttachFab(found, Some(Info()), true, nowMs);
        }
      }
    }

    /** The AutoHideOnScroll setter: a real change re-runs the attachment. */
    method SetAutoHideOnScroll(b: bool, registry: ScrollRegistry, nowMs: int)
      requires registry.Valid()
      modifies this`autoHideOnScroll, this`attachedScrollView, registry
      ensures registry.Valid() && autoHideOnScroll == b
      ensures b == old(autoHideOnScroll) ==> unchanged(this, registry)
      ensures b != old(autoHideOnScroll) ==>
        attachedScrollView == AttachTarget(scrollView, b, ancestors) && Reattached(registry, nowMs)
    {
      if b != autoHideOnScroll {
        autoHideOnScroll := b;
        UpdateScrollViewAttachment(registry, nowMs);
      }
    }

    /** The ScrollView setter: a real change re-runs the attachment. */
    method SetScrollView(v: Option<ViewId>, registry: ScrollRegistry, nowMs: int)
      requires registry.Valid()
      modifies this`scrollView, this`attachedScrollView, registry
      ensures registry.Valid() && scrollView == v
      ensures v == old(scrollView) ==> unchanged(this, registry)
      ensures v != old(scrollView) ==>
        attachedScrollView == AttachTarget(v, autoHideOnScroll, ancestors) && Reattached(registry, nowMs)
    {
      if v != scrollView {
        scrollView := v;
        UpdateScrollViewAttachment(registry, nowMs);
      }
    }

    /** OnParentSet: the button moved to a new chain of ancestors; the attachment is re-run. */
    method OnParentSet(newAncestors: seq<Element>, registry: ScrollRegistry, nowMs: int)
      requires registry.Valid()
      modifies this`ancestors, this`attachedScrollView, registry
      ensures registry.Valid() && ancestors == newAncestors
      ensures attachedScrollView == AttachTarget(scrollView, autoHideOnScroll, newAncestors)
      ensures Reattached(registry, nowMs)
    {
      ancestors := newAncestors;
      UpdateScrollViewAttachment(registry, nowMs);
    }

    /** OnHandlerChanging: losing the platform handler detaches the attached scroll view. */
    method OnHandlerChanging(newHandlerIsNull: bool, registry: ScrollRegistry)
      requires registry.Valid()
      modifies this`attachedScrollView, registry
      ensures registry.Valid()
      ensures !newHandlerIsNull || old(attachedScrollView).None? ==> unchanged(this, registry)
      ensures newHandlerIsNull && old(attachedScrollView).Some? ==>
        && attachedScrollView == None
        && registry.states == old(registry.states) - {old(attachedScrollView).value}
        && registry.scrolledHandlers == old(registry.scrolledHandlers) - {old(attachedScrollView).value}
        && registry.scrollYListeners == old(registry.scrollYListeners)
    {
      if newHandlerIsNull {
        if attachedScrollView.Some? {
          registry.DetachFab(attachedScrollView);
          attachedScrollView := None;
        }
      }
    }

    /**
     * ShowAsync. With animations enabled the delay and the scale and fade animations run; they
     * are taken to end, as the direct path does, at scale 1 and opacity 1.
     */
    method ShowAsync()
      modifies this`scale, this`opacity, this`isVisible
      ensures Look() == ShowTransition(old(Look()))
    {
      if scale == 0.0 || opacity == 0.0 {
        scale := 0.0;
        opacity := 0.0;
        isVisible := true;
        // With animations enabled, ScaleTo(1) and FadeTo(1) after the show delay, taken to
        // their end; without, the values are set directly.
        scale, opacity := 1.0, 1.0;
      }
    }

    /**
     * HideAsync. With animations enabled the scale and fade animations run; they are taken to
     * end, as the direct path does, at scale 0 and opacity 0.
     */
    method HideAsync()
      modifies this`scale, this`opacity, this`isVisible
      ensures Look() == HideTransition(old(Look()))
    {
      if scale == 1.0 || opacity == 1.0 {
        // With animations enabled, ScaleTo(0) and FadeTo(0) taken to their end; without, the
        // values are set directly.
        scale, opacity := 0.0, 0.0;
        isVisible := false;
      }
    }

    /** The Loaded handler: starts collapsed and shows, so a loaded button ends fully shown. */
    method OnFloatingActionButtonLoaded()
      modifies this`scale, this`opacity, this`isVisible
      ensures Look() == ShownLook
    {
      scale := 0.0;
      opacity := 0.0;
      isVisible := true;
      ShowAsync();
    }

    /** The Unloaded handler: hides. */
    method OnFloatingActionButtonUnloaded()
      modifies this`scale, this`opacity, this`isVisible
      ensures Look() == HideTransition(old(Look()))
    {
      HideAsync();
    }

    /** InitializeAnimation: collapses and fades out the button, leaving it visible for ShowAsync. */
    method InitializeAnimation()
      modifies this`scale, this`opacity
      ensures scale == 0.0 && opacity == 0.0
      ensures ShowTransition(Look()) == ShownLook
    {
      scale := 0.0;
      opacity := 0.0;
    }
  }
}
