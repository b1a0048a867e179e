# ThunderDesign.Maui.Toolkit: a verified model of its controls' core rules

This project models, in Dafny, the self-contained rules of six pieces of the
ThunderDesign.Maui.Toolkit control library for .NET MAUI, and proves properties of them:

- **The scroll registry** (`ScrollViewExtensions`). It is the table of scroll views to
  which a floating action button is attached, and it drives the button's show/hide state
  machine. Each scroll event:
  - skips deltas under a noise floor of 1;
  - restarts the accumulated distance after a gap of more than 300 ms or a reversal;
  - hides or shows the button once the accumulated distance reaches 15 in one direction;
  - always shows the button at the top of the view.
- **The tick-snapping slider** (`ExtendedSlider`). It keeps Value, TickValue, TickCount and
  the cached tick frequency in step through the property system's validate and coerce
  callbacks and three recalculation methods. Those methods call each other through the
  change handlers.
- **The floating action button** (`FloatingActionButton`):
  - its size and padding tables and layout;
  - its show/hide transitions;
  - the search of the visual tree for a scroll view;
  - the priority rule that chooses which scroll view it attaches to.
- **The orientation splitter** (`OrientationSplitterView`):
  - the clamp of SplitPercentage into [0, 1];
  - the division of the allocated width or height between its two views;
  - the stack direction that follows the screen orientation.
- **The orientation collection view** (`OrientationCollectionView`):
  - the rule that picks the grid's scrolling direction from the screen orientation and the
    inversion switch;
  - the Span and ItemSpacing validators;
  - the handlers that copy them into the grid layout.
- **The header/body/footer view** (`HeaderFooterContentView`). It has a one-column,
  three-row grid, and the three slot handlers keep the grid's child list in step with the
  slots.

Each source file becomes one module. `views.dfy` holds the types the modules share:
- view identities;
- `Option`;
- the display orientation.

### How the code is modelled
- **Objects whose fields the source updates become classes**, with `modifies` frames on
  their methods. These are:
  - the registry;
  - the slider;
  - the button;
  - the splitter and its inner views;
  - the collection view and its grid layout;
  - the header/footer view and its grid.
- **Each such method is proved against a pure function** of the old state, and the
  properties are proved about those functions:
  - `Scrolled` for a scroll event, and `Shown`/`Hidden` for ShowFab and HideFab;
  - `RecalculatedAll`, `ValueSet`, `TickValueSet`, `TickCountSet` and `SnapToTickSet` for
    the slider;
  - `Arranged` for the splitter's RecalculateSize;
  - `SlotChanged` for a slot handler.
- **The slider's callback cascade is kept as it is written.** `RecalculateAll` calls
  `RecalculateTickValue`. That calls the TickValue setter, and so on to
  `RecalculateValue`, the Value setter and `RecalculateAll` again. These are modelled as
  mutually recursive methods, with no re-entrancy flag. Termination is proved with rank
  functions: every nested call has less left to change.
- **The button's search for a scroll view** walks the chain of its ancestors in a `while`
  loop, as the source does. The tree under an ancestor is a datatype, and the search of it
  is a recursive function.

### Re-entrancy in the slider
RecalculateValue writes Value whenever the snapped value differs from it, and no flag guards
the change handlers against re-entry. The model keeps both.

## Model

Source paths are relative to the repository root.

| member | source | states |
|---|---|---|
| ScrollViewExtensions.FreshRecord | src/ThunderDesign.Maui.Toolkit/Extensions/ScrollViewExtensions.cs:41-53 | the record AttachFab stores starts at offset 0 with an empty accumulator and no transition in flight, stamped with the current time; it counts the button as visible exactly when its opacity and scale are positive and it is visible; no trigger is pending in it |
| ScrollViewExtensions.Shown | src/ThunderDesign.Maui.Toolkit/Extensions/ScrollViewExtensions.cs:138-160 | ShowFab calls the button only from hidden and idle; it becomes visible only if the call completes, and a failure leaves it hidden; the animating flag is cleared afterwards, and no other field changes |
| ScrollViewExtensions.Hidden | src/ThunderDesign.Maui.Toolkit/Extensions/ScrollViewExtensions.cs:162-184 | HideFab calls the button only from visible and idle; it becomes hidden only if the call completes; the animating flag is cleared afterwards, and no other field changes |
| ScrollViewExtensions.Accumulate | src/ThunderDesign.Maui.Toolkit/Extensions/ScrollViewExtensions.cs:99-106 | after an idle gap over 300 ms or a reversal, the accumulator restarts at the delta; otherwise the delta is added; the result is never 0 and always has the delta's sign |
| ScrollViewExtensions.Trigger | src/ThunderDesign.Maui.Toolkit/Extensions/ScrollViewExtensions.cs:108-128 | a downward run of at least 15 on a visible button hides it, and an upward run of at least 15 on a hidden one shows it; either trigger empties the accumulator and leaves the offset, time stamp and button as they were; with no pending trigger nothing happens; afterwards no trigger is left pending and at most one call was made |
| ScrollViewExtensions.AtTop | src/ThunderDesign.Maui.Toolkit/Extensions/ScrollViewExtensions.cs:130-135 | an offset at or above the top shows a hidden button and empties the accumulator; in any other case nothing changes |
| ScrollViewExtensions.Scrolled | src/ThunderDesign.Maui.Toolkit/Extensions/ScrollViewExtensions.cs:76-136 | an event during a transition is dropped; otherwise the offset is always recorded and no transition is left in flight; a delta under 1 changes nothing else; an accepted delta stamps the time and leaves no trigger pending; an event that ends at the top with the button still hidden means the last call was a failed show; at most two calls are made |
| ScrollViewExtensions.RunNeverLeavesAnimating | src/ThunderDesign.Maui.Toolkit/Extensions/ScrollViewExtensions.cs:76-184 | no sequence of scroll events leaves a transition in flight |
| ScrollViewExtensions.RunKeepsNoPendingTrigger | src/ThunderDesign.Maui.Toolkit/Extensions/ScrollViewExtensions.cs:100-135 | the accumulator never ends an event past the threshold in the direction that would trigger: that holds after any sequence of events |
| ScrollViewExtensions.RunWhileAnimatingIsInert | src/ThunderDesign.Maui.Toolkit/Extensions/ScrollViewExtensions.cs:81-82 | while a transition is in flight, every event of a sequence is dropped with no call |
| ScrollViewExtensions.SlowScrollHidesOnce | src/ThunderDesign.Maui.Toolkit/Extensions/ScrollViewExtensions.cs:95-128 | deltas of 5, 5 and 6 within 300 ms hide a visible button exactly once and empty the accumulator |
| ScrollViewExtensions.IdleGapPreventsTrigger | src/ThunderDesign.Maui.Toolkit/Extensions/ScrollViewExtensions.cs:95-106 | two deltas of 10 separated by a 400 ms pause do not add up, so nothing is triggered |
| ScrollViewExtensions.TopShowsHiddenButton | src/ThunderDesign.Maui.Toolkit/Extensions/ScrollViewExtensions.cs:130-135 | reaching offset 0 shows a hidden button even when the accumulated distance is below the threshold |
| ScrollViewExtensions.TopWithinNoiseFloorIsIgnored | src/ThunderDesign.Maui.Toolkit/Extensions/ScrollViewExtensions.cs:89-93 | a final movement to the top that is smaller than 1 only records the offset; the scroll handler does not show the button |
| ScrollViewExtensions.ScrollRegistry.constructor | src/ThunderDesign.Maui.Toolkit/Extensions/ScrollViewExtensions.cs:8-9 | the registry starts empty, with no subscriptions |
| ScrollViewExtensions.ScrollRegistry.AttachFab | src/ThunderDesign.Maui.Toolkit/Extensions/ScrollViewExtensions.cs:29-74 | a null scroll view or button changes nothing; otherwise any earlier record of the view is replaced by the fresh record; with hide-on-scroll the view is subscribed and given a ScrollY listener, and without it the view is left unsubscribed |
| ScrollViewExtensions.ScrollRegistry.DetachFab | src/ThunderDesign.Maui.Toolkit/Extensions/ScrollViewExtensions.cs:190-200 | removes exactly that view's record and Scrolled subscription; a null or untracked view is a no-op; other records are untouched |
| ScrollViewExtensions.ScrollRegistry.ShowFab | src/ThunderDesign.Maui.Toolkit/Extensions/ScrollViewExtensions.cs:138-160 | an untracked view changes nothing; a tracked one follows `Shown`; the set of tracked views is unchanged |
| ScrollViewExtensions.ScrollRegistry.HideFab | src/ThunderDesign.Maui.Toolkit/Extensions/ScrollViewExtensions.cs:162-184 | an untracked view changes nothing; a tracked one follows `Hidden`; the set of tracked views is unchanged |
| ScrollViewExtensions.ScrollRegistry.OnScrollViewScrolled | src/ThunderDesign.Maui.Toolkit/Extensions/ScrollViewExtensions.cs:76-136 | an untracked view changes nothing; a tracked view's record and the calls made follow `Scrolled`; no other record changes |
| ScrollViewExtensions.ScrollRegistry.RecordStage | src/ThunderDesign.Maui.Toolkit/Extensions/ScrollViewExtensions.cs:84-106 | the event goes on exactly when the delta is at least 1; the offset is always recorded; an accepted delta stamps the time and accumulates as `Accumulate` says |
| ScrollViewExtensions.ScrollRegistry.ThresholdStage | src/ThunderDesign.Maui.Toolkit/Extensions/ScrollViewExtensions.cs:108-128 | the record and the calls follow `Trigger` |
| ScrollViewExtensions.ScrollRegistry.TopStage | src/ThunderDesign.Maui.Toolkit/Extensions/ScrollViewExtensions.cs:130-135 | the record and the calls follow `AtTop` |
| ScrollViewExtensions.ScrollRegistry.ActStage | src/ThunderDesign.Maui.Toolkit/Extensions/ScrollViewExtensions.cs:108-135 | the threshold stage and then the top stage, in that order, with their calls concatenated |
| ScrollViewExtensions.ScrollRegistry.ScrolledEventRaised | src/ThunderDesign.Maui.Toolkit/Extensions/ScrollViewExtensions.cs:58 | a Scrolled event reaches the handler only while the view is subscribed, and then it follows `Scrolled` |
| ScrollViewExtensions.ScrollRegistry.OnScrollYChanged | src/ThunderDesign.Maui.Toolkit/Extensions/ScrollViewExtensions.cs:61-70 | the ScrollY listener shows the button of a tracked, hidden view at or above the top; in every other case it changes nothing |
| ExtendedSliderModel.ClampInt | src/ThunderDesign.Maui.Toolkit/Contols/ExtendedSlider.cs:72 | Math.Clamp on integers agrees with the clamp on doubles at every integer point, so it lies in the range, keeps an input inside it and gives the nearer bound outside it |
| ExtendedSliderModel.RoundHalfEven | src/ThunderDesign.Maui.Toolkit/Contols/ExtendedSlider.cs:132 | Math.Round: the result is within 0.5 of the input, strictly so off the midpoints, and even on a midpoint |
| ExtendedSliderModel.CoerceTickValue | src/ThunderDesign.Maui.Toolkit/Contols/ExtendedSlider.cs:85-89 | an assigned tick index ends in [0, TickCount], and one already in range is kept |
| ExtendedSliderModel.TickFrequency | src/ThunderDesign.Maui.Toolkit/Contols/ExtendedSlider.cs:116-120 | the frequency is never negative and is 0 for no ticks; otherwise, TickCount of them make up the range, and it is positive for a proper range |
| ExtendedSliderModel.SnapTickBounds | src/ThunderDesign.Maui.Toolkit/Contols/ExtendedSlider.cs:132 | the tick nearest to a value in range is a tick index in [0, TickCount] |
| ExtendedSliderModel.SnapValueBounds | src/ThunderDesign.Maui.Toolkit/Contols/ExtendedSlider.cs:154 | the value of every tick index lies in [Minimum, Maximum] |
| ExtendedSliderModel.SnapTickOfSnapValue | src/ThunderDesign.Maui.Toolkit/Contols/ExtendedSlider.cs:132-154 | rounding the value of tick t gives t back |
| ExtendedSliderModel.RecalculatedAll | src/ThunderDesign.Maui.Toolkit/Contols/ExtendedSlider.cs:163-173 | with snapping off nothing changes; with it on, only the cache, TickValue and Value change, and the slider ends consistent; with no frequency TickValue ends 0 and Value ends at Minimum; otherwise TickValue ends round((Value - Minimum) / frequency) and Value ends on that tick |
| ExtendedSliderModel.ValueSet | src/ThunderDesign.Maui.Toolkit/Contols/ExtendedSlider.cs:111-114 | a write of Value is clamped into the range; when the clamped value equals the current one nothing changes; with snapping off only Value changes; with it on, a real change ends consistent |
| ExtendedSliderModel.RecalculatedValue | src/ThunderDesign.Maui.Toolkit/Contols/ExtendedSlider.cs:141-161 | with snapping off nothing changes; with it on, when Value already equals its tick's value only an empty cache is filled, and when Value moves to a value in range the slider ends consistent |
| ExtendedSliderModel.TickValueSet | src/ThunderDesign.Maui.Toolkit/Contols/ExtendedSlider.cs:85-98 | a write of TickValue that coerces to the current index changes nothing; with snapping off only TickValue changes, and it changes to the coerced index |
| ExtendedSliderModel.RecalculatedTickValue | src/ThunderDesign.Maui.Toolkit/Contols/ExtendedSlider.cs:122-139 | when TickValue already is the nearest tick only an empty cache is filled; with snapping off TickValue becomes the coerced nearest tick, or 0 for no frequency |
| ExtendedSliderModel.RecalculatedValueWhenFresh | src/ThunderDesign.Maui.Toolkit/Contols/ExtendedSlider.cs:141-161 | with a fresh cache and snapping on, RecalculateValue moves Value onto the tick TickValue names, and the nested RecalculateAll leaves it there |
| ExtendedSliderModel.TickValueSetRecalculates | src/ThunderDesign.Maui.Toolkit/Contols/ExtendedSlider.cs:91-98 | a write of another in-range tick index commits it and runs RecalculateValue |
| ExtendedSliderModel.TickValueSetWhenFresh | src/ThunderDesign.Maui.Toolkit/Contols/ExtendedSlider.cs:85-98 | with a fresh cache and snapping on, writing an in-range tick t moves TickValue to t and Value onto tick t; writing the current tick changes nothing |
| ExtendedSliderModel.RecalculatedTickValueWhenFresh | src/ThunderDesign.Maui.Toolkit/Contols/ExtendedSlider.cs:122-139 | with a fresh cache and snapping on, RecalculateTickValue moves TickValue, and Value with it, to the nearest tick |
| ExtendedSliderModel.CascadeIsRecalculatedAll | src/ThunderDesign.Maui.Toolkit/Contols/ExtendedSlider.cs:168-172 | after the cache is refreshed, RecalculateTickValue followed by RecalculateValue, nested cascades included, has exactly the net effect `RecalculatedAll` states |
| ExtendedSliderModel.RecalculatedAllIsIdempotent | src/ThunderDesign.Maui.Toolkit/Contols/ExtendedSlider.cs:163-173 | RecalculateAll on an already snapped slider changes nothing |
| ExtendedSliderModel.SnapMovesToNearestTick | src/ThunderDesign.Maui.Toolkit/Contols/ExtendedSlider.cs:132-154 | snapping moves Value by at most half a tick |
| ExtendedSliderModel.TickCountSet | src/ThunderDesign.Maui.Toolkit/Contols/ExtendedSlider.cs:63-83 | a negative count is rejected; an accepted count is committed and the slider stays consistent; re-writing the current count changes nothing; with snapping off TickValue is clamped into [0, new count] and nothing else moves |
| ExtendedSliderModel.CoercedTickFits | src/ThunderDesign.Maui.Toolkit/Contols/ExtendedSlider.cs:68-74 | the coerce callback leaves TickValue clamped to the new count, changes only TickValue and Value, and keeps the slider consistent |
| ExtendedSliderModel.SnapToTickSet | src/ThunderDesign.Maui.Toolkit/Contols/ExtendedSlider.cs:100-109 | re-writing the switch changes nothing; turning snapping off changes only the switch; a real change ends consistent |
| ExtendedSliderModel.ValueSetKeepsConsistent | src/ThunderDesign.Maui.Toolkit/Contols/ExtendedSlider.cs:111-114 | a write of Value keeps the slider consistent |
| ExtendedSliderModel.TickValueSetKeepsConsistent | src/ThunderDesign.Maui.Toolkit/Contols/ExtendedSlider.cs:85-98 | a write of TickValue keeps the slider consistent; with snapping on, TickValue ends at the coerced index and Value on that tick |
| ExtendedSliderModel.StaleFrequencyWhenSnapReturns | src/ThunderDesign.Maui.Toolkit/Contols/ExtendedSlider.cs:100-109 | a concrete run in which the cache goes stale while snapping is off, so that turning snapping back on moves Value to 0 instead of keeping it at 50 |
| ExtendedSliderModel.MidpointsSnapToEvenTicks | src/ThunderDesign.Maui.Toolkit/Contols/ExtendedSlider.cs:132 | on ticks of 50, values 25 and 75 snap to 0 and 100: midpoints round to the even tick |
| ExtendedSliderModel.ExtendedSlider.constructor | src/ThunderDesign.Maui.Toolkit/Contols/ExtendedSlider.cs:8-11 | a new slider has no ticks, tick 0, snapping off and an empty cache, and is consistent |
| ExtendedSliderModel.ExtendedSlider.CalculateTickFrequency | src/ThunderDesign.Maui.Toolkit/Contols/ExtendedSlider.cs:116-120 | the cache holds `TickFrequency` of the current range and count |
| ExtendedSliderModel.ExtendedSlider.RecalculateAll | src/ThunderDesign.Maui.Toolkit/Contols/ExtendedSlider.cs:163-173 | the new state is `RecalculatedAll` of the old one |
| ExtendedSliderModel.ExtendedSlider.OnValueChanged | src/ThunderDesign.Maui.Toolkit/Contols/ExtendedSlider.cs:111-114 | the ValueChanged handler has `RecalculatedAll`'s effect |
| ExtendedSliderModel.ExtendedSlider.SetValue | src/ThunderDesign.Maui.Toolkit/Contols/ExtendedSlider.cs:10 | the new state is `ValueSet` of the old one, and a consistent slider stays consistent |
| ExtendedSliderModel.ExtendedSlider.RecalculateValue | src/ThunderDesign.Maui.Toolkit/Contols/ExtendedSlider.cs:141-161 | the new state is `RecalculatedValue` of the old one |
| ExtendedSliderModel.ExtendedSlider.OnTickValuePropertyChanged | src/ThunderDesign.Maui.Toolkit/Contols/ExtendedSlider.cs:91-98 | equal old and new values change nothing; otherwise the handler has `RecalculatedValue`'s effect |
| ExtendedSliderModel.ExtendedSlider.SetTickValue | src/ThunderDesign.Maui.Toolkit/Contols/ExtendedSlider.cs:85-98 | the new state is `TickValueSet` of the old one, and a consistent slider stays consistent |
| ExtendedSliderModel.ExtendedSlider.RecalculateTickValue | src/ThunderDesign.Maui.Toolkit/Contols/ExtendedSlider.cs:122-139 | the new state is `RecalculatedTickValue` of the old one |
| ExtendedSliderModel.ExtendedSlider.OnTickCountCoerceValue | src/ThunderDesign.Maui.Toolkit/Contols/ExtendedSlider.cs:68-74 | the count is returned unchanged, after TickValue has been written clamped into [0, count] |
| ExtendedSliderModel.ExtendedSlider.OnTickCountPropertyChanged | src/ThunderDesign.Maui.Toolkit/Contols/ExtendedSlider.cs:76-83 | equal old and new counts change nothing; otherwise the handler has `RecalculatedAll`'s effect |
| ExtendedSliderModel.ExtendedSlider.SetTickCount | src/ThunderDesign.Maui.Toolkit/Contols/ExtendedSlider.cs:63-83 | the count is accepted exactly when it is not negative; the new state is what `TickCountSet` gives; the slider stays consistent |
| ExtendedSliderModel.ExtendedSlider.OnIsSnapToTickEnabledPropertyChanged | src/ThunderDesign.Maui.Toolkit/Contols/ExtendedSlider.cs:100-109 | equal old and new values change nothing; turning snapping on runs RecalculateValue and then RecalculateAll, and turning it off RecalculateAll alone |
| ExtendedSliderModel.ExtendedSlider.SetIsSnapToTickEnabled | src/ThunderDesign.Maui.Toolkit/Contols/ExtendedSlider.cs:100-109 | the new state is `SnapToTickSet` of the old one, and the slider stays consistent |
| FloatingActionButtonModel.SizeFor | src/ThunderDesign.Maui.Toolkit/Controls/FloatingActionButton.cs:420-433 | the height is 40 for a mini button and 56 for a standard one, and the corner radius is half the height; the width is -1 (automatic) exactly when the button is extended, and equal to the height otherwise |
| FloatingActionButtonModel.PaddingFor | src/ThunderDesign.Maui.Toolkit/Controls/FloatingActionButton.cs:508-521 | an extended button gets 16 horizontally and 0 vertically; any other gets the same on all four sides, 8 for mini and 16 for standard |
| FloatingActionButtonModel.ContentAreaIsTwentyFour | src/ThunderDesign.Maui.Toolkit/Controls/FloatingActionButton.cs:420-437 | a non-extended button, mini or standard, leaves a 24 by 24 content area inside its padding |
| FloatingActionButtonModel.ShowTransition | src/ThunderDesign.Maui.Toolkit/Controls/FloatingActionButton.cs:612-640 | from scale 0 or opacity 0, the show ends at scale 1, opacity 1 and visible; from any other look nothing changes |
| FloatingActionButtonModel.HideTransition | src/ThunderDesign.Maui.Toolkit/Controls/FloatingActionButton.cs:646-666 | from scale 1 or opacity 1, the hide ends at scale 0, opacity 0 and invisible; from any other look nothing changes |
| FloatingActionButtonModel.TransitionsSettle | src/ThunderDesign.Maui.Toolkit/Controls/FloatingActionButton.cs:612-666 | a second show or hide changes nothing; hiding a shown button and showing it again gives the shown look back, and the reverse holds too |
| FloatingActionButtonModel.PartialAppearancesAreStuck | src/ThunderDesign.Maui.Toolkit/Controls/FloatingActionButton.cs:614-648 | a button left half-way, at scale and opacity 0.5, is neither shown nor hidden, because both guards test for the exact end values |
| FloatingActionButtonModel.FindInElementIsFirstInPreOrder | src/ThunderDesign.Maui.Toolkit/Controls/FloatingActionButton.cs:583-606 | FindInElement returns the first scroll view of the tree in depth-first pre-order, or none; a layout's children are searched in order, and a content view's content is searched |
| FloatingActionButtonModel.FindInChildrenIsFirstInPreOrder | src/ThunderDesign.Maui.Toolkit/Controls/FloatingActionButton.cs:588-599 | the loop over a layout's children returns the first scroll view of the concatenated pre-orders of the children |
| FloatingActionButtonModel.ChainHitsAppend | src/ThunderDesign.Maui.Toolkit/Controls/FloatingActionButton.cs:560-578 | the candidates of a chain of ancestors are those of its lower part followed by those of its upper part |
| FloatingActionButtonModel.ChainHitsStep | src/ThunderDesign.Maui.Toolkit/Controls/FloatingActionButton.cs:562-577 | while walking up, the first ancestor that has candidates supplies the first candidate of the whole chain |
| FloatingActionButtonModel.AttachTarget | src/ThunderDesign.Maui.Toolkit/Controls/FloatingActionButton.cs:535-554 | an explicit ScrollView wins; otherwise there is no target unless AutoHideOnScroll is set and the button has ancestors; with it set, the target is the first candidate of the ancestor chain |
| FloatingActionButtonModel.FloatingActionButton.constructor | src/ThunderDesign.Maui.Toolkit/Controls/FloatingActionButton.cs:16-41 | a new button is standard, not extended, 56 by 56 with corner radius 28, shown, unparented and attached to nothing; its padding is 0, so it does not yet match the padding table |
| FloatingActionButtonModel.FloatingActionButton.UpdatePadding | src/ThunderDesign.Maui.Toolkit/Controls/FloatingActionButton.cs:508-521 | the padding becomes `PaddingFor` of the current flags |
| FloatingActionButtonModel.FloatingActionButton.UpdateSize | src/ThunderDesign.Maui.Toolkit/Controls/FloatingActionButton.cs:420-437 | the height, width, corner radius and padding become those of the size and padding tables |
| FloatingActionButtonModel.FloatingActionButton.UpdateLayout | src/ThunderDesign.Maui.Toolkit/Controls/FloatingActionButton.cs:487-503 | an extended button gets an automatic width and start placement, and keeps its height and corner radius; any other is resized by the tables and centred; the padding follows the table in both cases |
| FloatingActionButtonModel.FloatingActionButton.OnIsMiniPropertyChanged | src/ThunderDesign.Maui.Toolkit/Controls/FloatingActionButton.cs:350-357 | equal old and new values change nothing; otherwise the button ends sized for its flags |
| FloatingActionButtonModel.FloatingActionButton.SetIsMini | src/ThunderDesign.Maui.Toolkit/Controls/FloatingActionButton.cs:350-357 | re-writing IsMini changes nothing; a real change leaves the button sized for its flags |
| FloatingActionButtonModel.FloatingActionButton.OnIsExtendedPropertyChanged | src/ThunderDesign.Maui.Toolkit/Controls/FloatingActionButton.cs:386-393 | equal old and new values change nothing; otherwise the handler has UpdateLayout's effect |
| FloatingActionButtonModel.FloatingActionButton.SetIsExtended | src/ThunderDesign.Maui.Toolkit/Controls/FloatingActionButton.cs:386-393 | re-writing IsExtended changes nothing; a real change sets the placement; a button sized for its flags stays so, and un-extending always leaves it so |
| FloatingActionButtonModel.FloatingActionButton.FindParentOfType | src/ThunderDesign.Maui.Toolkit/Controls/FloatingActionButton.cs:558-581 | the walk up from Parent returns the first candidate of the ancestor chain: an ancestor that is a scroll view, or the first scroll view in a content view ancestor's content, nearest ancestor first; none when there is no candidate |
| FloatingActionButtonModel.FloatingActionButton.UpdateScrollViewAttachment | src/ThunderDesign.Maui.Toolkit/Controls/FloatingActionButton.cs:526-555 | the previously attached scroll view is always detached first; the button is then attached to `AttachTarget`, or to nothing, and the registry gains a fresh record, the Scrolled subscription and the ScrollY listener for that view only; the detached view loses its record and Scrolled subscription and keeps its ScrollY listener (`Reattached`) |
| FloatingActionButtonModel.FloatingActionButton.SetAutoHideOnScroll | src/ThunderDesign.Maui.Toolkit/Controls/FloatingActionButton.cs:395-401 | re-writing the value changes nothing; a real change re-runs the attachment with the new value, leaving the registry as `Reattached` states |
| FloatingActionButtonModel.FloatingActionButton.SetScrollView | src/ThunderDesign.Maui.Toolkit/Controls/FloatingActionButton.cs:403-409 | re-writing the value changes nothing; a real change re-runs the attachment with the new scroll view, leaving the registry as `Reattached` states |
| FloatingActionButtonModel.FloatingActionButton.OnParentSet | src/ThunderDesign.Maui.Toolkit/Controls/FloatingActionButton.cs:725-731 | after a move in the tree the button is attached to the target its new ancestors give, and the registry is left as `Reattached` states |
| FloatingActionButtonModel.FloatingActionButton.OnHandlerChanging | src/ThunderDesign.Maui.Toolkit/Controls/FloatingActionButton.cs:736-749 | losing the handler detaches the attached scroll view and clears the field, leaving the ScrollY listeners as they were; gaining a handler, or having nothing attached, changes nothing |
| FloatingActionButtonModel.FloatingActionButton.ShowAsync | src/ThunderDesign.Maui.Toolkit/Controls/FloatingActionButton.cs:612-640 | the look follows `ShowTransition` |
| FloatingActionButtonModel.FloatingActionButton.HideAsync | src/ThunderDesign.Maui.Toolkit/Controls/FloatingActionButton.cs:646-666 | the look follows `HideTransition` |
| FloatingActionButtonModel.FloatingActionButton.OnFloatingActionButtonLoaded | src/ThunderDesign.Maui.Toolkit/Controls/FloatingActionButton.cs:671-680 | a loaded button ends fully shown, whatever its look before |
| FloatingActionButtonModel.FloatingActionButton.OnFloatingActionButtonUnloaded | src/ThunderDesign.Maui.Toolkit/Controls/FloatingActionButton.cs:685-689 | the look follows `HideTransition` |
| FloatingActionButtonModel.FloatingActionButton.InitializeAnimation | src/ThunderDesign.Maui.Toolkit/Controls/FloatingActionButton.cs:694-698 | the button is collapsed and transparent, so that the next show brings it fully back |
| OrientationSplitterViewModel.CoerceSplitPercentage | src/ThunderDesign.Maui.Toolkit/Layouts/OrientationSplitterView.cs:92-95 | the percentage ends in [0, 1]: kept inside it, 0 below it, 1 above it |
| OrientationSplitterViewModel.CoercionIsIdempotent | src/ThunderDesign.Maui.Toolkit/Layouts/OrientationSplitterView.cs:92-95 | coercing a coerced percentage changes nothing |
| OrientationSplitterViewModel.DefaultIsCoerced | src/ThunderDesign.Maui.Toolkit/Layouts/OrientationSplitterView.cs:43 | the default 0.5 survives coercion |
| OrientationSplitterViewModel.FractionOfExtent | src/ThunderDesign.Maui.Toolkit/Layouts/OrientationSplitterView.cs:130-131 | a fraction in [0, 1] of an extent that is not negative lies in [0, extent] |
| OrientationSplitterViewModel.SplitExtent | src/ThunderDesign.Maui.Toolkit/Layouts/OrientationSplitterView.cs:130-136 | the two parts add up to the extent and the first is extent times p; for an extent that is not negative and p in [0, 1] each part lies in [0, extent] |
| OrientationSplitterViewModel.ComplementSwapsTheParts | src/ThunderDesign.Maui.Toolkit/Layouts/OrientationSplitterView.cs:130-136 | splitting at 1 - p swaps the two parts |
| OrientationSplitterViewModel.DefaultSplitIsEven | src/ThunderDesign.Maui.Toolkit/Layouts/OrientationSplitterView.cs:43 | at the default percentage both views get half |
| OrientationSplitterViewModel.Arranged | src/ThunderDesign.Maui.Toolkit/Layouts/OrientationSplitterView.cs:121-141 | Portrait and Unknown stack vertically, with both widths equal to the width and the heights h·p and the rest; Landscape stacks horizontally, with the widths w·p and the rest and both heights equal to the height; any other orientation writes nothing |
| OrientationSplitterViewModel.ArrangedTilesTheAllocation | src/ThunderDesign.Maui.Toolkit/Layouts/OrientationSplitterView.cs:121-141 | for a known orientation, an allocation that is not negative and p in [0, 1], the two views tile it: along the stacking axis their extents add up to it and each lies within it, and across the axis each takes all of it |
| OrientationSplitterViewModel.ArrangedIsIdempotent | src/ThunderDesign.Maui.Toolkit/Layouts/OrientationSplitterView.cs:121-141 | arranging again for the same allocation changes nothing |
| OrientationSplitterViewModel.Allocated | src/ThunderDesign.Maui.Toolkit/Layouts/OrientationSplitterView.cs:106-113 | a width or height of -1 leaves the arrangement as it was; once both are known the views are arranged for the new size |
| OrientationSplitterViewModel.ContentSlot.constructor | src/ThunderDesign.Maui.Toolkit/Layouts/OrientationSplitterView.cs:144-145 | an inner content view starts empty with no size requested |
| OrientationSplitterViewModel.MainStack.constructor | src/ThunderDesign.Maui.Toolkit/Layouts/OrientationSplitterView.cs:143 | the inner stack starts vertical and empty |
| OrientationSplitterViewModel.OrientationSplitterView.constructor | src/ThunderDesign.Maui.Toolkit/Layouts/OrientationSplitterView.cs:5-15 | the stack holds the two content views with no spacing; the orientation is Unknown, the percentage 0.5 and both views unset |
| OrientationSplitterViewModel.OrientationSplitterView.OnHandlerChanged | src/ThunderDesign.Maui.Toolkit/Layouts/OrientationSplitterView.cs:17-32 | with a handler the orientation is read from the display and one subscription is added; without one, a subscription is removed |
| OrientationSplitterViewModel.OrientationSplitterView.OnFirstViewPropertyChanged | src/ThunderDesign.Maui.Toolkit/Layouts/OrientationSplitterView.cs:74-81 | a new first view goes into the first content view; an equal one changes nothing |
| OrientationSplitterViewModel.OrientationSplitterView.OnSecondViewPropertyChanged | src/ThunderDesign.Maui.Toolkit/Layouts/OrientationSplitterView.cs:83-90 | a new second view goes into the second content view; an equal one changes nothing |
| OrientationSplitterViewModel.OrientationSplitterView.SetFirstView | src/ThunderDesign.Maui.Toolkit/Layouts/OrientationSplitterView.cs:74-81 | the first slot shows the assigned view and the second slot is untouched |
| OrientationSplitterViewModel.OrientationSplitterView.SetSecondView | src/ThunderDesign.Maui.Toolkit/Layouts/OrientationSplitterView.cs:83-90 | the second slot shows the assigned view and the first slot is untouched |
| OrientationSplitterViewModel.OrientationSplitterView.SetSplitPercentage | src/ThunderDesign.Maui.Toolkit/Layouts/OrientationSplitterView.cs:92-104 | the stored percentage is the coerced value; a new layout pass is requested exactly when that differs from the old one |
| OrientationSplitterViewModel.OrientationSplitterView.OnMainDisplayInfoChanged | src/ThunderDesign.Maui.Toolkit/Layouts/OrientationSplitterView.cs:115-119 | the new orientation is stored and a layout pass requested |
| OrientationSplitterViewModel.OrientationSplitterView.RecalculateSize | src/ThunderDesign.Maui.Toolkit/Layouts/OrientationSplitterView.cs:121-141 | the stack's orientation and the views' size requests become `Arranged` of the old ones |
| OrientationSplitterViewModel.OrientationSplitterView.OnSizeAllocated | src/ThunderDesign.Maui.Toolkit/Layouts/OrientationSplitterView.cs:106-113 | the views are re-arranged only when both extents are known |
| OrientationCollectionViewModel.DefaultsAreValid | src/ThunderDesign.Maui.Toolkit/Layouts/OrientationCollectionView.cs:36-41 | the default span 1 and spacing 0 pass their validators |
| OrientationCollectionViewModel.ItemsLayoutOrientationFor | src/ThunderDesign.Maui.Toolkit/Layouts/OrientationCollectionView.cs:124-135 | the grid scrolls horizontally exactly when (orientation is Landscape) XOR InvertOrientationLayout |
| OrientationCollectionViewModel.InversionFlipsOrientation | src/ThunderDesign.Maui.Toolkit/Layouts/OrientationCollectionView.cs:124-135 | flipping the inversion always flips the scrolling direction |
| OrientationCollectionViewModel.OnlyLandscapeMatters | src/ThunderDesign.Maui.Toolkit/Layouts/OrientationCollectionView.cs:126-133 | two screen orientations give the same scrolling direction exactly when both or neither are Landscape |
| OrientationCollectionViewModel.GridItemsLayout.constructor | src/ThunderDesign.Maui.Toolkit/Layouts/OrientationCollectionView.cs:137 | a grid layout of the given span and orientation, with no spacing yet |
| OrientationCollectionViewModel.OrientationCollectionView.constructor | src/ThunderDesign.Maui.Toolkit/Layouts/OrientationCollectionView.cs:8-11 | the orientation is read from the display; the properties are at their defaults and the default layout is in use |
| OrientationCollectionViewModel.OrientationCollectionView.RefreshLayout | src/ThunderDesign.Maui.Toolkit/Layouts/OrientationCollectionView.cs:122-138 | a new grid layout with the current span, the current spacing on both axes and the orientation `ItemsLayoutOrientationFor` gives |
| OrientationCollectionViewModel.OrientationCollectionView.OnHandlerChanged | src/ThunderDesign.Maui.Toolkit/Layouts/OrientationCollectionView.cs:13-29 | with a handler the orientation is read, one subscription is added and the grid is rebuilt; without one, a subscription is removed and the layout kept |
| OrientationCollectionViewModel.OrientationCollectionView.OnMainDisplayInfoChanged | src/ThunderDesign.Maui.Toolkit/Layouts/OrientationCollectionView.cs:116-120 | the new orientation is stored and the grid rebuilt for it |
| OrientationCollectionViewModel.OrientationCollectionView.OnItemSpacingPropertyChanged | src/ThunderDesign.Maui.Toolkit/Layouts/OrientationCollectionView.cs:73-88 | a changed spacing goes to both axes of a grid layout, and the span is kept; an equal one changes nothing |
| OrientationCollectionViewModel.OrientationCollectionView.OnSpanPropertyChanged | src/ThunderDesign.Maui.Toolkit/Layouts/OrientationCollectionView.cs:102-114 | a changed span goes to a grid layout, and the spacings are kept; an equal one changes nothing |
| OrientationCollectionViewModel.OrientationCollectionView.OnInvertOrientationLayoutPropertyChanged | src/ThunderDesign.Maui.Toolkit/Layouts/OrientationCollectionView.cs:90-100 | a real change rebuilds the grid; an equal value keeps the layout |
| OrientationCollectionViewModel.OrientationCollectionView.SetItemSpacing | src/ThunderDesign.Maui.Toolkit/Layouts/OrientationCollectionView.cs:36-37 | the spacing is accepted exactly when it is not negative; a rejected one changes nothing; an accepted one is stored and reaches the grid |
| OrientationCollectionViewModel.OrientationCollectionView.SetSpan | src/ThunderDesign.Maui.Toolkit/Layouts/OrientationCollectionView.cs:40-41 | the span is accepted exactly when it is at least 1; a rejected one changes nothing; an accepted one is stored and reaches the grid |
| OrientationCollectionViewModel.OrientationCollectionView.SetInvertOrientationLayout | src/ThunderDesign.Maui.Toolkit/Layouts/OrientationCollectionView.cs:90-100 | a real change rebuilds the grid, and an existing grid's scrolling direction flips; re-writing the value changes nothing |
| HeaderFooterContentViewModel.RowOf | src/ThunderDesign.Maui.Toolkit/Layouts/HeaderFooterContentView.cs:11-16 | each slot's row is a row of the grid, and it is the star row exactly for the body |
| HeaderFooterContentViewModel.SlotsAreStackedInOrder | src/ThunderDesign.Maui.Toolkit/Layouts/HeaderFooterContentView.cs:7-16 | each slot has its own row, in the order header, body, footer, all in the grid's single column |
| HeaderFooterContentViewModel.RemoveFirst | src/ThunderDesign.Maui.Toolkit/Layouts/HeaderFooterContentView.cs:60-61 | List.Remove leaves a list without the view as it was, and otherwise shortens it by one |
| HeaderFooterContentViewModel.RemoveFirstTakesOneOccurrence | src/ThunderDesign.Maui.Toolkit/Layouts/HeaderFooterContentView.cs:60-61 | exactly one occurrence of the view goes, and every other child keeps its multiplicity |
| HeaderFooterContentViewModel.FirstIndex | src/ThunderDesign.Maui.Toolkit/Layouts/HeaderFooterContentView.cs:60-61 | the position of the first occurrence of the view |
| HeaderFooterContentViewModel.RemoveFirstCutsFirstOccurrence | src/ThunderDesign.Maui.Toolkit/Layouts/HeaderFooterContentView.cs:60-61 | removal cuts the list at the first occurrence, keeping the order of what precedes and what follows |
| HeaderFooterContentViewModel.AssignedTradesSlotViews | src/ThunderDesign.Maui.Toolkit/Layouts/HeaderFooterContentView.cs:36-52 | reassigning a slot trades its old view for the new one among the slot views |
| HeaderFooterContentViewModel.SlotChangedTradesChildren | src/ThunderDesign.Maui.Toolkit/Layouts/HeaderFooterContentView.cs:54-68 | a slot handler trades its old view for the new one among the children, and adds no other child |
| HeaderFooterContentViewModel.ChildrenAfterTrades | src/ThunderDesign.Maui.Toolkit/Layouts/HeaderFooterContentView.cs:60-66 | removing the old view and appending the new one trades the one for the other |
| HeaderFooterContentViewModel.RemovedViewTrades | src/ThunderDesign.Maui.Toolkit/Layouts/HeaderFooterContentView.cs:60-61 | removing a slot's old view takes out exactly that view |
| HeaderFooterContentViewModel.SlotChangedKeepsAttachments | src/ThunderDesign.Maui.Toolkit/Layouts/HeaderFooterContentView.cs:62-67 | every child left by a slot handler is attached to a row of the grid and to its column |
| HeaderFooterContentViewModel.SlotChangedKeepsTracking | src/ThunderDesign.Maui.Toolkit/Layouts/HeaderFooterContentView.cs:54-100 | after any slot assignment the children are exactly the slot views, counted with multiplicity, each attached to a row and to the column |
| HeaderFooterContentViewModel.SlotChangedAttachesNewView | src/ThunderDesign.Maui.Toolkit/Layouts/HeaderFooterContentView.cs:62-67 | a new view is attached to its slot's row and to column 0, and is appended as the last child |
| HeaderFooterContentViewModel.ClearingASlotRemovesOnlyItsView | src/ThunderDesign.Maui.Toolkit/Layouts/HeaderFooterContentView.cs:60-66 | setting a slot to null only removes the old view: the other children keep their order, and no row or column value changes |
| HeaderFooterContentViewModel.AssigningTheSameViewKeepsSlots | src/ThunderDesign.Maui.Toolkit/Layouts/HeaderFooterContentView.cs:56-57 | assigning a slot the view it holds leaves every slot as it was |
| HeaderFooterContentViewModel.SharedViewStaysInBodyRow | src/ThunderDesign.Maui.Toolkit/Layouts/HeaderFooterContentView.cs:54-84 | in the model's child list of identities, where one view may stand twice: a view set as the header and then also as the body is listed twice; once the body is given another view, one entry is removed and the remaining one carries the body's row, because the last SetRow wins. This is a property of the identity-list model only; MAUI's handling of a view added twice is not modelled |
| HeaderFooterContentViewModel.Grid.constructor | src/ThunderDesign.Maui.Toolkit/Layouts/HeaderFooterContentView.cs:102 | an empty grid with the given definitions |
| HeaderFooterContentViewModel.HeaderFooterContentView.constructor | src/ThunderDesign.Maui.Toolkit/Layouts/HeaderFooterContentView.cs:5-20 | the grid gets one star column and rows Auto, Star and Auto, and fills the view; the slots and the children are empty |
| HeaderFooterContentViewModel.HeaderFooterContentView.OnSlotPropertyChanged | src/ThunderDesign.Maui.Toolkit/Layouts/HeaderFooterContentView.cs:54-100 | the grid's children and attached values become `SlotChanged` of the old ones |
| HeaderFooterContentViewModel.HeaderFooterContentView.StoreSlot | src/ThunderDesign.Maui.Toolkit/Layouts/HeaderFooterContentView.cs:36-52 | exactly the assigned slot takes the value |
| HeaderFooterContentViewModel.HeaderFooterContentView.SetSlot | src/ThunderDesign.Maui.Toolkit/Layouts/HeaderFooterContentView.cs:36-100 | the slot takes the view; the grid follows `SlotChanged` and keeps holding exactly the slot views; a new view is placed in its slot's row and in column 0 |

## Left out
- **Animation engine.** `ScaleTo`, `FadeTo`, easing and `Task.Delay` are framework calls. The
  show and hide transitions are atomic steps.
- FloatingActionButtonModel.FloatingActionButton.ShowAsync: the animated path is taken to end
  at scale 1 and opacity 1 at once, as the non-animated path does; intermediate values and the
  show delay are not modelled.
- FloatingActionButtonModel.FloatingActionButton.HideAsync: the animated path is taken to end
  at scale 0 and opacity 0 at once.
- **Async interleaving.** The `async void` handlers and awaited calls run to completion one
  after the other. The button's ShowAsync/HideAsync either completes or throws, and a boolean
  parameter says which. Nothing can detach a view during a transition, so the animating flag
  is always cleared.
- ScrollViewExtensions.ScrollRegistry.OnScrollYChanged: the listener's show is not awaited in
  the source, so it could overlap a later scroll event; here it completes first.
- **The wall clock.** `DateTime.Now` is an integer millisecond parameter.
- **Event subscriptions.** `+=` and `-=` are not modelled as delegates. They are:
  - the Scrolled subscription, as a set of views;
  - the ScrollY listeners, as a set that AttachFab grows and nothing shrinks;
  - the display-information subscriptions, as counters. A removal with no subscription is a
    no-op.
- **AttachFab's `threshold` parameter.** It is unused in the source, which hard-codes 15,
  so the model has no such parameter.
- **AttachFab's button** is represented by its identity and the three properties it reads.
- **The older AttachFab variant** in `Extensions/ScrollViewExtensions .cs`, with a space
  before the extension, is not part of this model.
- **Floating point.** Doubles are `real`, so there are no rounding errors, NaN or infinity.
  - The infinite quotient of CalculateTickFrequency for TickCount 0 is modelled by its
    outcome, 0.
  - The whole Minimum = Maximum case is excluded: every slider state has Minimum < Maximum.
    The source is defined there when TickCount is positive (the frequency is 0, TickValue
    becomes 0 and Value becomes Minimum) and gives NaN only when TickCount is also 0; neither
    sub-case is modelled.
- **`(int)Math.Round`.** An unbounded integer stands in for its 32-bit result, with no
  overflow.
- ExtendedSliderModel.ExtendedSlider.SetValue: models the base Slider's Value setter as a
  clamp into [Minimum, Maximum] followed by ValueChanged on a real change. The rest of the base
  Slider is not modelled: its Minimum and Maximum setters are left out, and Minimum and Maximum
  are kept constant.
- **DragCompleted.** The command and event dispatch of the slider, and its pass-through
  OnPropertyChanged, are framework plumbing.
- **Cosmetics.** The FAB's colours, shadow, icon and icon tint, and the mirroring of the base
  Button's properties in OnPropertyChanged, are trivial property copies.
- **The FAB's animation properties.** Durations, easings and the show delay are left out;
  only AnimationEnabled is kept.
- **DeviceDisplay** is a parameter: the orientation the display reports.
- **InvalidateLayout** is counted. The layout pass it requests is not modelled.
- **The inherited `Content` properties** are not modelled. These are the `new` read-only
  Content and ContentProperty of the splitter and of the header/footer view.
- **The collection view's hidden `ItemsLayout` and its `InternalItemsLayout`** are one
  field. That field is null while the collection view's own default layout is in use.
- **The ItemSpacing property's declaring type** (GridItemsLayout) has no effect on the rules
  modelled.
- **Grid definitions.** The header/footer grid's column and row definitions are constant
  fields, written once when the view is built. LayoutOptions are reduced to the two values
  the grid uses.
- **A view used twice.** MAUI's behaviour when one view is added to a grid twice, or placed
  in two containers, is not modelled. The child list is a plain list of identities.
- **Tree search.** Elements of the visual tree that are not ScrollView, Layout or
  ContentView are leaves. IView children that are not Elements are not represented.
- **`EnumToDescriptionConverter`** is not part of this model. It wraps reflection and an
  extension method that is not in the source.
