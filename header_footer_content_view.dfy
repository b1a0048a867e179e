/**
 * The header/body/footer content view. A one-column grid of three rows (an auto-sized header, a
 * body taking the remaining height and an auto-sized footer) holds whichever of the three slot
 * views are set. Assigning a slot removes the slot's previous view from the grid's children and
 * appends the new one with its row and column attached.
 */
module HeaderFooterContentViewModel {
  import opened Views

  /** GridUnitType. */
  datatype GridUnitType = Absolute | Auto | Star

  /** GridLength: a value and its unit. */
  datatype GridLength = GridLength(value: real, unit: GridUnitType)

  /** The LayoutOptions the grid uses; the other options are not part of this model. */
  datatype LayoutOptions = Fill | FillAndExpand

  /** The three slots of the view. */
  datatype Slot = Header | Body | Footer

  /** The column definitions: one column taking all the width. */
  const ColumnShape: seq<GridLength> := [GridLength(1.0, Star)]

  /** The row definitions: an auto-sized row, a row taking the remaining height, an auto-sized row. */
  const RowShape: seq<GridLength> := [GridLength(1.0, Auto), GridLength(1.0, Star), GridLength(1.0, Auto)]

  /**
   * The row a slot's view is attached to: a row of the grid, the star row for the body and only
   * for it, and a different row for each slot.
   */
  function RowOf(slot: Slot): (r: nat)
    ensures r < |RowShape|
    ensures RowShape[r].unit == Star <==> slot == Body
  {
    match slot
    case Header => 0
    case Body => 1
    case Footer => 2
  }

  /** The column every slot's view is attached to. */
  const SlotColumn: nat := 0

  /** Each slot has a row of its own, the body's between the header's and the footer's, in the grid's one column. */
  lemma SlotsAreStackedInOrder()
    ensures forall s1: Slot, s2: Slot :: s1 != s2 ==> RowOf(s1) != RowOf(s2)
    ensures RowOf(Header) < RowOf(Body) < RowOf(Footer)
    ensures SlotColumn < |ColumnShape|
  {
  }

  /** List.Remove: the first occurrence of `v` is taken out; a list without `v` is left as it is. */
  function RemoveFirst(s: seq<ViewId>, v: ViewId): (r: seq<ViewId>)
    ensures v !in s ==> r == s
    ensures |r| == if v in s then |s| - 1 else |s|
  {
    if s == [] then []
    else if s[0] == v then s[1..]
    else [s[0]] + RemoveFirst(s[1..], v)
  }

  /** Exactly one occurrence of `v` goes, and every other element keeps its multiplicity. */
  lemma {:induction false} RemoveFirstTakesOneOccurrence(s: seq<ViewId>, v: ViewId)
    ensures multiset(RemoveFirst(s, v)) == multiset(s) - multiset{v}
  {
    if s != [] {
      assert s == [s[0]] + s[1..];
      if s[0] != v {
        RemoveFirstTakesOneOccurrence(s[1..], v);
        assert RemoveFirst(s, v) == [s[0]] + RemoveFirst(s[1..], v);
      }
    }
  }

  /** The index of the first occurrence of `v`. */
  function FirstIndex(s: seq<ViewId>, v: ViewId): (i: nat)
    requires v in s
    ensures i < |s| && s[i] == v && v !in s[..i]
  {
    if s[0] == v then 0
    else
      var j := FirstIndex(s[1..], v);
      assert s[..j + 1] == [s[0]] + s[1..][..j];
      j + 1
  }

  /** Cutting index `j + 1` out of a list is keeping its head and cutting index `j` out of its tail. */
  lemma CutIsConsOfTailCut(s: seq<ViewId>, j: int)
    requires 0 <= j && j + 1 < |s|
    ensures s[..j + 1] + s[j + 2..] == [s[0]] + (s[1..][..j] + s[1..][j + 1..])
  {
    assert s[..j + 1] == [s[0]] + s[1..][..j];
    assert s[j + 2..] == s[1..][j + 1..];
  }

  /** Removing cuts the list at the first occurrence: what precedes and what follows keep their order. */
  lemma {:induction false} RemoveFirstCutsFirstOccurrence(s: seq<ViewId>, v: ViewId)
    requires v in s
    ensures RemoveFirst(s, v) == s[..FirstIndex(s, v)] + s[FirstIndex(s, v) + 1..]
  {
    if s[0] == v {
      assert s[..0] + s[1..] == s[1..];
    } else {
      var t := s[1..];
      RemoveFirstCutsFirstOccurrence(t, v);
      var j := FirstIndex(t, v);
      assert FirstIndex(s, v) == j + 1;
      assert RemoveFirst(s, v) == [s[0]] + RemoveFirst(t, v);
      CutIsConsOfTailCut(s, j);
    }
  }

  /** The grid's children and the Grid.Row and Grid.Column values attached to views. */
  datatype GridContent = GridContent(children: seq<ViewId>, row: map<ViewId, int>, column: map<ViewId, int>)

  /** The children once a slot's old view, if any, is removed. */
  function RemovedView(children: seq<ViewId>, oldValue: Option<ViewId>): seq<ViewId>
  {
    if oldValue.Some? then RemoveFirst(children, oldValue.value) else children
  }

  /**
   * A slot's change handler: nothing happens when the old and new views are equal; otherwise the
   * old view, if any, is removed from the children, and the new one, if any, is attached to the
   * slot's row and column and appended.
   */
  function SlotChanged(g: GridContent, slot: Slot, oldValue: Option<ViewId>, newValue: Option<ViewId>): GridContent
  {
    if oldValue == newValue then g
    else
      GridContent(ChildrenAfter(g.children, oldValue, newValue),
                  Attach(g.row, newValue, RowOf(slot)), Attach(g.column, newValue, SlotColumn))
  }

  /** The children once the old view, if any, is removed and the new one, if any, appended. */
  function ChildrenAfter(children: seq<ViewId>, oldValue: Option<ViewId>, newValue: Option<ViewId>): seq<ViewId>
  {
    RemovedView(children, oldValue) + (if newValue.Some? then [newValue.value] else [])
  }

  /** Grid.SetRow or Grid.SetColumn on the new view, if any. */
  function Attach(m: map<ViewId, int>, newValue: Option<ViewId>, k: int): map<ViewId, int>
  {
    if newValue.Some? then m[newValue.value := k] else m
  }

  /** The view a slot holds, as a multiset of at most one element. */
  function Single(x: Option<ViewId>): multiset<ViewId>
  {
    if x.Some? then multiset{x.value} else multiset{}
  }

  /** The views assigned to the slots, counted with multiplicity. */
  function SlotViews(header: Option<ViewId>, body: Option<ViewId>, footer: Option<ViewId>): multiset<ViewId>
  {
    Single(header) + Single(body) + Single(footer)
  }

  /**
   * The grid holds exactly the slot views, each child attached to a row of the grid and to its
   * single column.
   */
  ghost predicate Tracks(g: GridContent, header: Option<ViewId>, body: Option<ViewId>, footer: Option<ViewId>)
  {
    multiset(g.children) == SlotViews(header, body, footer) && Attached(g)
  }

  /** Every child is attached to a row of the grid and to its single column. */
  ghost predicate Attached(g: GridContent)
  {
    forall v :: v in g.children ==>
      v in g.row && 0 <= g.row[v] < |RowShape| && v in g.column && g.column[v] == SlotColumn
  }

  /** The slot assignment after `slot` is set to `v`. */
  function Assigned(header: Option<ViewId>, body: Option<ViewId>, footer: Option<ViewId>, slot: Slot, v: Option<ViewId>):
    (Option<ViewId>, Option<ViewId>, Option<ViewId>)
  {
    match slot
    case Header => (v, body, footer)
    case Body => (header, v, footer)
    case Footer => (header, body, v)
  }

  /** The value a slot holds in an assignment. */
  function SlotValue(header: Option<ViewId>, body: Option<ViewId>, footer: Option<ViewId>, slot: Slot): Option<ViewId>
  {
    match slot
    case Header => header
    case Body => body
    case Footer => footer
  }

  /** Reassigning a slot trades its old view for the new one among the slot views. */
  lemma AssignedTradesSlotViews(header: Option<ViewId>, body: Option<ViewId>, footer: Option<ViewId>, slot: Slot, v: Option<ViewId>)
    ensures var a := Assigned(header, body, footer, slot, v);
      SlotViews(a.0, a.1, a.2) + Single(SlotValue(header, body, footer, slot)) == SlotViews(header, body, footer) + Single(v)
  {
    UnionsReorder(Single(header), Single(body), Single(footer), Single(v));
  }

  /** A sum of four multisets does not depend on where the last one goes. */
  lemma UnionsReorder(p: multiset<ViewId>, q: multiset<ViewId>, r: multiset<ViewId>, t: multiset<ViewId>)
    ensures t + q + r + p == p + q + r + t
    ensures p + t + r + q == p + q + r + t
    ensures p + q + t + r == p + q + r + t
  {
  }

  /**
   * A change handler trades its old view for the new one among the children; every child it
   * leaves was a child before or is the new view.
   */
  lemma SlotChangedTradesChildren(g: GridContent, slot: Slot, oldValue: Option<ViewId>, newValue: Option<ViewId>)
    requires Single(oldValue) <= multiset(g.children)
    ensures multiset(SlotChanged(g, slot, oldValue, newValue).children) + Single(oldValue) == multiset(g.children) + Single(newValue)
    ensures forall x :: x in SlotChanged(g, slot, oldValue, newValue).children ==>
      x in g.children || newValue == Some(x)
  {
    if oldValue != newValue {
      ChildrenAfterTrades(g.children, oldValue, newValue);
    }
  }

  /** Removing the old view and appending the new one trades the one for the other. */
  lemma ChildrenAfterTrades(children: seq<ViewId>, oldValue: Option<ViewId>, newValue: Option<ViewId>)
    requires Single(oldValue) <= multiset(children)
    ensures multiset(ChildrenAfter(children, oldValue, newValue)) + Single(oldValue) == multiset(children) + Single(newValue)
    ensures forall x :: x in ChildrenAfter(children, oldValue, newValue) ==> x in children || newValue == Some(x)
  {
    var removed := RemovedView(children, oldValue);
    var added := if newValue.Some? then [newValue.value] else [];
    RemovedViewTrades(children, oldValue);
    assert multiset(added) == Single(newValue);
    assert multiset(removed + added) == multiset(removed) + multiset(added);
  }

  /** Removing a slot's old view takes exactly that view out and adds nothing. */
  lemma RemovedViewTrades(children: seq<ViewId>, oldValue: Option<ViewId>)
    requires Single(oldValue) <= multiset(children)
    ensures multiset(RemovedView(children, oldValue)) + Single(oldValue) == multiset(children)
    ensures forall x :: x in RemovedView(children, oldValue) ==> x in children
  {
    var removed := RemovedView(children, oldValue);
    if oldValue.Some? {
      var m := multiset(children);
      var v := oldValue.value;
      RemoveFirstTakesOneOccurrence(children, v);
      assert multiset(removed) == m - multiset{v};
      assert v in m;
      forall x
        ensures (multiset(removed) + multiset{v})[x] == m[x]
      {
      }
    }
    forall x | x in removed
      ensures x in children
    {
      assert x in multiset(removed);
    }
  }

  /** The same multiset added to two multisets can be cancelled. */
  lemma AddCancels(m: multiset<ViewId>, n: multiset<ViewId>, k: multiset<ViewId>)
    requires m + k == n + k
    ensures m == n
  {
    forall x
      ensures m[x] == n[x]
    {
      assert (m + k)[x] == (n + k)[x];
    }
  }

  /** Every child a change handler leaves is attached to a row of the grid and to its column. */
  lemma SlotChangedKeepsAttachments(g: GridContent, slot: Slot, oldValue: Option<ViewId>, newValue: Option<ViewId>)
    requires Single(oldValue) <= multiset(g.children)
    requires Attached(g)
    ensures Attached(SlotChanged(g, slot, oldValue, newValue))
  {
    SlotChangedTradesChildren(g, slot, oldValue, newValue);
  }

  /** Replacing a slot's view keeps the grid's children in step with the slots. */
  lemma SlotChangedKeepsTracking(g: GridContent, header: Option<ViewId>, body: Option<ViewId>, footer: Option<ViewId>,
                                 slot: Slot, v: Option<ViewId>)
    requires Tracks(g, header, body, footer)
    ensures var a := Assigned(header, body, footer, slot, v);
      Tracks(SlotChanged(g, slot, SlotValue(header, body, footer, slot), v), a.0, a.1, a.2)
  {
    var o := SlotValue(header, body, footer, slot);
    var a := Assigned(header, body, footer, slot, v);
    var g' := SlotChanged(g, slot, o, v);
    assert Single(o) <= SlotViews(header, body, footer) by {
      match slot
      case Header =>
      case Body =>
      case Footer =>
    }
    AssignedTradesSlotViews(header, body, footer, slot, v);
    SlotChangedTradesChildren(g, slot, o, v);
    SlotChangedKeepsAttachments(g, slot, o, v);
    AddCancels(multiset(g'.children), SlotViews(a.0, a.1, a.2), Single(o));
  }

  /** A handler that receives a new view attaches it to the slot's row and to the grid's column. */
  lemma SlotChangedAttachesNewView(g: GridContent, slot: Slot, oldValue: Option<ViewId>, newValue: Option<ViewId>)
    requires newValue.Some? && oldValue != newValue
    ensures var g' := SlotChanged(g, slot, oldValue, newValue);
      g'.row[newValue.value] == RowOf(slot) && g'.column[newValue.value] == SlotColumn &&
      g'.children[|g'.children| - 1] == newValue.value
  {
  }

  /**
   * Clearing a slot only takes its view out: the children before and after its first occurrence
   * keep their order, and no row or column value changes.
   */
  lemma ClearingASlotRemovesOnlyItsView(g: GridContent, slot: Slot, o: ViewId)
    requires o in g.children
    ensures var g' := SlotChanged(g, slot, Some(o), None);
      var i := FirstIndex(g.children, o);
      g'.children == g.children[..i] + g.children[i + 1..] && g'.row == g.row && g'.column == g.column
  {
    RemoveFirstCutsFirstOccurrence(g.children, o);
    var removed := RemoveFirst(g.children, o);
    assert ChildrenAfter(g.children, Some(o), None) == removed + [];
    assert removed + [] == removed;
  }

  /** Assigning a slot the view it already holds leaves every slot as it was. */
  lemma AssigningTheSameViewKeepsSlots(header: Option<ViewId>, body: Option<ViewId>, footer: Option<ViewId>, slot: Slot)
    ensures Assigned(header, body, footer, slot, SlotValue(header, body, footer, slot)) == (header, body, footer)
  {
  }

  /** The scenario of a view shared by two slots. */
  const SharedView: ViewId := 7
  const OtherView: ViewId := 8

  /**
   * A view assigned to the header and then also to the body is a child once per slot and is
   * attached to the body's row; once the body is given another view, the one remaining child is
   * still the header's view, attached to the body's row rather than the header's.
   */
  lemma SharedViewStaysInBodyRow()
    ensures var g0 := GridContent([], map[], map[]);
      var g1 := SlotChanged(g0, Header, None, Some(SharedView));
      var g2 := SlotChanged(g1, Body, None, Some(SharedView));
      var g3 := SlotChanged(g2, Body, Some(SharedView), Some(OtherView));
      g2.children == [SharedView, SharedView] &&
      g3.children == [SharedView, OtherView] &&
      g3.row[SharedView] == RowOf(Body) && g3.row[SharedView] != RowOf(Header)
  {
    var g0 := GridContent([], map[], map[]);
    var g1 := SlotChanged(g0, Header, None, Some(SharedView));
    assert g1.children == [] + [SharedView];
    var g2 := SlotChanged(g1, Body, None, Some(SharedView));
    assert g2.children == [SharedView] + [SharedView];
    assert g2.row == g1.row[SharedView := RowOf(Body)];
    var g3 := SlotChanged(g2, Body, Some(SharedView), Some(OtherView));
    assert RemovedView(g2.children, Some(SharedView)) == [SharedView];
    assert g3.children == [SharedView] + [OtherView];
    assert g3.row == g2.row[OtherView := RowOf(Body)];
  }

  /**
   * The grid inside the view; `row` and `column` hold the Grid.Row and Grid.Column values of views.
   * The column and row definitions are written once, while the view is built, and never again.
   */
  class Grid {
    const columnDefinitions: seq<GridLength>
    const rowDefinitions: seq<GridLength>
    var horizontalOptions: LayoutOptions
    var verticalOptions: LayoutOptions
    var children: seq<ViewId>
    var row: map<ViewId, int>
    var column: map<ViewId, int>

    /** The grid's children and attached values. */
    function Content(): GridContent
      reads this
    {
      GridContent(children, row, column)
    }

    /** An empty grid with the given definitions. */
    constructor (columnDefinitions: seq<GridLength>, rowDefinitions: seq<GridLength>)
      ensures this.columnDefinitions == columnDefinitions && this.rowDefinitions == rowDefinitions
      ensures Content() == GridContent([], map[], map[])
      ensures horizontalOptions == Fill && verticalOptions == Fill
    {
      this.columnDefinitions := columnDefinitions;
      this.rowDefinitions := rowDefinitions;
      horizontalOptions := Fill;
      verticalOptions := Fill;
      children := [];
      row := map[];
      column := map[];
    }
  }

  class HeaderFooterContentView {
    const mainGrid: Grid
    var header: Option<ViewId>
    var body: Option<ViewId>
    var footer: Option<ViewId>

    /** The grid keeps its three-row, one-column shape and holds exactly the slot views. */
    ghost predicate Valid()
      reads this, mainGrid
    {
      mainGrid.columnDefinitions == ColumnShape &&
      mainGrid.rowDefinitions == RowShape &&
      Tracks(mainGrid.Content(), header, body, footer)
    }

    /** The grid gets its column and rows and fills the view; all three slots are empty. */
    constructor ()
      ensures Valid()
      ensures header == None && body == None && footer == None
      ensures mainGrid.children == []
      ensures mainGrid.horizontalOptions == FillAndExpand && mainGrid.verticalOptions == FillAndExpand
    {
      var grid := new Grid(ColumnShape, RowShape);
      grid.horizontalOptions := FillAndExpand;
      grid.verticalOptions := FillAndExpand;
      mainGrid := grid;
      header := None;
      body := None;
      footer := None;
    }

    /**
     * OnHeaderPropertyChanged, OnBodyPropertyChanged and OnFooterPropertyChanged, which differ only
     * in the row they attach: the grid's content follows `SlotChanged`.
     */
    method OnSlotPropertyChanged(slot: Slot, oldValue: Option<ViewId>, newValue: Option<ViewId>)
      modifies mainGrid`children, mainGrid`row, mainGrid`column
      ensures mainGrid.Content() == SlotChanged(old(mainGrid.Content()), slot, oldValue, newValue)
    {
      if oldValue == newValue {
        return;
      }
      if oldValue.Some? {
        mainGrid.children := RemoveFirst(mainGrid.children, oldValue.value);
      }
      if newValue.Some? {
        var v := newValue.value;
        mainGrid.row := mainGrid.row[v := RowOf(slot)];
        mainGrid.column := mainGrid.column[v := SlotColumn];
        mainGrid.children := mainGrid.children + [v];
      }
    }

    /** The property system storing a new value of a slot's property. */
    method StoreSlot(slot: Slot, v: Option<ViewId>)
      modifies this`header, this`body, this`footer
      ensures (header, body, footer) == Assigned(old(header), old(body), old(footer), slot, v)
    {
      match slot {
        case Header => header := v;
        case Body => body := v;
        case Footer => footer := v;
      }
    }

    /**
     * Assigning Header, Body or Footer: an equal view changes nothing; otherwise the slot takes the
     * view and the grid's content follows `SlotChanged`, which keeps it holding exactly the slot views.
     */
    method SetSlot(slot: Slot, v: Option<ViewId>)
      requires Valid()
      modifies this`header, this`body, this`footer, mainGrid`children, mainGrid`row, mainGrid`column
      ensures Valid()
      ensures (header, body, footer) == Assigned(old(header), old(body), old(footer), slot, v)
      ensures mainGrid.Content() == SlotChanged(old(mainGrid.Content()), slot, SlotValue(old(header), old(body), old(footer), slot), v)
      ensures v.Some? && v != SlotValue(old(header), old(body), old(footer), slot) ==>
        mainGrid.row[v.value] == RowOf(slot) && mainGrid.column[v.value] == SlotColumn
    {
      var oldValue := SlotValue(header, body, footer, slot);
      ghost var g := mainGrid.Content();
      SlotChangedKeepsTracking(g, header, body, footer, slot, v);
      if v == oldValue {
        AssigningTheSameViewKeepsSlots(header, body, footer, slot);
        return;
      }
      StoreSlot(slot, v);
      if v.Some? {
        SlotChangedAttachesNewView(g, slot, oldValue, v);
      }
      OnSlotPropertyChanged(slot, oldValue, v);
    }
  }
}
