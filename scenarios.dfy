/** Clients of the widget: what a sequence of handler calls does, proved from
    the handlers' contracts alone, and a few entries of the campus table. */
module Scenarios {
  import opened Wrappers
  import opened Plane
  import opened Text
  import opened Scene
  import opened CampusMap

  const VACANT_LOT := Shape("vacant-lot", "Open Space - Vacant Lot", "VACANT LOT", "#0277BD",
                            Rect(380.0, 220.0, 300.0, 200.0, -10.0))
  const TREE := Shape("tree-1", "Tree", "", "#4CAF50", Circle(490.0, 210.0, 12.0))
  const GREEN_AREA := Shape("top-left-triangle", "Green Area", "", "#1B5E20",
                            Triangle([Point(20.0, 80.0), Point(20.0, 280.0), Point(180.0, 180.0)]))
  const CANTEEN := Shape("canteen", "Canteen", "", "#FF9800", Rect(340.0, 450.0, 90.0, 150.0, -25.0))

  /** A drag from p to q moves the pan by exactly q - p, whatever was drawn before. */
  method DragGesture(w: MapWidget, p: Point, q: Point)
    requires w.Valid()
    modifies w`isDragging, w`startPan, w`panX, w`panY
    ensures w.Valid()
    ensures w.isDragging
    ensures w.Pan() == Add(old(w.Pan()), Sub(q, p))
    ensures w.scale == old(w.scale) && w.selectedBuilding == old(w.selectedBuilding)
  {
    w.MouseDown(p);
    w.MouseMove(q);
  }

  /** A move to the very point the drag started at leaves the pan where it was. */
  method IdentityDrag(w: MapWidget, p: Point)
    requires w.Valid()
    modifies w`isDragging, w`startPan, w`panX, w`panY
    ensures w.Valid()
    ensures w.Pan() == old(w.Pan())
  {
    w.MouseDown(p);
    w.MouseMove(p);
  }

  /** Ending a drag twice is the same as ending it once. */
  method MouseUpTwice(w: MapWidget)
    requires w.Valid()
    modifies w`isDragging
    ensures w.Valid()
    ensures !w.isDragging
    ensures w.Pan() == old(w.Pan()) && w.scale == old(w.scale) && w.startPan == old(w.startPan)
  {
    w.MouseUp();
    w.MouseUp();
  }

  /** Any sequence of user actions keeps the scale within the zoom limits; and
      with no drag in progress, a sequence with no pointer press and no reset
      never moves the map. */
  method Replay(w: MapWidget, events: seq<Event>)
    requires w.Valid()
    requires forall k :: 0 <= k < |events| && events[k].ShapeClick? ==> events[k].shape in w.buildings
    modifies w
    ensures w.Valid() && InZoomRange(w.scale)
    ensures !old(w.isDragging) && (forall k :: 0 <= k < |events| ==> !events[k].PointerDown? && !events[k].ResetButton?)
            ==> w.Pan() == old(w.Pan())
  {
    ghost var still := !w.isDragging && forall k :: 0 <= k < |events| ==> !events[k].PointerDown? && !events[k].ResetButton?;
    for i := 0 to |events|
      invariant w.Valid()
      invariant still ==> !w.isDragging && w.Pan() == old(w.Pan())
    {
      w.Handle(events[i]);
    }
  }

  /** Mount, drag from (100, 100) to (150, 130), release, zoom in, reset. */
  method PanZoomReset() {
    var w := new MapWidget([VACANT_LOT, TREE]);
    w.MouseDown(Point(100.0, 100.0));
    w.MouseMove(Point(150.0, 130.0));
    assert w.Pan() == Point(50.0, 30.0);
    w.MouseUp();
    w.ZoomIn();
    assert w.scale == 1.2 && w.Pan() == Point(50.0, 30.0);
    w.ResetView();
    assert w.scale == 1.0 && w.Pan() == ORIGIN;
  }

  /** Zooming out from the mounted scale reaches MIN_SCALE after three presses and stays there. */
  method ZoomOutToLimit() {
    var w := new MapWidget([]);
    w.ZoomOut();
    w.ZoomOut();
    w.ZoomOut();
    assert w.scale == MIN_SCALE;
    w.ZoomOut();
    assert w.scale == MIN_SCALE;
  }

  // The string literals below reach the solver through a parameter bound by
  // `requires`, so that it does not evaluate the recursive string functions
  // on them eagerly, which costs far more than the few steps the proof needs.
  lemma LowerVacantLotName(name: string)
    requires name == "Open Space - Vacant Lot"
    ensures Lower(name) == "open space - vacant lot"
  {
  }

  lemma VacantAt13(l: string)
    requires l == "open space - vacant lot"
    ensures Includes(l, "vacant")
  {
    assert l[13..19] == "vacant";
    assert OccursAt(l, "vacant", 13);
    IncludesIff(l, "vacant");
  }

  /** The lot's name, lower-cased, has "vacant" at position 13. */
  lemma VacantLotMatchesVacant()
    ensures Matches(VACANT_LOT, "vacant")
  {
    LowerOfLowerCase("vacant");
    LowerVacantLotName(VACANT_LOT.name);
    VacantAt13(Lower(VACANT_LOT.name));
  }

  /** "Tree" is too short to include "vacant". */
  lemma TreeMissesVacant()
    ensures !Matches(TREE, "vacant")
  {
    LowerOfLowerCase("vacant");
    IncludesIff(Lower(TREE.name), "vacant");
  }

  /** Searching the lot and a tree for "vacant" draws only the lot. */
  lemma VacantSearch(shapes: seq<Shape>)
    requires shapes == [VACANT_LOT, TREE]
    ensures FilterByName(shapes, "vacant") == [VACANT_LOT]
  {
    var keep := MatchesQuery("vacant");
    VacantLotMatchesVacant();
    TreeMissesVacant();
    assert keep(shapes[0]) && !keep(shapes[1]);
    assert shapes[..1][..0] == [];
    assert Filter(shapes[..1], keep) == [shapes[0]];
    assert Filter(shapes, keep) == Filter(shapes[..1], keep);
  }

  /** Typing "vacant" into the search box draws only the lot. */
  method SearchVacant(table: seq<Shape>)
    requires table == [VACANT_LOT, TREE]
  {
    var w := new MapWidget(table);
    w.SetSearchQuery("vacant");
    VacantSearch(w.buildings);
    assert w.FilteredBuildings() == [VACANT_LOT];
  }

  /** Click the tree, the triangle, the lot twice, and close the panel. */
  method SelectAndDismiss(table: seq<Shape>)
    requires table == [VACANT_LOT, TREE]
  {
    var w := new MapWidget(table);
    w.BuildingClick(TREE);
    assert w.selectedBuilding == None;
    w.BuildingClick(GREEN_AREA);
    assert w.selectedBuilding == None;
    assert w.buildings[0] == VACANT_LOT;
    w.BuildingClick(VACANT_LOT);
    assert w.selectedBuilding == Some(VACANT_LOT);
    w.BuildingClick(VACANT_LOT);
    assert w.selectedBuilding == Some(VACANT_LOT);
    w.Dismiss();
    assert w.selectedBuilding == None;
  }

  // Passed as a parameter for the same reason as LowerVacantLotName.
  lemma LowerCanteenName(name: string)
    requires name == "Canteen"
    ensures Lower(name) == "canteen"
  {
  }

  /** The canteen's name matches "canteen" but not "xyz". */
  lemma CanteenMatches()
    ensures Matches(CANTEEN, "canteen")
    ensures !Matches(CANTEEN, "xyz")
  {
    LowerOfLowerCase("canteen");
    LowerOfLowerCase("xyz");
    LowerCanteenName(CANTEEN.name);
    var l := Lower(CANTEEN.name);
    assert OccursAt(l, "canteen", 0);
    IncludesIff(l, "canteen");
    IncludesIff(l, "xyz");
    forall i | OccursAt(l, "xyz", i) ensures l[i] == 'x' {
    }
  }

  /** The search ignores case: "canteen" finds "Canteen", "xyz" finds nothing. */
  lemma CanteenSearch(shapes: seq<Shape>)
    requires shapes == [CANTEEN]
    ensures FilterByName(shapes, "canteen") == [CANTEEN]
    ensures FilterByName(shapes, "xyz") == []
  {
    var found, missed := MatchesQuery("canteen"), MatchesQuery("xyz");
    CanteenMatches();
    assert found(shapes[0]) && !missed(shapes[0]);
    assert shapes[..0] == [];
    assert Filter(shapes, found) == Filter(shapes[..0], found) + [shapes[0]];
    assert Filter(shapes, missed) == Filter(shapes[..0], missed);
  }
}
