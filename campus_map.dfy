/** The state of the campus-map widget and its event handlers: the viewport
    (zoom scale, pan offset, drag gesture), the selected building and the
    search query. */
module CampusMap {
  import opened Wrappers
  import opened Plane
  import opened Scene

  const MIN_SCALE: real := 0.5
  const MAX_SCALE: real := 3.0
  const ZOOM_STEP: real := 0.2

  predicate InZoomRange(scale: real) {
    MIN_SCALE <= scale <= MAX_SCALE
  }

  /** The scale after one press of the zoom-in button: one step up, held at MAX_SCALE. */
  function ZoomedIn(scale: real): (r: real)
    ensures r <= MAX_SCALE
    ensures r == scale + ZOOM_STEP || r == MAX_SCALE
    ensures scale + ZOOM_STEP <= MAX_SCALE ==> r == scale + ZOOM_STEP
    ensures scale <= MAX_SCALE ==> scale <= r
    ensures InZoomRange(scale) ==> InZoomRange(r)
  {
    if scale + ZOOM_STEP < MAX_SCALE then scale + ZOOM_STEP else MAX_SCALE
  }

  /** The scale after one press of the zoom-out button: one step down, held at MIN_SCALE. */
  function ZoomedOut(scale: real): (r: real)
    ensures MIN_SCALE <= r
    ensures r == scale - ZOOM_STEP || r == MIN_SCALE
    ensures MIN_SCALE <= scale - ZOOM_STEP ==> r == scale - ZOOM_STEP
    ensures MIN_SCALE <= scale ==> r <= scale
    ensures InZoomRange(scale) ==> InZoomRange(r)
  {
    if scale - ZOOM_STEP > MIN_SCALE then scale - ZOOM_STEP else MIN_SCALE
  }

  /** Zooming in at the upper limit, or out at the lower limit, is a silent no-op. */
  lemma ZoomHeldAtLimits()
    ensures ZoomedIn(MAX_SCALE) == MAX_SCALE
    ensures ZoomedOut(MIN_SCALE) == MIN_SCALE
  {
  }

  /** The user actions the widget listens to, as they are wired to the handlers. */
  datatype Event =
    | PointerDown(at: Point)     // onMouseDown of the map
    | PointerMove(at: Point)     // onMouseMove of the map
    | PointerUp                  // onMouseUp of the map
    | PointerLeave               // onMouseLeave of the map
    | ZoomInButton               // the "+" button, disabled at MAX_SCALE
    | ZoomOutButton              // the "-" button, disabled at MIN_SCALE
    | ResetButton                // either compass button
    | ShapeClick(shape: Shape)   // onClick of a drawn building
    | CloseButton                // the X of the detail panel
    | QueryInput(text: string)   // onChange of the search box

  /** The widget instance. Each handler changes only the fields its `modifies`
      clause names; every other field keeps its value. */
  class MapWidget {
    const buildings: seq<Shape>
    var scale: real
    var panX: real
    var panY: real
    var isDragging: bool
    var startPan: Point           // pointer position minus pan, taken when the drag starts
    var selectedBuilding: Option<Shape>
    var searchQuery: string

    /** Scale stays within the zoom limits; a selection is an entry of the
        table and never a triangle or a circle. */
    ghost predicate Valid()
      reads this
    {
      && InZoomRange(scale)
      && (selectedBuilding.Some? ==> Selectable(selectedBuilding.value) && selectedBuilding.value in buildings)
    }

    function Pan(): Point
      reads this
    {
      Point(panX, panY)
    }

    /** The widget as mounted: scale 1, no pan, no drag, no selection, empty query. */
    constructor (buildings: seq<Shape>)
      ensures Valid()
      ensures this.buildings == buildings
      ensures scale == 1.0 && Pan() == ORIGIN
      ensures !isDragging && startPan == ORIGIN
      ensures selectedBuilding == None && searchQuery == ""
    {
      this.buildings := buildings;
      scale := 1.0;
      panX, panY := 0.0, 0.0;
      isDragging := false;
      startPan := ORIGIN;
      selectedBuilding := None;
      searchQuery := "";
    }

    /** Pointer pressed: the drag starts, anchored at the pointer minus the current pan. */
    method MouseDown(pointer: Point)
      requires Valid()
      modifies this`isDragging, this`startPan
      ensures Valid()
      ensures isDragging
      ensures startPan == Sub(pointer, Pan())
    {
      isDragging := true;
      startPan := Point(pointer.x - panX, pointer.y - panY);
    }

    /** Pointer moved: during a drag the pan follows the pointer minus the
        anchor; outside a drag nothing changes. */
    method MouseMove(pointer: Point)
      requires Valid()
      modifies this`panX, this`panY
      ensures Valid()
      ensures isDragging ==> Pan() == Sub(pointer, startPan)
      ensures !isDragging ==> Pan() == old(Pan())
    {
      if !isDragging {
        return;
      }
      panX := pointer.x - startPan.x;
      panY := pointer.y - startPan.y;
    }

    /** Pointer released or left the map: the drag ends. */
    method MouseUp()
      requires Valid()
      modifies this`isDragging
      ensures Valid()
      ensures !isDragging
    {
      isDragging := false;
    }

    /** The "+" button. */
    method ZoomIn()
      requires Valid()
      modifies this`scale
      ensures Valid()
      ensures scale == ZoomedIn(old(scale))
    {
      scale := ZoomedIn(scale);
    }

    /** The "-" button. */
    method ZoomOut()
      requires Valid()
      modifies this`scale
      ensures Valid()
      ensures scale == ZoomedOut(old(scale))
    {
      scale := ZoomedOut(scale);
    }

    /** Back to scale 1 and no pan; a drag in progress and the selection are kept. */
    method ResetView()
      requires Valid()
      modifies this`scale, this`panX, this`panY
      ensures Valid()
      ensures scale == 1.0 && Pan() == ORIGIN
    {
      scale := 1.0;
      panX, panY := 0.0, 0.0;
    }

    /** A click on a building selects it, replacing any earlier selection;
        a click on a triangle or a circle is ignored. */
    method BuildingClick(building: Shape)
      requires Valid()
      requires Selectable(building) ==> building in buildings
      modifies this`selectedBuilding
      ensures Valid()
      ensures Selectable(building) ==> selectedBuilding == Some(building)
      ensures !Selectable(building) ==> selectedBuilding == old(selectedBuilding)
    {
      if building.geometry.Triangle? || building.geometry.Circle? {
        return;
      }
      selectedBuilding := Some(building);
    }

    /** The close button of the detail panel. */
    method Dismiss()
      requires Valid()
      modifies this`selectedBuilding
      ensures Valid()
      ensures selectedBuilding == None
    {
      selectedBuilding := None;
    }

    /** Typing in the search box. */
    method SetSearchQuery(text: string)
      requires Valid()
      modifies this`searchQuery
      ensures Valid()
      ensures searchQuery == text
    {
      searchQuery := text;
    }

    /** Dispatches one user action to its handler. Clicks come only from
        entries of the table, since only drawn entries carry a click handler. */
    method Handle(e: Event)
      requires Valid()
      requires e.ShapeClick? ==> e.shape in buildings
      modifies this
      ensures Valid()
      ensures Pan() != old(Pan()) ==> (e.PointerMove? && old(isDragging)) || e.ResetButton?
      ensures scale != old(scale) ==> e.ZoomInButton? || e.ZoomOutButton? || e.ResetButton?
      ensures isDragging != old(isDragging) ==> e.PointerDown? || e.PointerUp? || e.PointerLeave?
      ensures startPan != old(startPan) ==> e.PointerDown?
      ensures selectedBuilding != old(selectedBuilding) ==> e.ShapeClick? || e.CloseButton?
      ensures searchQuery != old(searchQuery) ==> e.QueryInput?
      ensures e.PointerDown? ==> isDragging && startPan == Sub(e.at, Pan())
      ensures e.PointerMove? ==> Pan() == if old(isDragging) then Sub(e.at, startPan) else old(Pan())
      ensures e.PointerUp? || e.PointerLeave? ==> !isDragging
      ensures e.ZoomInButton? ==> scale == ZoomedIn(old(scale))
      ensures e.ZoomOutButton? ==> scale == ZoomedOut(old(scale))
      ensures e.ResetButton? ==> scale == 1.0 && Pan() == ORIGIN
      ensures e.ShapeClick? ==> selectedBuilding == if Selectable(e.shape) then Some(e.shape) else old(selectedBuilding)
      ensures e.CloseButton? ==> selectedBuilding == None
      ensures e.QueryInput? ==> searchQuery == e.text
    {
      match e
      case PointerDown(p) => MouseDown(p);
      case PointerMove(p) => MouseMove(p);
      case PointerUp => MouseUp();
      case PointerLeave => MouseUp();
      case ZoomInButton => if scale < MAX_SCALE { ZoomIn(); }
      case ZoomOutButton => if scale > MIN_SCALE { ZoomOut(); }
      case ResetButton => ResetView();
      case ShapeClick(b) => BuildingClick(b);
      case CloseButton => Dismiss();
      case QueryInput(text) => SetSearchQuery(text);
    }

    /** The buildings drawn, in draw order (later ones on top). */
    function FilteredBuildings(): (r: seq<Shape>)
      reads this
      ensures forall b :: b in r <==> b in buildings && Matches(b, searchQuery)
    {
      FilterByNameKeeps(buildings, searchQuery);
      FilterByName(buildings, searchQuery)
    }

    /** The transform list set on the map layer, with transform-origin (0, 0). */
    function Transform(): seq<TransformFunction>
      reads this
    {
      [Translate(Pan()), Scale(scale)]
    }

    /** Where scene point s is drawn on screen: pan plus scale times s. */
    function ScreenPoint(s: Point): (q: Point)
      reads this
      ensures q == Point(panX + scale * s.x, panY + scale * s.y)
    {
      CssTransformIsAffine(Pan(), scale, s);
      ApplyTransform(ORIGIN, Transform(), s)
    }
  }
}
