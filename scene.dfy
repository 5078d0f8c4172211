/** The shapes of the campus plan and the search over them: the list that is
    drawn is the stable filter of the shape table by a case-insensitive name
    match. */
module Scene {
  import opened Plane
  import opened Text

  /** The shape kinds of the table, each with only the fields it is drawn from. */
  datatype Geometry =
    | Rect(x: real, y: real, width: real, height: real, rotation: real)  // rotated about its own centre
    | Triangle(points: seq<Point>)                                        // `type: 'triangle'`, a polygon
    | Circle(cx: real, cy: real, r: real)                                 // `type: 'circle'`

  /** A building or decoration; an absent `name` or `label` is the empty string
      (the `label` field is called `caption` here, `label` being a Dafny keyword). */
  datatype Shape = Shape(id: string, name: string, caption: string, color: string, geometry: Geometry)

  /** Clicks on a triangle or a circle are ignored; every other shape can be selected. */
  predicate Selectable(b: Shape) {
    !(b.geometry.Triangle? || b.geometry.Circle?)
  }

  /** `Array.prototype.filter`: the elements that pass, in their original order. */
  function Filter<T>(s: seq<T>, keep: T -> bool): (r: seq<T>)
    ensures |r| <= |s|
    ensures forall k :: 0 <= k < |r| ==> keep(r[k])
    decreases |s|
  {
    if s == [] then []
    else
      var kept := Filter(s[..|s| - 1], keep);
      if keep(s[|s| - 1]) then kept + [s[|s| - 1]] else kept
  }

  /** The positions of s whose element passes, in increasing order. */
  ghost function KeptIndices<T>(s: seq<T>, keep: T -> bool): seq<int>
    decreases |s|
  {
    if s == [] then []
    else KeptIndices(s[..|s| - 1], keep) + (if keep(s[|s| - 1]) then [|s| - 1] else [])
  }

  /** The filter is an order-preserving subsequence: its k-th element is the
      element at the k-th passing position, the positions increase, and a
      position is among them exactly when its element passes. */
  lemma {:induction false} FilterIsOrderedSelection<T>(s: seq<T>, keep: T -> bool)
    ensures var ix := KeptIndices(s, keep);
      && |ix| == |Filter(s, keep)|
      && (forall k :: 0 <= k < |ix| ==> 0 <= ix[k] < |s| && Filter(s, keep)[k] == s[ix[k]])
      && (forall k, l :: 0 <= k < l < |ix| ==> ix[k] < ix[l])
      && (forall i :: 0 <= i < |s| ==> (i in ix <==> keep(s[i])))
    decreases |s|
  {
    if s != [] {
      var init := s[..|s| - 1];
      FilterIsOrderedSelection(init, keep);
      var ix0 := KeptIndices(init, keep);
      var ix := KeptIndices(s, keep);
      assert forall k :: 0 <= k < |ix0| ==> ix[k] == ix0[k] && s[ix0[k]] == init[ix0[k]];
      assert forall i :: 0 <= i < |init| ==> s[i] == init[i];
    }
  }

  /** An element is drawn exactly when it is in the table and passes. */
  lemma {:induction false} FilterMembership<T>(s: seq<T>, keep: T -> bool, x: T)
    ensures x in Filter(s, keep) <==> x in s && keep(x)
    decreases |s|
  {
    if s != [] {
      var init := s[..|s| - 1];
      FilterMembership(init, keep, x);
      assert s == init + [s[|s| - 1]];
    }
  }

  /** Filtering a concatenation filters each part. */
  lemma {:induction false} FilterConcat<T>(a: seq<T>, b: seq<T>, keep: T -> bool)
    ensures Filter(a + b, keep) == Filter(a, keep) + Filter(b, keep)
    decreases |b|
  {
    if b == [] {
      assert a + b == a;
    } else {
      var b0 := b[..|b| - 1];
      FilterConcat(a, b0, keep);
      assert (a + b)[..|a + b| - 1] == a + b0;
    }
  }

  /** Two tests that agree on every element select the same elements. */
  lemma {:induction false} FilterAgrees<T>(s: seq<T>, p: T -> bool, q: T -> bool)
    requires forall k :: 0 <= k < |s| ==> p(s[k]) == q(s[k])
    ensures Filter(s, p) == Filter(s, q)
    decreases |s|
  {
    if s != [] {
      FilterAgrees(s[..|s| - 1], p, q);
    }
  }

  /** A shape with a non-empty name. */
  predicate HasName(b: Shape) {
    b.name != ""
  }

  /** The search test of one shape: a non-empty name whose lower-cased form
      includes the lower-cased query. */
  predicate Matches(b: Shape, query: string) {
    HasName(b) && Includes(Lower(b.name), Lower(query))
  }

  /** The test of the search box, as the function passed to `filter`. */
  function MatchesQuery(query: string): Shape -> bool {
    b => Matches(b, query)
  }

  /** The shapes to draw for a query, in draw order. */
  function FilterByName(shapes: seq<Shape>, query: string): seq<Shape> {
    Filter(shapes, MatchesQuery(query))
  }

  /** A shape is kept exactly when its name is non-empty and, lower-cased, has
      the lower-cased query at some position. */
  lemma FilterByNameMembership(shapes: seq<Shape>, query: string, b: Shape)
    ensures b in FilterByName(shapes, query)
        <==> b in shapes && b.name != "" && exists i :: OccursAt(Lower(b.name), Lower(query), i)
  {
    FilterMembership(shapes, MatchesQuery(query), b);
    IncludesIff(Lower(b.name), Lower(query));
    assert MatchesQuery(query)(b) == Matches(b, query);
    assert b in FilterByName(shapes, query) <==> b in shapes && Matches(b, query);
    assert Matches(b, query) <==> b.name != "" && Includes(Lower(b.name), Lower(query));
  }

  /** The match ignores the case of ASCII letters on both sides. */
  lemma MatchIgnoresCase(b: Shape, query: string)
    ensures Matches(b, query) == Matches(b.(name := Lower(b.name)), Lower(query))
  {
    LowerIdempotent(b.name);
    LowerIdempotent(query);
  }

  /** The empty query draws exactly the shapes that have a name, in table order. */
  lemma EmptyQueryKeepsNamed(shapes: seq<Shape>)
    ensures FilterByName(shapes, "") == Filter(shapes, HasName)
  {
    forall k | 0 <= k < |shapes| ensures Matches(shapes[k], "") == HasName(shapes[k]) {
      IncludesEmpty(Lower(shapes[k].name));
    }
    FilterAgrees(shapes, MatchesQuery(""), HasName);
  }

  /** A shape with an empty name is never drawn, whatever the query. */
  lemma NamelessNeverDrawn(shapes: seq<Shape>, query: string, b: Shape)
    requires b.name == ""
    ensures b !in FilterByName(shapes, query)
  {
    FilterMembership(shapes, MatchesQuery(query), b);
  }

  /** The membership rule for every shape at once. */
  lemma FilterByNameKeeps(shapes: seq<Shape>, query: string)
    ensures forall b :: b in FilterByName(shapes, query) <==> b in shapes && Matches(b, query)
  {
    forall b ensures b in FilterByName(shapes, query) <==> b in shapes && Matches(b, query) {
      FilterMembership(shapes, MatchesQuery(query), b);
    }
  }
}
