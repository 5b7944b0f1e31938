/** The ray-casting point-in-polygon test of `_point_in_polygon`
    (markets/navigation_utils.py). Each boundary entry is a pair of numbers
    that the code unpacks as `[x, y]`, reading x as the longitude and y as the
    latitude of the point being located. */
module Polygon {

  /** One boundary entry `[first, second]`, unpacked as `x, y`. */
  datatype Vertex = Vertex(x: real, y: real)

  function Min(a: real, b: real): real { if a <= b then a else b }
  function Max(a: real, b: real): real { if a >= b then a else b }

  /** Where the edge from `p1` to `p2` crosses the horizontal line at `y`. */
  function XIntersect(p1: Vertex, p2: Vertex, y: real): real
    requires p1.y != p2.y
  {
    (y - p1.y) * (p2.x - p1.x) / (p2.y - p1.y) + p1.x
  }

  /** Whether the edge from `p1` to `p2` flips the parity for the point
      `(x, y)`: the nested conditions of the loop body. Once the first two
      hold the edge is not horizontal, so the intersection is defined. */
  predicate Toggles(p1: Vertex, p2: Vertex, x: real, y: real) {
    && y > Min(p1.y, p2.y)
    && y <= Max(p1.y, p2.y)
    && x <= Max(p1.x, p2.x)
    && (p1.x == p2.x || x <= XIntersect(p1, p2, y))
  }

  /** The `i`-th edge of the ring, for `i` in 1..n: from vertex `i - 1` to
      the next vertex, the last edge going back to vertex 0. */
  function EdgeStart(poly: seq<Vertex>, i: int): Vertex
    requires 1 <= i <= |poly|
  {
    poly[i - 1]
  }

  function EdgeEnd(poly: seq<Vertex>, i: int): Vertex
    requires 1 <= i <= |poly|
  {
    if i == |poly| then poly[0] else poly[i]
  }

  /** How many of the first `k` edges flip the parity. */
  function Crossings(poly: seq<Vertex>, x: real, y: real, k: nat): nat
    requires k <= |poly|
  {
    if k == 0 then 0
    else Crossings(poly, x, y, k - 1)
         + (if Toggles(EdgeStart(poly, k), EdgeEnd(poly, k), x, y) then 1 else 0)
  }

  /** The answer the ray cast gives: an odd number of flipping edges. */
  predicate Inside(poly: seq<Vertex>, x: real, y: real) {
    Crossings(poly, x, y, |poly|) % 2 == 1
  }

  /** `_point_in_polygon(lat, lon, polygon)`: visits each of the n edges once,
      in order, and toggles `inside` on each edge that `Toggles`. The
      intersection is computed only when the edge is not horizontal, and the
      toggle test never reads a value left over from an earlier edge. */
  method PointInPolygon(lat: real, lon: real, poly: seq<Vertex>) returns (inside: bool)
    requires |poly| >= 1
    ensures inside == Inside(poly, lon, lat)
  {
    var x, y := lon, lat;
    var n := |poly|;
    inside := false;
    var p1 := poly[0];
    var xinters: real := 0.0;
    for i := 1 to n + 1
      invariant i <= n ==> p1 == poly[i - 1]
      invariant inside == (Crossings(poly, x, y, i - 1) % 2 == 1)
    {
      RingIndex(i, n);
      var p2 := poly[i % n];
      assert p1 == EdgeStart(poly, i) && p2 == EdgeEnd(poly, i);
      ghost var flips := Toggles(p1, p2, x, y);
      if y > Min(p1.y, p2.y) {
        if y <= Max(p1.y, p2.y) {
          if x <= Max(p1.x, p2.x) {
            if p1.y != p2.y {
              xinters := XIntersect(p1, p2, y);
            }
            assert p1.y != p2.y;
            if p1.x == p2.x || x <= xinters {
              inside := !inside;
            }
          }
        }
      }
      assert inside == ((Crossings(poly, x, y, i - 1) + (if flips then 1 else 0)) % 2 == 1);
      p1 := p2;
    }
  }

  /** Index `i % n` of the loop, for `i` in 1..n. */
  lemma RingIndex(i: int, n: int)
    requires 1 <= i <= n
    ensures i % n == if i == n then 0 else i
  {
  }

  /** A horizontal edge never flips the parity. */
  lemma HorizontalEdgeNeverToggles(p1: Vertex, p2: Vertex, x: real, y: real)
    requires p1.y == p2.y
    ensures !Toggles(p1, p2, x, y)
  {
  }

  /** Repeating the first vertex at the end of the list, as stored
      boundaries do, adds only a zero-length closing edge and leaves the
      answer unchanged. */
  lemma {:induction false} ClosingVertexIrrelevant(poly: seq<Vertex>, x: real, y: real)
    requires |poly| >= 1
    ensures Inside(poly + [poly[0]], x, y) == Inside(poly, x, y)
  {
    var closed := poly + [poly[0]];
    var n := |poly|;
    CrossingsOfClosedPrefix(poly, x, y, n);
    assert EdgeStart(closed, n + 1) == poly[0] && EdgeEnd(closed, n + 1) == poly[0];
    HorizontalEdgeNeverToggles(poly[0], poly[0], x, y);
  }

  lemma {:induction false} CrossingsOfClosedPrefix(poly: seq<Vertex>, x: real, y: real, k: nat)
    requires 1 <= |poly| && k <= |poly|
    ensures Crossings(poly + [poly[0]], x, y, k) == Crossings(poly, x, y, k)
  {
    if k > 0 {
      CrossingsOfClosedPrefix(poly, x, y, k - 1);
      var closed := poly + [poly[0]];
      assert EdgeStart(closed, k) == EdgeStart(poly, k);
      assert EdgeEnd(closed, k) == EdgeEnd(poly, k);
    }
  }

  /** The sample market boundary of markets/management/commands/create_sample_data.py,
      entries written as `[latitude, longitude]` with the first repeated. */
  const SeedBoundary: seq<Vertex> := [
    Vertex(6.4525, 3.3950), Vertex(6.4535, 3.3950), Vertex(6.4535, 3.3965),
    Vertex(6.4525, 3.3965), Vertex(6.4525, 3.3950)]

  /** The same ring with each entry in the `[longitude, latitude]` order that
      the ray cast reads. */
  const SeedBoundaryLonLat: seq<Vertex> := [
    Vertex(3.3950, 6.4525), Vertex(3.3950, 6.4535), Vertex(3.3965, 6.4535),
    Vertex(3.3965, 6.4525), Vertex(3.3950, 6.4525)]

  /** Axis order matters: the sample market's own centre (latitude 6.4531,
      longitude 3.3958) tests as outside its boundary as stored, and as inside
      once the entries are in the order the code unpacks them. */
  lemma SeedBoundaryAxisOrder()
    ensures !Inside(SeedBoundary, 3.3958, 6.4531)
    ensures Inside(SeedBoundaryLonLat, 3.3958, 6.4531)
  {
    var s, t := SeedBoundary, SeedBoundaryLonLat;
    assert !Toggles(s[0], s[1], 3.3958, 6.4531);
    assert !Toggles(s[1], s[2], 3.3958, 6.4531);
    assert !Toggles(s[2], s[3], 3.3958, 6.4531);
    assert !Toggles(s[3], s[4], 3.3958, 6.4531);
    assert !Toggles(s[4], s[0], 3.3958, 6.4531);
    assert Crossings(s, 3.3958, 6.4531, 5) == 0;
    assert !Toggles(t[0], t[1], 3.3958, 6.4531);
    assert Toggles(t[2], t[3], 3.3958, 6.4531);
    assert Crossings(t, 3.3958, 6.4531, 5) == 1;
  }
}
