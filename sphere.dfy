/**
 * The `sphere` class of include/sphere.hpp: a latitude/longitude grid of
 * points on a sphere, each stored as six floats (position, then colour) in a
 * buffer the constructor allocates.
 *
 * `cos` and `sin` are uninterpreted; `floor(sqrt(nb_points))` is the integer
 * square root, which it equals for every `int` input. The console output of
 * the constructor is not modelled.
 */
module Spheres {
  import opened Vectors

  /** The fewest points the constructor accepts. */
  const MinPoints: int := 64

  /** `floor(sqrt(n))`: the largest `k` with `k * k <= n`. */
  function ISqrt(n: nat): (k: nat)
    ensures k * k <= n < (k + 1) * (k + 1)
  {
    if n == 0 then 0
    else
      var k := ISqrt(n - 1);
      if (k + 1) * (k + 1) <= n then k + 1 else k
  }

  lemma SquareMonotone(a: nat, b: nat)
    requires a <= b
    ensures a * a <= b * b
  {
    MultiplyBoth(a, b, a);
    MultiplyBoth(a, b, b);
  }

  lemma MultiplyBoth(a: nat, b: nat, c: nat)
    requires a <= b
    ensures a * c <= b * c
  {
  }

  /** Any `m` whose square fits in `n` is at most `ISqrt(n)`. */
  lemma ISqrtIsLargest(n: nat, m: nat)
    requires m * m <= n
    ensures m <= ISqrt(n)
  {
    var k := ISqrt(n);
    if k < m {
      SquareMonotone(k + 1, m);
      assert false;
    }
  }

  /** The integer square root is the only `k` with `k * k <= n < (k + 1) * (k + 1)`. */
  lemma ISqrtUnique(n: nat, k: nat)
    requires k * k <= n < (k + 1) * (k + 1)
    ensures ISqrt(n) == k
  {
    ISqrtIsLargest(n, k);
    if ISqrt(n) > k {
      SquareMonotone(k + 1, ISqrt(n));
      assert false;
    }
  }

  /** Once the check has passed, the grid is at least 8 by 8. */
  lemma GridAtLeastEight(nbPoints: int)
    requires nbPoints >= MinPoints
    ensures ISqrt(nbPoints) >= 8
  {
    ISqrtIsLargest(nbPoints, 8);
  }

  /** `lat` of row `i`: from the south pole (`i = 0`) to the north pole (`i = nbLat - 1`). */
  function Latitude(nbLat: nat, i: int): real
    requires nbLat >= 2
  {
    Pi * (-0.5 + i as real / (nbLat - 1) as real)
  }

  /** `lon` of column `j`: `nbLong` equal steps around the axis. */
  function Longitude(nbLong: nat, j: int): real
    requires nbLong >= 1
  {
    2.0 * Pi * j as real / nbLong as real
  }

  /**
   * Float `k` of grid point `(i, j)`: x, y, z on the sphere of radius `r`
   * at latitude `lat(i)` and longitude `lon(j)`, then the three colour
   * components.
   */
  function GridFloat(r: real, n: nat, color: seq<real>, i: nat, j: nat, k: nat): real
    requires n >= 2 && |color| >= 3 && k < 6
  {
    var lat, lon := Latitude(n, i), Longitude(n, j);
    if k == 0 then r * Cos(lat) * Cos(lon)
    else if k == 1 then r * Sin(lat)
    else if k == 2 then r * Cos(lat) * Sin(lon)
    else color[k - 3]
  }

  /**
   * Float `q` of the buffer of an `n` by `n` grid: slot `q / 6` is grid
   * point `(i, j) = (slot / n, slot % n)`, and `q % 6` the float within it.
   */
  function PointFloat(r: real, n: nat, color: seq<real>, q: nat): real
    requires n >= 2 && |color| >= 3
  {
    var slot := q / 6;
    GridFloat(r, n, color, slot / n, slot % n, q % 6)
  }

  /** The whole buffer: `n * n * 6` floats. */
  function SpherePoints(r: real, n: nat, color: seq<real>): seq<real>
    requires n >= 2 && |color| >= 3
  {
    seq(n * n * 6, q requires 0 <= q => PointFloat(r, n, color, q))
  }

  /** Euclidean division is unique: `q` and `r` are the quotient and remainder. */
  lemma DivModUnique(a: int, d: int, q: int, r: int)
    requires d > 0 && 0 <= r < d && a == q * d + r
    ensures a / d == q && a % d == r
  {
    var q', r' := a / d, a % d;
    assert (q' - q) * d == r - r';
    if q' > q {
      AtLeastOnce(q' - q, d);
      assert false;
    } else if q' < q {
      AtLeastOnce(q - q', d);
      assert false;
    }
  }

  lemma AtLeastOnce(m: int, d: int)
    requires m >= 1 && d > 0
    ensures m * d >= d
  {
    assert m * d == d + (m - 1) * d;
  }

  /**
   * Grid point `(i, j)` of an `n`-column grid is slot `s = i * n + j`: a
   * slot of the `n * n`, from which `i` and `j` are recovered by division.
   */
  lemma SlotOf(n: nat, i: nat, j: nat)
    requires i < n && j < n
    ensures i * n + j < n * n
    ensures (i * n + j) / n == i && (i * n + j) % n == j
  {
    DivModUnique(i * n + j, n, i, j);
    assert i * n + j < (i + 1) * n;
    MultiplyBoth(i + 1, n, n);
  }

  /** Different grid points never share a slot. */
  lemma SlotsDisjoint(n: nat, i: nat, j: nat, i': nat, j': nat)
    requires i < n && j < n && i' < n && j' < n
    requires i * n + j == i' * n + j'
    ensures i == i' && j == j'
  {
    SlotOf(n, i, j);
    SlotOf(n, i', j');
  }

  /** Float `6 * s + k` of the buffer is float `k` of the grid point in slot `s`. */
  lemma PointInSlot(r: real, n: nat, color: seq<real>, s: nat, k: nat)
    requires n >= 2 && |color| >= 3 && s < n * n && k < 6
    ensures 6 * s + k < |SpherePoints(r, n, color)|
    ensures SpherePoints(r, n, color)[6 * s + k] == GridFloat(r, n, color, s / n, s % n, k)
  {
    assert (6 * s + k) / 6 == s && (6 * s + k) % 6 == k;
  }

  /** Float `6 * (i * n + j) + k` of the buffer is float `k` of grid point `(i, j)`. */
  lemma PointAt(r: real, n: nat, color: seq<real>, i: nat, j: nat, k: nat)
    requires n >= 2 && |color| >= 3 && i < n && j < n && k < 6
    ensures 6 * (i * n + j) + k < |SpherePoints(r, n, color)|
    ensures SpherePoints(r, n, color)[6 * (i * n + j) + k] == GridFloat(r, n, color, i, j, k)
  {
    SlotOf(n, i, j);
    PointInSlot(r, n, color, i * n + j, k);
  }

  /**
   * Slot `(i, j)` of the buffer holds the point at latitude `lat(i)` and
   * longitude `lon(j)` on the sphere, then the colour's first three
   * components.
   */
  lemma SlotContents(r: real, n: nat, color: seq<real>, i: nat, j: nat)
    requires n >= 2 && |color| >= 3 && i < n && j < n
    ensures var ps, base := SpherePoints(r, n, color), 6 * (i * n + j);
      base + 5 < |ps| &&
      ps[base] == r * Cos(Latitude(n, i)) * Cos(Longitude(n, j)) &&
      ps[base + 1] == r * Sin(Latitude(n, i)) &&
      ps[base + 2] == r * Cos(Latitude(n, i)) * Sin(Longitude(n, j)) &&
      ps[base + 3] == color[0] && ps[base + 4] == color[1] && ps[base + 5] == color[2]
  {
    var ps, base := SpherePoints(r, n, color), 6 * (i * n + j);
    PointAt(r, n, color, i, j, 0);
    PointAt(r, n, color, i, j, 1);
    PointAt(r, n, color, i, j, 2);
    PointAt(r, n, color, i, j, 3);
    PointAt(r, n, color, i, j, 4);
    PointAt(r, n, color, i, j, 5);
  }

  class Sphere {
    /** `_R`. */
    const radius: real
    /** `_color`. */
    const color: seq<real>
    /** `_points`: `nbLat * nbLat * 6` floats. */
    var points: array<real>
    /** The grid side the constructor computed (a local there). */
    ghost const nbLat: nat

    /**
     * The constructor past its check: the grid is `floor(sqrt(nb_points))`
     * points on a side, and the buffer holds every grid point's position
     * and colour. The colour is read at 0, 1 and 2, so it needs three
     * components.
     */
    constructor (radius: real, nbPoints: int, color: seq<real>)
      requires nbPoints >= MinPoints && |color| >= 3
      ensures this.radius == radius && this.color == color
      ensures nbLat == ISqrt(nbPoints) && nbLat >= 8
      ensures fresh(points) && points.Length == nbLat * nbLat * 6
      ensures points[..] == SpherePoints(radius, nbLat, color)
    {
      this.radius := radius;
      this.color := color;
      var n := ISqrt(nbPoints);
      GridAtLeastEight(nbPoints);
      nbLat := n;
      var buffer := FillGrid(radius, n, color);
      points := buffer;
    }

    /** `get_radius`: the radius given to the constructor. */
    function GetRadius(): (r: real)
      ensures r == radius
    {
      radius
    }
  }

  /** The two nested loops of the constructor, row by row and column by column. */
  method FillGrid(r: real, n: nat, color: seq<real>) returns (buffer: array<real>)
    requires n >= 2 && |color| >= 3
    ensures fresh(buffer) && buffer.Length == n * n * 6
    ensures buffer[..] == SpherePoints(r, n, color)
  {
    ghost var ps := SpherePoints(r, n, color);
    buffer := new real[n * n * 6];
    for i := 0 to n
      invariant i * n <= n * n
      invariant forall q :: 0 <= q < 6 * (i * n) ==> buffer[q] == ps[q]
    {
      for j := 0 to n
        invariant i * n + j <= n * n
        invariant forall q :: 0 <= q < 6 * (i * n + j) ==> buffer[q] == ps[q]
      {
        var slot := i * n + j;
        SlotOf(n, i, j);
        WritePoint(buffer, r, n, color, i, j, 6 * slot);
        forall q | 0 <= q < 6 * slot + 6
          ensures buffer[q] == ps[q]
        {
          if 6 * slot <= q {
            PointInSlot(r, n, color, slot, q - 6 * slot);
          }
        }
      }
      RowEnd(i, n);
      MultiplyBoth(i + 1, n, n);
    }
  }

  lemma RowEnd(i: nat, n: nat)
    ensures i * n + n == (i + 1) * n
  {
  }

  /**
   * The body of the inner loop: the six floats of grid point `(i, j)`,
   * written at `base = 6 * (i * n + j)`; nothing else changes.
   */
  method WritePoint(buffer: array<real>, r: real, n: nat, color: seq<real>, i: nat, j: nat, base: nat)
    requires n >= 2 && |color| >= 3 && base + 6 <= buffer.Length
    modifies buffer
    ensures forall q :: 0 <= q < buffer.Length && (q < base || base + 6 <= q) ==> buffer[q] == old(buffer[q])
    ensures forall q :: base <= q < base + 6 ==> buffer[q] == GridFloat(r, n, color, i, j, q - base)
  {
    var lat := Pi * (-0.5 + i as real / (n - 1) as real);
    var lon := 2.0 * Pi * j as real / n as real;
    assert lat == Latitude(n, i) && lon == Longitude(n, j);
    buffer[base] := r * Cos(lat) * Cos(lon);
    buffer[base + 1] := r * Sin(lat);
    buffer[base + 2] := r * Cos(lat) * Sin(lon);
    buffer[base + 3] := color[0];
    buffer[base + 4] := color[1];
    buffer[base + 5] := color[2];
  }

  /** What the constructor produces: a sphere, or the `invalid_argument` it throws. */
  datatype Construction = Built(sphere: Sphere) | InvalidArgument(message: string)

  /**
   * The constructor with its check: fewer than 64 points throws before
   * anything is allocated; otherwise the sphere is built. The colour is
   * only read once the check has passed.
   */
  method MakeSphere(radius: real, nbPoints: int, color: seq<real>) returns (c: Construction)
    requires nbPoints >= MinPoints ==> |color| >= 3
    ensures nbPoints < MinPoints <==> c.InvalidArgument?
    ensures c.Built? ==> fresh(c.sphere) && c.sphere.radius == radius && c.sphere.color == color
    ensures c.Built? ==> c.sphere.nbLat == ISqrt(nbPoints)
    ensures c.Built? ==> c.sphere.points[..] == SpherePoints(radius, c.sphere.nbLat, color)
  {
    if nbPoints < MinPoints {
      return InvalidArgument("Not enought points to correctly render a sphere");
    }
    var s := new Sphere(radius, nbPoints, color);
    c := Built(s);
  }

  /** A C++ `int` result: two's complement wrap-around to 32 bits. */
  function WrapInt32(x: int): (w: int)
    ensures -0x8000_0000 <= w < 0x8000_0000
    ensures -0x8000_0000 <= x < 0x8000_0000 ==> w == x
  {
    (x + 0x8000_0000) % 0x1_0000_0000 - 0x8000_0000
  }

  /** `nb_lat * nb_long * 6` as the constructor computes it, in `int`. */
  function BufferSizeAsWritten(nbPoints: int): int
    requires MinPoints <= nbPoints < 0x8000_0000
  {
    var n := ISqrt(nbPoints);
    WrapInt32(WrapInt32(n * n) * 6)
  }

  /**
   * Up to 357913941 points the `int` size is the true size; with 400000000
   * points (a 20000 by 20000 grid) it wraps to a negative count, and the
   * allocation fails instead of holding the 2400000000 floats the loops
   * write.
   */
  lemma BufferSizeOverflows()
    ensures BufferSizeAsWritten(400000000) == -1894967296
    ensures ISqrt(400000000) * ISqrt(400000000) * 6 == 2400000000
  {
    ISqrtUnique(400000000, 20000);
  }

  /** Below the overflow the `int` size is exactly the buffer the loops fill. */
  lemma BufferSizeExactBelow(nbPoints: int)
    requires MinPoints <= nbPoints <= 357913941
    ensures BufferSizeAsWritten(nbPoints) == ISqrt(nbPoints) * ISqrt(nbPoints) * 6
  {
    var n := ISqrt(nbPoints);
    assert n * n * 6 <= 357913941 * 6;
  }
}
