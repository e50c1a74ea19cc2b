/** Coordinate helpers shared by the entities and the map (internal/utils/utils.go). */
module Utils {

  /** A position given by its centre, with the side of the square drawn around it. */
  datatype CenteredPosition = CenteredPosition(x: real, y: real, size: real) {

    /** The top-left corner of the square; converting back recovers the centre. */
    function TopLeft(): (r: (real, real))
      ensures GetCenterFromTopLeft(r.0, r.1, size) == (x, y)
      ensures r.0 <= x <==> 0.0 <= size
      ensures x - r.0 == y - r.1
    {
      var halfSize := size / 2.0;
      (x - halfSize, y - halfSize)
    }

    /** The coordinates are already centres, so this is the identity on them. */
    function Center(): (r: (real, real))
      ensures r.0 == x && r.1 == y
    {
      (x, y)
    }
  }

  /** Inverse of TopLeft for a square of the same size. */
  function GetCenterFromTopLeft(topLeftX: real, topLeftY: real, size: real): (r: (real, real))
    ensures topLeftX <= r.0 <==> 0.0 <= size
    ensures r.0 - topLeftX == r.1 - topLeftY
  {
    var halfSize := size / 2.0;
    (topLeftX + halfSize, topLeftY + halfSize)
  }

  /** The other round trip: the top-left corner of the recovered centre is the corner we started from. */
  lemma TopLeftOfCenter(topLeftX: real, topLeftY: real, size: real)
    ensures var c := GetCenterFromTopLeft(topLeftX, topLeftY, size);
            CenteredPosition(c.0, c.1, size).TopLeft() == (topLeftX, topLeftY)
  {
  }

  /** The centre line of a corridor that starts at pathPos and is pathWidth wide:
      it is equally far from both edges and lies between them. */
  function CenterInPath(pathPos: real, pathWidth: real): (r: real)
    ensures r - pathPos == (pathPos + pathWidth) - r
    ensures 0.0 <= pathWidth ==> pathPos <= r <= pathPos + pathWidth
  {
    pathPos + pathWidth / 2.0
  }

  function Min(a: real, b: real): (r: real)
    ensures r == a || r == b
    ensures r <= a && r <= b
  {
    if a < b then a else b
  }

  function Max(a: real, b: real): (r: real)
    ensures r == a || r == b
    ensures a <= r && b <= r
  {
    if a > b then a else b
  }

  /** Go's conversion of a floating-point value to int, which truncates toward zero. */
  function Trunc(v: real): (r: int)
    ensures 0.0 <= v ==> 0 <= r && r as real <= v < r as real + 1.0
    ensures v < 0.0 ==> r <= 0 && r as real - 1.0 < v <= r as real
  {
    if v >= 0.0 then v.Floor else -((-v).Floor)
  }

  /** Square of the Euclidean distance between two points. */
  function SquaredDistance(x1: real, y1: real, x2: real, y2: real): (d: real)
    ensures 0.0 <= d
  {
    (x1 - x2) * (x1 - x2) + (y1 - y2) * (y1 - y2)
  }

  /** The squared distance does not depend on which point comes first. */
  lemma SquaredDistanceSymmetric(x1: real, y1: real, x2: real, y2: real)
    ensures SquaredDistance(x1, y1, x2, y2) == SquaredDistance(x2, y2, x1, y1)
  {
    assert (x1 - x2) * (x1 - x2) == (x2 - x1) * (x2 - x1);
    assert (y1 - y2) * (y1 - y2) == (y2 - y1) * (y2 - y1);
  }
}
