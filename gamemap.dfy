/** The path enemies walk along and the corridor around it that towers may not occupy
    (internal/gamemap/map.go). */
module GameMap {
  import opened Config
  import opened Utils

  /** One straight segment of the path, given by its start and end corner. */
  datatype Path = Path(startX: real, startY: real, endX: real, endY: real)

  /** The whole path: segments in the order enemies walk them. */
  type Map = seq<Path>

  predicate IsVertical(p: Path) { p.startX == p.endX }

  predicate IsHorizontal(p: Path) { p.startY == p.endY }

  /** Extra room around each segment's drawn rectangle inside which placement is refused. */
  const Margin: real := 30.0

  /** The segment's axis-aligned box, widened by the margin on every side and by the
      corridor width on the far side; bounds are inclusive and the direction of the
      segment does not matter. */
  predicate InCorridor(p: Path, x: real, y: real) {
    && Min(p.startX, p.endX) - Margin <= x <= Max(p.startX, p.endX) + PathWidth + Margin
    && Min(p.startY, p.endY) - Margin <= y <= Max(p.startY, p.endY) + PathWidth + Margin
  }

  /** The segment walked the other way round. */
  function Reversed(p: Path): Path
  {
    Path(p.endX, p.endY, p.startX, p.startY)
  }

  /** The default level: five connected segments, shifted down below the HUD. */
  function DefaultMap(): (m: Map)
    ensures |m| == 5
    ensures forall i :: 0 <= i < |m| ==> IsVertical(m[i]) != IsHorizontal(m[i])
    ensures forall i :: 0 <= i < |m| - 1 ==> m[i].endX == m[i + 1].startX && m[i].endY == m[i + 1].startY
    ensures forall i :: 0 <= i < |m| ==> MapOffsetY <= m[i].startY && MapOffsetY <= m[i].endY
    ensures m[0].startY == MapOffsetY
  {
    var offset := MapOffsetY;
    [ Path(350.0, 0.0 + offset, 350.0, 150.0 + offset),
      Path(350.0, 150.0 + offset, 550.0, 150.0 + offset),
      Path(550.0, 150.0 + offset, 550.0, 350.0 + offset),
      Path(550.0, 350.0 + offset, 150.0, 350.0 + offset),
      Path(150.0, 350.0 + offset, 150.0, 600.0 + offset) ]
  }

  /** Whether a point lies in the corridor of some segment: the segments are searched in
      order and the first one whose box contains the point answers true. */
  function IsPositionOnPath(x: real, y: real, m: Map): (r: bool)
    ensures r <==> exists i :: 0 <= i < |m| && InCorridor(m[i], x, y)
    ensures m == [] ==> !r
  {
    if m == [] then false
    else if InCorridor(m[0], x, y) then true
    else
      var rest := IsPositionOnPath(x, y, m[1..]);
      assert forall i :: 1 <= i < |m| ==> m[i] == m[1..][i - 1];
      rest
  }

  /** Turning a segment round does not change which points lie in its corridor. */
  lemma CorridorIgnoresDirection(p: Path, x: real, y: real)
    ensures InCorridor(Reversed(p), x, y) == InCorridor(p, x, y)
  {
  }

  /** Hence reversing any one segment of a map does not change the answer. */
  lemma OnPathIgnoresDirection(m: Map, k: nat, x: real, y: real)
    requires k < |m|
    ensures IsPositionOnPath(x, y, m[k := Reversed(m[k])]) == IsPositionOnPath(x, y, m)
  {
    var m' := m[k := Reversed(m[k])];
    CorridorIgnoresDirection(m[k], x, y);
    if IsPositionOnPath(x, y, m) {
      var i :| 0 <= i < |m| && InCorridor(m[i], x, y);
      assert InCorridor(m'[i], x, y);
    }
    if IsPositionOnPath(x, y, m') {
      var i :| 0 <= i < |m'| && InCorridor(m'[i], x, y);
      assert InCorridor(m[i], x, y);
    }
  }

  /** Adding segments at the end never takes a point off the path. */
  lemma OnPathMonotone(m: Map, more: Map, x: real, y: real)
    requires IsPositionOnPath(x, y, m)
    ensures IsPositionOnPath(x, y, m + more)
  {
    var i :| 0 <= i < |m| && InCorridor(m[i], x, y);
    assert (m + more)[i] == m[i];
  }

  /** The start corner of every segment is on the path. */
  lemma StartIsOnPath(m: Map, k: nat)
    requires k < |m|
    ensures IsPositionOnPath(m[k].startX, m[k].startY, m)
  {
    assert InCorridor(m[k], m[k].startX, m[k].startY);
  }

  /** Every corridor box is wider and taller than a tower (at least PathWidth + 2 * Margin). */
  lemma CorridorIsWide(p: Path)
    ensures Max(p.startX, p.endX) + PathWidth + Margin - (Min(p.startX, p.endX) - Margin) >= PathWidth + 2.0 * Margin
    ensures Max(p.startY, p.endY) + PathWidth + Margin - (Min(p.startY, p.endY) - Margin) >= PathWidth + 2.0 * Margin
  {
  }

  /** The map moved down by dy. */
  function ShiftY(m: Map, dy: real): (r: Map)
    ensures |r| == |m|
    ensures forall i :: 0 <= i < |m| ==>
      r[i] == Path(m[i].startX, m[i].startY + dy, m[i].endX, m[i].endY + dy)
  {
    if m == [] then []
    else [Path(m[0].startX, m[0].startY + dy, m[0].endX, m[0].endY + dy)] + ShiftY(m[1..], dy)
  }

  /** Moving the map and the point by the same amount does not change the answer. */
  lemma OnPathShifted(m: Map, dy: real, x: real, y: real)
    ensures IsPositionOnPath(x, y + dy, ShiftY(m, dy)) == IsPositionOnPath(x, y, m)
  {
    var s := ShiftY(m, dy);
    forall i | 0 <= i < |m|
      ensures InCorridor(s[i], x, y + dy) == InCorridor(m[i], x, y)
    {
      assert s[i].startY == m[i].startY + dy && s[i].endY == m[i].endY + dy;
      assert Min(s[i].startY, s[i].endY) == Min(m[i].startY, m[i].endY) + dy;
      assert Max(s[i].startY, s[i].endY) == Max(m[i].startY, m[i].endY) + dy;
    }
    if IsPositionOnPath(x, y, m) {
      var i :| 0 <= i < |m| && InCorridor(m[i], x, y);
      assert InCorridor(s[i], x, y + dy);
    }
    if IsPositionOnPath(x, y + dy, s) {
      var i :| 0 <= i < |s| && InCorridor(s[i], x, y + dy);
      assert InCorridor(m[i], x, y);
    }
  }
}
