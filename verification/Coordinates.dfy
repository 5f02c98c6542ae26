/** How the Linux backends translate between desktop coordinates and the pixels of one screen. */
module Coordinates {
  import opened Core

  predicate Contains(s: ScreenInfo, x: int, y: int) {
    s.x <= x < s.x + s.width && s.y <= y < s.y + s.height
  }

  ghost predicate AllDrawable(screens: seq<ScreenInfo>) {
    forall i :: 0 <= i < |screens| ==> ValidRect(screens[i])
  }

  ghost predicate Disjoint(screens: seq<ScreenInfo>) {
    forall i, j, x, y :: 0 <= i < j < |screens| && Contains(screens[i], x, y) ==> !Contains(screens[j], x, y)
  }

  // ----- X11: integer coordinates, the local ones unclamped -----

  /** Squared distance of two points. */
  function Apart(x: int, y: int, px: int, py: int): int {
    (x - px) * (x - px) + (y - py) * (y - py)
  }

  /** Sizes a clamp to the screen's far borders makes sense for; an empty screen is one of them. */
  ghost predicate Sized(screens: seq<ScreenInfo>) {
    forall i :: 0 <= i < |screens| ==> 0 <= screens[i].width && 0 <= screens[i].height
  }

  /** Squared distance to the screen's rectangle, its far borders included. */
  function XcbDistance(s: ScreenInfo, x: int, y: int): int
    requires 0 <= s.width && 0 <= s.height
  {
    Apart(x, y, Clamp(x, s.x, s.x + s.width), Clamp(y, s.y, s.y + s.height))
  }

  /** It is the least squared distance to any point of that rectangle, and some point is that near. */
  lemma XcbDistanceIsLeast(s: ScreenInfo, x: int, y: int)
    requires 0 <= s.width && 0 <= s.height
    ensures forall px, py :: s.x <= px <= s.x + s.width && s.y <= py <= s.y + s.height ==>
              XcbDistance(s, x, y) <= Apart(x, y, px, py)
    ensures exists px, py :: s.x <= px <= s.x + s.width && s.y <= py <= s.y + s.height
                             && XcbDistance(s, x, y) == Apart(x, y, px, py)
  {
    hide Apart;
    var cx, cy := Clamp(x, s.x, s.x + s.width), Clamp(y, s.y, s.y + s.height);
    forall px, py | s.x <= px <= s.x + s.width && s.y <= py <= s.y + s.height
      ensures XcbDistance(s, x, y) <= Apart(x, y, px, py)
    {
      NearerIsLess(x, y, cx, cy, px, py);
    }
    assert XcbDistance(s, x, y) == Apart(x, y, cx, cy);
  }

  /** No coordinate of the first point is farther, or on the other side. */
  lemma NearerIsLess(x: int, y: int, cx: int, cy: int, px: int, py: int)
    requires 0 <= x - cx <= x - px || x - px <= x - cx <= 0
    requires 0 <= y - cy <= y - py || y - py <= y - cy <= 0
    ensures Apart(x, y, cx, cy) <= Apart(x, y, px, py)
  {
    SquareMonotone(x - cx, x - px);
    SquareMonotone(y - cy, y - py);
  }

  lemma SquareMonotone(a: int, b: int)
    requires 0 <= a <= b || b <= a <= 0
    ensures a * a <= b * b
  {
    if 0 <= a {
      assert a * a <= a * b <= b * b;
    } else {
      assert a * a <= a * b <= b * b;
    }
  }

  /** The first screen that contains the point, or else the first of the nearest. */
  ghost predicate XcbChosen(screens: seq<ScreenInfo>, x: int, y: int, i: nat)
    requires Sized(screens)
  {
    && i < |screens|
    && (if exists j :: 0 <= j < |screens| && Contains(screens[j], x, y) then
          Contains(screens[i], x, y) && forall j :: 0 <= j < i ==> !Contains(screens[j], x, y)
        else
          && (forall j :: 0 <= j < |screens| ==> XcbDistance(screens[i], x, y) <= XcbDistance(screens[j], x, y))
          && (forall j :: 0 <= j < i ==> XcbDistance(screens[i], x, y) < XcbDistance(screens[j], x, y)))
  }

  function XcbLocalToGlobal(screens: seq<ScreenInfo>, i: nat, x: int, y: int): Option<(int, int)> {
    if |screens| <= i then None else Some((screens[i].x + x, screens[i].y + y))
  }

  class XcbPlatform {
    var mScreens: seq<ScreenInfo>

    constructor (screens: seq<ScreenInfo>)
      ensures mScreens == screens
    {
      mScreens := screens;
    }

    method GlobalToScreen(x: int, y: int) returns (index: nat, localX: int, localY: int)
      requires Sized(mScreens)
      ensures mScreens == [] ==> (index, localX, localY) == (0, x, y)
      ensures mScreens != [] ==> XcbChosen(mScreens, x, y, index)
      // going back gives the point again, for every point
      ensures mScreens != [] ==> XcbLocalToGlobal(mScreens, index, localX, localY) == Some((x, y))
    {
      if mScreens == [] {
        return 0, x, y;
      }
      var best := 0;
      var bestDistance: Option<int> := None;
      for i := 0 to |mScreens|
        invariant best < |mScreens| && (i == 0 <==> bestDistance.None?)
        invariant forall j :: 0 <= j < i ==> !Contains(mScreens[j], x, y)
        invariant 0 < i ==> best < i && bestDistance == Some(XcbDistance(mScreens[best], x, y))
        invariant forall j :: 0 <= j < i ==> XcbDistance(mScreens[best], x, y) <= XcbDistance(mScreens[j], x, y)
        invariant forall j :: 0 <= j < best ==> XcbDistance(mScreens[best], x, y) < XcbDistance(mScreens[j], x, y)
      {
        var info := mScreens[i];
        if Contains(info, x, y) {
          best := i;
          break;
        }
        var distance := XcbDistance(info, x, y);
        if bestDistance.None? || distance < bestDistance.value {
          bestDistance := Some(distance);
          best := i;
        }
      }
      index := best;
      localX, localY := x - mScreens[best].x, y - mScreens[best].y;
    }
  }

  /**
   * A pixel of one of several disjoint screens goes out and comes back as the same pixel
   * of the same screen: there is one answer GlobalToScreen may give, and it is that.
   */
  lemma XcbLocalRoundTrip(screens: seq<ScreenInfo>, i: nat, x: int, y: int, index: nat, localX: int, localY: int)
    requires Sized(screens) && Disjoint(screens) && i < |screens| && Inside(x, y, screens[i])
    ensures var (globalX, globalY) := XcbLocalToGlobal(screens, i, x, y).value;
            (XcbChosen(screens, globalX, globalY, index)
             && XcbLocalToGlobal(screens, index, localX, localY) == Some((globalX, globalY)))
            <==> (index, localX, localY) == (i, x, y)
  {
    var (globalX, globalY) := XcbLocalToGlobal(screens, i, x, y).value;
    assert Contains(screens[i], globalX, globalY);
    forall j | 0 <= j < |screens| && j != i ensures !Contains(screens[j], globalX, globalY) { }
  }

  // ----- The portal: real coordinates in, pixels of the chosen screen out -----

  predicate ContainsReal(s: ScreenInfo, x: real, y: real) {
    s.x as real <= x < (s.x + s.width) as real && s.y as real <= y < (s.y + s.height) as real
  }

  function ClampReal(v: real, lo: real, hi: real): real {
    if v < lo then lo else if hi < v then hi else v
  }

  function ApartReal(x: real, y: real, px: real, py: real): real {
    (x - px) * (x - px) + (y - py) * (y - py)
  }

  /** Squared distance to the screen's last pixel row and column; the order of distances is that of their squares. */
  function PortalDistance(s: ScreenInfo, x: real, y: real): real {
    ApartReal(x, y,
              ClampReal(x, s.x as real, (s.x + s.width - 1) as real),
              ClampReal(y, s.y as real, (s.y + s.height - 1) as real))
  }

  /** It is the least squared distance to any point between the screen's first and last pixels. */
  lemma PortalDistanceIsLeast(s: ScreenInfo, x: real, y: real)
    requires ValidRect(s)
    ensures forall px: real, py: real :: InPixels(s, px, py) ==> PortalDistance(s, x, y) <= ApartReal(x, y, px, py)
    ensures exists px: real, py: real :: InPixels(s, px, py) && PortalDistance(s, x, y) == ApartReal(x, y, px, py)
  {
    hide ApartReal;
    var cx := ClampReal(x, s.x as real, (s.x + s.width - 1) as real);
    var cy := ClampReal(y, s.y as real, (s.y + s.height - 1) as real);
    forall px: real, py: real | InPixels(s, px, py) ensures PortalDistance(s, x, y) <= ApartReal(x, y, px, py) {
      NearerIsLessReal(x, y, cx, cy, px, py);
    }
    assert InPixels(s, cx, cy) && PortalDistance(s, x, y) == ApartReal(x, y, cx, cy);
  }

  predicate InPixels(s: ScreenInfo, px: real, py: real) {
    s.x as real <= px <= (s.x + s.width - 1) as real && s.y as real <= py <= (s.y + s.height - 1) as real
  }

  lemma NearerIsLessReal(x: real, y: real, cx: real, cy: real, px: real, py: real)
    requires 0.0 <= x - cx <= x - px || x - px <= x - cx <= 0.0
    requires 0.0 <= y - cy <= y - py || y - py <= y - cy <= 0.0
    ensures ApartReal(x, y, cx, cy) <= ApartReal(x, y, px, py)
  {
    SquareMonotoneReal(x - cx, x - px);
    SquareMonotoneReal(y - cy, y - py);
  }

  lemma SquareMonotoneReal(a: real, b: real)
    requires 0.0 <= a <= b || b <= a <= 0.0
    ensures a * a <= b * b
  {
    assert (b - a) * (b + a) == b * b - a * a;
    if 0.0 <= a {
      assert 0.0 <= (b - a) * (b + a);
    } else {
      assert 0.0 <= (a - b) * (-(b + a));
    }
  }

  /** Nearest integer, halves away from zero. */
  function Nearest(x: real): int {
    if x < 0.0 then -((-x + 0.5).Floor) else (x + 0.5).Floor
  }

  /** Never more than half a step away, a tie going outwards. */
  lemma NearestIsWithinHalf(x: real)
    ensures 0.0 <= x ==> Nearest(x) as real - 0.5 <= x < Nearest(x) as real + 0.5
    ensures x < 0.0 ==> Nearest(x) as real - 0.5 < x <= Nearest(x) as real + 0.5
  {
  }

  ghost predicate PortalChosen(screens: seq<ScreenInfo>, x: real, y: real, i: nat) {
    && i < |screens|
    && (if exists j :: 0 <= j < |screens| && ContainsReal(screens[j], x, y) then
          ContainsReal(screens[i], x, y) && forall j :: 0 <= j < i ==> !ContainsReal(screens[j], x, y)
        else
          && (forall j :: 0 <= j < |screens| ==> PortalDistance(screens[i], x, y) <= PortalDistance(screens[j], x, y))
          && (forall j :: 0 <= j < i ==> PortalDistance(screens[i], x, y) < PortalDistance(screens[j], x, y)))
  }

  /** Out-of-range pixels are clamped to the screen first. */
  function PortalLocalToGlobal(screens: seq<ScreenInfo>, i: nat, x: int, y: int): Option<(real, real)>
    requires i < |screens| ==> ValidRect(screens[i])
  {
    if |screens| <= i then None
    else
      Some(((screens[i].x + Clamp(x, 0, screens[i].width - 1)) as real,
            (screens[i].y + Clamp(y, 0, screens[i].height - 1)) as real))
  }

  datatype LocalPoint = LocalPoint(screenIndex: nat, x: int, y: int)

  /** The pixel of the screen that is nearest to the point (x, y) of the desktop. */
  predicate NearestWithin(p: LocalPoint, s: ScreenInfo, x: int, y: int) {
    && p.x == (if x < s.x then 0 else if s.x + s.width <= x then s.width - 1 else x - s.x)
    && p.y == (if y < s.y then 0 else if s.y + s.height <= y then s.height - 1 else y - s.y)
  }

  /** A local point off the screen is taken for the nearest pixel on it. */
  lemma PortalOffScreen(screens: seq<ScreenInfo>, i: nat, x: int, y: int)
    requires i < |screens| && ValidRect(screens[i])
    ensures var s := screens[i];
            PortalLocalToGlobal(screens, i, x, y)
            == Some(((if x < 0 then s.x else if s.width <= x then s.x + s.width - 1 else s.x + x) as real,
                     (if y < 0 then s.y else if s.height <= y then s.y + s.height - 1 else s.y + y) as real))
  {
  }

  class PortalPlatform {
    var mScreens: seq<ScreenInfo>

    constructor (screens: seq<ScreenInfo>)
      ensures mScreens == screens
    {
      mScreens := screens;
    }

    method GlobalToLocal(x: real, y: real) returns (point: Option<LocalPoint>)
      requires AllDrawable(mScreens)
      ensures point.None? <==> mScreens == []
      ensures point.Some? ==> PortalChosen(mScreens, x, y, point.value.screenIndex)
      // always a pixel of the chosen screen
      ensures point.Some? ==> Inside(point.value.x, point.value.y, mScreens[point.value.screenIndex])
      // and on a screen that contains the point, the pixel it falls in
      ensures point.Some? && ContainsReal(mScreens[point.value.screenIndex], x, y) ==>
                var s := mScreens[point.value.screenIndex];
                && (s.x + point.value.x) as real <= x < (s.x + point.value.x + 1) as real
                && (s.y + point.value.y) as real <= y < (s.y + point.value.y + 1) as real
      // and otherwise the pixel nearest to the rounded point
      ensures point.Some? && !ContainsReal(mScreens[point.value.screenIndex], x, y) ==>
                NearestWithin(point.value, mScreens[point.value.screenIndex], Nearest(x), Nearest(y))
    {
      if mScreens == [] {
        return None;
      }
      for index := 0 to |mScreens|
        invariant forall j :: 0 <= j < index ==> !ContainsReal(mScreens[j], x, y)
      {
        var screen := mScreens[index];
        if ContainsReal(screen, x, y) {
          return Some(LocalPoint(index, (x - screen.x as real).Floor, (y - screen.y as real).Floor));
        }
      }
      var bestIndex := 0;
      var bestDistance: Option<real> := None;
      for index := 0 to |mScreens|
        invariant bestIndex < |mScreens| && (index == 0 <==> bestDistance.None?)
        invariant 0 < index ==> bestIndex < index && bestDistance == Some(PortalDistance(mScreens[bestIndex], x, y))
        invariant forall j :: 0 <= j < index ==>
                    PortalDistance(mScreens[bestIndex], x, y) <= PortalDistance(mScreens[j], x, y)
        invariant forall j :: 0 <= j < bestIndex ==>
                    PortalDistance(mScreens[bestIndex], x, y) < PortalDistance(mScreens[j], x, y)
      {
        var distance := PortalDistance(mScreens[index], x, y);
        if bestDistance.None? || distance < bestDistance.value {
          bestDistance := Some(distance);
          bestIndex := index;
        }
      }
      var screen := mScreens[bestIndex];
      return Some(LocalPoint(bestIndex,
                             Clamp(Nearest(x) - screen.x, 0, screen.width - 1),
                             Clamp(Nearest(y) - screen.y, 0, screen.height - 1)));
    }
  }

  /**
   * Out to the desktop and back: what GlobalToLocal may answer is the same pixel of the
   * same screen, if the screens are disjoint.
   */
  lemma PortalLocalRoundTrip(screens: seq<ScreenInfo>, i: nat, x: int, y: int, back: LocalPoint)
    requires AllDrawable(screens) && Disjoint(screens) && i < |screens| && Inside(x, y, screens[i])
    requires var (gx, gy) := PortalLocalToGlobal(screens, i, x, y).value;
             && PortalChosen(screens, gx, gy, back.screenIndex)
             && (ContainsReal(screens[back.screenIndex], gx, gy) ==>
                   var s := screens[back.screenIndex];
                   && (s.x + back.x) as real <= gx < (s.x + back.x + 1) as real
                   && (s.y + back.y) as real <= gy < (s.y + back.y + 1) as real)
    ensures back == LocalPoint(i, x, y)
  {
    var (gx, gy) := PortalLocalToGlobal(screens, i, x, y).value;
    var s := screens[i];
    assert Contains(s, s.x + x, s.y + y) && ContainsReal(s, gx, gy);
    forall j | 0 <= j < |screens| && j != i ensures !ContainsReal(screens[j], gx, gy) {
      assert !Contains(screens[j], s.x + x, s.y + y);
    }
  }

  // ----- wlroots: a position within the bounding box of all screens -----

  const INT32_MAX := 0x7FFF_FFFF
  const INT32_MIN := -0x8000_0000
  const UINT32_MAX := 0xFFFF_FFFF

  datatype AbsolutePosition = AbsolutePosition(x: int, y: int, width: int, height: int)

  /** Coordinates and sizes as 32-bit integers can report them. */
  ghost predicate Reported(screens: seq<ScreenInfo>) {
    forall i :: 0 <= i < |screens| ==>
      && INT32_MIN <= screens[i].x <= INT32_MAX && INT32_MIN <= screens[i].y <= INT32_MAX
      && 0 <= screens[i].width <= INT32_MAX && 0 <= screens[i].height <= INT32_MAX
  }

  /** The least interval that covers every screen's extent along one axis. */
  ghost predicate Bounds(starts: seq<int>, ends: seq<int>, lo: int, hi: int)
    requires |starts| == |ends|
  {
    && (forall i :: 0 <= i < |starts| ==> lo <= starts[i] && ends[i] <= hi)
    && lo in starts && hi in ends
  }

  ghost function Starts(screens: seq<ScreenInfo>, horizontal: bool): (r: seq<int>)
    ensures |r| == |screens|
  {
    seq(|screens|, i requires 0 <= i < |screens| => if horizontal then screens[i].x else screens[i].y)
  }

  ghost function Ends(screens: seq<ScreenInfo>, horizontal: bool): (r: seq<int>)
    ensures |r| == |screens|
  {
    seq(|screens|, i requires 0 <= i < |screens| =>
      if horizontal then screens[i].x + screens[i].width else screens[i].y + screens[i].height)
  }

  /** One more screen widens the interval just enough; before the first, the interval is inside out. */
  lemma BoundsGrow(screens: seq<ScreenInfo>, s: ScreenInfo, horizontal: bool, lo: int, hi: int)
    requires Reported([s])
    requires if screens == [] then lo == INT32_MAX && hi == INT32_MIN
             else Bounds(Starts(screens, horizontal), Ends(screens, horizontal), lo, hi)
    ensures var (start, end) := if horizontal then (s.x, s.x + s.width) else (s.y, s.y + s.height);
            Bounds(Starts(screens + [s], horizontal), Ends(screens + [s], horizontal),
                   if start < lo then start else lo, if hi < end then end else hi)
  {
    var (start, end) := if horizontal then (s.x, s.x + s.width) else (s.y, s.y + s.height);
    assert Reported([s]) && [s][0] == s;
    var starts, ends := Starts(screens + [s], horizontal), Ends(screens + [s], horizontal);
    assert starts == Starts(screens, horizontal) + [start];
    assert ends == Ends(screens, horizontal) + [end];
    assert starts[|screens|] == start && ends[|screens|] == end;
  }

  class WaylandPlatform {
    var mScreens: seq<ScreenInfo>

    constructor (screens: seq<ScreenInfo>)
      ensures mScreens == screens
    {
      mScreens := screens;
    }

    method BoundingBox() returns (minX: int, minY: int, maxX: int, maxY: int)
      requires Reported(mScreens) && mScreens != []
      ensures Bounds(Starts(mScreens, true), Ends(mScreens, true), minX, maxX)
      ensures Bounds(Starts(mScreens, false), Ends(mScreens, false), minY, maxY)
    {
      hide Bounds, Starts, Ends;
      minX, minY, maxX, maxY := INT32_MAX, INT32_MAX, INT32_MIN, INT32_MIN;
      for i := 0 to |mScreens|
        invariant i == 0 ==> (minX, minY, maxX, maxY) == (INT32_MAX, INT32_MAX, INT32_MIN, INT32_MIN)
        invariant 0 < i ==> Bounds(Starts(mScreens[..i], true), Ends(mScreens[..i], true), minX, maxX)
        invariant 0 < i ==> Bounds(Starts(mScreens[..i], false), Ends(mScreens[..i], false), minY, maxY)
      {
        var screen := mScreens[i];
        assert mScreens[..i + 1] == mScreens[..i] + [screen];
        BoundsGrow(mScreens[..i], screen, true, minX, maxX);
        BoundsGrow(mScreens[..i], screen, false, minY, maxY);
        minX := if screen.x < minX then screen.x else minX;
        minY := if screen.y < minY then screen.y else minY;
        maxX := if maxX < screen.x + screen.width then screen.x + screen.width else maxX;
        maxY := if maxY < screen.y + screen.height then screen.y + screen.height else maxY;
      }
      assert mScreens[..|mScreens|] == mScreens;
    }

    /** Always inside the extent; and the exact offset in the bounding box when that fits 32 bits. */
    method AbsolutePositionOf(screenIndex: nat, x: int, y: int) returns (position: Option<AbsolutePosition>)
      requires Reported(mScreens)
      ensures position.None? <==> |mScreens| <= screenIndex
      ensures position.Some? ==>
                0 <= position.value.x < position.value.width && 0 <= position.value.y < position.value.height
      ensures position.Some? && AllDrawable(mScreens) ==>
                exists minX, maxX, minY, maxY ::
                  && Bounds(Starts(mScreens, true), Ends(mScreens, true), minX, maxX)
                  && Bounds(Starts(mScreens, false), Ends(mScreens, false), minY, maxY)
                  && (maxX - minX <= UINT32_MAX && maxY - minY <= UINT32_MAX ==>
                        var s := mScreens[screenIndex];
                        position.value == AbsolutePosition(s.x + Clamp(x, 0, s.width - 1) - minX,
                                                           s.y + Clamp(y, 0, s.height - 1) - minY,
                                                           maxX - minX, maxY - minY))
    {
      if |mScreens| <= screenIndex {
        return None;
      }
      var minX, minY, maxX, maxY := BoundingBox();
      var screen := mScreens[screenIndex];
      assert Starts(mScreens, true)[screenIndex] == screen.x;
      assert Ends(mScreens, true)[screenIndex] == screen.x + screen.width;
      assert Starts(mScreens, false)[screenIndex] == screen.y;
      assert Ends(mScreens, false)[screenIndex] == screen.y + screen.height;
      var localX := Clamp(x, 0, Max(0, screen.width - 1));
      var localY := Clamp(y, 0, Max(0, screen.height - 1));
      var globalX := screen.x + localX - minX;
      var globalY := screen.y + localY - minY;
      var width := Clamp(maxX - minX, 1, UINT32_MAX);
      var height := Clamp(maxY - minY, 1, UINT32_MAX);
      position := Some(AbsolutePosition(Clamp(globalX, 0, width - 1), Clamp(globalY, 0, height - 1), width, height));
    }
  }
}
