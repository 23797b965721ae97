/** The value arithmetic of the synth-style controls: the linear range
    map behind the knob's pointer angle, the values a knob or an LCD drag
    produces, the cycling selector and the tooltip's edge correction.
    Mouse positions and element rectangles are parameters. */
module SynthUI {
  import opened Layers

  /** Linear interpolation of `value` from `[inMin, inMax]` onto
      `[outMin, outMax]`. */
  function MapRange(value: real, inMin: real, inMax: real, outMin: real, outMax: real): (r: real)
    requires inMin != inMax
    ensures (r - outMin) * (inMax - inMin) == (value - inMin) * (outMax - outMin)
  {
    ((value - inMin) * (outMax - outMin)) / (inMax - inMin) + outMin
  }

  /** The map sends the input range's ends to the output range's ends. */
  lemma MapRangeEnds(inMin: real, inMax: real, outMin: real, outMax: real)
    requires inMin != inMax
    ensures MapRange(inMin, inMin, inMax, outMin, outMax) == outMin
    ensures MapRange(inMax, inMin, inMax, outMin, outMax) == outMax
  {
    assert (inMax - inMin) * (outMax - outMin) / (inMax - inMin) == outMax - outMin;
  }

  /** Mapping back from the output range onto the input range undoes the
      map, whenever the output range is not a single point. */
  lemma MapRangeInverse(value: real, inMin: real, inMax: real, outMin: real, outMax: real)
    requires inMin != inMax && outMin != outMax
    ensures MapRange(MapRange(value, inMin, inMax, outMin, outMax), outMin, outMax, inMin, inMax) == value
  {
    var a, b := value - inMin, inMax - inMin;
    var c := outMax - outMin;
    var y := MapRange(value, inMin, inMax, outMin, outMax);
    assert y - outMin == (a * c) / b;
    assert ((a * c) / b) * b == a * c;
    assert ((y - outMin) * b) / c == a;
  }

  /** An increasing map between two increasing ranges keeps the order of
      its inputs. */
  lemma MapRangeMonotone(v: real, w: real, inMin: real, inMax: real, outMin: real, outMax: real)
    requires inMin < inMax && outMin <= outMax && v <= w
    ensures MapRange(v, inMin, inMax, outMin, outMax) <= MapRange(w, inMin, inMax, outMin, outMax)
  {
    var c, b := outMax - outMin, inMax - inMin;
    assert (w - inMin) * c - (v - inMin) * c == (w - v) * c;
    assert (w - inMin) * c / b - (v - inMin) * c / b == ((w - v) * c) / b;
  }

  /** The knob pointer's rotation in degrees: the value's position in
      `[min, max]` spread over the 270 degrees from -135 to 135. */
  function KnobAngle(value: real, min: real, max: real): (angle: real)
    requires min != max
    ensures (angle + 135.0) * (max - min) == (value - min) * 270.0
  {
    MapRange((value - min) / (max - min), 0.0, 1.0, -135.0, 135.0)
  }

  /** The knob angle is the value mapped straight from `[min, max]`
      onto `[-135, 135]`. */
  lemma KnobAngleDirect(value: real, min: real, max: real)
    requires min != max
    ensures KnobAngle(value, min, max) == MapRange(value, min, max, -135.0, 135.0)
  {
    var p := (value - min) / (max - min);
    assert MapRange(p, 0.0, 1.0, -135.0, 135.0) == p * 270.0 - 135.0;
    assert p * 270.0 == (value - min) * 270.0 / (max - min);
  }

  /** The pointer sits at -135 degrees at the minimum, at 135 at the
      maximum, and in between for every value in between. */
  lemma KnobAngleRange(value: real, min: real, max: real)
    requires min < max
    ensures KnobAngle(min, min, max) == -135.0
    ensures KnobAngle(max, min, max) == 135.0
    ensures min <= value <= max ==> -135.0 <= KnobAngle(value, min, max) <= 135.0
  {
    KnobAngleDirect(min, min, max);
    KnobAngleDirect(max, min, max);
    KnobAngleDirect(value, min, max);
    MapRangeEnds(min, max, -135.0, 135.0);
    if min <= value <= max {
      MapRangeMonotone(min, value, min, max, -135.0, 135.0);
      MapRangeMonotone(value, max, min, max, -135.0, 135.0);
    }
  }

  /** `Math.max(lo, Math.min(hi, x))`; with `lo > hi` the lower bound wins. */
  function Clamp(x: real, lo: real, hi: real): (r: real)
    ensures lo <= hi ==> lo <= r <= hi
    ensures lo <= x <= hi ==> r == x
    ensures r == x || r == lo || r == hi
    ensures lo <= hi < x ==> r == hi
    ensures x < lo <= hi ==> r == lo
  {
    if hi < x then (if lo < hi then hi else lo)
    else if lo < x then x
    else lo
  }

  /** Vertical pixels of drag that sweep a knob over its whole range. */
  const KnobSensitivity: real := 150.0
  /** Vertical pixels of drag per range-width of an LCD change. */
  const LcdSensitivity: real := 50.0

  /** The value a knob drag produces: the start value moved by the upward
      drag distance, 150 pixels per full range, clamped into range. */
  function KnobDrag(startVal: real, startY: real, clientY: real, min: real, max: real): (r: real)
    ensures min <= max ==> min <= r <= max
    ensures var x := startVal + KnobDelta(startY - clientY, min, max); min <= x <= max ==> r == x
    ensures var x := startVal + KnobDelta(startY - clientY, min, max); min <= max < x ==> r == max
    ensures var x := startVal + KnobDelta(startY - clientY, min, max); x < min <= max ==> r == min
  {
    Clamp(startVal + KnobDelta(startY - clientY, min, max), min, max)
  }

  /** The change an upward drag of `deltaY` pixels asks of a knob. */
  function KnobDelta(deltaY: real, min: real, max: real): (d: real)
    ensures d * KnobSensitivity == deltaY * (max - min)
    ensures deltaY == 0.0 ==> d == 0.0
    ensures deltaY == KnobSensitivity ==> d == max - min
  {
    (deltaY / KnobSensitivity) * (max - min)
  }

  /** A drag that has not moved gives back an in-range start value; and
      dragging further up never lowers the value. */
  lemma KnobDragProperties(startVal: real, startY: real, y1: real, y2: real, min: real, max: real)
    requires min <= max
    ensures min <= startVal <= max ==> KnobDrag(startVal, startY, startY, min, max) == startVal
    ensures y2 <= y1 ==> KnobDrag(startVal, startY, y1, min, max) <= KnobDrag(startVal, startY, y2, min, max)
  {
    assert KnobDelta(0.0, min, max) == 0.0;
    if y2 <= y1 {
      var x1 := startVal + KnobDelta(startY - y1, min, max);
      var x2 := startVal + KnobDelta(startY - y2, min, max);
      KnobDeltaMonotone(startY - y1, startY - y2, min, max);
      ClampMonotone(x1, x2, min, max);
    }
  }

  /** A longer upward drag asks for at least as large a change. */
  lemma KnobDeltaMonotone(a: real, b: real, min: real, max: real)
    requires a <= b && min <= max
    ensures KnobDelta(a, min, max) <= KnobDelta(b, min, max)
  {
    var ua, ub, range := a / KnobSensitivity, b / KnobSensitivity, max - min;
    ScaleLe(ua, ub, range);
    calc {
      KnobDelta(a, min, max);
      == ua * range;
      <= ub * range;
      == KnobDelta(b, min, max);
    }
  }

  lemma ClampMonotone(x: real, y: real, lo: real, hi: real)
    requires x <= y && lo <= hi
    ensures Clamp(x, lo, hi) <= Clamp(y, lo, hi)
  {
  }

  lemma ScaleLe(a: real, b: real, c: real)
    requires a <= b && c >= 0.0
    ensures a * c <= b * c
  {
    assert b * c - a * c == (b - a) * c;
  }

  /** `Math.round`: the nearest integer, halves rounded up. */
  function Round(x: real): (n: int)
    ensures x - 0.5 < n as real <= x + 0.5
  {
    (x + 0.5).Floor
  }

  /** Whether a real holds an integer. */
  predicate Integral(x: real) {
    x == x.Floor as real
  }

  /** The value an LCD drag produces: the start value plus the rounded
      drag, 50 pixels per range-width, clamped into range. */
  function LcdDrag(startVal: real, startY: real, clientY: real, min: real, max: real): (r: real)
    ensures min <= max ==> min <= r <= max
    ensures var x := startVal + LcdDelta(startY - clientY, min, max) as real; min <= x <= max ==> r == x
    ensures var x := startVal + LcdDelta(startY - clientY, min, max) as real; min <= max < x ==> r == max
    ensures var x := startVal + LcdDelta(startY - clientY, min, max) as real; x < min <= max ==> r == min
  {
    Clamp(startVal + LcdDelta(startY - clientY, min, max) as real, min, max)
  }

  /** The whole-number change an upward drag of `deltaY` pixels asks for. */
  function LcdDelta(deltaY: real, min: real, max: real): (d: int)
    ensures d as real - 0.5 <= (deltaY / LcdSensitivity) * (max - min) < d as real + 0.5
    ensures deltaY == 0.0 ==> d == 0
  {
    Round((deltaY / LcdSensitivity) * (max - min))
  }

  /** With an integral start and integral bounds, an LCD drag only ever
      produces integers: the delta is rounded before it is added. */
  lemma LcdDragIntegral(startVal: real, startY: real, clientY: real, min: real, max: real)
    requires Integral(startVal) && Integral(min) && Integral(max)
    ensures Integral(LcdDrag(startVal, startY, clientY, min, max))
  {
    IntegralShift(startVal, LcdDelta(startY - clientY, min, max));
  }

  lemma IntegralShift(a: real, d: int)
    requires Integral(a)
    ensures Integral(a + d as real)
  {
    assert a + d as real == (a.Floor + d) as real;
  }

  /** The LCD's move handler: the new value is reported only when it
      differs from the value currently shown. */
  function LcdMove(startVal: real, startY: real, clientY: real, min: real, max: real, current: real): (change: Option<real>)
    ensures change.Some? <==> LcdDrag(startVal, startY, clientY, min, max) != current
    ensures change.Some? ==> change.value == LcdDrag(startVal, startY, clientY, min, max)
  {
    var v := LcdDrag(startVal, startY, clientY, min, max);
    if v != current then Some(v) else None
  }

  /** Reporting the produced value back as the current one stops
      further reports for the same drag position. */
  lemma LcdMoveSettles(startVal: real, startY: real, clientY: real, min: real, max: real)
    ensures LcdMove(startVal, startY, clientY, min, max, LcdDrag(startVal, startY, clientY, min, max)) == None
  {
  }

  /** One entry of a selector: the caption it shows and the value it stands for. */
  datatype SelectorOption = SelectorOption(caption: string, value: real)

  /** `Array.prototype.findIndex` on the option values: the first index
      holding `value`, or -1. */
  function FindIndex(options: seq<SelectorOption>, value: real): (i: int)
    ensures -1 <= i < |options|
    ensures i == -1 <==> forall k :: 0 <= k < |options| ==> options[k].value != value
    ensures i >= 0 ==> options[i].value == value && forall k :: 0 <= k < i ==> options[k].value != value
  {
    if options == [] then -1
    else if options[0].value == value then 0
    else
      var j := FindIndex(options[1..], value);
      if j == -1 then -1 else j + 1
  }

  /** The value a click selects: the option after the current one,
      wrapping from the last to the first; a value not among the options
      selects the first. */
  function SelectorNext(options: seq<SelectorOption>, value: real): (next: real)
    requires |options| > 0
    ensures FindIndex(options, value) == -1 ==> next == options[0].value
    ensures FindIndex(options, value) >= 0 ==> next == options[(FindIndex(options, value) + 1) % |options|].value
  {
    var i := FindIndex(options, value);
    WrapIndex(i + 1, |options|);
    options[(i + 1) % |options|].value
  }

  /** The options' values are pairwise different. */
  predicate DistinctValues(options: seq<SelectorOption>) {
    forall i, j :: 0 <= i < j < |options| ==> options[i].value != options[j].value
  }

  /** With distinct values, an option's value is found at its own index. */
  lemma FindIndexDistinct(options: seq<SelectorOption>, i: int)
    requires DistinctValues(options) && 0 <= i < |options|
    ensures FindIndex(options, options[i].value) == i
  {
    var k := FindIndex(options, options[i].value);
    assert k != -1 by {
      assert options[i].value == options[i].value;
    }
    assert !(i < k);
    assert !(k < i);
  }

  /** With distinct values, clicking moves from option `i` to option
      `i + 1`, and from the last option back to the first; so `n` clicks
      on `n` options return to the start. */
  lemma SelectorCycles(options: seq<SelectorOption>, i: int)
    requires DistinctValues(options) && 0 <= i < |options|
    ensures i + 1 < |options| ==> SelectorNext(options, options[i].value) == options[i + 1].value
    ensures i + 1 == |options| ==> SelectorNext(options, options[i].value) == options[0].value
  {
    FindIndexDistinct(options, i);
    var n := |options|;
    assert SelectorNext(options, options[i].value) == options[(i + 1) % n].value;
    WrapIndex(i + 1, n);
  }

  /** Below `n` the remainder is the number itself; `n` itself wraps to 0. */
  lemma WrapIndex(a: int, n: int)
    requires 0 <= a <= n && 0 < n
    ensures a < n ==> a % n == a
    ensures a == n ==> a % n == 0
  {
  }

  /** The label shown for `value`: that of the first option holding it,
      or "?" when none does or when its label is empty (an empty string
      is falsy). */
  function SelectorLabel(options: seq<SelectorOption>, value: real): (text: string)
    ensures FindIndex(options, value) == -1 ==> text == "?"
    ensures FindIndex(options, value) >= 0 ==>
              text == if options[FindIndex(options, value)].caption == "" then "?" else options[FindIndex(options, value)].caption
    ensures text != ""
  {
    var i := FindIndex(options, value);
    if i == -1 || options[i].caption == "" then "?" else options[i].caption
  }

  /** The margin the tooltip keeps from the window's edges, in pixels. */
  const TooltipPadding: real := 12.0

  /** The horizontal shift applied to a tooltip bubble spanning
      `[left, right]` in a window `winWidth` wide: a bubble past the left
      margin is pushed right onto it, otherwise one past the right margin
      is pulled left onto it, otherwise it stays. */
  function TooltipOffset(left: real, right: real, winWidth: real): (offset: real)
    ensures left < TooltipPadding ==> left + offset == TooltipPadding
    ensures left >= TooltipPadding && right > winWidth - TooltipPadding ==> right + offset == winWidth - TooltipPadding
    ensures left >= TooltipPadding && right <= winWidth - TooltipPadding ==> offset == 0.0
  {
    if left < TooltipPadding then TooltipPadding - left
    else if right > winWidth - TooltipPadding then winWidth - TooltipPadding - right
    else 0.0
  }

  /** A bubble no wider than the window less both margins ends up inside
      the margins once shifted; a wider one is aligned on the left margin
      whenever it starts left of it. */
  lemma TooltipFits(left: real, right: real, winWidth: real)
    requires left <= right
    ensures right - left <= winWidth - 2.0 * TooltipPadding ==>
              var o := TooltipOffset(left, right, winWidth);
              TooltipPadding <= left + o && right + o <= winWidth - TooltipPadding
    ensures left < TooltipPadding ==> left + TooltipOffset(left, right, winWidth) == TooltipPadding
  {
  }
}
