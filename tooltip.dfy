/** Where the web UI places a tooltip: beside the anchor element's
    bounding rectangle on the chosen side, `gap` pixels away and centred
    along that side, and the inline style that puts it there. */
module Tooltip {
  const TooltipGap: real := 8.0

  /** The fields of a `DOMRect` used here. */
  datatype Rect = Rect(top: real, bottom: real, left: real, right: real, width: real, height: real)

  datatype Placement = Top | Bottom | Left | Right

  datatype Position = Position(top: real, left: real)

  /** A rectangle whose sides agree with its size, as a browser's are. */
  predicate Consistent(rect: Rect) {
    rect.right == rect.left + rect.width && rect.bottom == rect.top + rect.height
  }

  /** `calculateTooltipPosition`: the point `gap` away from the chosen side,
      halfway along it. Above and below, `top` is the anchor's edge moved
      out by `gap` and `left` its horizontal centre; at the sides, `left` is
      the edge moved out and `top` the vertical centre. */
  function CalculateTooltipPosition(rect: Rect, placement: Placement, gap: real := TooltipGap): (p: Position)
    ensures placement == Top ==> rect.top - p.top == gap
    ensures placement == Bottom ==> p.top - rect.bottom == gap
    ensures placement == Left ==> rect.left - p.left == gap
    ensures placement == Right ==> p.left - rect.right == gap
    ensures placement in {Top, Bottom} ==> 2.0 * (p.left - rect.left) == rect.width
    ensures placement in {Left, Right} ==> 2.0 * (p.top - rect.top) == rect.height
  {
    match placement
    case Top => Position(rect.top - gap, rect.left + rect.width / 2.0)
    case Bottom => Position(rect.bottom + gap, rect.left + rect.width / 2.0)
    case Left => Position(rect.top + rect.height / 2.0, rect.left - gap)
    case Right => Position(rect.top + rect.height / 2.0, rect.right + gap)
  }

  /** For a consistent rectangle the tooltip is centred on the side it sits
      on, and with a positive gap it lies outside the rectangle. */
  lemma CentredAndOutside(rect: Rect, placement: Placement, gap: real)
    requires Consistent(rect) && rect.width >= 0.0 && rect.height >= 0.0 && gap > 0.0
    ensures var p := CalculateTooltipPosition(rect, placement, gap);
      && (placement in {Top, Bottom} ==> p.left - rect.left == rect.right - p.left)
      && (placement in {Left, Right} ==> p.top - rect.top == rect.bottom - p.top)
      && (placement == Top ==> p.top < rect.top)
      && (placement == Bottom ==> p.top > rect.bottom)
      && (placement == Left ==> p.left < rect.left)
      && (placement == Right ==> p.left > rect.right)
  {
  }

  /** A custom gap moves the tooltip by the difference along the axis it is
      placed on, and leaves the other coordinate alone. */
  lemma GapShifts(rect: Rect, placement: Placement, gap: real, other: real)
    ensures var p := CalculateTooltipPosition(rect, placement, gap);
      var q := CalculateTooltipPosition(rect, placement, other);
      && (placement == Top ==> q == Position(p.top - (other - gap), p.left))
      && (placement == Bottom ==> q == Position(p.top + (other - gap), p.left))
      && (placement == Left ==> q == Position(p.top, p.left - (other - gap)))
      && (placement == Right ==> q == Position(p.top, p.left + (other - gap)))
  {
  }

  /** The rectangle of the component's tests, at (200, 100), 100 wide and 30 high. */
  const SampleRect := Rect(100.0, 130.0, 200.0, 300.0, 100.0, 30.0)

  /** The four placements with the default gap, and a gap of 16 above. */
  lemma SamplePositions()
    ensures CalculateTooltipPosition(SampleRect, Top) == Position(92.0, 250.0)
    ensures CalculateTooltipPosition(SampleRect, Bottom) == Position(138.0, 250.0)
    ensures CalculateTooltipPosition(SampleRect, Left) == Position(115.0, 192.0)
    ensures CalculateTooltipPosition(SampleRect, Right) == Position(115.0, 308.0)
    ensures CalculateTooltipPosition(SampleRect, Top, 16.0).top == 84.0
  {
  }

  /** `formatPositionStyle`, with JavaScript's number-to-string conversion
      as `show`. */
  function FormatPositionStyle(show: real -> string, p: Position): (r: string)
    ensures |r| == 18 + |show(p.top)| + |show(p.left)|
    ensures r[..5] == "top: " && r[|r| - 3..] == "px;"
  {
    "top: " + show(p.top) + "px; left: " + show(p.left) + "px;"
  }

  /** A number's text never holds a 'p' (digits, sign, point, exponent). */
  predicate NoP(s: string) {
    forall i :: 0 <= i < |s| ==> s[i] != 'p'
  }

  /** The offset of the first 'p' in `t`, or `|t|` when there is none. */
  function FirstP(t: string): nat {
    if t == [] || t[0] == 'p' then 0 else 1 + FirstP(t[1..])
  }

  lemma {:induction false} FirstPAfter(a: string, rest: string)
    requires NoP(a) && |rest| > 0 && rest[0] == 'p'
    ensures FirstP(a + rest) == |a|
    decreases |a|
  {
    if a != [] {
      assert (a + rest)[1..] == a[1..] + rest;
      FirstPAfter(a[1..], rest);
    }
  }

  /** The style text determines both numbers' texts, since neither holds
      the 'p' of the "px" that follows it. */
  lemma {:induction false} StyleTextDetermines(a: string, la: string, b: string, lb: string)
    requires NoP(a) && NoP(b)
    requires "top: " + a + "px; left: " + la + "px;" == "top: " + b + "px; left: " + lb + "px;"
    ensures a == b && la == lb
  {
    var s := "top: " + a + "px; left: " + la + "px;";
    assert s == "top: " + a + ("px; left: " + la + "px;");
    assert s == "top: " + b + ("px; left: " + lb + "px;");
    var ra, rb := "px; left: " + la + "px;", "px; left: " + lb + "px;";
    assert s[5..] == a + ra && s[5..] == b + rb;
    FirstPAfter(a, ra);
    FirstPAfter(b, rb);
    assert a == s[5..5 + |a|] == b;
    var tail := 5 + |a| + 10;
    assert la == s[tail..|s| - 3] == lb;
  }

  /** The style determines both numbers' texts: two positions with the same
      style were shown as the same top and the same left. */
  lemma StyleDeterminesPosition(show: real -> string, p: Position, q: Position)
    requires NoP(show(p.top)) && NoP(show(q.top))
    requires FormatPositionStyle(show, p) == FormatPositionStyle(show, q)
    ensures show(p.top) == show(q.top) && show(p.left) == show(q.left)
  {
    StyleTextDetermines(show(p.top), show(p.left), show(q.top), show(q.left));
  }

  /** The style of the component's tests. */
  lemma SampleStyle(show: real -> string)
    requires show(100.0) == "100" && show(200.0) == "200"
    ensures FormatPositionStyle(show, Position(100.0, 200.0)) == "top: 100px; left: 200px;"
  {
  }
}
