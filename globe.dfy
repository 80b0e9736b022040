/**
 * The size and position of the hacking globe inside its container: a
 * fraction of the container width, clamped to a range that depends on
 * whether the viewport is mobile-sized, anchored to the bottom-right
 * corner with a padding, and never pushed past the top-left padding.
 * Widths and heights are whole pixels.
 */
module Globe {

  /** JavaScript `x || y` on a number: `y` when `x` is 0. */
  function Or(x: nat, y: nat): nat {
    if x != 0 then x else y
  }

  function Max(a: int, b: int): int {
    if a >= b then a else b
  }

  function Min(a: int, b: int): int {
    if a <= b then a else b
  }

  /** The canvas size and its `left`/`top` offsets in pixels. */
  datatype Placement = Placement(size: nat, left: int, top: int)

  /** Viewports narrower than 640 pixels count as mobile. */
  predicate IsMobile(viewport: nat) {
    viewport < 640
  }

  /** The share of the container width the globe takes, in percent. */
  function BasePercent(mobile: bool): nat {
    if mobile then 28 else 18
  }

  function MinSize(mobile: bool): nat {
    if mobile then 72 else 110
  }

  function MaxSize(mobile: bool): nat {
    if mobile then 140 else 180
  }

  function Pad(mobile: bool): nat {
    if mobile then 8 else 12
  }

  /** `Math.max(minS, Math.min(maxS, Math.floor(cw * base)))` for a container `cw` pixels wide. */
  function Size(cw: nat, mobile: bool): (size: nat)
    ensures MinSize(mobile) <= size <= MaxSize(mobile)
    ensures cw * BasePercent(mobile) / 100 <= MinSize(mobile) ==> size == MinSize(mobile)
    ensures cw * BasePercent(mobile) / 100 >= MaxSize(mobile) ==> size == MaxSize(mobile)
    ensures MinSize(mobile) <= cw * BasePercent(mobile) / 100 <= MaxSize(mobile) ==>
      size == cw * BasePercent(mobile) / 100
  {
    Max(MinSize(mobile), Min(MaxSize(mobile), cw * BasePercent(mobile) / 100))
  }

  /**
   * `layoutGlobe`: the viewport width defaults to 1024, the container width
   * to its bounding width and then 800, its height likewise with 260.
   */
  function Layout(innerWidth: nat, clientWidth: nat, rectWidth: nat, clientHeight: nat, rectHeight: nat): Placement {
    var mobile := IsMobile(Or(innerWidth, 1024));
    var cw := Or(clientWidth, Or(rectWidth, 800));
    var ch := Or(clientHeight, Or(rectHeight, 260));
    var size := Size(cw, mobile);
    var pad := Pad(mobile);
    Placement(size, Max(pad, cw - size - pad), Max(pad, ch - size - pad))
  }

  /**
   * The globe always has a size inside the range for its viewport, keeps at
   * least the padding from the top-left corner, and sits exactly the padding
   * away from the bottom-right corner whenever the container has room.
   */
  lemma LayoutBounds(innerWidth: nat, clientWidth: nat, rectWidth: nat, clientHeight: nat, rectHeight: nat)
    ensures var p := Layout(innerWidth, clientWidth, rectWidth, clientHeight, rectHeight);
      var mobile := IsMobile(Or(innerWidth, 1024));
      var cw := Or(clientWidth, Or(rectWidth, 800));
      var ch := Or(clientHeight, Or(rectHeight, 260));
      && MinSize(mobile) <= p.size <= MaxSize(mobile)
      && p.left >= Pad(mobile) && p.top >= Pad(mobile)
      && (cw >= p.size + 2 * Pad(mobile) ==> p.left + p.size + Pad(mobile) == cw)
      && (ch >= p.size + 2 * Pad(mobile) ==> p.top + p.size + Pad(mobile) == ch)
      && (cw < p.size + 2 * Pad(mobile) ==> p.left == Pad(mobile))
      && (ch < p.size + 2 * Pad(mobile) ==> p.top == Pad(mobile))
  {
  }

  /** A missing viewport width counts as a desktop one; a missing container as 800 by 260. */
  lemma LayoutDefaults()
    ensures Layout(0, 0, 0, 0, 0) == Placement(144, 644, 104)
  {
  }

  /** A wider container never gets a smaller globe. */
  lemma {:induction false} SizeMonotone(cw1: nat, cw2: nat, mobile: bool)
    requires cw1 <= cw2
    ensures Size(cw1, mobile) <= Size(cw2, mobile)
  {
    var b := BasePercent(mobile);
    assert cw1 * b <= cw2 * b by { MulMonotone(cw1, cw2, b); }
    DivMonotone(cw1 * b, cw2 * b, 100);
  }

  lemma MulMonotone(a: nat, b: nat, c: nat)
    requires a <= b
    ensures a * c <= b * c
  {
  }

  lemma DivMonotone(a: nat, b: nat, d: nat)
    requires a <= b && d > 0
    ensures a / d <= b / d
  {
    var qa, qb := a / d, b / d;
    if qa > qb {
      MulMonotone(qb + 1, qa, d);
    }
  }
}
