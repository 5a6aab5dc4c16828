/**
 * From screenshot pixels to screen points, and the screenshot's size. Scaling is exact here and rounds half away
 * from zero; the source computes the same in floating point.
 */
module Coordinates {

  datatype Geometry = Geometry(screenX: int, screenY: int, screenWidth: nat, screenHeight: nat,
                               imageWidth: nat, imageHeight: nat)

  datatype Mapped = Mapped(x: int, y: int, clamped: bool)

  /** `n / d`, rounded half away from zero. */
  function Round(n: nat, d: nat): (r: nat)
    requires d > 0
    ensures 2 * d * r <= 2 * n + d < 2 * d * r + 2 * d
  {
    DivisionBounds(2 * n + d, 2 * d);
    (2 * n + d) / (2 * d)
  }

  lemma DivisionBounds(a: nat, b: nat)
    requires b > 0
    ensures b * (a / b) <= a < b * (a / b) + b
  {
  }

  function Clamp(v: int, low: int, high: int): int {
    if v < low then low else if v > high then high else v
  }

  function SaturatingPred(n: nat): nat {
    if n == 0 then 0 else n - 1
  }

  /** One coordinate of an in-image pixel, relative to the screen's origin, before the final clamp. */
  function Scaled(pixel: nat, screen: nat, image: nat): nat
    requires image > 0
  {
    Round(pixel * screen, image)
  }

  /** One coordinate of any pixel, relative to the screen's origin. */
  function MapAxis(pixel: int, screen: nat, image: nat): int
    requires image > 0
  {
    Clamp(Scaled(Clamp(pixel, 0, image - 1), screen, image), 0, SaturatingPred(screen))
  }

  /** The coordinate had to be moved: the pixel into the image, or the point onto the screen. */
  predicate AxisClamped(pixel: int, screen: nat, image: nat)
    requires image > 0
  {
    !(0 <= pixel < image) || Scaled(Clamp(pixel, 0, image - 1), screen, image) > SaturatingPred(screen)
  }

  method MapImagePoint(imageX: int, imageY: int, g: Geometry) returns (m: Mapped)
    ensures g.imageWidth == 0 || g.imageHeight == 0 ==> m == Mapped(g.screenX, g.screenY, true)
    ensures g.imageWidth > 0 && g.imageHeight > 0 ==>
              && m.x == g.screenX + MapAxis(imageX, g.screenWidth, g.imageWidth)
              && m.y == g.screenY + MapAxis(imageY, g.screenHeight, g.imageHeight)
              && (m.clamped <==> AxisClamped(imageX, g.screenWidth, g.imageWidth)
                                 || AxisClamped(imageY, g.screenHeight, g.imageHeight))
  {
    hide Round;
    if g.imageWidth == 0 || g.imageHeight == 0 {
      return Mapped(g.screenX, g.screenY, true);
    }
    var maxX, maxY := g.imageWidth - 1, g.imageHeight - 1;
    var cx, cy := Clamp(imageX, 0, maxX), Clamp(imageY, 0, maxY);
    var clamped := cx != imageX || cy != imageY;
    var sx := g.screenX + Round(cx * g.screenWidth, g.imageWidth);
    var sy := g.screenY + Round(cy * g.screenHeight, g.imageHeight);
    var maxScreenX, maxScreenY := g.screenX + SaturatingPred(g.screenWidth), g.screenY + SaturatingPred(g.screenHeight);
    if sx < g.screenX || sx > maxScreenX {
      sx := Clamp(sx, g.screenX, maxScreenX);
      clamped := true;
    }
    if sy < g.screenY || sy > maxScreenY {
      sy := Clamp(sy, g.screenY, maxScreenY);
      clamped := true;
    }
    m := Mapped(sx, sy, clamped);
  }

  /** The mapped point is on the screen. */
  lemma LandsOnScreen(pixel: int, screen: nat, image: nat)
    requires image > 0
    ensures 0 <= MapAxis(pixel, screen, image)
    ensures screen > 0 ==> MapAxis(pixel, screen, image) < screen
  {
    hide Scaled;
  }

  /** `r` is the whole number nearest to `pixel * screen / image`, the larger one of two equally near. */
  predicate Nearest(r: int, pixel: int, screen: nat, image: nat) {
    2 * image * r <= 2 * pixel * screen + image < 2 * image * r + 2 * image
  }

  /**
   * Which point a pixel is mapped to: the one nearest to its exact place if both are inside; the last one of the screen if
   * the exact place is nearer to a point behind it; and for a pixel outside the image what the image's nearest pixel gets.
   */
  lemma MapIsNearest(pixel: int, screen: nat, image: nat)
    requires image > 0
    ensures 0 <= pixel < image && !AxisClamped(pixel, screen, image) ==>
              Nearest(MapAxis(pixel, screen, image), pixel, screen, image)
    ensures 0 <= pixel < image && AxisClamped(pixel, screen, image) ==>
              && screen > 0 && MapAxis(pixel, screen, image) == screen - 1
              && exists r :: r >= screen && Nearest(r, pixel, screen, image)
    ensures pixel < 0 ==> MapAxis(pixel, screen, image) == 0
    ensures pixel >= image ==> MapAxis(pixel, screen, image) == MapAxis(image - 1, screen, image)
  {
    hide Round;
    var c := Clamp(pixel, 0, image - 1);
    var r := Scaled(c, screen, image);
    if 0 <= pixel < image {
      assert 2 * (pixel * screen) == 2 * pixel * screen;
      assert Nearest(r, pixel, screen, image);
      if screen == 0 {
        NothingToScale(pixel, image);
      }
    } else if pixel < 0 {
      RoundOfNothing(image);
    }
  }

  lemma RoundOfNothing(d: nat)
    requires d > 0
    ensures Round(0, d) == 0 && forall screen: nat :: Scaled(0, screen, d) == 0
  {
    assert d < 2 * d && d / (2 * d) == 0;
    assert forall screen: nat :: 0 * screen == 0;
  }

  lemma RoundIsMonotone(a: nat, b: nat, d: nat)
    requires d > 0 && a <= b
    ensures Round(a, d) <= Round(b, d)
  {
    hide Round;
    var r, s := Round(a, d), Round(b, d);
    if r > s {
      Steps(s, r, 2 * d);
    }
  }

  lemma Steps(s: nat, r: nat, d: nat)
    requires s < r
    ensures d * s + d <= d * r
  {
    assert d * r == d * s + d * (r - s);
    assert d * (r - s) >= d by { Scale(1, r - s, d); }
  }

  lemma Scale(a: nat, b: nat, d: nat)
    requires a <= b
    ensures a * d <= b * d && d * a <= d * b
  {
  }

  /** A pixel further right is mapped no further left. */
  lemma MapIsMonotone(a: int, b: int, screen: nat, image: nat)
    requires image > 0 && a <= b
    ensures MapAxis(a, screen, image) <= MapAxis(b, screen, image)
  {
    hide Round;
    var p, q := Clamp(a, 0, image - 1), Clamp(b, 0, image - 1);
    Scale(p, q, screen);
    RoundIsMonotone(p * screen, q * screen, image);
  }

  /** A numerator at least `d` larger rounds to a different value. */
  lemma RoundSeparates(a: nat, b: nat, d: nat)
    requires d > 0 && a + d <= b
    ensures Round(a, d) < Round(b, d)
  {
    hide Round;
    var r, s := Round(a, d), Round(b, d);
    if s <= r {
      Scale(s, r, 2 * d);
    }
  }

  /** On a screen at least as large as the image, no two pixels share a point. */
  lemma MapIsInjective(a: nat, b: nat, screen: nat, image: nat)
    requires image > 0 && a < b < image && screen >= image
    ensures MapAxis(a, screen, image) < MapAxis(b, screen, image)
  {
    hide Round;
    assert a * screen + screen <= b * screen by { Steps(a, b, screen); }
    RoundSeparates(a * screen, b * screen, image);
    InImageFits(a, screen, image);
    InImageFits(b, screen, image);
  }

  /** The rounded value stays below `s` exactly when the exact one stays below `s - 1/2`. */
  lemma RoundBelow(n: nat, d: nat, s: nat)
    requires d > 0 && s > 0
    ensures Round(n, d) < s <==> 2 * n + d < 2 * d * s
  {
    hide Round;
    var r := Round(n, d);
    if r < s {
      Steps(r, s, 2 * d);
    } else {
      Scale(s, r, 2 * d);
    }
  }

  lemma InImageFits(pixel: nat, screen: nat, image: nat)
    requires pixel < image && 2 * screen > image
    ensures Scaled(pixel, screen, image) <= SaturatingPred(screen)
  {
    hide Round;
    RoundBelow(pixel * screen, image, screen);
    assert pixel * screen + screen <= image * screen by { Steps(pixel, image, screen); }
    assert image * screen == screen * image;
  }

  /** No in-image pixel is clamped exactly when twice the screen is larger than the image (or there is no screen). */
  lemma NeverClampedIff(screen: nat, image: nat)
    requires image > 0
    ensures (forall pixel: int :: 0 <= pixel < image ==> !AxisClamped(pixel, screen, image))
       <==> screen == 0 || 2 * screen > image
  {
    hide Scaled;
    if screen == 0 {
      forall pixel: int | 0 <= pixel < image ensures !AxisClamped(pixel, screen, image) {
        NothingToScale(pixel, image);
      }
    } else if 2 * screen > image {
      forall pixel: int | 0 <= pixel < image ensures !AxisClamped(pixel, screen, image) {
        InImageFits(pixel, screen, image);
      }
    } else {
      LastPixelOverflows(screen, image);
      assert AxisClamped(image - 1, screen, image);
    }
  }

  lemma NothingToScale(pixel: nat, image: nat)
    requires image > 0
    ensures Scaled(pixel, 0, image) == 0
  {
    assert pixel * 0 == 0;
  }

  lemma LastPixelOverflows(screen: nat, image: nat)
    requires 0 < screen && 2 * screen <= image
    ensures Scaled(image - 1, screen, image) > SaturatingPred(screen)
  {
    hide Round;
    RoundBelow((image - 1) * screen, image, screen);
    assert (image - 1) * screen == image * screen - screen;
    assert 2 * image * screen == 2 * (image * screen);
  }

  // ---- The screenshot's size ----

  /** The size after scaling down to `maxWidth`; zero means no limit. */
  function FitWidth(width: nat, height: nat, maxWidth: nat): (int, int) {
    if maxWidth == 0 || width <= maxWidth then (width, height)
    else
      var h := Round(height * maxWidth, width);
      (maxWidth, if h < 1 then 1 else h)
  }

  /**
   * A picture without a limit, or within it, is kept. A wider one is made as wide as the limit, and as high as its exact
   * ratio says, to the nearest pixel, but at least one; it is never made larger (an empty one gets one row).
   */
  lemma FitWidthKeepsShape(width: nat, height: nat, maxWidth: nat)
    ensures var (w, h) := FitWidth(width, height, maxWidth);
            && (maxWidth == 0 || width <= maxWidth ==> w == width && h == height)
            && (0 < maxWidth < width ==>
                  && w == maxWidth && h >= 1
                  && (h > 1 ==> Nearest(h, height, maxWidth, width))
                  && (h == 1 ==> 2 * height * maxWidth < 3 * width))
            && (h <= height || (height == 0 && h == 1))
  {
    if maxWidth != 0 && width > maxWidth {
      hide Round;
      var r := Round(height * maxWidth, width);
      assert 2 * (height * maxWidth) == 2 * height * maxWidth;
      RoundUpTo(r, width, height * maxWidth);
      if r > height {
        Steps(height, r, width);
        Scale(maxWidth, width, height);
      }
    }
  }

  lemma RoundUpTo(r: nat, d: nat, n: nat)
    requires d > 0 && r == Round(n, d)
    ensures r <= 1 ==> 2 * n < 3 * d
  {
    hide Round;
    if r <= 1 {
      Scale(r, 1, 2 * d);
    }
  }
}
