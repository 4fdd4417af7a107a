/** Tape widths and the 180 dpi window arithmetic of `src/tables.c`, with the page match of `src/driver.c`. */
module Tables {
  import opened Bytes

  /** Dots a tape can carry; 36 mm is wider than the 128-dot head. */
  function TapePx(mm: int): int {
    if mm == 6 then 32
    else if mm == 9 then 52
    else if mm == 12 then 76
    else if mm == 18 then 120
    else if mm == 24 then 128
    else if mm == 36 then 192
    else 0
  }

  /** `rightPx` is exclusive; lengths ending in Cmm are in 1/100 mm. */
  datatype Geometry = Geometry(nominalPx: int, imageablePx: int, leftPx: int, rightPx: int,
                               marginCmm: int, leftMarginCmm: int, rightMarginCmm: int)

  function Max(a: int, b: int): int {
    if a < b then b else a
  }

  function TapeGeometry(mm: int): Option<Geometry> {
    var px := TapePx(mm);
    if px <= 0 || px > 128 then None
    else
      var nominal := mm * 100 * 180 / 2540;
      var left := (nominal - px) / 2;
      var right := left + px;
      var printable := (px * 2540 + 179) / 180;
      var margin := (mm * 100 - printable) / 2;
      Some(Geometry(nominal, px, left, right, margin,
                    Max((left * 2540 + 179) / 180, margin),
                    Max(((nominal - right) * 2540 + 179) / 180, margin)))
  }

  predicate Supported(mm: int) {
    mm == 6 || mm == 9 || mm == 12 || mm == 18 || mm == 24
  }

  lemma OnlySupportedTapes(mm: int)
    ensures TapeGeometry(mm).Some? <==> Supported(mm)
  {}

  /** The window is centred in the head, inside the nominal page, and never empty. */
  lemma WindowInPage(mm: int)
    requires Supported(mm)
    ensures var g := TapeGeometry(mm).value;
      0 <= g.leftPx < g.rightPx <= g.nominalPx && g.rightPx - g.leftPx == g.imageablePx <= 128
  {}

  /** Selected margins, in dots, as the page check reads them: where the window starts and how wide it is. */
  function SpanLeft(left: int): int {
    CDiv(left * 180, 2540)
  }

  function Span(cupsWidth: int, left: int, right: int): int {
    cupsWidth - CDiv((left + right) * 180, 2540)
  }

  predicate MarginsInWindow(g: Geometry, cupsWidth: int, left: int, right: int) {
    && g.leftPx <= SpanLeft(left) && 0 < Span(cupsWidth, left, right)
    && SpanLeft(left) + Span(cupsWidth, left, right) <= g.rightPx
  }

  /** Margins pass when the first printed dot is in the window, something is left to print, and the last printed dot is
      in the window. */
  lemma MarginsThatFit(mm: int, cupsWidth: int, left: int, right: int)
    requires Supported(mm)
    ensures var first, width := left * 180, cupsWidth - CDiv((left + right) * 180, 2540);
      MarginsInWindow(TapeGeometry(mm).value, cupsWidth, left, right) <==>
        && 0 < width
        && (mm == 6 ==> 5 * 2540 <= first && CDiv(first, 2540) + width <= 37)
        && (mm == 9 ==> 5 * 2540 <= first && CDiv(first, 2540) + width <= 57)
        && (mm == 12 ==> 4 * 2540 <= first && CDiv(first, 2540) + width <= 80)
        && (mm == 18 ==> 3 * 2540 <= first && CDiv(first, 2540) + width <= 123)
        && (mm == 24 ==> 21 * 2540 <= first && CDiv(first, 2540) + width <= 149)
  {
    GeometryOfTape(mm);
    hide TapeGeometry;
  }

  lemma GeometryOfTape(mm: int)
    requires Supported(mm)
    ensures TapeGeometry(mm).value ==
      if mm == 6 then Geometry(42, 32, 5, 37, 74, 74, 74)
      else if mm == 9 then Geometry(63, 52, 5, 57, 83, 83, 85)
      else if mm == 12 then Geometry(85, 76, 4, 80, 63, 63, 71)
      else if mm == 18 then Geometry(127, 120, 3, 123, 53, 53, 57)
      else Geometry(170, 128, 21, 149, 296, 297, 297)
  {
    if mm == 6 {
    } else if mm == 9 {
    } else if mm == 12 {
    } else if mm == 18 {
    } else {
    }
  }

  /** The published margins give back exactly the tape's window, so no printable dot is lost to rounding. */
  lemma PublishedMarginsAreTheWindow(mm: int)
    requires Supported(mm)
    ensures var g := TapeGeometry(mm).value;
      && SpanLeft(g.leftMarginCmm) == g.leftPx
      && Span(g.nominalPx, g.leftMarginCmm, g.rightMarginCmm) == g.imageablePx
      && MarginsInWindow(g, g.nominalPx, g.leftMarginCmm, g.rightMarginCmm)
  {
    GeometryOfTape(mm);
    hide TapeGeometry;
  }

  /** A page is for a tape when its width is the nominal one, or a size within 1/100 mm of the tape rounds to it. */
  predicate WidthMatches(cupsWidth: int, sizeWidth: int, mm: int) {
    Supported(mm) &&
    var g := TapeGeometry(mm).value;
    cupsWidth == g.nominalPx ||
    (mm * 100 - 1 <= sizeWidth <= mm * 100 + 1 && cupsWidth == CDiv(sizeWidth * 180, 2540) && g.rightPx <= cupsWidth)
  }

  /** No page matches two tapes, so the order of the tape table cannot matter. */
  lemma AtMostOneTape(cupsWidth: int, sizeWidth: int, a: int, b: int)
    requires WidthMatches(cupsWidth, sizeWidth, a) && WidthMatches(cupsWidth, sizeWidth, b)
    ensures a == b
  {
    WidthsOfTape(cupsWidth, sizeWidth, a);
    WidthsOfTape(cupsWidth, sizeWidth, b);
  }

  lemma WidthsOfTape(cupsWidth: int, sizeWidth: int, mm: int)
    requires WidthMatches(cupsWidth, sizeWidth, mm)
    ensures mm == 6 ==> cupsWidth == 42
    ensures mm == 9 ==> cupsWidth == 63
    ensures mm == 12 ==> 84 <= cupsWidth <= 85
    ensures mm == 18 ==> cupsWidth == 127
    ensures mm == 24 ==> cupsWidth == 170
  {}

  /** The pages that match, in dots: each tape's nominal width, and for 12 mm also 84 dots at a size of 11.99 mm. */
  lemma WidthsThatMatch(cupsWidth: int, sizeWidth: int, mm: int)
    ensures WidthMatches(cupsWidth, sizeWidth, mm) <==>
      || (mm == 6 && cupsWidth == 42) || (mm == 9 && cupsWidth == 63) || (mm == 12 && cupsWidth == 85)
      || (mm == 12 && cupsWidth == 84 && sizeWidth == 1199)
      || (mm == 18 && cupsWidth == 127) || (mm == 24 && cupsWidth == 170)
  {
    if Supported(mm) {
      GeometryOfTape(mm);
      hide TapeGeometry;
    }
  }

  /** Every matching page is wide enough for the window's bits to be read from its scanlines. */
  lemma WindowInScanline(cupsWidth: int, sizeWidth: int, mm: int)
    requires WidthMatches(cupsWidth, sizeWidth, mm)
    ensures 0 <= TapeGeometry(mm).value.leftPx && TapeGeometry(mm).value.rightPx <= cupsWidth
  {}

  const TAPES: seq<int> := [6, 9, 12, 18, 24, 36]

  /** The one tape a page is for, or 0. */
  function MatchingTape(cupsWidth: int, sizeWidth: int): (mm: byte)
    ensures mm != 0 ==> WidthMatches(cupsWidth, sizeWidth, mm)
    ensures mm == 0 ==> forall t :: !WidthMatches(cupsWidth, sizeWidth, t)
  {
    if WidthMatches(cupsWidth, sizeWidth, 6) then 6
    else if WidthMatches(cupsWidth, sizeWidth, 9) then 9
    else if WidthMatches(cupsWidth, sizeWidth, 12) then 12
    else if WidthMatches(cupsWidth, sizeWidth, 18) then 18
    else if WidthMatches(cupsWidth, sizeWidth, 24) then 24
    else 0
  }

  lemma MatchIsTheTape(cupsWidth: int, sizeWidth: int, mm: int)
    requires mm != 0
    ensures MatchingTape(cupsWidth, sizeWidth) == mm <==> WidthMatches(cupsWidth, sizeWidth, mm)
  {
    if WidthMatches(cupsWidth, sizeWidth, mm) {
      AtMostOneTape(cupsWidth, sizeWidth, mm, MatchingTape(cupsWidth, sizeWidth));
    }
  }
}
