/** Label length and in-place preflight of `src/filter_png.c`. */
module Png {
  import opened Bytes
  import opened Protocol
  import opened Runs
  import opened Tables

  const PPI := 180
  const ROLL_MIN := 500
  const ROLL_MAX := 30000

  datatype Orientation = Unset | Portrait | Landscape | ReverseLandscape | ReversePortrait

  /** The page options one PNG job changes; lengths in 1/100 mm. */
  class Options {
    var orientation: Orientation
    var scaled: bool
    var sizeWidth: int
    var sizeLength: int
    var top: nat
    var bottom: nat
    var left: int
    var right: int
    var yDpi: nat
    var cupsWidth: nat
    var cupsHeight: nat
    var pageLengthPt: nat
    var boxTop: nat
    var boxBottom: int

    /** What preflight reads. */
    function Page(): Frame
      reads this
    {
      Frame(scaled, sizeWidth, cupsWidth, cupsHeight, top, bottom, left, right,
            orientation == ReversePortrait || orientation == ReverseLandscape)
    }

    /** The resolution lengths convert at; a header without one counts as the printer's own. */
    function Dpi(): nat
      reads this
    {
      if yDpi == 0 then PPI else yDpi
    }

    /** Moves every length-derived header field together: the page and its box are the whole dots of the length and its
        margins, a length of the roll gives a page the driver accepts, and a length taken from an image gives a page
        that holds it. */
    method SetPageLength(length: nat)
      modifies this`sizeLength, this`cupsHeight, this`pageLengthPt, this`boxTop, this`boxBottom
      ensures sizeLength == length && WholeDots(cupsHeight, length, Dpi()) && WholeDots(pageLengthPt, length, 72)
      ensures WholeDots(boxTop, top, Dpi()) && WholeDots(cupsHeight - 1 - boxBottom, bottom, Dpi())
      ensures 500 <= length <= 30000 && Dpi() == 180 ==> 35 <= cupsHeight <= 2125
      ensures forall px: nat, ppi: nat :: ppi > 0 && LabelLength(px, ppi) == length && Dpi() == PPI ==>
        && Scaled(px, ppi) <= cupsHeight
        && (top == bottom == 0 ==> boxTop == 0 && boxBottom == cupsHeight - 1 &&
                                   Scaled(px, ppi) <= Available(cupsHeight, top, bottom))
    {
      var dpi := Dpi();
      sizeLength := length;
      cupsHeight := length * dpi / 2540;
      pageLengthPt := 72 * length / 2540;
      boxTop := top * dpi / 2540;
      boxBottom := cupsHeight - bottom * dpi / 2540 - 1;
      HeightIsWholeDots(length, dpi);
      HeightIsWholeDots(length, 72);
      HeightIsWholeDots(top, dpi);
      HeightIsWholeDots(bottom, dpi);
      hide Height, LabelLength, Scaled, WholeDots;
      if dpi == PPI {
        if ROLL_MIN <= length <= ROLL_MAX {
          AcceptedHeights(length);
        }
        forall px: nat, ppi: nat | ppi > 0 && LabelLength(px, ppi) == length
          ensures Scaled(px, ppi) <= Height(length, PPI)
        {
          NeverShorter(px, ppi);
        }
      }
    }

    /** Decides the orientation from the image alone, unless the client asked for one. */
    method PinOrientation(width: nat, height: nat) returns (landscape: bool)
      modifies this`orientation
      ensures orientation != Unset && (old(orientation) != Unset ==> orientation == old(orientation))
      ensures landscape <==> orientation == Landscape || orientation == ReverseLandscape
      ensures old(orientation) == Unset ==>
        (if landscape then height < width else width <= height) && orientation != Landscape
    {
      if orientation == Unset {
        orientation := if width > height then ReverseLandscape else Portrait;
      }
      landscape := orientation == Landscape || orientation == ReverseLandscape;
    }
  }

  // ---------- Label length ----------

  /** Whole dots of a length at a resolution. */
  function Height(length: nat, dpi: nat): nat {
    length * dpi / 2540
  }

  /** As many dots at a resolution as wholly fit a length. */
  predicate WholeDots(dots: int, length: nat, dpi: nat) {
    dots * 2540 <= length * dpi < (dots + 1) * 2540
  }

  lemma HeightIsWholeDots(length: nat, dpi: nat)
    ensures WholeDots(length * dpi / 2540, length, dpi) && Height(length, dpi) == length * dpi / 2540
    ensures dpi * length == length * dpi
    ensures length == 0 ==> length * dpi / 2540 == 0
  {}

  /** Whole 180 dpi dots of an image dimension. */
  function Scaled(px: nat, ppi: nat): nat
    requires ppi > 0
  {
    px * PPI / ppi
  }

  function CeilLength(px: nat, ppi: nat): nat
    requires ppi > 0
  {
    (px * 2540 + ppi - 1) / ppi
  }

  /** The length of a label for an image, or -1 when it exceeds the roll. */
  function LabelLength(px: nat, ppi: nat): int
    requires ppi > 0
  {
    var length := CeilLength(px, ppi);
    if length > ROLL_MAX then -1 else if length < ROLL_MIN then ROLL_MIN else length
  }

  lemma DivBounds(a: nat, b: nat)
    requires b > 0
    ensures a / b * b <= a < (a / b + 1) * b
  {}

  lemma MulMono(a: int, b: int, c: nat)
    requires a <= b
    ensures a * c <= b * c
  {}

  lemma AtMost(q: int, a: nat, b: nat)
    requires b > 0 && q * b <= a
    ensures q <= a / b
  {
    DivBounds(a, b);
    if q > a / b {
      MulMono(a / b + 1, q, b);
      assert false;
    }
  }

  lemma Below(q: int, a: nat, b: nat)
    requires b > 0 && a < q * b
    ensures a / b < q
  {
    DivBounds(a, b);
    if a / b >= q {
      MulMono(q, a / b, b);
      assert false;
    }
  }

  lemma Cancel(a: int, b: int, c: nat)
    requires c > 0 && a * c <= b * c
    ensures a <= b
  {
    if a > b {
      MulMono(b + 1, a, c);
      assert false;
    }
  }

  /** The ceiling is the least length that covers the image. */
  lemma CeilCovers(px: nat, ppi: nat)
    requires ppi > 0
    ensures px * 2540 <= CeilLength(px, ppi) * ppi < px * 2540 + ppi
  {
    DivBounds(px * 2540 + ppi - 1, ppi);
  }

  /** A length is refused exactly when the image is physically longer than the roll. */
  lemma RefusedIffTooLong(px: nat, ppi: nat)
    requires ppi > 0
    ensures LabelLength(px, ppi) == -1 <==> px * 2540 > 30000 * ppi
    ensures LabelLength(px, ppi) != -1 ==> 500 <= LabelLength(px, ppi) <= 30000
  {
    CeilCovers(px, ppi);
    hide CeilLength;
    if CeilLength(px, ppi) > ROLL_MAX {
      MulMono(ROLL_MAX + 1, CeilLength(px, ppi), ppi);
    } else {
      MulMono(CeilLength(px, ppi), ROLL_MAX, ppi);
    }
  }

  /** Every accepted length gives a page height the driver accepts. */
  lemma AcceptedHeights(length: nat)
    requires 500 <= length <= 30000
    ensures MIN_HEIGHT == 35 <= Height(length, PPI) <= 2125 == MAX_HEIGHT
  {}

  /** A label is never shorter than its image, so no row of it is lost. */
  lemma NeverShorter(px: nat, ppi: nat)
    requires ppi > 0 && LabelLength(px, ppi) != -1
    ensures Scaled(px, ppi) <= Height(LabelLength(px, ppi), PPI)
  {
    var length, rows := LabelLength(px, ppi), Scaled(px, ppi);
    CeilCovers(px, ppi);
    DivBounds(px * PPI, ppi);
    MulMono(CeilLength(px, ppi), length, ppi);
    hide CeilLength, LabelLength, Scaled;
    Regroup(rows, 2540, ppi);
    Regroup(length, PPI, ppi);
    Cancel(rows * 2540, length * PPI, ppi);
    AtMost(rows, length * PPI, 2540);
  }

  lemma Regroup(a: int, b: int, c: int)
    ensures a * b * c == a * c * b
  {}

  /** Unless the roll minimum lengthens it, a label is at most one row longer than its image. */
  lemma AtMostOneLonger(px: nat, ppi: nat)
    requires ppi > 0 && LabelLength(px, ppi) > ROLL_MIN
    ensures Height(LabelLength(px, ppi), PPI) <= Scaled(px, ppi) + 1
  {
    var length, rows := LabelLength(px, ppi), Scaled(px, ppi);
    CeilCovers(px, ppi);
    DivBounds(px * PPI, ppi);
    hide CeilLength, Scaled;
    Regroup(length, PPI, ppi);
    assert length * PPI * ppi <= (px * 2540 + ppi) * PPI <= ((rows + 1) * 2540 + PPI) * ppi by {
      Regroup(rows + 1, ppi, 2540);
    }
    Cancel(length * PPI, (rows + 1) * 2540 + PPI, ppi);
    Below(rows + 2, length * PPI, 2540);
  }

  /** At the printer's own resolution an image of any printable length keeps exactly its rows. */
  lemma ExactAtPrinterResolution(px: nat)
    requires LabelLength(px, PPI) > ROLL_MIN
    ensures Height(LabelLength(px, PPI), PPI) == px
  {}

  /** With no end margins, a page whose length follows its image always has room for it. */
  lemma AutoLengthHasRoom(px: nat, ppi: nat)
    requires ppi > 0 && LabelLength(px, ppi) != -1
    ensures Scaled(px, ppi) <= Available(Height(LabelLength(px, ppi), PPI), 0, 0)
  {
    NeverShorter(px, ppi);
  }

  // ---------- Preflight ----------

  /** Dots along the tape between the end margins. */
  function Available(cupsHeight: nat, top: nat, bottom: nat): int {
    cupsHeight - (top + bottom) * PPI / 2540
  }

  /** What preflight reads of the page: its media, margins, size and orientation. */
  datatype Frame = Frame(scaled: bool, sizeWidth: int, cupsWidth: nat, cupsHeight: nat,
                         top: nat, bottom: nat, left: int, right: int, reverse: bool)

  /** Dots across the tape between the side margins. */
  function Printable(f: Frame): int {
    f.cupsWidth - CDiv((f.left + f.right) * PPI, 2540)
  }

  function TapeOf(sizeWidth: int): Option<Geometry> {
    TapeGeometry(CDiv(sizeWidth + 50, 100))
  }

  /** The window's first dot across the tape, counted from the side the image starts at. */
  function FirstDot(g: Geometry, reverse: bool): int {
    if reverse then g.nominalPx - g.rightPx else g.leftPx
  }

  /** The image columns or rows that lie wholly inside `width` dots from `start`; the end is exclusive. */
  function FirstInside(start: int, ppi: nat): int {
    (start * ppi + PPI - 1) / PPI
  }

  function LastInside(start: int, width: int, ppi: nat): int {
    (start + width) * ppi / PPI
  }

  lemma SupportedTape(sizeWidth: int)
    requires TapeOf(sizeWidth).Some?
    ensures var g := TapeOf(sizeWidth).value;
      0 <= g.leftPx < g.rightPx <= g.nominalPx && g.rightPx - g.leftPx == g.imageablePx
  {
    var mm := CDiv(sizeWidth + 50, 100);
    OnlySupportedTapes(mm);
    WindowInPage(mm);
  }

  lemma WindowBounds(start: nat, width: nat, nominal: nat, cross: nat, ppi: nat)
    requires ppi > 0 && start + width <= nominal == Scaled(cross, ppi)
    requires FirstInside(start, ppi) < LastInside(start, width, ppi)
    ensures 0 <= FirstInside(start, ppi) && LastInside(start, width, ppi) <= cross
    ensures Scaled(LastInside(start, width, ppi) - FirstInside(start, ppi), ppi) <= width
  {
    hide FirstInside, LastInside;
    var first, last := FirstInside(start, ppi), LastInside(start, width, ppi);
    InsideBounds(start, width, ppi);
    DivBounds(cross * PPI, ppi);
    MulMono(start + width, nominal, ppi);
    Cancel(last, cross, PPI);
    Distribute(start, width, ppi);
    ScaledAtMost(last - first, width, ppi);
  }

  lemma Distribute(a: int, b: int, c: int)
    ensures (a + b) * c == a * c + b * c
  {}

  lemma InsideBounds(start: nat, width: nat, ppi: nat)
    ensures start * ppi <= FirstInside(start, ppi) * PPI
    ensures LastInside(start, width, ppi) * PPI <= (start + width) * ppi
  {
    DivBounds(start * ppi + PPI - 1, PPI);
    DivBounds((start + width) * ppi, PPI);
  }

  lemma ScaledAtMost(px: nat, width: nat, ppi: nat)
    requires ppi > 0 && px * PPI <= width * ppi
    ensures Scaled(px, ppi) <= width
  {
    DivBounds(px * PPI, ppi);
    if Scaled(px, ppi) > width {
      MulMono(width + 1, Scaled(px, ppi), ppi);
      assert false;
    }
  }

  /** The image goes as it is, cannot go, or is a full canvas that may be cut down to its window. */
  datatype Verdict = Fits | Misfit | Canvas(first: nat, last: nat)

  function Judge(f: Frame, cross: nat, along: nat, ppi: nat): (v: Verdict)
    requires ppi > 0
    ensures v.Canvas? ==> v.first < v.last <= cross
  {
    if f.scaled then Fits
    else if TapeOf(f.sizeWidth).None? then Misfit
    else
      var g := TapeOf(f.sizeWidth).value;
      var crossPx, alongPx := Scaled(cross, ppi), Scaled(along, ppi);
      if alongPx < 1 || crossPx < 1 || alongPx > Available(f.cupsHeight, f.top, f.bottom) then Misfit
      else if crossPx <= g.imageablePx && crossPx <= Printable(f) then Fits
      else if crossPx != g.nominalPx then Misfit
      else
        var start := FirstDot(g, f.reverse);
        var first, last := FirstInside(start, ppi), LastInside(start, g.imageablePx, ppi);
        SupportedTape(f.sizeWidth);
        if first >= last || Scaled(last - first, ppi) > Printable(f) then Misfit
        else
          WindowBounds(start, g.imageablePx, g.nominalPx, cross, ppi);
          Canvas(first, last)
  }

  /** Whatever passes unscaled fits the tape's window, the selected margins and the page, cut down or not. */
  lemma PassedFits(f: Frame, cross: nat, along: nat, ppi: nat)
    requires ppi > 0 && !f.scaled && !Judge(f, cross, along, ppi).Misfit?
    ensures var v := Judge(f, cross, along, ppi);
      var kept := if v.Canvas? then v.last - v.first else cross;
      && Scaled(kept, ppi) <= TapeOf(f.sizeWidth).value.imageablePx
      && Scaled(kept, ppi) <= Printable(f)
      && 1 <= Scaled(along, ppi) <= Available(f.cupsHeight, f.top, f.bottom)
  {
    SupportedTape(f.sizeWidth);
    var g := TapeOf(f.sizeWidth).value;
    if Judge(f, cross, along, ppi).Canvas? {
      WindowBounds(FirstDot(g, f.reverse), g.imageablePx, g.nominalPx, cross, ppi);
    }
    hide TapeOf, Printable, Available, FirstInside, LastInside, Scaled;
  }

  /** What each tape takes, in dots: its nominal width, its window's width, and where the window starts and ends. */
  const WINDOWS: set<(int, nat, nat, nat, nat)> :=
    {(6, 42, 32, 5, 37), (9, 63, 52, 5, 57), (12, 85, 76, 4, 80), (18, 127, 120, 3, 123), (24, 170, 128, 21, 149)}

  lemma TapeOnNumbers(sizeWidth: int, tape: (int, nat, nat, nat, nat))
    requires tape in WINDOWS && 100 * tape.0 - 50 <= sizeWidth < 100 * tape.0 + 50
    ensures TapeOf(sizeWidth).Some?
    ensures var g := TapeOf(sizeWidth).value;
      g.nominalPx == tape.1 && g.imageablePx == tape.2 && g.leftPx == tape.3 && g.rightPx == tape.4
  {
    assert CDiv(sizeWidth + 50, 100) == tape.0;
    OnlySupportedTapes(tape.0);
    GeometryOfTape(tape.0);
    hide TapeGeometry;
  }

  lemma NoTapeOnNumbers(sizeWidth: int)
    ensures TapeOf(sizeWidth).Some? <==>
      || 550 <= sizeWidth < 650 || 850 <= sizeWidth < 950 || 1150 <= sizeWidth < 1250
      || 1750 <= sizeWidth < 1850 || 2350 <= sizeWidth < 2450
  {
    OnlySupportedTapes(CDiv(sizeWidth + 50, 100));
    hide TapeGeometry;
  }

  /** The verdict on numbers, whatever the margins: an image goes as it is when it has a dot each way, is no longer than
      the page less its end margins, and no wider than the window and than the page less its side margins; a canvas of
      the tape's nominal width may be cut to the columns inside the window when these are no wider than the page less
      its side margins. */
  lemma JudgedOnNumbers(f: Frame, tape: (int, nat, nat, nat, nat), cross: nat, along: nat, ppi: nat)
    requires ppi > 0 && tape in WINDOWS && 100 * tape.0 - 50 <= f.sizeWidth < 100 * tape.0 + 50
    ensures !f.scaled ==>
      var v := Judge(f, cross, along, ppi);
      var span := f.cupsWidth - CDiv((f.left + f.right) * 180, 2540);
      var start := if f.reverse then tape.1 - tape.4 else tape.3;
      var longEnough := 1 <= along * 180 / ppi <= f.cupsHeight - (f.top + f.bottom) * 180 / 2540;
      && (v.Fits? <==> longEnough && 1 <= cross * 180 / ppi <= tape.2 && cross * 180 / ppi <= span)
      && (v.Canvas? ==> v.first == (start * ppi + 179) / 180 && v.last == (start + tape.2) * ppi / 180)
      && (v.Canvas? <==>
            var first, last := (start * ppi + 179) / 180, (start + tape.2) * ppi / 180;
            longEnough && cross * 180 / ppi == tape.1 && first < last && (last - first) * 180 / ppi <= span)
  {
    hide TapeOf, TapeGeometry;
    TapeOnNumbers(f.sizeWidth, tape);
  }

  /** On media of no supported width nothing goes unscaled. */
  lemma NoTapeNothingGoes(f: Frame, cross: nat, along: nat, ppi: nat)
    requires ppi > 0
    requires !(550 <= f.sizeWidth < 650) && !(850 <= f.sizeWidth < 950) && !(1150 <= f.sizeWidth < 1250)
    requires !(1750 <= f.sizeWidth < 1850) && !(2350 <= f.sizeWidth < 2450)
    ensures Judge(f, cross, along, ppi) == if f.scaled then Fits else Misfit
  {
    hide TapeOf;
    NoTapeOnNumbers(f.sizeWidth);
  }

  /** On a page of the published margins whose length follows the image, with no end margins, an image goes as it is
      exactly when it has a dot each way and is no wider than the tape's window. */
  lemma AutoLengthFits(f: Frame, mm: int, cross: nat, along: nat, ppi: nat)
    requires ppi > 0 && LabelLength(along, ppi) != -1 && f.cupsHeight == Height(LabelLength(along, ppi), PPI)
    requires f.top == f.bottom == 0 && !f.scaled && Supported(mm) && f.sizeWidth == 100 * mm
    requires var g := TapeGeometry(mm).value;
      f.cupsWidth == g.nominalPx && f.left == g.leftMarginCmm && f.right == g.rightMarginCmm
    ensures Judge(f, cross, along, ppi) == Fits <==>
      1 <= Scaled(along, ppi) && 1 <= Scaled(cross, ppi) <= TapeGeometry(mm).value.imageablePx
  {
    hide TapeGeometry, TapeOf, Available, Scaled, FirstInside, LastInside, Supported, Height, LabelLength;
    AutoLengthHasRoom(along, ppi);
    TapeOfWhole(mm);
    PublishedMarginsAreTheWindow(mm);
  }

  /** At the printer's resolution, a canvas of the whole tape under the published margins is cut down to exactly the
      tape's window, mirrored when the image is upside down. */
  lemma FullCanvasKeepsItsWindow(f: Frame, mm: int, along: nat)
    requires Supported(mm) && f.sizeWidth == 100 * mm && !f.scaled
    requires var g := TapeGeometry(mm).value;
      f.cupsWidth == g.nominalPx && f.left == g.leftMarginCmm && f.right == g.rightMarginCmm
    requires 1 <= along <= Available(f.cupsHeight, f.top, f.bottom)
    ensures var g := TapeGeometry(mm).value;
      Judge(f, g.nominalPx, along, PPI) ==
        if f.reverse then Canvas(g.nominalPx - g.rightPx, g.nominalPx - g.leftPx) else Canvas(g.leftPx, g.rightPx)
  {
    hide TapeGeometry, TapeOf, Available, Scaled, FirstInside, LastInside, Supported;
    TapeOfWhole(mm);
    SupportedTape(100 * mm);
    PublishedMarginsAreTheWindow(mm);
    var g := TapeGeometry(mm).value;
    var start := FirstDot(g, f.reverse);
    DotsAreColumns(start, g.imageablePx);
    DotsAreColumns(g.nominalPx, along);
    DotsAreColumns(g.imageablePx, along);
    NotTheWholePage(mm);
  }

  lemma TapeOfWhole(mm: int)
    requires Supported(mm)
    ensures TapeOf(100 * mm) == TapeGeometry(mm) && TapeGeometry(mm).Some?
  {}

  lemma NotTheWholePage(mm: int)
    requires Supported(mm)
    ensures TapeGeometry(mm).value.imageablePx < TapeGeometry(mm).value.nominalPx
  {}

  /** At the printer's resolution a dot is a column. */
  lemma DotsAreColumns(start: nat, width: nat)
    ensures FirstInside(start, PPI) == start && LastInside(start, width, PPI) == start + width
    ensures Scaled(start, PPI) == start && Scaled(width, PPI) == width
  {}

  /** The columns a canvas keeps are exactly those that lie wholly inside the window. */
  lemma WindowColumns(start: nat, width: nat, ppi: nat, i: nat)
    requires ppi > 0
    ensures FirstInside(start, ppi) <= i < LastInside(start, width, ppi) <==>
      start * ppi <= i * PPI && (i + 1) * PPI <= (start + width) * ppi
  {
    DivBounds(start * ppi + PPI - 1, PPI);
    DivBounds((start + width) * ppi, PPI);
    if start * ppi <= i * PPI {
      Below(i + 1, start * ppi + PPI - 1, PPI);
    }
    if (i + 1) * PPI <= (start + width) * ppi {
      AtMost(i + 1, (start + width) * ppi, PPI);
    }
  }

  // ---------- Pixels ----------

  /** Where sample `c` of pixel (x, y) lies in an image of the given width and depth. */
  function Index(width: nat, depth: nat, x: nat, y: nat, c: nat): nat {
    (y * width + x) * depth + c
  }

  lemma IndexInside(width: nat, height: nat, depth: nat, x: nat, y: nat, c: nat)
    requires x < width && y < height && c < depth
    ensures Index(width, depth, x, y, c) < width * height * depth
  {
    MulMono(y + 1, height, width);
    MulMono(y * width + x + 1, height * width, depth);
  }

  /** An image's samples, row by row. */
  predicate IsImage(img: seq<byte>, width: nat, height: nat, depth: nat) {
    width * height * depth <= |img|
  }

  function Sample(img: seq<byte>, width: nat, height: nat, depth: nat, x: nat, y: nat, c: nat): byte
    requires IsImage(img, width, height, depth) && x < width && y < height && c < depth
  {
    IndexInside(width, height, depth, x, y, c);
    img[Index(width, depth, x, y, c)]
  }

  predicate White(img: seq<byte>, width: nat, height: nat, depth: nat, x: nat, y: nat)
    requires IsImage(img, width, height, depth) && x < width && y < height
  {
    forall c :: 0 <= c < depth ==> Sample(img, width, height, depth, x, y, c) == 255
  }

  /** The cross-tape position of a pixel. */
  function Pos(landscape: bool, x: nat, y: nat): nat {
    if landscape then y else x
  }

  /** Nothing is printed outside the window. */
  predicate BlankOutside(img: seq<byte>, width: nat, height: nat, depth: nat, landscape: bool, first: int, last: int)
    requires IsImage(img, width, height, depth)
  {
    forall x, y :: 0 <= x < width && 0 <= y < height && !(first <= Pos(landscape, x, y) < last) ==>
      White(img, width, height, depth, x, y)
  }

  /** `now` is `was` cut down to its window: padding it with white again gives back every sample. */
  predicate CutDown(was: seq<byte>, width: nat, height: nat, depth: nat, landscape: bool, first: nat, last: nat,
                    now: seq<byte>, w: nat, h: nat)
    requires IsImage(was, width, height, depth) && IsImage(now, w, h, depth)
    requires first <= last && w == (if landscape then width else last - first)
    requires h == (if landscape then last - first else height)
  {
    forall x, y, c :: 0 <= x < width && 0 <= y < height && 0 <= c < depth ==>
      Sample(was, width, height, depth, x, y, c) ==
        if !(first <= Pos(landscape, x, y) < last) then 255
        else if landscape then Sample(now, w, h, depth, x, y - first, c)
        else Sample(now, w, h, depth, x - first, y, c)
  }

  /** Looks at every sample outside the window. */
  method IsBlankOutside(pixels: array<byte>, width: nat, height: nat, depth: nat, landscape: bool, first: int,
                        last: int)
    returns (blank: bool)
    requires IsImage(pixels[..], width, height, depth)
    ensures blank <==> BlankOutside(pixels[..], width, height, depth, landscape, first, last)
  {
    hide Index;
    for y := 0 to height
      invariant forall x, y' :: 0 <= x < width && 0 <= y' < y && !(first <= Pos(landscape, x, y') < last) ==>
        White(pixels[..], width, height, depth, x, y')
    {
      for x := 0 to width
        invariant forall x' :: 0 <= x' < x && !(first <= Pos(landscape, x', y) < last) ==>
          White(pixels[..], width, height, depth, x', y)
      {
        var pos := if landscape then y else x;
        if !(pos >= first && pos < last) {
          for c := 0 to depth
            invariant forall c' :: 0 <= c' < c ==> Sample(pixels[..], width, height, depth, x, y, c') == 255
          {
            IndexInside(width, height, depth, x, y, c);
            if pixels[Index(width, depth, x, y, c)] != 255 {
              assert Sample(pixels[..], width, height, depth, x, y, c) != 255;
              assert !White(pixels[..], width, height, depth, x, y);
              return false;
            }
          }
        }
      }
    }
    blank := true;
  }

  /** C's memmove within one buffer. */
  method MemMove(a: array<byte>, dst: nat, src: nat, n: nat)
    requires dst + n <= a.Length && src + n <= a.Length
    modifies a
    ensures a[..] == Splice(old(a[..]), dst, old(a[..])[src..src + n])
  {
    var moved := a[src..src + n];
    var k := Put(a, dst, moved);
  }

  lemma RowsShift(width: nat, depth: nat, x: nat, y: nat, c: nat, first: nat)
    requires first <= y
    ensures Index(width, depth, x, y, c) == Index(width, depth, x, y - first, c) + first * width * depth
  {
    Distribute(y - first, first, width);
    Distribute((y - first) * width + x, first * width, depth);
  }

  /** The rows of the window, moved to the start of the buffer. */
  predicate RowsMoved(was: seq<byte>, now: seq<byte>, at: nat, n: nat) {
    at + n <= |was| && n <= |now| && now[..n] == was[at..at + n]
  }

  lemma RowSample(was: seq<byte>, width: nat, height: nat, depth: nat, first: nat, last: nat, now: seq<byte>,
                  x: nat, y: nat, c: nat)
    requires IsImage(was, width, height, depth) && first <= y < last <= height && x < width && c < depth
    requires IsImage(now, width, last - first, depth)
    requires RowsMoved(was, now, first * width * depth, (last - first) * width * depth)
    ensures Sample(was, width, height, depth, x, y, c) == Sample(now, width, last - first, depth, x, y - first, c)
  {
    hide Index;
    RowsShift(width, depth, x, y, c, first);
    IndexInside(width, last - first, depth, x, y - first, c);
    var i := Index(width, depth, x, y - first, c);
    assert now[i] == now[..(last - first) * width * depth][i];
  }

  lemma RowsCutDown(was: seq<byte>, width: nat, height: nat, depth: nat, first: nat, last: nat, now: seq<byte>)
    requires IsImage(was, width, height, depth) && first <= last <= height
    requires BlankOutside(was, width, height, depth, true, first, last)
    requires IsImage(now, width, last - first, depth)
    requires RowsMoved(was, now, first * width * depth, (last - first) * width * depth)
    ensures CutDown(was, width, height, depth, true, first, last, now, width, last - first)
  {
    hide Index, RowsMoved;
    forall x, y, c | 0 <= x < width && 0 <= y < height && 0 <= c < depth
      ensures Sample(was, width, height, depth, x, y, c) ==
        if !(first <= y < last) then 255 else Sample(now, width, last - first, depth, x, y - first, c)
    {
      if first <= y < last {
        RowSample(was, width, height, depth, first, last, now, x, y, c);
      } else {
        assert White(was, width, height, depth, x, y);
      }
    }
  }

  lemma WindowRowsInside(width: nat, height: nat, depth: nat, first: nat, last: nat)
    requires first <= last <= height
    ensures first * width * depth + (last - first) * width * depth <= width * height * depth
  {
    Distribute(first, last - first, width);
    Distribute(first * width, (last - first) * width, depth);
    MulMono(last, height, width);
    MulMono(last * width, height * width, depth);
  }

  /** Landscape: one move brings the window's rows to the start of the buffer. */
  method CutRows(pixels: array<byte>, width: nat, height: nat, depth: nat, first: nat, last: nat)
    requires pixels.Length == width * height * depth && first <= last <= height
    requires BlankOutside(pixels[..], width, height, depth, true, first, last)
    modifies pixels
    ensures IsImage(pixels[..], width, last - first, depth)
    ensures CutDown(old(pixels[..]), width, height, depth, true, first, last, pixels[..], width, last - first)
  {
    hide Index, CutDown, BlankOutside;
    ghost var was := pixels[..];
    WindowRowsInside(width, height, depth, first, last);
    MemMove(pixels, 0, first * width * depth, (last - first) * width * depth);
    RowsCutDown(was, width, height, depth, first, last, pixels[..]);
  }

  // ---------- Portrait ----------

  /** The first `rows` rows of an image, each cut down to `n` samples from `start`. */
  function Kept(was: seq<byte>, stride: nat, start: nat, n: nat, rows: nat): (r: seq<byte>)
    requires start + n <= stride && rows * stride <= |was|
    ensures |r| == rows * n
  {
    if rows == 0 then []
    else
      assert (rows - 1) * stride + stride == rows * stride;
      Kept(was, stride, start, n, rows - 1) + was[(rows - 1) * stride + start..(rows - 1) * stride + start + n]
  }

  lemma RowBounds(y: nat, rows: nat, n: nat, k: nat)
    requires y < rows && k < n
    ensures y * n + k < rows * n
  {
    MulMono(y + 1, rows, n);
    Distribute(y, 1, n);
  }

  lemma KeptUnfolds(was: seq<byte>, stride: nat, start: nat, n: nat, rows: nat)
    requires start + n <= stride && rows * stride <= |was| && rows > 0
    ensures (rows - 1) * stride + stride == rows * stride
    ensures Kept(was, stride, start, n, rows) ==
      Kept(was, stride, start, n, rows - 1) + was[(rows - 1) * stride + start..(rows - 1) * stride + start + n]
  {}

  lemma {:induction false} KeptSample(was: seq<byte>, stride: nat, start: nat, n: nat, rows: nat, y: nat, k: nat)
    requires start + n <= stride && rows * stride <= |was| && y < rows && k < n
    ensures y * n + k < rows * n && y * stride + start + k < |was|
    ensures Kept(was, stride, start, n, rows)[y * n + k] == was[y * stride + start + k]
  {
    hide Kept;
    RowBounds(y, rows, n, k);
    RowBounds(y, rows, stride, start + k);
    KeptUnfolds(was, stride, start, n, rows);
    if y < rows - 1 {
      RowBounds(y, rows - 1, n, k);
      KeptSample(was, stride, start, n, rows - 1, y, k);
    }
  }

  lemma ColumnsShift(width: nat, depth: nat, w: nat, x: nat, y: nat, c: nat, first: nat)
    requires first <= x
    ensures Index(width, depth, x, y, c) == y * (width * depth) + first * depth + ((x - first) * depth + c)
    ensures Index(w, depth, x - first, y, c) == y * (w * depth) + ((x - first) * depth + c)
  {
    Distribute(y * width, x, depth);
    Distribute(x - first, first, depth);
    Distribute(y * w, x - first, depth);
    Regroup3(y, width, depth);
    Regroup3(y, w, depth);
  }

  lemma Regroup3(a: int, b: int, c: int)
    ensures a * b * c == a * (b * c)
  {}

  lemma ColumnsFit(width: nat, depth: nat, first: nat, last: nat)
    requires first <= last <= width
    ensures first * depth + (last - first) * depth == last * depth <= width * depth
  {
    Distribute(first, last - first, depth);
    MulMono(last, width, depth);
  }

  lemma Offsets(width: nat, depth: nat, w: nat, first: nat, y: nat)
    ensures y * w * depth == y * (w * depth) && (y * width + first) * depth == y * (width * depth) + first * depth
  {
    Regroup3(y, w, depth);
    Regroup3(y, width, depth);
    Distribute(y * width, first, depth);
  }

  lemma Total(width: nat, height: nat, depth: nat)
    ensures width * height * depth == height * (width * depth)
  {
    Regroup3(height, width, depth);
  }

  /** Row `y` is moved over samples that are no longer needed. */
  lemma RowRoom(y: nat, height: nat, stride: nat, start: nat, n: nat)
    requires y < height && start + n <= stride
    ensures y * n <= y * stride + start && y * stride + start + n <= height * stride
    ensures y * n + n == (y + 1) * n <= (y + 1) * stride
  {
    MulMono(n, stride, y);
    MulMono(n, stride, y + 1);
    MulMono(y + 1, height, stride);
    Distribute(y, 1, stride);
    Distribute(y, 1, n);
  }

  /** Rows before `y` are cut down at the start of the buffer; everything behind them is untouched. */
  predicate Moved(was: seq<byte>, now: seq<byte>, stride: nat, start: nat, n: nat, y: nat) {
    && start + n <= stride && y * stride <= |was| == |now| && y * n <= |now|
    && now[..y * n] == Kept(was, stride, start, n, y)
    && now[y * n..] == was[y * n..]
  }

  lemma MoveOne(was: seq<byte>, now: seq<byte>, next: seq<byte>, stride: nat, start: nat, n: nat, y: nat, height: nat)
    requires Moved(was, now, stride, start, n, y) && y < height && height * stride == |was|
    requires y * stride + start + n <= |now| && y * n + n <= |now|
    requires next == Splice(now, y * n, now[y * stride + start..y * stride + start + n])
    ensures Moved(was, next, stride, start, n, y + 1)
  {
    hide Kept, Splice;
    RowRoom(y, height, stride, start, n);
    MulMono(y + 1, height, stride);
    KeptUnfolds(was, stride, start, n, y + 1);
    var src, dst := y * stride + start, y * n;
    SameTail(was, now, dst, src, n);
    SameTail(was, now, dst, dst + n, |was| - dst - n);
    SplicedParts(now, dst, now[src..src + n]);
  }

  lemma SameTail(a: seq<byte>, b: seq<byte>, from: nat, at: nat, n: nat)
    requires |a| == |b| && from <= at && at + n <= |a| && a[from..] == b[from..]
    ensures a[at..at + n] == b[at..at + n]
  {
    assert a[at..at + n] == a[from..][at - from..at - from + n];
    assert b[at..at + n] == b[from..][at - from..at - from + n];
  }

  lemma SplicedParts(o: seq<byte>, at: nat, bytes: seq<byte>)
    requires at + |bytes| <= |o|
    ensures Splice(o, at, bytes)[..at + |bytes|] == o[..at] + bytes
    ensures Splice(o, at, bytes)[at + |bytes|..] == o[at + |bytes|..|o|]
  {}

  /** Portrait: every row's window is moved up behind the rows before it. */
  method MoveColumns(pixels: array<byte>, width: nat, height: nat, depth: nat, first: nat, last: nat)
    requires pixels.Length == width * height * depth && first <= last <= width
    modifies pixels
    ensures first * depth + (last - first) * depth <= width * depth && height * (width * depth) == pixels.Length
    ensures Moved(old(pixels[..]), pixels[..], width * depth, first * depth, (last - first) * depth, height)
  {
    hide Moved, Splice;
    ghost var was, stride, start, n := pixels[..], width * depth, first * depth, (last - first) * depth;
    ColumnsFit(width, depth, first, last);
    Total(width, height, depth);
    NothingMoved(was, stride, start, n);
    for y := 0 to height
      invariant Moved(was, pixels[..], stride, start, n, y)
    {
      RowRoom(y, height, stride, start, n);
      Offsets(width, depth, last - first, first, y);
      ghost var now := pixels[..];
      MemMove(pixels, y * (last - first) * depth, (y * width + first) * depth, (last - first) * depth);
      MoveOne(was, now, pixels[..], stride, start, n, y, height);
    }
  }

  lemma NothingMoved(was: seq<byte>, stride: nat, start: nat, n: nat)
    requires start + n <= stride
    ensures Moved(was, was, stride, start, n, 0)
  {}

  /** Keeping the columns of the window, row by row. */
  lemma ColumnsCutDown(was: seq<byte>, width: nat, height: nat, depth: nat, first: nat, last: nat, now: seq<byte>)
    requires |was| == |now| == width * height * depth && first <= last <= width
    requires first * depth + (last - first) * depth <= width * depth && height * (width * depth) == |was|
    requires BlankOutside(was, width, height, depth, false, first, last)
    requires Moved(was, now, width * depth, first * depth, (last - first) * depth, height)
    ensures IsImage(now, last - first, height, depth)
    ensures CutDown(was, width, height, depth, false, first, last, now, last - first, height)
  {
    hide Index, Kept;
    Total(last - first, height, depth);
    assert IsImage(now, last - first, height, depth);
    forall x, y, c | 0 <= x < width && 0 <= y < height && 0 <= c < depth
      ensures Sample(was, width, height, depth, x, y, c) ==
        if !(first <= x < last) then 255 else Sample(now, last - first, height, depth, x - first, y, c)
    {
      if first <= x < last {
        ColumnSample(was, width, height, depth, first, last, now, x, y, c);
      } else {
        assert White(was, width, height, depth, x, y);
      }
    }
  }

  lemma ColumnSample(was: seq<byte>, width: nat, height: nat, depth: nat, first: nat, last: nat, now: seq<byte>,
                     x: nat, y: nat, c: nat)
    requires |was| == |now| == width * height * depth && first <= x < last <= width && y < height && c < depth
    requires first * depth + (last - first) * depth <= width * depth && height * (width * depth) == |was|
    requires Moved(was, now, width * depth, first * depth, (last - first) * depth, height)
    requires IsImage(now, last - first, height, depth)
    ensures Sample(was, width, height, depth, x, y, c) == Sample(now, last - first, height, depth, x - first, y, c)
  {
    hide Index, Kept;
    var stride, start, n := width * depth, first * depth, (last - first) * depth;
    var k := (x - first) * depth + c;
    MulMono(x - first + 1, last - first, depth);
    Distribute(x - first, 1, depth);
    ColumnsShift(width, depth, last - first, x, y, c, first);
    KeptSample(was, stride, start, n, height, y, k);
    assert now[y * n + k] == now[..height * n][y * n + k];
  }

  /** Portrait: the window's columns become the image. */
  method CutColumns(pixels: array<byte>, width: nat, height: nat, depth: nat, first: nat, last: nat)
    requires pixels.Length == width * height * depth && first <= last <= width
    requires BlankOutside(pixels[..], width, height, depth, false, first, last)
    modifies pixels
    ensures IsImage(pixels[..], last - first, height, depth)
    ensures CutDown(old(pixels[..]), width, height, depth, false, first, last, pixels[..], last - first, height)
  {
    hide Moved, CutDown, BlankOutside;
    ghost var was := pixels[..];
    MoveColumns(pixels, width, height, depth, first, last);
    ColumnsCutDown(was, width, height, depth, first, last, pixels[..]);
  }

  function Cross(landscape: bool, width: nat, height: nat): nat {
    if landscape then height else width
  }

  function Along(landscape: bool, width: nat, height: nat): nat {
    if landscape then width else height
  }

  lemma ScaledFits(f: Frame, cross: nat, along: nat, ppi: nat)
    requires ppi > 0
    ensures f.scaled ==> Judge(f, cross, along, ppi) == Fits
  {}

  /** Lets an image go as it is, refuses it, or cuts a canvas with blank margins down to its window in place. */
  method Preflight(o: Options, pixels: array<byte>, width: nat, height: nat, depth: nat, ppi: nat, landscape: bool)
    returns (ok: bool, w: nat, h: nat)
    requires ppi > 0 && pixels.Length == width * height * depth
    modifies pixels
    ensures IsImage(pixels[..], w, h, depth)
    ensures !ok || o.scaled ==> pixels[..] == old(pixels[..]) && w == width && h == height
    ensures o.scaled ==> ok
    ensures var v := Judge(o.Page(), Cross(landscape, width, height), Along(landscape, width, height), ppi);
      && (ok <==>
            || v.Fits?
            || (v.Canvas? && BlankOutside(old(pixels[..]), width, height, depth, landscape, v.first, v.last)))
      && (!ok || v.Fits? ==> pixels[..] == old(pixels[..]) && w == width && h == height)
      && (ok && v.Canvas? ==>
            && w == (if landscape then width else v.last - v.first)
            && h == (if landscape then v.last - v.first else height)
            && CutDown(old(pixels[..]), width, height, depth, landscape, v.first, v.last, pixels[..], w, h))
  {
    hide BlankOutside, CutDown, Judge;
    ScaledFits(o.Page(), Cross(landscape, width, height), Along(landscape, width, height), ppi);
    w, h := width, height;
    var v := Judge(o.Page(), Cross(landscape, width, height), Along(landscape, width, height), ppi);
    if !v.Canvas? {
      return v.Fits?, w, h;
    }
    ok := IsBlankOutside(pixels, width, height, depth, landscape, v.first, v.last);
    if !ok {
      return;
    }
    if landscape {
      CutRows(pixels, width, height, depth, v.first, v.last);
      h := v.last - v.first;
    } else {
      CutColumns(pixels, width, height, depth, v.first, v.last);
      w := v.last - v.first;
    }
  }
}
