/**
 * `DisplayPanel`: a rectangle of a TFT or OLED display that is filled with a
 * colour and shows one or more lines of centred text, and answers whether a
 * touch lands on it. Drawing is recorded as the sequence of calls the panel
 * makes on the display.
 */
module DisplayPanels {
  import opened Wrappers
  import opened Clocks

  /** One more than the largest `unsigned int` of the 32-bit targets. */
  const U32Limit: int := 0x1_0000_0000

  type U32 = v: int | 0 <= v < U32Limit
  type I32 = v: int | -0x8000_0000 <= v < 0x8000_0000

  /** Conversion to `unsigned int`: the value modulo 2^32. */
  function ToU32(v: int): (u: U32)
    ensures 0 <= v < U32Limit ==> u == v
    ensures v < 0 && -U32Limit <= v ==> u == v + U32Limit
  {
    v % U32Limit
  }

  /** Conversion of an `unsigned int` to `int`: values from 2^31 up wrap to negative. */
  function ToI32(u: U32): (v: I32)
    ensures u < 0x8000_0000 ==> v == u
    ensures ToU32(v) == u
  {
    if u < 0x8000_0000 then u else u - U32Limit
  }

  /** The colours panels use: black, white, and the named colours of the device's configuration. */
  datatype Paint = Black | White | Named(name: string)

  /** The font a panel prints with; an unset font pointer is `Unassigned`. */
  datatype Font = Unassigned | Font(name: string)

  /**
   * A line of panel text. Formatting (`sprintf`, `strftime`, the number
   * conversions) is not modelled: a line records what it is made from.
   */
  datatype Line =
    | Literal(s: string)                      // a fixed string
    | Clock(hour: int, minute: int)           // "%d:%02d"
    | Stamp(pattern: string, time: Time)      // the time formatted by a strftime pattern
    | Reading(value: real, unit: string)      // "%.0f" followed by the unit
    | WindGust(speed: real, gust: Option<real>, direction: Option<string>)
                                              // "Wind <speed>[-<gust>][ <direction>]"
    | WindMark(speed: real, gusting: bool, direction: Option<string>)
                                              // "Wind <speed>[+][ <direction>]"

  datatype Align = Center | TopCenter

  /** A call a panel makes on the display. */
  datatype DrawOp =
    | FilledRectangle(x: int, y: int, w: int, h: int, paint: Paint)
    | Rectangle(x: int, y: int, w: int, h: int, paint: Paint)
    | Print(x: int, y: int, font: Font, paint: Paint, align: Align, line: Line)

  /** What `font->measure("M", ...)` reports as the text height of a font. */
  type Metrics = Font -> int

  /**
   * The display is modelled by the calls made on it so far, in order; a
   * drawing method takes that record and returns it extended by its calls.
   */
  type Screen = seq<DrawOp>

  /** Whether a point lies in the closed rectangle [left, right] x [top, bottom]. */
  predicate InClosedRect(px: int, py: int, left: int, top: int, right: int, bottom: int)
  {
    left <= px <= right && top <= py <= bottom
  }

  /**
   * The text block's distance from the top of a panel of height `h` holding
   * `lines` lines of height `textHeight`: half the room left over, and 0 when
   * the block is taller than the panel. The source computes this in unsigned
   * arithmetic, where the clamp to 0 never fires; see `TopPaddingAsWritten`.
   */
  function TopPadding(h: U32, lines: nat, textHeight: int): (pad: int)
    ensures pad >= 0
    ensures lines * textHeight <= h ==>
      2 * pad + lines * textHeight <= h <= 2 * pad + lines * textHeight + 1
    ensures lines * textHeight > h ==> pad == 0
  {
    var room := h - lines * textHeight;
    if room < 0 then 0 else room / 2
  }

  /**
   * `topPadding` as the source computes it on a target with a 32-bit `size_t`:
   * the line count times the height and the subtraction from `h` are
   * unsigned, so the difference wraps instead of going negative, and the
   * halved value always fits an `int`. The `>= 0` clamp is therefore dead.
   */
  function TopPaddingAsWritten(h: U32, lines: nat, textHeight: int): (pad: int)
    ensures 0 <= pad < 0x8000_0000
    ensures pad == ToU32(h - ToU32(lines * ToU32(textHeight))) / 2
  {
    var block := ToU32(lines * ToU32(textHeight));
    var topPadding := ToI32(ToU32(h - block) / 2);
    if topPadding >= 0 then topPadding else 0
  }

  /**
   * Where the two computations part: two 15-pixel lines in a 20-pixel panel
   * should start at the top, but the wrapped padding puts them off the
   * display.
   */
  lemma TopPaddingWraps()
    ensures TopPadding(20, 2, 15) == 0
    ensures TopPaddingAsWritten(20, 2, 15) == 2147483643
  {
  }

  /** When the lines fit in the panel, the source's unsigned computation gives the intended padding. */
  lemma TopPaddingAgreesWhenLinesFit(h: U32, lines: nat, textHeight: int)
    requires 0 <= textHeight && lines * textHeight <= h
    ensures TopPaddingAsWritten(h, lines, textHeight) == TopPadding(h, lines, textHeight)
  {
    if lines == 0 {
      assert lines * ToU32(textHeight) == 0;
    } else {
      OneLineWithinBlock(lines, textHeight);
      assert ToU32(textHeight) == textHeight;
    }
    assert ToU32(lines * ToU32(textHeight)) == lines * textHeight;
  }

  /** A block of one or more lines is at least one line high. */
  lemma {:induction false} OneLineWithinBlock(lines: nat, textHeight: int)
    requires lines > 0 && textHeight >= 0
    ensures textHeight <= lines * textHeight
  {
    if lines > 1 {
      OneLineWithinBlock(lines - 1, textHeight);
      assert lines * textHeight == (lines - 1) * textHeight + textHeight;
    }
  }

  /** The prints of `printMulti`: line i at `top + i * textHeight`, centred horizontally at `centreX`. */
  function StackedLines(centreX: int, top: int, textHeight: int, font: Font, paint: Paint, lines: seq<Line>): (ops: seq<DrawOp>)
    ensures |ops| == |lines|
    ensures forall i :: 0 <= i < |lines| ==> ops[i].Print? && ops[i].line == lines[i] && ops[i].align == TopCenter
  {
    seq(|lines|, i requires 0 <= i < |lines| =>
      DrawOp.Print(centreX, top + i * textHeight, font, paint, TopCenter, lines[i]))
  }

  /** Consecutive lines of `printMulti` sit exactly one text height apart. */
  lemma StackedLinesSpacing(centreX: int, top: int, textHeight: int, font: Font, paint: Paint, lines: seq<Line>, i: int)
    requires 0 <= i && i + 1 < |lines|
    ensures StackedLines(centreX, top, textHeight, font, paint, lines)[i + 1].y ==
      StackedLines(centreX, top, textHeight, font, paint, lines)[i].y + textHeight
  {
    assert (i + 1) * textHeight == i * textHeight + textHeight;
  }

  /**
   * A panel's public fields. The sketches keep their panels as global
   * values, change their fields directly, and hand copies to
   * `drawAllPanels`; the panel's own operations only read them. `maxX` and
   * `maxY` are the touch area's far edges, computed once by the constructor.
   */
  datatype DisplayPanel = DisplayPanel(
    x: U32, y: U32, w: U32, h: U32, maxX: U32, maxY: U32,
    enabled: bool, fontHeightOffset: int, fontVertOffset: int, drawPanelOutline: bool,
    color: Paint, textColor: Paint, font: Font, text: seq<Line>)
  {
    /**
     * `isTouchOnPanel`: the signed touch coordinates are compared with the
     * unsigned edges, so they are converted to unsigned first. For a touch
     * with non-negative coordinates this is the closed rectangle
     * [x, maxX] x [y, maxY]; a negative coordinate misses every panel whose
     * far edge is below 2^31.
     */
    predicate IsTouchOnPanel(tpX: I32, tpY: I32)
      ensures 0 <= tpX && 0 <= tpY ==>
        (IsTouchOnPanel(tpX, tpY) <==> InClosedRect(tpX, tpY, x, y, maxX, maxY))
      ensures (tpX < 0 && maxX < 0x8000_0000) || (tpY < 0 && maxY < 0x8000_0000) ==>
        !IsTouchOnPanel(tpX, tpY)
    {
      InClosedRect(ToU32(tpX), ToU32(tpY), x, y, maxX, maxY)
    }

    method DrawRect(screen: Screen) returns (drawn: Screen)
      ensures drawn == screen + RectOps(this)
    {
      drawn := screen;
      if !enabled || w == 0 || h == 0 {
        return;
      }
      drawn := drawn + [DrawOp.FilledRectangle(x, y, w, h, color)];
      if drawPanelOutline {
        drawn := drawn + [DrawOp.Rectangle(x, y, w, h, textColor)];
      }
    }

    method PrintMiddle(screen: Screen, line: Line) returns (drawn: Screen)
      ensures drawn == screen + [MiddleOp(this, line)]
    {
      drawn := screen + [DrawOp.Print(x + w / 2, y + (h / 2 + fontVertOffset), font, textColor, Center, line)];
    }

    /** `printMulti`, with the top padding as intended (`TopPadding`). */
    method PrintMulti(screen: Screen, metrics: Metrics) returns (drawn: Screen)
      ensures drawn == screen + MultiOps(this, metrics)
    {
      var textHeight := metrics(font) + fontHeightOffset;
      var topPadding := TopPadding(h, |text|, textHeight);
      ghost var expected := MultiOps(this, metrics);
      drawn := screen;
      var lineNum := 0;
      while lineNum < |text|
        invariant 0 <= lineNum <= |text|
        invariant drawn == screen + expected[..lineNum]
      {
        drawn := drawn + [DrawOp.Print(x + w / 2, y + topPadding + lineNum * textHeight + fontVertOffset,
          font, textColor, TopCenter, text[lineNum])];
        assert expected[..lineNum + 1] == expected[..lineNum] + [expected[lineNum]];
        lineNum := lineNum + 1;
      }
      assert expected[..|text|] == expected;
    }

    method DrawText(screen: Screen, metrics: Metrics) returns (drawn: Screen)
      ensures drawn == screen + TextOps(this, metrics)
    {
      drawn := screen;
      if !enabled || w == 0 || h == 0 {
        return;
      }
      if |text| == 1 {
        drawn := PrintMiddle(screen, text[0]);
      } else if |text| > 1 {
        drawn := PrintMulti(screen, metrics);
      }
    }

    method Draw(screen: Screen, metrics: Metrics) returns (drawn: Screen)
      ensures drawn == screen + DrawOps(this, metrics)
    {
      drawn := DrawRect(screen);
      drawn := DrawText(drawn, metrics);
    }
  }

  /**
   * `DisplayPanel(x, y, w, h)`: the panel where it is put, enabled, without
   * outline, font or text; its touch edges are x + w and y + h in unsigned
   * arithmetic, which are the far corner unless that sum wraps.
   */
  function NewPanel(x0: U32, y0: U32, w0: U32, h0: U32): (p: DisplayPanel)
    ensures p.x == x0 && p.y == y0 && p.w == w0 && p.h == h0
    ensures x0 + w0 < U32Limit ==> p.maxX == x0 + w0
    ensures y0 + h0 < U32Limit ==> p.maxY == y0 + h0
    ensures Visible(p) <==> w0 != 0 && h0 != 0
    ensures p.text == [] && p.font == Unassigned && !p.drawPanelOutline
  {
    DisplayPanel(x0, y0, w0, h0, ToU32(x0 + w0), ToU32(y0 + h0), true, 0, 0, false, Black, Black, Unassigned, [])
  }

  /** Whether `drawRect` and `drawText` draw anything at all. */
  predicate Visible(s: DisplayPanel)
  {
    s.enabled && s.w != 0 && s.h != 0
  }

  /** The calls `drawRect` makes: the filled rectangle, then the outline when asked for. */
  function RectOps(s: DisplayPanel): seq<DrawOp>
  {
    if !Visible(s) then []
    else
      var outline := if s.drawPanelOutline then [DrawOp.Rectangle(s.x, s.y, s.w, s.h, s.textColor)] else [];
      [DrawOp.FilledRectangle(s.x, s.y, s.w, s.h, s.color)] + outline
  }

  /** The print `printMiddle` makes: the line centred on the panel, shifted by the vertical offset. */
  function MiddleOp(s: DisplayPanel, line: Line): DrawOp
  {
    DrawOp.Print(s.x + s.w / 2, s.y + (s.h / 2 + s.fontVertOffset), s.font, s.textColor, Center, line)
  }

  /** The height `printMulti` stacks lines by: the font's measured height plus the panel's offset. */
  function LineHeight(s: DisplayPanel, metrics: Metrics): int
  {
    metrics(s.font) + s.fontHeightOffset
  }

  /** The prints `printMulti` makes. */
  function MultiOps(s: DisplayPanel, metrics: Metrics): seq<DrawOp>
  {
    var textHeight := LineHeight(s, metrics);
    StackedLines(s.x + s.w / 2, s.y + TopPadding(s.h, |s.text|, textHeight) + s.fontVertOffset,
      textHeight, s.font, s.textColor, s.text)
  }

  /**
   * The calls `drawText` makes: nothing for an invisible panel or no text,
   * one centred line for one line of text, stacked lines for more.
   */
  function TextOps(s: DisplayPanel, metrics: Metrics): seq<DrawOp>
  {
    if !Visible(s) then []
    else if |s.text| == 1 then [MiddleOp(s, s.text[0])]
    else if |s.text| > 1 then MultiOps(s, metrics)
    else []
  }

  /**
   * `drawRect` draws nothing for a disabled or empty panel; otherwise it
   * fills the panel's rectangle with its colour and, when an outline is
   * asked for, outlines the same rectangle. It never prints.
   */
  lemma RectOpsShape(s: DisplayPanel)
    ensures !Visible(s) ==> RectOps(s) == []
    ensures Visible(s) ==>
      |RectOps(s)| == (if s.drawPanelOutline then 2 else 1) &&
      RectOps(s)[0] == DrawOp.FilledRectangle(s.x, s.y, s.w, s.h, s.color)
    ensures forall i :: 0 <= i < |RectOps(s)| ==>
      !RectOps(s)[i].Print? && RectOps(s)[i].x == s.x && RectOps(s)[i].y == s.y
  {
  }

  /**
   * `drawText` prints each line of a visible panel exactly once, in order,
   * in the text colour, centred in the panel when it is the only line and
   * top-aligned in a stack otherwise; a hidden or empty panel prints nothing.
   */
  lemma TextOpsShape(s: DisplayPanel, metrics: Metrics)
    ensures |TextOps(s, metrics)| == if Visible(s) then |s.text| else 0
    ensures forall i :: 0 <= i < |TextOps(s, metrics)| ==>
      TextOps(s, metrics)[i].Print? && TextOps(s, metrics)[i].line == s.text[i] &&
      TextOps(s, metrics)[i].paint == s.textColor &&
      (TextOps(s, metrics)[i].align == Center <==> |s.text| == 1)
  {
  }

  /** The calls `draw` makes: the rectangle's, then the text's. */
  function DrawOps(s: DisplayPanel, metrics: Metrics): seq<DrawOp>
  {
    RectOps(s) + TextOps(s, metrics)
  }

  /**
   * Stacked lines of a panel whose text fits sit one line height apart, and
   * the block is centred: the room above it and the room below it differ by
   * at most one pixel.
   */
  lemma MultiLinesCentred(s: DisplayPanel, metrics: Metrics, i: int)
    requires |s.text| > 1 && 0 <= i < |s.text|
    requires 0 <= LineHeight(s, metrics) && |s.text| * LineHeight(s, metrics) <= s.h
    ensures var ops := MultiOps(s, metrics);
      var pad := ops[0].y - s.y - s.fontVertOffset;
      ops[i].y == ops[0].y + i * LineHeight(s, metrics) &&
      0 <= pad && 0 <= s.h - (pad + |s.text| * LineHeight(s, metrics)) - pad <= 1
  {
  }

  /** Whether the rectangles of two panels share a pixel. */
  predicate Overlap(a: DisplayPanel, b: DisplayPanel)
  {
    a.x < b.x + b.w && b.x < a.x + a.w && a.y < b.y + b.h && b.y < a.y + a.h
  }

  /** No two panels that draw anything share a pixel. */
  predicate NoVisibleOverlap(states: seq<DisplayPanel>)
  {
    forall i, j :: 0 <= i < j < |states| && Visible(states[i]) && Visible(states[j]) ==>
      !Overlap(states[i], states[j])
  }

  /** A panel that draws nothing can join a list of panels without creating an overlap. */
  lemma HiddenPanelAddsNoOverlap(states: seq<DisplayPanel>, hidden: DisplayPanel)
    requires NoVisibleOverlap(states) && !Visible(hidden)
    ensures NoVisibleOverlap(states + [hidden])
  {
    var all := states + [hidden];
    forall i, j | 0 <= i < j < |all| && Visible(all[i]) && Visible(all[j])
      ensures !Overlap(all[i], all[j])
    {
      assert j < |states|;
      assert all[i] == states[i] && all[j] == states[j];
    }
  }

  /** Every panel that draws anything lies within a display of the given size. */
  predicate VisibleWithin(states: seq<DisplayPanel>, width: int, height: int)
  {
    forall i :: 0 <= i < |states| && Visible(states[i]) ==>
      states[i].x + states[i].w <= width && states[i].y + states[i].h <= height
  }

  /** The rectangles of the first pass of `drawAllPanels`, for the first k panels. */
  function RectPass(states: seq<DisplayPanel>, k: nat): seq<DrawOp>
    requires k <= |states|
  {
    if k == 0 then [] else RectPass(states, k - 1) + RectOps(states[k - 1])
  }

  /** The text of the second pass of `drawAllPanels`, for the first k panels. */
  function TextPass(states: seq<DisplayPanel>, metrics: Metrics, k: nat): seq<DrawOp>
    requires k <= |states|
  {
    if k == 0 then [] else TextPass(states, metrics, k - 1) + TextOps(states[k - 1], metrics)
  }

  /** The calls of `drawAllPanels`: every panel's rectangle, then every panel's text. */
  function AllPanelsOps(states: seq<DisplayPanel>, metrics: Metrics): seq<DrawOp>
  {
    RectPass(states, |states|) + TextPass(states, metrics, |states|)
  }

  lemma {:induction false} RectPassHasNoPrint(states: seq<DisplayPanel>, k: nat)
    requires k <= |states|
    ensures forall i :: 0 <= i < |RectPass(states, k)| ==> !RectPass(states, k)[i].Print?
  {
    if k > 0 {
      RectPassHasNoPrint(states, k - 1);
      RectOpsShape(states[k - 1]);
    }
  }

  lemma {:induction false} TextPassOnlyPrints(states: seq<DisplayPanel>, metrics: Metrics, k: nat)
    requires k <= |states|
    ensures forall i :: 0 <= i < |TextPass(states, metrics, k)| ==> TextPass(states, metrics, k)[i].Print?
  {
    if k > 0 {
      TextPassOnlyPrints(states, metrics, k - 1);
      TextOpsShape(states[k - 1], metrics);
    }
  }

  /** A panel's rectangle is never drawn over another panel's text: every fill or outline precedes every print. */
  lemma FillsBeforePrints(states: seq<DisplayPanel>, metrics: Metrics, i: int, j: int)
    requires 0 <= i < |AllPanelsOps(states, metrics)| && 0 <= j < |AllPanelsOps(states, metrics)|
    requires !AllPanelsOps(states, metrics)[i].Print? && AllPanelsOps(states, metrics)[j].Print?
    ensures i < j
  {
    RectPassHasNoPrint(states, |states|);
    TextPassOnlyPrints(states, metrics, |states|);
    var rects, texts := RectPass(states, |states|), TextPass(states, metrics, |states|);
    var all := AllPanelsOps(states, metrics);
    assert forall k :: 0 <= k < |rects| ==> all[k] == rects[k];
    assert forall k :: |rects| <= k < |all| ==> all[k] == texts[k - |rects|];
  }

  /** Every panel of `drawAllPanels` that is visible and has text gets exactly one print per line. */
  lemma {:induction false} TextPassLength(states: seq<DisplayPanel>, metrics: Metrics, k: nat)
    requires k <= |states|
    ensures |TextPass(states, metrics, k)| == VisibleLines(states, k)
  {
    if k > 0 {
      TextPassLength(states, metrics, k - 1);
      TextOpsShape(states[k - 1], metrics);
    }
  }

  /** The lines of the first k panels that are visible. */
  function VisibleLines(states: seq<DisplayPanel>, k: nat): nat
    requires k <= |states|
  {
    if k == 0 then 0 else VisibleLines(states, k - 1) + (if Visible(states[k - 1]) then |states[k - 1].text| else 0)
  }

  /** The first loop of `drawAllPanels`: every panel's rectangle, in order. */
  method DrawRects(screen: Screen, panels: seq<DisplayPanel>) returns (drawn: Screen)
    ensures drawn == screen + RectPass(panels, |panels|)
  {
    drawn := screen;
    var k := 0;
    while k < |panels|
      invariant 0 <= k <= |panels|
      invariant drawn == screen + RectPass(panels, k)
    {
      AppendAssociative(screen, RectPass(panels, k), RectOps(panels[k]));
      drawn := panels[k].DrawRect(drawn);
      k := k + 1;
    }
  }

  /** The second loop of `drawAllPanels`: every panel's text, in order. */
  method DrawTexts(screen: Screen, panels: seq<DisplayPanel>, metrics: Metrics) returns (drawn: Screen)
    ensures drawn == screen + TextPass(panels, metrics, |panels|)
  {
    drawn := screen;
    var k := 0;
    while k < |panels|
      invariant 0 <= k <= |panels|
      invariant drawn == screen + TextPass(panels, metrics, k)
    {
      AppendAssociative(screen, TextPass(panels, metrics, k), TextOps(panels[k], metrics));
      drawn := panels[k].DrawText(drawn, metrics);
      assert TextPass(panels, metrics, k + 1) == TextPass(panels, metrics, k) + TextOps(panels[k], metrics);
      k := k + 1;
    }
  }

  /** `drawAllPanels`: fills and outlines every panel first, then prints every panel's text. */
  method DrawAllPanels(screen: Screen, panels: seq<DisplayPanel>, metrics: Metrics) returns (drawn: Screen)
    ensures drawn == screen + AllPanelsOps(panels, metrics)
  {
    drawn := DrawRects(screen, panels);
    drawn := DrawTexts(drawn, panels, metrics);
    AppendAssociative(screen, RectPass(panels, |panels|), TextPass(panels, metrics, |panels|));
  }

  lemma AppendAssociative(a: Screen, b: Screen, c: Screen)
    ensures (a + b) + c == a + (b + c)
  {
  }

  /**
   * `DisplayTouchPanel`: a panel with touch edges of its own, set by its
   * constructor to the same far corner, and a hit test on esphome's
   * `TouchPoint`, whose coordinates are 16-bit unsigned.
   */
  datatype TouchPoint = TouchPoint(x: int, y: int)

  predicate ValidTouchPoint(p: TouchPoint)
  {
    0 <= p.x < 0x1_0000 && 0 <= p.y < 0x1_0000
  }

  datatype DisplayTouchPanel = DisplayTouchPanel(panel: DisplayPanel, maxX: U32, maxY: U32)
  {
    /** `isTouchOnPanel`: the touch point lies in the closed rectangle [x, maxX] x [y, maxY]. */
    predicate IsTouchOnPanel(touchPoint: TouchPoint)
      requires ValidTouchPoint(touchPoint)
    {
      InClosedRect(touchPoint.x, touchPoint.y, panel.x, panel.y, maxX, maxY)
    }
  }

  /**
   * `DisplayTouchPanel(x, y, w, h)`: the panel as `DisplayPanel(x, y, w, h)`
   * builds it, and touch edges of its own at the same far corner.
   */
  function NewTouchPanel(x0: U32, y0: U32, w0: U32, h0: U32): (p: DisplayTouchPanel)
    ensures p.panel == NewPanel(x0, y0, w0, h0)
    ensures p.maxX == p.panel.maxX && p.maxY == p.panel.maxY
  {
    DisplayTouchPanel(NewPanel(x0, y0, w0, h0), ToU32(x0 + w0), ToU32(y0 + h0))
  }

  /**
   * Both corners of a touch panel whose far corner does not wrap count as
   * hits: the rectangle is closed on all four sides.
   */
  lemma TouchPanelCornersHit(p: DisplayTouchPanel, touchPoint: TouchPoint)
    requires p.maxX == p.panel.x + p.panel.w && p.maxY == p.panel.y + p.panel.h
    requires ValidTouchPoint(touchPoint)
    requires touchPoint == TouchPoint(p.panel.x, p.panel.y) ||
      touchPoint == TouchPoint(p.panel.x + p.panel.w, p.panel.y + p.panel.h)
    ensures p.IsTouchOnPanel(touchPoint)
  {
  }

  /** A panel whose far corner does not wrap is hit at both of its corners. */
  lemma PanelCornersHit(p: DisplayPanel)
    requires p.maxX == p.x + p.w && p.maxY == p.y + p.h
    requires p.maxX < 0x8000_0000 && p.maxY < 0x8000_0000
    ensures p.IsTouchOnPanel(p.x, p.y) && p.IsTouchOnPanel(p.maxX, p.maxY)
    ensures p.maxX + 1 < 0x8000_0000 ==> !p.IsTouchOnPanel(p.maxX + 1, p.y)
    ensures p.maxY + 1 < 0x8000_0000 ==> !p.IsTouchOnPanel(p.x, p.maxY + 1)
  {
  }
}
