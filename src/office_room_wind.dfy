/**
 * The office display with the wind: the layout of the office display, the
 * date row showing the wind instead, the day row showing weekday, month and
 * day, a butterfly panel that is switched off, and the panels organised in
 * pages of which one is drawn and searched for touches.
 */
module OfficeRoomWind {
  import opened Wrappers
  import opened Clocks
  import opened DisplayPanels
  import opened OfficeRoom

  /** Wind speeds from 200 up are taken as a faulty reading and not shown. */
  const WindSpeedLimit: real := 200.0

  /** The butterfly panel's square. */
  const ButterflySize: U32 := 200

  /**
   * The wind line, when there is a plausible speed: the speed, a "+" when a
   * gust is known, and the direction when known. Without one the date panel
   * keeps what it showed.
   */
  function WindLine(windSpeed: Option<real>, windGust: Option<real>, windDirection: Option<string>): (r: Option<Line>)
    ensures r.Some? <==> windSpeed.Some? && windSpeed.value < WindSpeedLimit
    ensures r.Some? ==>
      r.value.WindMark? && r.value.speed == windSpeed.value &&
      (r.value.gusting <==> windGust.Some?) && r.value.direction == windDirection
  {
    if windSpeed.Some? && windSpeed.value < WindSpeedLimit
    then Some(WindMark(windSpeed.value, windGust.Some?, windDirection))
    else None
  }

  /** The panels by name; the sketch's pages and touch result point at them. */
  datatype PanelId =
    | ContDown | Date | Day | ContUp | TimeOfDay
    | InsideTemp | InsideLabel | OutdoorLabel | OutdoorTemp | Butterfly | Flash

  /** The pages: one page, of every panel but the flash. */
  const Pages: seq<seq<PanelId>> := [
    [ContDown, Date, Day, ContUp, TimeOfDay, InsideTemp, InsideLabel, OutdoorLabel, OutdoorTemp, Butterfly]
  ]

  /** The flash is on no page: it is drawn on its own, over the page. */
  lemma FlashOnNoPage(n: int)
    requires 0 <= n < |Pages|
    ensures Flash !in Pages[n]
    ensures forall id :: id != Flash ==> id in Pages[n]
  {
  }

  /** The sketch's global panels, page number, touch result and flash deadline. */
  class OfficeWindDisplay {
    var contDownPanel: DisplayPanel
    var datePanel: DisplayPanel
    var dayPanel: DisplayPanel
    var contUpPanel: DisplayPanel
    var timePanel: DisplayPanel
    var insideTempPanel: DisplayPanel
    var insideLabelPanel: DisplayPanel
    var outdoorTempPanel: DisplayPanel
    var outdoorLabelPanel: DisplayPanel
    var butterflyPanel: DisplayPanel
    var flashPanel: DisplayPanel
    var pageNumber: int
    /** The panel the last touch landed on, if any. */
    var lastTouchedPanel: Option<PanelId>
    /** The epoch second after which an update takes the flash down. */
    var flashUntil: int

    /** The panel a name points at. */
    function PanelOf(id: PanelId): DisplayPanel
      reads this
    {
      match id
      case ContDown => contDownPanel
      case Date => datePanel
      case Day => dayPanel
      case ContUp => contUpPanel
      case TimeOfDay => timePanel
      case InsideTemp => insideTempPanel
      case InsideLabel => insideLabelPanel
      case OutdoorLabel => outdoorLabelPanel
      case OutdoorTemp => outdoorTempPanel
      case Butterfly => butterflyPanel
      case Flash => flashPanel
    }

    /** The panels a page points at, in its order. */
    function PagePanels(page: seq<PanelId>): (ps: seq<DisplayPanel>)
      reads this
      ensures |ps| == |page|
      ensures forall i :: 0 <= i < |page| ==> ps[i] == PanelOf(page[i])
    {
      if page == [] then [] else PagePanels(page[..|page| - 1]) + [PanelOf(page[|page| - 1])]
    }

    /** The office layout, the butterfly and the flash, and a page number that names a page. */
    predicate Consistent()
      reads this
    {
      OfficeLayout(contDownPanel, datePanel, dayPanel, contUpPanel, timePanel,
        insideTempPanel, insideLabelPanel, outdoorLabelPanel, outdoorTempPanel) &&
      butterflyPanel.x == 0 && butterflyPanel.y == 0 && butterflyPanel.w == ButterflySize &&
      butterflyPanel.h == ButterflySize &&
      flashPanel.x == FlashX && flashPanel.y == FlashY && flashPanel.w == FlashWidth && flashPanel.h == FlashHeight &&
      0 <= pageNumber < |Pages|
    }

    /** The panels as the sketch declares them, on page 0, with no touch seen and the deadline at the epoch. */
    constructor()
      ensures Consistent()
      ensures contDownPanel == NewPanel(0, 0, ContWidth, ContHeight)
      ensures datePanel == NewPanel(ContWidth, 0, DateWidth, DateHeight)
      ensures dayPanel == NewPanel(ContWidth, DateHeight, DayWidth, DayHeight)
      ensures contUpPanel == NewPanel(ContUpX, 0, ContWidth, ContHeight)
      ensures timePanel == NewPanel(0, ContHeight, TimeWidth, TimeHeight)
      ensures insideTempPanel == NewPanel(0, ContHeight + TimeHeight, TempWidth, TempHeight)
      ensures insideLabelPanel == NewPanel(0, ContHeight + TimeHeight + TempHeight, TempLabelWidth, TempLabelHeight)
      ensures outdoorTempPanel == NewPanel(TempWidth, ContHeight + TimeHeight, TempWidth, TempHeight)
      ensures outdoorLabelPanel == NewPanel(TempWidth, ContHeight + TimeHeight + TempHeight, TempLabelWidth, TempLabelHeight)
      ensures butterflyPanel == NewPanel(0, 0, ButterflySize, ButterflySize)
      ensures flashPanel == NewPanel(FlashX, FlashY, FlashWidth, FlashHeight)
      ensures pageNumber == 0 && lastTouchedPanel == None && flashUntil == 0
    {
      contDownPanel := NewPanel(0, 0, ContWidth, ContHeight);
      datePanel := NewPanel(ContWidth, 0, DateWidth, DateHeight);
      dayPanel := NewPanel(ContWidth, DateHeight, DayWidth, DayHeight);
      contUpPanel := NewPanel(ContUpX, 0, ContWidth, ContHeight);
      timePanel := NewPanel(0, ContHeight, TimeWidth, TimeHeight);
      insideTempPanel := NewPanel(0, ContHeight + TimeHeight, TempWidth, TempHeight);
      insideLabelPanel := NewPanel(0, ContHeight + TimeHeight + TempHeight, TempLabelWidth, TempLabelHeight);
      outdoorTempPanel := NewPanel(TempWidth, ContHeight + TimeHeight, TempWidth, TempHeight);
      outdoorLabelPanel := NewPanel(TempWidth, ContHeight + TimeHeight + TempHeight, TempLabelWidth, TempLabelHeight);
      butterflyPanel := NewPanel(0, 0, ButterflySize, ButterflySize);
      flashPanel := NewPanel(FlashX, FlashY, FlashWidth, FlashHeight);
      pageNumber := 0;
      lastTouchedPanel := None;
      flashUntil := 0;
    }

    /** Fonts and white-on-black colours of the top row and the time. */
    method InitializeTopPanels()
      modifies this`timePanel, this`dayPanel, this`datePanel, this`contUpPanel, this`contDownPanel
      ensures timePanel == old(timePanel).(font := Font("font_time"), color := Black, textColor := TextWhite,
        fontVertOffset := 8)
      ensures dayPanel == old(dayPanel).(font := Font("font_day"), color := Black, textColor := TextWhite)
      ensures datePanel == old(datePanel).(font := Font("font_date"), color := Black, textColor := TextWhite)
      ensures contUpPanel == old(contUpPanel).(font := Font("icon_font_45"), color := Black, textColor := TextWhite,
        text := [Literal(ContUpIcon)])
      ensures contDownPanel == old(contDownPanel).(font := Font("icon_font_45"), color := Black,
        textColor := TextWhite, text := [Literal(ContDownIcon)])
    {
      timePanel := timePanel.(font := Font("font_time"), color := Black, textColor := TextWhite, fontVertOffset := 8);
      dayPanel := dayPanel.(font := Font("font_day"), color := Black, textColor := TextWhite);
      datePanel := datePanel.(font := Font("font_date"), color := Black, textColor := TextWhite);
      contUpPanel := contUpPanel.(font := Font("icon_font_45"), color := Black, textColor := TextWhite);
      contUpPanel := contUpPanel.(text := [Literal(ContUpIcon)]);
      contDownPanel := contDownPanel.(font := Font("icon_font_45"), color := Black, textColor := TextWhite);
      contDownPanel := contDownPanel.(text := [Literal(ContDownIcon)]);
    }

    /** Fonts and colours of the temperatures and their fixed labels. */
    method InitializeTemperaturePanels()
      modifies this`insideTempPanel, this`insideLabelPanel, this`outdoorTempPanel, this`outdoorLabelPanel
      ensures insideTempPanel == old(insideTempPanel).(font := Font("font_temp"), color := Black,
        textColor := TextWhite, fontVertOffset := 6)
      ensures insideLabelPanel == old(insideLabelPanel).(font := Font("font_temp_label"), color := Black,
        textColor := TextWhite, text := [Literal("room")])
      ensures outdoorTempPanel == old(outdoorTempPanel).(font := Font("font_temp"), color := Black,
        textColor := TextWhite, fontVertOffset := 6)
      ensures outdoorLabelPanel == old(outdoorLabelPanel).(font := Font("font_temp_label"), color := Black,
        textColor := TextWhite, text := [Literal("outside")])
    {
      insideTempPanel := insideTempPanel.(font := Font("font_temp"), color := Black, textColor := TextWhite);
      insideTempPanel := insideTempPanel.(fontVertOffset := 6);
      insideLabelPanel := insideLabelPanel.(font := Font("font_temp_label"), color := Black, textColor := TextWhite);
      insideLabelPanel := insideLabelPanel.(text := [Literal("room")]);
      outdoorTempPanel := outdoorTempPanel.(font := Font("font_temp"), color := Black, textColor := TextWhite);
      outdoorTempPanel := outdoorTempPanel.(fontVertOffset := 6);
      outdoorLabelPanel := outdoorLabelPanel.(font := Font("font_temp_label"), color := Black, textColor := TextWhite);
      outdoorLabelPanel := outdoorLabelPanel.(text := [Literal("outside")]);
    }

    /** The butterfly, green on white, and the outlined flash both start switched off. */
    method InitializeOverlayPanels()
      modifies this`butterflyPanel, this`flashPanel
      ensures butterflyPanel == old(butterflyPanel).(font := Font("font_flash"), color := TextWhite,
        textColor := Named("color_green"), enabled := false)
      ensures flashPanel == old(flashPanel).(font := Font("font_flash"), color := Black, textColor := TextWhite,
        drawPanelOutline := true, enabled := false)
    {
      butterflyPanel := butterflyPanel.(font := Font("font_flash"), color := TextWhite);
      butterflyPanel := butterflyPanel.(textColor := Named("color_green"), enabled := false);
      flashPanel := flashPanel.(font := Font("font_flash"), color := Black, textColor := TextWhite);
      flashPanel := flashPanel.(drawPanelOutline := true, enabled := false);
    }

    /**
     * `initializePanels`: every panel gets its font and colours, the icons
     * and labels their fixed texts, and the butterfly and the flash start
     * switched off; positions, sizes, the page, the last touch and the
     * deadline are kept.
     */
    method InitializePanels()
      modifies this`timePanel, this`dayPanel, this`datePanel, this`contUpPanel, this`contDownPanel,
        this`insideTempPanel, this`insideLabelPanel, this`outdoorTempPanel, this`outdoorLabelPanel,
        this`butterflyPanel, this`flashPanel
      ensures timePanel == old(timePanel).(font := Font("font_time"), color := Black, textColor := TextWhite,
        fontVertOffset := 8)
      ensures dayPanel == old(dayPanel).(font := Font("font_day"), color := Black, textColor := TextWhite)
      ensures datePanel == old(datePanel).(font := Font("font_date"), color := Black, textColor := TextWhite)
      ensures contUpPanel == old(contUpPanel).(font := Font("icon_font_45"), color := Black, textColor := TextWhite,
        text := [Literal(ContUpIcon)])
      ensures contDownPanel == old(contDownPanel).(font := Font("icon_font_45"), color := Black,
        textColor := TextWhite, text := [Literal(ContDownIcon)])
      ensures insideTempPanel == old(insideTempPanel).(font := Font("font_temp"), color := Black,
        textColor := TextWhite, fontVertOffset := 6)
      ensures insideLabelPanel == old(insideLabelPanel).(font := Font("font_temp_label"), color := Black,
        textColor := TextWhite, text := [Literal("room")])
      ensures outdoorTempPanel == old(outdoorTempPanel).(font := Font("font_temp"), color := Black,
        textColor := TextWhite, fontVertOffset := 6)
      ensures outdoorLabelPanel == old(outdoorLabelPanel).(font := Font("font_temp_label"), color := Black,
        textColor := TextWhite, text := [Literal("outside")])
      ensures butterflyPanel == old(butterflyPanel).(font := Font("font_flash"), color := TextWhite,
        textColor := Named("color_green"), enabled := false)
      ensures flashPanel == old(flashPanel).(font := Font("font_flash"), color := Black, textColor := TextWhite,
        drawPanelOutline := true, enabled := false)
      ensures old(Consistent()) ==> Consistent()
    {
      InitializeTopPanels();
      InitializeTemperaturePanels();
      InitializeOverlayPanels();
    }

    /** `enableFlash`: show the given lines until one second from now. */
    method EnableFlash(now: Time, flashText: seq<Line>)
      modifies this`flashPanel, this`flashUntil
      ensures flashUntil == FlashDeadline(now)
      ensures flashPanel == old(flashPanel).(enabled := true, text := flashText)
    {
      flashUntil := now.timestamp;
      flashUntil := flashUntil + 1;
      flashPanel := flashPanel.(enabled := true);
      flashPanel := flashPanel.(text := flashText);
    }

    /** The time, on a 12-hour face, and weekday, month and day. */
    method UpdateTimeAndDay(now: Time)
      modifies this`timePanel, this`dayPanel
      ensures timePanel == old(timePanel).(text := [Clock(TwelveHour(now.hour), now.minute)])
      ensures dayPanel == old(dayPanel).(text := [Stamp("%a/%b %-d", now)])
    {
      var hour := now.hour;
      hour := if hour == 0 then 12 else if hour > 12 then hour - 12 else hour;
      timePanel := timePanel.(text := [Clock(hour, now.minute)]);
      dayPanel := dayPanel.(text := [Stamp("%a/%b %-d", now)]);
    }

    /** The wind, into the date panel, only when a plausible speed is known. */
    method UpdateWind(windSpeed: Option<real>, windGust: Option<real>, windDirection: Option<string>)
      modifies this`datePanel
      ensures var line := WindLine(windSpeed, windGust, windDirection);
        datePanel == if line.Some? then old(datePanel).(text := [line.value]) else old(datePanel)
    {
      if windSpeed.Some? && windSpeed.value < WindSpeedLimit {
        datePanel := datePanel.(text := [WindMark(windSpeed.value, windGust.Some?, windDirection)]);
      }
    }

    /**
     * The temperature panels are shown exactly while either temperature is
     * known; each temperature that is known is refreshed, the other keeps
     * its last text.
     */
    method UpdateTemperatures(insideTemperature: Option<real>, backYardTemperature: Option<real>)
      modifies this`insideLabelPanel, this`insideTempPanel, this`outdoorLabelPanel, this`outdoorTempPanel
      ensures insideLabelPanel == old(insideLabelPanel).(enabled := insideTemperature.Some? || backYardTemperature.Some?)
      ensures outdoorLabelPanel == old(outdoorLabelPanel).(enabled := insideTemperature.Some? || backYardTemperature.Some?)
      ensures insideTempPanel == old(insideTempPanel).(
        enabled := insideTemperature.Some? || backYardTemperature.Some?,
        text := if insideTemperature.Some? then [Reading(insideTemperature.value, "°")] else old(insideTempPanel.text))
      ensures outdoorTempPanel == old(outdoorTempPanel).(
        enabled := insideTemperature.Some? || backYardTemperature.Some?,
        text := if backYardTemperature.Some? then [Reading(backYardTemperature.value, "°")] else old(outdoorTempPanel.text))
    {
      if backYardTemperature.Some? || insideTemperature.Some? {
        insideLabelPanel := insideLabelPanel.(enabled := true);
        insideTempPanel := insideTempPanel.(enabled := true);
        outdoorLabelPanel := outdoorLabelPanel.(enabled := true);
        outdoorTempPanel := outdoorTempPanel.(enabled := true);
        if insideTemperature.Some? {
          insideTempPanel := insideTempPanel.(text := [Reading(insideTemperature.value, "°")]);
        }
        if backYardTemperature.Some? {
          outdoorTempPanel := outdoorTempPanel.(text := [Reading(backYardTemperature.value, "°")]);
        }
      } else {
        insideLabelPanel := insideLabelPanel.(enabled := false);
        insideTempPanel := insideTempPanel.(enabled := false);
        outdoorLabelPanel := outdoorLabelPanel.(enabled := false);
        outdoorTempPanel := outdoorTempPanel.(enabled := false);
      }
    }

    /** Take the flash down once `now` is past its deadline. */
    method ExpireFlash(now: Time)
      modifies this`flashPanel
      ensures flashPanel == old(flashPanel).(enabled := FlashShownAfter(old(flashPanel.enabled), flashUntil, now))
      ensures flashPanel.enabled ==> now.timestamp <= flashUntil
    {
      if flashPanel.enabled && now.timestamp > flashUntil {
        flashPanel := flashPanel.(enabled := false);
      }
    }

    /**
     * `updatePanelStates`: time and day, wind, temperatures, then the flash
     * deadline; every other field of every panel, the brightness buttons,
     * the butterfly, the page, the last touch and the deadline are kept.
     */
    method UpdatePanelStates(now: Time, windSpeed: Option<real>, windGust: Option<real>, windDirection: Option<string>,
                             insideTemperature: Option<real>, backYardTemperature: Option<real>)
      modifies this`timePanel, this`dayPanel, this`datePanel, this`insideLabelPanel, this`insideTempPanel,
        this`outdoorLabelPanel, this`outdoorTempPanel, this`flashPanel
      ensures timePanel == old(timePanel).(text := [Clock(TwelveHour(now.hour), now.minute)])
      ensures dayPanel == old(dayPanel).(text := [Stamp("%a/%b %-d", now)])
      ensures var line := WindLine(windSpeed, windGust, windDirection);
        datePanel == if line.Some? then old(datePanel).(text := [line.value]) else old(datePanel)
      ensures insideLabelPanel == old(insideLabelPanel).(enabled := insideTemperature.Some? || backYardTemperature.Some?)
      ensures outdoorLabelPanel == old(outdoorLabelPanel).(enabled := insideTemperature.Some? || backYardTemperature.Some?)
      ensures insideTempPanel == old(insideTempPanel).(
        enabled := insideTemperature.Some? || backYardTemperature.Some?,
        text := if insideTemperature.Some? then [Reading(insideTemperature.value, "°")] else old(insideTempPanel.text))
      ensures outdoorTempPanel == old(outdoorTempPanel).(
        enabled := insideTemperature.Some? || backYardTemperature.Some?,
        text := if backYardTemperature.Some? then [Reading(backYardTemperature.value, "°")] else old(outdoorTempPanel.text))
      ensures flashPanel == old(flashPanel).(enabled := FlashShownAfter(old(flashPanel.enabled), flashUntil, now))
      ensures old(Consistent()) ==> Consistent()
    {
      UpdateTimeAndDay(now);
      UpdateWind(windSpeed, windGust, windDirection);
      UpdateTemperatures(insideTemperature, backYardTemperature);
      ExpireFlash(now);
    }

    /** `drawPanels`: the current page through `drawAllPanels`, then the flash over it. */
    method DrawPanels(screen: Screen, metrics: Metrics) returns (drawn: Screen)
      requires 0 <= pageNumber < |Pages|
      ensures drawn == screen + AllPanelsOps(PagePanels(Pages[pageNumber]), metrics) + DrawOps(flashPanel, metrics)
    {
      drawn := DrawAllPanels(screen, PagePanels(Pages[pageNumber]), metrics);
      drawn := flashPanel.Draw(drawn, metrics);
    }

    /**
     * `isPanelTouched`: `touched` is what the panel library's touch search
     * found on the current page for the touch point. It always replaces the
     * last touched panel, and the answer is whether something was found.
     */
    method IsPanelTouched(touched: Option<PanelId>) returns (found: bool)
      modifies this`lastTouchedPanel
      ensures lastTouchedPanel == touched
      ensures found <==> touched.Some?
    {
      lastTouchedPanel := touched;
      found := lastTouchedPanel != None;
    }
  }

  /** Page 0 lists every panel but the flash, the butterfly last. */
  lemma PageZeroPanels(d: OfficeWindDisplay)
    ensures d.PagePanels(Pages[0]) == [d.contDownPanel, d.datePanel, d.dayPanel, d.contUpPanel, d.timePanel,
      d.insideTempPanel, d.insideLabelPanel, d.outdoorLabelPanel, d.outdoorTempPanel, d.butterflyPanel]
  {
  }

  /**
   * In the kept layout, with the butterfly switched off, the panels of page
   * 0 share no pixel.
   */
  lemma ConsistentLayoutTiles(d: OfficeWindDisplay)
    requires d.Consistent() && !d.butterflyPanel.enabled
    ensures NoVisibleOverlap(d.PagePanels(Pages[0]))
  {
    PageZeroPanels(d);
    OfficeLayoutTiles(d.contDownPanel, d.datePanel, d.dayPanel, d.contUpPanel, d.timePanel,
      d.insideTempPanel, d.insideLabelPanel, d.outdoorLabelPanel, d.outdoorTempPanel);
    HiddenPanelAddsNoOverlap([d.contDownPanel, d.datePanel, d.dayPanel, d.contUpPanel, d.timePanel,
      d.insideTempPanel, d.insideLabelPanel, d.outdoorLabelPanel, d.outdoorTempPanel], d.butterflyPanel);
  }

  /** The butterfly would cover the top-left of the display, which is why it is switched off. */
  lemma ButterflyWouldOverlap(d: OfficeWindDisplay)
    requires d.Consistent()
    ensures Overlap(d.butterflyPanel, d.timePanel) && Overlap(d.butterflyPanel, d.contDownPanel)
    ensures VisibleWithin([d.butterflyPanel, d.flashPanel], Width, Height)
  {
  }
}
