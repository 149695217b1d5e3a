/**
 * The office's 320 x 240 touch display: brightness buttons in the top
 * corners around the date and the day of the week, the time across the
 * middle, the room and outside temperatures at the bottom, and a flash
 * message drawn over everything for about a second after it is raised.
 */
module OfficeRoom {
  import opened Wrappers
  import opened Clocks
  import opened DisplayPanels

  /** The display, and the panel sizes its percentage layout gives once truncated to whole pixels. */
  const Width: U32 := 320
  const Height: U32 := 240
  const ContWidth: U32 := 48          // 15% of the width
  const ContHeight: U32 := 60         // 25% of the height
  const DayWidth: U32 := 224          // 70% of the width
  const DayHeight: U32 := 31          // 13% of the height
  const DateWidth: U32 := 224         // 70% of the width
  const DateHeight: U32 := 28         // 12% of the height
  const ContUpX: U32 := 272           // 85% of the width
  const TimeWidth: U32 := 320         // the whole width
  const TimeHeight: U32 := 96         // 40% of the height
  const TempWidth: U32 := 160         // half the width
  const TempHeight: U32 := 64         // 27% of the height
  const TempLabelWidth: U32 := 160    // half the width
  const TempLabelHeight: U32 := 19    // 8% of the height
  const FlashX: U32 := 16             // 5% of the width
  const FlashY: U32 := 48             // 20% of the height
  const FlashWidth: U32 := 288        // 90% of the width
  const FlashHeight: U32 := 120       // half the height

  const TextWhite: Paint := Named("color_text_white")

  /** The brightness icons of the icon font: "brightness down" and "brightness up". */
  const ContDownIcon: string := "\U{F00DE}"
  const ContUpIcon: string := "\U{F00E0}"

  /** `enableFlash`: the flash stays up until one second after it was raised. */
  function FlashDeadline(raised: Time): (until: int)
    ensures until > raised.timestamp
  {
    raised.timestamp + 1
  }

  /** Whether the flash is still up after an update at `now`: it goes down once `now` is past its deadline. */
  function FlashShownAfter(enabled: bool, flashUntil: int, now: Time): (shown: bool)
    ensures shown ==> enabled && now.timestamp <= flashUntil
  {
    if enabled && now.timestamp > flashUntil then false else enabled
  }

  /**
   * A flash raised at one instant survives exactly the updates up to one
   * second later; a flash that is down stays down.
   */
  lemma FlashLastsOneSecond(raised: Time, now: Time)
    ensures FlashShownAfter(true, FlashDeadline(raised), now) <==> now.timestamp <= raised.timestamp + 1
    ensures !FlashShownAfter(false, FlashDeadline(raised), now)
  {
  }

  /**
   * The office layout, panel by panel in drawing order: the brightness
   * buttons in the top corners, date over day between them, the time across
   * the middle, the temperatures over their labels at the bottom, and the
   * four temperature panels shown or hidden together.
   */
  predicate OfficeLayout(contDown: DisplayPanel, date: DisplayPanel, day: DisplayPanel, contUp: DisplayPanel,
                         time: DisplayPanel, insideTemp: DisplayPanel, insideLabel: DisplayPanel,
                         outdoorLabel: DisplayPanel, outdoorTemp: DisplayPanel)
  {
    contDown.x == 0 && contDown.y == 0 && contDown.w == ContWidth && contDown.h == ContHeight &&
    date.x == ContWidth && date.y == 0 && date.w == DateWidth && date.h == DateHeight &&
    day.x == ContWidth && day.y == DateHeight && day.w == DayWidth && day.h == DayHeight &&
    contUp.x == ContUpX && contUp.y == 0 && contUp.w == ContWidth && contUp.h == ContHeight &&
    time.x == 0 && time.y == ContHeight && time.w == TimeWidth && time.h == TimeHeight &&
    insideTemp.x == 0 && insideTemp.y == ContHeight + TimeHeight &&
    insideTemp.w == TempWidth && insideTemp.h == TempHeight &&
    insideLabel.x == 0 && insideLabel.y == ContHeight + TimeHeight + TempHeight &&
    insideLabel.w == TempLabelWidth && insideLabel.h == TempLabelHeight &&
    outdoorTemp.x == TempWidth && outdoorTemp.y == ContHeight + TimeHeight &&
    outdoorTemp.w == TempWidth && outdoorTemp.h == TempHeight &&
    outdoorLabel.x == TempWidth && outdoorLabel.y == ContHeight + TimeHeight + TempHeight &&
    outdoorLabel.w == TempLabelWidth && outdoorLabel.h == TempLabelHeight &&
    insideTemp.enabled == insideLabel.enabled &&
    outdoorTemp.enabled == insideLabel.enabled &&
    outdoorLabel.enabled == insideLabel.enabled
  }

  /** The office layout tiles: no two of its panels that draw anything share a pixel. */
  lemma OfficeLayoutTiles(contDown: DisplayPanel, date: DisplayPanel, day: DisplayPanel, contUp: DisplayPanel,
                          time: DisplayPanel, insideTemp: DisplayPanel, insideLabel: DisplayPanel,
                          outdoorLabel: DisplayPanel, outdoorTemp: DisplayPanel)
    requires OfficeLayout(contDown, date, day, contUp, time, insideTemp, insideLabel, outdoorLabel, outdoorTemp)
    ensures NoVisibleOverlap([contDown, date, day, contUp, time, insideTemp, insideLabel, outdoorLabel, outdoorTemp])
  {
    var ps := [contDown, date, day, contUp, time, insideTemp, insideLabel, outdoorLabel, outdoorTemp];
    if insideLabel.enabled {
      assert forall i :: 0 <= i < 4 ==> ps[i].y + ps[i].h <= ContHeight;
    } else {
      assert forall i :: 5 <= i < 9 ==> !Visible(ps[i]);
    }
  }

  /** The sketch's global panels and flash deadline, which its functions update in place. */
  class OfficeDisplay {
    var contDownPanel: DisplayPanel
    var datePanel: DisplayPanel
    var dayPanel: DisplayPanel
    var contUpPanel: DisplayPanel
    var timePanel: DisplayPanel
    var insideTempPanel: DisplayPanel
    var insideLabelPanel: DisplayPanel
    var outdoorTempPanel: DisplayPanel
    var outdoorLabelPanel: DisplayPanel
    var flashPanel: DisplayPanel
    /** The epoch second after which an update takes the flash down. */
    var flashUntil: int

    /** The panels `drawPanels` hands to `drawAllPanels`, in its order; the flash is drawn after them. */
    function Panels(): seq<DisplayPanel>
      reads this
    {
      [contDownPanel, datePanel, dayPanel, contUpPanel, timePanel,
       insideTempPanel, insideLabelPanel, outdoorLabelPanel, outdoorTempPanel]
    }

    /** The layout: the office layout, and the flash where it is declared. */
    predicate Consistent()
      reads this
    {
      OfficeLayout(contDownPanel, datePanel, dayPanel, contUpPanel, timePanel,
        insideTempPanel, insideLabelPanel, outdoorLabelPanel, outdoorTempPanel) &&
      flashPanel.x == FlashX && flashPanel.y == FlashY && flashPanel.w == FlashWidth && flashPanel.h == FlashHeight
    }

    /** The panels as the sketch declares them; the deadline starts at the epoch. */
    constructor()
      ensures Consistent()
      ensures contDownPanel == NewPanel(0, 0, ContWidth, ContHeight)
      ensures datePanel == NewPanel(ContWidth, 0, DateWidth, DateHeight)
      ensures dayPanel == NewPanel(ContWidth, DateHeight, DayWidth, DayHeight)
      ensures contUpPanel == NewPanel(ContUpX, 0, ContWidth, ContHeight)
      ensures timePanel == NewPanel(0, ContHeight, TimeWidth, TimeHeight)
      ensures insideTempPanel == NewPanel(0, ContHeight + TimeHeight, TempWidth, TempHeight)
      ensures insideLabelPanel == NewPanel(0, ContHeight + TimeHeight + TempHeight, TempLabelWidth, TempLabelHeight)
      ensures outdoorTempPanel == NewPanel(TempWidth, ContHeight + TimeHeight, TempWidth, TempHeight)
      ensures outdoorLabelPanel == NewPanel(TempWidth, ContHeight + TimeHeight + TempHeight, TempLabelWidth, TempLabelHeight)
      ensures flashPanel == NewPanel(FlashX, FlashY, FlashWidth, FlashHeight)
      ensures flashUntil == 0
    {
      contDownPanel := NewPanel(0, 0, ContWidth, ContHeight);
      datePanel := NewPanel(ContWidth, 0, DateWidth, DateHeight);
      dayPanel := NewPanel(ContWidth, DateHeight, DayWidth, DayHeight);
      contUpPanel := NewPanel(ContUpX, 0, ContWidth, ContHeight);
      timePanel := NewPanel(0, ContHeight, TimeWidth, TimeHeight);
      insideTempPanel := NewPanel(0, ContHeight + TimeHeight, TempWidth, TempHeight);
      insideLabelPanel := NewPanel(0, ContHeight + TimeHeight + TempHeight, TempLabelWidth, TempLabelHeight);
      outdoorTempPanel := NewPanel(TempWidth, ContHeight + TimeHeight, TempWidth, TempHeight);
      outdoorLabelPanel := NewPanel(TempWidth, ContHeight + TimeHeight + TempHeight, TempLabelWidth, TempLabelHeight);
      flashPanel := NewPanel(FlashX, FlashY, FlashWidth, FlashHeight);
      flashUntil := 0;
    }

    /** Fonts and white-on-black colours of the top row and the time. */
    method InitializeTopPanels()
      modifies this`timePanel, this`dayPanel, this`datePanel, this`contUpPanel, this`contDownPanel
      ensures timePanel == old(timePanel).(font := Font("font_time"), color := Black, textColor := TextWhite,
        fontVertOffset := 8)
      ensures dayPanel == old(dayPanel).(font := Font("font_day"), color := Black, textColor := TextWhite)
      ensures datePanel == old(datePanel).(font := Font("font_date"), color := Black, textColor := TextWhite)
      ensures contUpPanel == old(contUpPanel).(font := Font("icon_font_45"), color := Black, textColor := TextWhite,
        text := [Literal(ContUpIcon)])
      ensures contDownPanel == old(contDownPanel).(font := Font("icon_font_45"), color := Black,
        textColor := TextWhite, text := [Literal(ContDownIcon)])
    {
      timePanel := timePanel.(font := Font("font_time"), color := Black, textColor := TextWhite, fontVertOffset := 8);
      dayPanel := dayPanel.(font := Font("font_day"), color := Black, textColor := TextWhite);
      datePanel := datePanel.(font := Font("font_date"), color := Black, textColor := TextWhite);
      contUpPanel := contUpPanel.(font := Font("icon_font_45"), color := Black, textColor := TextWhite);
      contUpPanel := contUpPanel.(text := [Literal(ContUpIcon)]);
      contDownPanel := contDownPanel.(font := Font("icon_font_45"), color := Black, textColor := TextWhite);
      contDownPanel := contDownPanel.(text := [Literal(ContDownIcon)]);
    }

    /** Fonts and colours of the temperatures and their fixed labels; the flash is outlined and starts hidden. */
    method InitializeBottomPanels()
      modifies this`insideTempPanel, this`insideLabelPanel, this`outdoorTempPanel, this`outdoorLabelPanel,
        this`flashPanel
      ensures insideTempPanel == old(insideTempPanel).(font := Font("font_temp"), color := Black,
        textColor := TextWhite, fontVertOffset := 6)
      ensures insideLabelPanel == old(insideLabelPanel).(font := Font("font_temp_label"), color := Black,
        textColor := TextWhite, text := [Literal("room")])
      ensures outdoorTempPanel == old(outdoorTempPanel).(font := Font("font_temp"), color := Black,
        textColor := TextWhite, fontVertOffset := 6)
      ensures outdoorLabelPanel == old(outdoorLabelPanel).(font := Font("font_temp_label"), color := Black,
        textColor := TextWhite, text := [Literal("outside")])
      ensures flashPanel == old(flashPanel).(font := Font("font_flash"), color := Black, textColor := TextWhite,
        drawPanelOutline := true, enabled := false)
    {
      insideTempPanel := insideTempPanel.(font := Font("font_temp"), color := Black, textColor := TextWhite);
      insideTempPanel := insideTempPanel.(fontVertOffset := 6);
      insideLabelPanel := insideLabelPanel.(font := Font("font_temp_label"), color := Black, textColor := TextWhite);
      insideLabelPanel := insideLabelPanel.(text := [Literal("room")]);
      outdoorTempPanel := outdoorTempPanel.(font := Font("font_temp"), color := Black, textColor := TextWhite);
      outdoorTempPanel := outdoorTempPanel.(fontVertOffset := 6);
      outdoorLabelPanel := outdoorLabelPanel.(font := Font("font_temp_label"), color := Black, textColor := TextWhite);
      outdoorLabelPanel := outdoorLabelPanel.(text := [Literal("outside")]);
      flashPanel := flashPanel.(font := Font("font_flash"), color := Black, textColor := TextWhite);
      flashPanel := flashPanel.(drawPanelOutline := true, enabled := false);
    }

    /**
     * `initializePanels`: every panel gets its font and white-on-black
     * colours, the icons and labels their fixed texts, and the flash starts
     * hidden; positions, sizes and the deadline are kept.
     */
    method InitializePanels()
      modifies this`timePanel, this`dayPanel, this`datePanel, this`contUpPanel, this`contDownPanel,
        this`insideTempPanel, this`insideLabelPanel, this`outdoorTempPanel, this`outdoorLabelPanel, this`flashPanel
      ensures timePanel == old(timePanel).(font := Font("font_time"), color := Black, textColor := TextWhite,
        fontVertOffset := 8)
      ensures dayPanel == old(dayPanel).(font := Font("font_day"), color := Black, textColor := TextWhite)
      ensures datePanel == old(datePanel).(font := Font("font_date"), color := Black, textColor := TextWhite)
      ensures contUpPanel == old(contUpPanel).(font := Font("icon_font_45"), color := Black, textColor := TextWhite,
        text := [Literal(ContUpIcon)])
      ensures contDownPanel == old(contDownPanel).(font := Font("icon_font_45"), color := Black,
        textColor := TextWhite, text := [Literal(ContDownIcon)])
      ensures insideTempPanel == old(insideTempPanel).(font := Font("font_temp"), color := Black,
        textColor := TextWhite, fontVertOffset := 6)
      ensures insideLabelPanel == old(insideLabelPanel).(font := Font("font_temp_label"), color := Black,
        textColor := TextWhite, text := [Literal("room")])
      ensures outdoorTempPanel == old(outdoorTempPanel).(font := Font("font_temp"), color := Black,
        textColor := TextWhite, fontVertOffset := 6)
      ensures outdoorLabelPanel == old(outdoorLabelPanel).(font := Font("font_temp_label"), color := Black,
        textColor := TextWhite, text := [Literal("outside")])
      ensures flashPanel == old(flashPanel).(font := Font("font_flash"), color := Black, textColor := TextWhite,
        drawPanelOutline := true, enabled := false)
      ensures old(Consistent()) ==> Consistent()
    {
      InitializeTopPanels();
      InitializeBottomPanels();
    }

    /** `enableFlash`: show the given lines until one second from now. */
    method EnableFlash(now: Time, flashText: seq<Line>)
      modifies this`flashPanel, this`flashUntil
      ensures flashUntil == FlashDeadline(now)
      ensures flashPanel == old(flashPanel).(enabled := true, text := flashText)
    {
      flashUntil := now.timestamp;
      flashUntil := flashUntil + 1;
      flashPanel := flashPanel.(enabled := true);
      flashPanel := flashPanel.(text := flashText);
    }

    /** The time, on a 12-hour face, the day of the week, and the month and day. */
    method UpdateTimeAndDate(now: Time)
      modifies this`timePanel, this`dayPanel, this`datePanel
      ensures timePanel == old(timePanel).(text := [Clock(TwelveHour(now.hour), now.minute)])
      ensures dayPanel == old(dayPanel).(text := [Stamp("%A", now)])
      ensures datePanel == old(datePanel).(text := [Stamp("%b. %-d", now)])
    {
      var hour := now.hour;
      hour := if hour == 0 then 12 else if hour > 12 then hour - 12 else hour;
      timePanel := timePanel.(text := [Clock(hour, now.minute)]);
      dayPanel := dayPanel.(text := [Stamp("%A", now)]);
      datePanel := datePanel.(text := [Stamp("%b. %-d", now)]);
    }

    /**
     * The temperature panels are shown exactly while either temperature is
     * known; each temperature that is known is refreshed, the other keeps
     * its last text.
     */
    method UpdateTemperatures(insideTemperature: Option<real>, backYardTemperature: Option<real>)
      modifies this`insideLabelPanel, this`insideTempPanel, this`outdoorLabelPanel, this`outdoorTempPanel
      ensures insideLabelPanel == old(insideLabelPanel).(enabled := insideTemperature.Some? || backYardTemperature.Some?)
      ensures outdoorLabelPanel == old(outdoorLabelPanel).(enabled := insideTemperature.Some? || backYardTemperature.Some?)
      ensures insideTempPanel == old(insideTempPanel).(
        enabled := insideTemperature.Some? || backYardTemperature.Some?,
        text := if insideTemperature.Some? then [Reading(insideTemperature.value, "°")] else old(insideTempPanel.text))
      ensures outdoorTempPanel == old(outdoorTempPanel).(
        enabled := insideTemperature.Some? || backYardTemperature.Some?,
        text := if backYardTemperature.Some? then [Reading(backYardTemperature.value, "°")] else old(outdoorTempPanel.text))
    {
      if backYardTemperature.Some? || insideTemperature.Some? {
        insideLabelPanel := insideLabelPanel.(enabled := true);
        insideTempPanel := insideTempPanel.(enabled := true);
        outdoorLabelPanel := outdoorLabelPanel.(enabled := true);
        outdoorTempPanel := outdoorTempPanel.(enabled := true);
        if insideTemperature.Some? {
          insideTempPanel := insideTempPanel.(text := [Reading(insideTemperature.value, "°")]);
        }
        if backYardTemperature.Some? {
          outdoorTempPanel := outdoorTempPanel.(text := [Reading(backYardTemperature.value, "°")]);
        }
      } else {
        insideLabelPanel := insideLabelPanel.(enabled := false);
        insideTempPanel := insideTempPanel.(enabled := false);
        outdoorLabelPanel := outdoorLabelPanel.(enabled := false);
        outdoorTempPanel := outdoorTempPanel.(enabled := false);
      }
    }

    /** Take the flash down once `now` is past its deadline. */
    method ExpireFlash(now: Time)
      modifies this`flashPanel
      ensures flashPanel == old(flashPanel).(enabled := FlashShownAfter(old(flashPanel.enabled), flashUntil, now))
      ensures flashPanel.enabled ==> now.timestamp <= flashUntil
    {
      if flashPanel.enabled && now.timestamp > flashUntil {
        flashPanel := flashPanel.(enabled := false);
      }
    }

    /**
     * `updatePanelStates`: time and date, temperatures, then the flash
     * deadline; every other field of every panel, the brightness buttons and
     * the deadline are kept.
     */
    method UpdatePanelStates(now: Time, insideTemperature: Option<real>, backYardTemperature: Option<real>)
      modifies this`timePanel, this`dayPanel, this`datePanel, this`insideLabelPanel, this`insideTempPanel,
        this`outdoorLabelPanel, this`outdoorTempPanel, this`flashPanel
      ensures timePanel == old(timePanel).(text := [Clock(TwelveHour(now.hour), now.minute)])
      ensures dayPanel == old(dayPanel).(text := [Stamp("%A", now)])
      ensures datePanel == old(datePanel).(text := [Stamp("%b. %-d", now)])
      ensures insideLabelPanel == old(insideLabelPanel).(enabled := insideTemperature.Some? || backYardTemperature.Some?)
      ensures outdoorLabelPanel == old(outdoorLabelPanel).(enabled := insideTemperature.Some? || backYardTemperature.Some?)
      ensures insideTempPanel == old(insideTempPanel).(
        enabled := insideTemperature.Some? || backYardTemperature.Some?,
        text := if insideTemperature.Some? then [Reading(insideTemperature.value, "°")] else old(insideTempPanel.text))
      ensures outdoorTempPanel == old(outdoorTempPanel).(
        enabled := insideTemperature.Some? || backYardTemperature.Some?,
        text := if backYardTemperature.Some? then [Reading(backYardTemperature.value, "°")] else old(outdoorTempPanel.text))
      ensures flashPanel == old(flashPanel).(enabled := FlashShownAfter(old(flashPanel.enabled), flashUntil, now))
      ensures old(Consistent()) ==> Consistent()
    {
      UpdateTimeAndDate(now);
      UpdateTemperatures(insideTemperature, backYardTemperature);
      ExpireFlash(now);
    }

    /** `drawPanels`: the nine panels through `drawAllPanels`, then the flash over them. */
    method DrawPanels(screen: Screen, metrics: Metrics) returns (drawn: Screen)
      ensures drawn == screen + AllPanelsOps(Panels(), metrics) + DrawOps(flashPanel, metrics)
    {
      drawn := DrawAllPanels(screen, Panels(), metrics);
      drawn := flashPanel.Draw(drawn, metrics);
    }
  }

  /** In the kept layout the nine panels drawn together share no pixel. */
  lemma ConsistentLayoutTiles(d: OfficeDisplay)
    requires d.Consistent()
    ensures NoVisibleOverlap(d.Panels())
  {
    OfficeLayoutTiles(d.contDownPanel, d.datePanel, d.dayPanel, d.contUpPanel, d.timePanel,
      d.insideTempPanel, d.insideLabelPanel, d.outdoorLabelPanel, d.outdoorTempPanel);
  }

  /**
   * In the kept layout all panels, the flash included, lie on the 320 x 240
   * display, and the flash lies over the time panel, which is why it is
   * drawn last.
   */
  lemma ConsistentLayoutFits(d: OfficeDisplay)
    requires d.Consistent()
    ensures VisibleWithin(d.Panels() + [d.flashPanel], Width, Height)
    ensures Overlap(d.flashPanel, d.timePanel)
  {
  }
}
