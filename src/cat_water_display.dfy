/**
 * The cat water sensor's 128 x 64 display: time, next alarm (or the day of
 * the week) and date in a left column, and a right column with a "Cat H2O"
 * symbol over the water level. The left column widens over the right one
 * while the water level is unknown.
 */
module CatWaterDisplay {
  import opened Wrappers
  import opened Clocks
  import opened DisplayPanels

  const TimeWidth: U32 := 92
  const TimeHeight: U32 := 37
  const AlarmWidth: U32 := 92
  const AlarmHeight: U32 := 13
  const DateWidth: U32 := TimeWidth
  const DateHeight: U32 := 14
  const Col2Width: U32 := 36
  const Col2RowHeight: U32 := 32
  const TotalWidth: U32 := TimeWidth + Col2Width

  /** The height of both columns. */
  const DisplayHeight: int := 64

  /** The alarm panel's line: the next alarm when there is one, else the day of the week. */
  function AlarmLine(nextAlarm: Option<string>, now: Time): Line
  {
    if AlarmValid(nextAlarm) then Literal(nextAlarm.value) else Stamp("%A", now)
  }

  /** The width of the time, alarm and date panels: the whole display while the water column is hidden. */
  function LeftWidth(showWater: bool): U32
  {
    if showWater then TimeWidth else TotalWidth
  }

  /** The sketch's global panels, which its functions update in place. */
  class CatWaterSensor {
    var timePanel: DisplayPanel
    var alarmPanel: DisplayPanel
    var datePanel: DisplayPanel
    var waterSymbolPanel: DisplayPanel
    var waterPercentPanel: DisplayPanel

    /** The panels in drawing order. */
    function Panels(): seq<DisplayPanel>
      reads this
    {
      [timePanel, alarmPanel, datePanel, waterSymbolPanel, waterPercentPanel]
    }

    /**
     * The layout the panels keep: positions and heights as declared, the
     * water column 36 wide, both water panels shown or hidden together, and
     * the left column narrow exactly while they are shown.
     */
    predicate Consistent()
      reads this
    {
      timePanel.x == 0 && timePanel.y == 0 && timePanel.h == TimeHeight &&
      alarmPanel.x == 0 && alarmPanel.y == TimeHeight && alarmPanel.h == AlarmHeight &&
      datePanel.x == 0 && datePanel.y == TimeHeight + AlarmHeight && datePanel.h == DateHeight &&
      waterSymbolPanel.x == TimeWidth && waterSymbolPanel.y == 0 &&
      waterSymbolPanel.w == Col2Width && waterSymbolPanel.h == Col2RowHeight &&
      waterPercentPanel.x == TimeWidth && waterPercentPanel.y == Col2RowHeight &&
      waterPercentPanel.w == Col2Width && waterPercentPanel.h == Col2RowHeight &&
      waterSymbolPanel.enabled == waterPercentPanel.enabled &&
      timePanel.w == LeftWidth(waterSymbolPanel.enabled) &&
      alarmPanel.w == LeftWidth(waterSymbolPanel.enabled) &&
      datePanel.w == LeftWidth(waterSymbolPanel.enabled)
    }

    /** The panels as the sketch declares them. */
    constructor()
      ensures Consistent()
      ensures timePanel == NewPanel(0, 0, TimeWidth, TimeHeight)
      ensures alarmPanel == NewPanel(0, TimeHeight, AlarmWidth, AlarmHeight)
      ensures datePanel == NewPanel(0, TimeHeight + AlarmHeight, DateWidth, DateHeight)
      ensures waterSymbolPanel == NewPanel(TimeWidth, 0, Col2Width, Col2RowHeight)
      ensures waterPercentPanel == NewPanel(TimeWidth, Col2RowHeight, Col2Width, Col2RowHeight)
    {
      timePanel := NewPanel(0, 0, TimeWidth, TimeHeight);
      alarmPanel := NewPanel(0, TimeHeight, AlarmWidth, AlarmHeight);
      datePanel := NewPanel(0, TimeHeight + AlarmHeight, DateWidth, DateHeight);
      waterSymbolPanel := NewPanel(TimeWidth, 0, Col2Width, Col2RowHeight);
      waterPercentPanel := NewPanel(TimeWidth, Col2RowHeight, Col2Width, Col2RowHeight);
    }

    /** `initializePanels`: fonts, white on black, the fixed "Cat H2O" symbol and a blank water level. */
    method InitializePanels()
      modifies this
      ensures timePanel == old(timePanel).(font := Font("font_time"), color := Black, textColor := White)
      ensures alarmPanel == old(alarmPanel).(font := Font("font_alarm"), color := Black, textColor := White)
      ensures datePanel == old(datePanel).(font := Font("font_date"), color := Black, textColor := White)
      ensures waterSymbolPanel == old(waterSymbolPanel).(font := Font("font_water"),
        color := Black, textColor := White, text := [Literal("Cat"), Literal("H2O")])
      ensures waterPercentPanel == old(waterPercentPanel).(font := Font("font_water"),
        color := Black, textColor := White, text := [])
      ensures old(Consistent()) ==> Consistent()
    {
      timePanel := timePanel.(font := Font("font_time"), color := Black, textColor := White);
      alarmPanel := alarmPanel.(font := Font("font_alarm"), color := Black, textColor := White);
      datePanel := datePanel.(font := Font("font_date"), color := Black, textColor := White);
      waterSymbolPanel := waterSymbolPanel.(font := Font("font_water"), color := Black, textColor := White);
      waterSymbolPanel := waterSymbolPanel.(text := [Literal("Cat"), Literal("H2O")]);
      waterPercentPanel := waterPercentPanel.(font := Font("font_water"), color := Black, textColor := White);
      waterPercentPanel := waterPercentPanel.(text := []);
    }

    /** `drawPanels`: each panel in full, one after the other. */
    method DrawPanels(screen: Screen, metrics: Metrics) returns (drawn: Screen)
      ensures drawn == screen + DrawOps(timePanel, metrics) + DrawOps(alarmPanel, metrics) +
        DrawOps(datePanel, metrics) + DrawOps(waterSymbolPanel, metrics) + DrawOps(waterPercentPanel, metrics)
    {
      drawn := timePanel.Draw(screen, metrics);
      drawn := alarmPanel.Draw(drawn, metrics);
      drawn := datePanel.Draw(drawn, metrics);
      drawn := waterSymbolPanel.Draw(drawn, metrics);
      drawn := waterPercentPanel.Draw(drawn, metrics);
    }

    /** The time, on a 12-hour face. */
    method UpdateTime(now: Time)
      modifies this`timePanel
      ensures timePanel == old(timePanel).(text := [Clock(TwelveHour(now.hour), now.minute)])
    {
      var hour := now.hour;
      hour := if hour == 0 then 12 else if hour > 12 then hour - 12 else hour;
      timePanel := timePanel.(text := [Clock(hour, now.minute)]);
    }

    /** The next alarm when it is known, otherwise the day of the week. */
    method UpdateAlarm(now: Time, nextAlarm: Option<string>)
      modifies this`alarmPanel
      ensures alarmPanel == old(alarmPanel).(text := [AlarmLine(nextAlarm, now)])
    {
      if nextAlarm.Some? && nextAlarm.value != "unavailable" {
        alarmPanel := alarmPanel.(text := [Literal(nextAlarm.value)]);
      } else {
        alarmPanel := alarmPanel.(text := [Stamp("%A", now)]);
      }
    }

    /**
     * With a water level the water column is shown, the level refreshed and
     * the left column narrowed; without one the column is hidden, keeping its
     * last level, and the left column takes the whole width.
     */
    method UpdateWater(waterPercentage: Option<real>)
      modifies this`timePanel, this`alarmPanel, this`datePanel, this`waterSymbolPanel, this`waterPercentPanel
      ensures timePanel == old(timePanel).(w := LeftWidth(waterPercentage.Some?))
      ensures alarmPanel == old(alarmPanel).(w := LeftWidth(waterPercentage.Some?))
      ensures datePanel == old(datePanel).(w := LeftWidth(waterPercentage.Some?))
      ensures waterSymbolPanel == old(waterSymbolPanel).(enabled := waterPercentage.Some?)
      ensures waterPercentPanel == old(waterPercentPanel).(
        enabled := waterPercentage.Some?,
        text := if waterPercentage.Some? then [Reading(waterPercentage.value, "%")] else old(waterPercentPanel.text))
      ensures old(Consistent()) ==> Consistent()
    {
      if waterPercentage.Some? {
        timePanel := timePanel.(w := TimeWidth);
        datePanel := datePanel.(w := DateWidth);
        alarmPanel := alarmPanel.(w := AlarmWidth);
        waterSymbolPanel := waterSymbolPanel.(enabled := true);
        waterPercentPanel := waterPercentPanel.(enabled := true);
        waterPercentPanel := waterPercentPanel.(text := [Reading(waterPercentage.value, "%")]);
      } else {
        timePanel := timePanel.(w := TotalWidth);
        datePanel := datePanel.(w := TotalWidth);
        alarmPanel := alarmPanel.(w := TotalWidth);
        waterSymbolPanel := waterSymbolPanel.(enabled := false);
        waterPercentPanel := waterPercentPanel.(enabled := false);
      }
    }

    /**
     * `updatePanelStates`: the time, the alarm or day line and the date
     * (month and day) are refreshed, then the water column is shown or
     * hidden. The layout is kept.
     */
    method UpdatePanelStates(now: Time, nextAlarm: Option<string>, waterPercentage: Option<real>)
      modifies this
      ensures timePanel == old(timePanel).(
        text := [Clock(TwelveHour(now.hour), now.minute)], w := LeftWidth(waterPercentage.Some?))
      ensures alarmPanel == old(alarmPanel).(
        text := [AlarmLine(nextAlarm, now)], w := LeftWidth(waterPercentage.Some?))
      ensures datePanel == old(datePanel).(
        text := [Stamp("%b %-d", now)], w := LeftWidth(waterPercentage.Some?))
      ensures waterSymbolPanel == old(waterSymbolPanel).(enabled := waterPercentage.Some?)
      ensures waterPercentPanel == old(waterPercentPanel).(
        enabled := waterPercentage.Some?,
        text := if waterPercentage.Some? then [Reading(waterPercentage.value, "%")] else old(waterPercentPanel.text))
      ensures old(Consistent()) ==> Consistent()
    {
      UpdateTime(now);
      UpdateAlarm(now, nextAlarm);
      datePanel := datePanel.(text := [Stamp("%b %-d", now)]);
      UpdateWater(waterPercentage);
    }
  }

  /**
   * In the kept layout no two drawn panels share a pixel and all lie on the
   * 128 x 64 display: the water column is drawn only while the left column
   * is narrow.
   */
  lemma ConsistentLayoutTiles(c: CatWaterSensor)
    requires c.Consistent()
    ensures NoVisibleOverlap(c.Panels())
    ensures VisibleWithin(c.Panels(), TotalWidth, DisplayHeight)
  {
  }

  /** The water column is exactly as tall as the left column. */
  lemma ColumnsSameHeight()
    ensures TimeHeight + AlarmHeight + DateHeight == DisplayHeight
    ensures 2 * Col2RowHeight == DisplayHeight
  {
  }
}
