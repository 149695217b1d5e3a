/**
 * The guest room's 128 x 64 display: time, next alarm (or the wind) and date
 * in a left column, and a right column with the room and outside
 * temperatures under their labels. The left column widens over the right one
 * while neither temperature is known.
 */
module GuestRoomDisplay {
  import opened Wrappers
  import opened Clocks
  import opened DisplayPanels

  const TimeWidth: U32 := 92
  const TimeHeight: U32 := 37
  const AlarmWidth: U32 := 92
  const AlarmHeight: U32 := 13
  const TempWidth: U32 := 36
  const TempHeight: U32 := 22
  const TempLabelWidth: U32 := TempWidth
  const TempLabelHeight: U32 := 10
  const DateWidth: U32 := TimeWidth
  const DateHeight: U32 := 14
  const TotalWidth: U32 := TimeWidth + TempWidth

  /** The height of both columns. */
  const DisplayHeight: int := 64

  /** Wind speeds from 200 up are taken as a faulty reading and not shown. */
  const WindSpeedLimit: real := 200.0

  /**
   * The second line of the left column: the next alarm when there is one,
   * otherwise the wind (speed, then gust and direction when known) when a
   * plausible speed is known, otherwise blank.
   */
  function AlarmOrWindLine(nextAlarm: Option<string>, windSpeed: Option<real>, windGust: Option<real>,
                           windDirection: Option<string>): (r: Line)
    ensures AlarmValid(nextAlarm) ==> r == Literal(nextAlarm.value)
    ensures r.WindGust? ==> r.gust == windGust && r.direction == windDirection
  {
    if AlarmValid(nextAlarm) then Literal(nextAlarm.value)
    else if windSpeed.Some? && windSpeed.value < WindSpeedLimit then WindGust(windSpeed.value, windGust, windDirection)
    else Literal("")
  }

  /**
   * The wind is shown exactly when there is no alarm to show and the speed
   * is known and below the limit; it never hides an alarm.
   */
  lemma WindOnlyWithoutAlarm(nextAlarm: Option<string>, windSpeed: Option<real>, windGust: Option<real>,
                             windDirection: Option<string>)
    ensures AlarmOrWindLine(nextAlarm, windSpeed, windGust, windDirection).WindGust? <==>
      !AlarmValid(nextAlarm) && windSpeed.Some? && windSpeed.value < WindSpeedLimit
    ensures !AlarmValid(nextAlarm) && !(windSpeed.Some? && windSpeed.value < WindSpeedLimit) ==>
      AlarmOrWindLine(nextAlarm, windSpeed, windGust, windDirection) == Literal("")
  {
  }

  /** The width of the time, alarm and date panels: the whole display while the temperature column is hidden. */
  function LeftWidth(showTemperatures: bool): U32
  {
    if showTemperatures then TimeWidth else TotalWidth
  }

  /** The sketch's global panels, which its functions update in place. */
  class GuestRoom {
    var timePanel: DisplayPanel
    var alarmPanel: DisplayPanel
    var datePanel: DisplayPanel
    var insideLabelPanel: DisplayPanel
    var insideTempPanel: DisplayPanel
    var outdoorLabelPanel: DisplayPanel
    var outdoorTempPanel: DisplayPanel

    /** The panels in the order of the sketch's panel list, which `drawPanels` draws. */
    function Panels(): seq<DisplayPanel>
      reads this
    {
      [timePanel, alarmPanel, datePanel, insideLabelPanel, insideTempPanel, outdoorLabelPanel, outdoorTempPanel]
    }

    /**
     * The layout the panels keep: positions and heights as declared, the
     * temperature column 36 wide with its four panels shown or hidden
     * together, and the left column narrow exactly while they are shown.
     */
    predicate Consistent()
      reads this
    {
      timePanel.x == 0 && timePanel.y == 0 && timePanel.h == TimeHeight &&
      alarmPanel.x == 0 && alarmPanel.y == TimeHeight && alarmPanel.h == AlarmHeight &&
      datePanel.x == 0 && datePanel.y == TimeHeight + AlarmHeight && datePanel.h == DateHeight &&
      insideLabelPanel.x == TimeWidth && insideLabelPanel.y == 0 &&
      insideLabelPanel.w == TempLabelWidth && insideLabelPanel.h == TempLabelHeight &&
      insideTempPanel.x == TimeWidth && insideTempPanel.y == TempLabelHeight &&
      insideTempPanel.w == TempWidth && insideTempPanel.h == TempHeight &&
      outdoorLabelPanel.x == TimeWidth && outdoorLabelPanel.y == TempLabelHeight + TempHeight &&
      outdoorLabelPanel.w == TempLabelWidth && outdoorLabelPanel.h == TempLabelHeight &&
      outdoorTempPanel.x == TimeWidth && outdoorTempPanel.y == 2 * TempLabelHeight + TempHeight &&
      outdoorTempPanel.w == TempWidth && outdoorTempPanel.h == TempHeight &&
      insideTempPanel.enabled == insideLabelPanel.enabled &&
      outdoorLabelPanel.enabled == insideLabelPanel.enabled &&
      outdoorTempPanel.enabled == insideLabelPanel.enabled &&
      timePanel.w == LeftWidth(insideLabelPanel.enabled) &&
      alarmPanel.w == LeftWidth(insideLabelPanel.enabled) &&
      datePanel.w == LeftWidth(insideLabelPanel.enabled)
    }

    /** The panels as the sketch declares them. */
    constructor()
      ensures Consistent()
      ensures timePanel == NewPanel(0, 0, TimeWidth, TimeHeight)
      ensures alarmPanel == NewPanel(0, TimeHeight, AlarmWidth, AlarmHeight)
      ensures datePanel == NewPanel(0, TimeHeight + AlarmHeight, DateWidth, DateHeight)
      ensures insideLabelPanel == NewPanel(TimeWidth, 0, TempLabelWidth, TempLabelHeight)
      ensures insideTempPanel == NewPanel(TimeWidth, TempLabelHeight, TempWidth, TempHeight)
      ensures outdoorLabelPanel == NewPanel(TimeWidth, TempLabelHeight + TempHeight, TempLabelWidth, TempLabelHeight)
      ensures outdoorTempPanel == NewPanel(TimeWidth, 2 * TempLabelHeight + TempHeight, TempWidth, TempHeight)
    {
      timePanel := NewPanel(0, 0, TimeWidth, TimeHeight);
      alarmPanel := NewPanel(0, TimeHeight, AlarmWidth, AlarmHeight);
      datePanel := NewPanel(0, TimeHeight + AlarmHeight, DateWidth, DateHeight);
      insideLabelPanel := NewPanel(TimeWidth, 0, TempLabelWidth, TempLabelHeight);
      insideTempPanel := NewPanel(TimeWidth, TempLabelHeight, TempWidth, TempHeight);
      outdoorLabelPanel := NewPanel(TimeWidth, TempLabelHeight + TempHeight, TempLabelWidth, TempLabelHeight);
      outdoorTempPanel := NewPanel(TimeWidth, 2 * TempLabelHeight + TempHeight, TempWidth, TempHeight);
    }

    /** `initializePanels`: fonts, white on black, and the fixed "room" and "outside" labels. */
    method InitializePanels()
      modifies this
      ensures timePanel == old(timePanel).(font := Font("font_time"), color := Black, textColor := White)
      ensures alarmPanel == old(alarmPanel).(font := Font("font_alarm"), color := Black, textColor := White)
      ensures datePanel == old(datePanel).(font := Font("font_date"), color := Black, textColor := White)
      ensures insideLabelPanel == old(insideLabelPanel).(font := Font("font_temp_label"),
        color := Black, textColor := White, text := [Literal("room")])
      ensures insideTempPanel == old(insideTempPanel).(font := Font("font_temp"), color := Black, textColor := White)
      ensures outdoorLabelPanel == old(outdoorLabelPanel).(font := Font("font_temp_label"),
        color := Black, textColor := White, text := [Literal("outside")])
      ensures outdoorTempPanel == old(outdoorTempPanel).(font := Font("font_temp"), color := Black, textColor := White)
      ensures old(Consistent()) ==> Consistent()
    {
      timePanel := timePanel.(font := Font("font_time"), color := Black, textColor := White);
      alarmPanel := alarmPanel.(font := Font("font_alarm"), color := Black, textColor := White);
      datePanel := datePanel.(font := Font("font_date"), color := Black, textColor := White);
      insideLabelPanel := insideLabelPanel.(font := Font("font_temp_label"), color := Black, textColor := White);
      insideLabelPanel := insideLabelPanel.(text := [Literal("room")]);
      insideTempPanel := insideTempPanel.(font := Font("font_temp"), color := Black, textColor := White);
      outdoorLabelPanel := outdoorLabelPanel.(font := Font("font_temp_label"), color := Black, textColor := White);
      outdoorLabelPanel := outdoorLabelPanel.(text := [Literal("outside")]);
      outdoorTempPanel := outdoorTempPanel.(font := Font("font_temp"), color := Black, textColor := White);
    }

    /** The time, on a 12-hour face. */
    method UpdateTime(now: Time)
      modifies this`timePanel
      ensures timePanel == old(timePanel).(text := [Clock(TwelveHour(now.hour), now.minute)])
    {
      var hour := now.hour;
      hour := if hour == 0 then 12 else if hour > 12 then hour - 12 else hour;
      timePanel := timePanel.(text := [Clock(hour, now.minute)]);
    }

    /** The next alarm, else the wind, else a blank line. */
    method UpdateAlarm(nextAlarm: Option<string>, windSpeed: Option<real>, windGust: Option<real>,
                       windDirection: Option<string>)
      modifies this`alarmPanel
      ensures alarmPanel == old(alarmPanel).(text := [AlarmOrWindLine(nextAlarm, windSpeed, windGust, windDirection)])
    {
      if nextAlarm.Some? && nextAlarm.value != "unavailable" {
        alarmPanel := alarmPanel.(text := [Literal(nextAlarm.value)]);
      } else if windSpeed.Some? && windSpeed.value < WindSpeedLimit {
        alarmPanel := alarmPanel.(text := [WindGust(windSpeed.value, windGust, windDirection)]);
      } else {
        alarmPanel := alarmPanel.(text := [Literal("")]);
      }
    }

    /**
     * With either temperature the temperature column is shown and the left
     * column narrowed, and each temperature that is known is refreshed (the
     * other keeps its last text); with neither the column is hidden and the
     * left column takes the whole width.
     */
    method UpdateTemperatures(insideTemperature: Option<real>, backYardTemperature: Option<real>)
      modifies this`timePanel, this`alarmPanel, this`datePanel, this`insideLabelPanel, this`insideTempPanel,
        this`outdoorLabelPanel, this`outdoorTempPanel
      ensures var show := insideTemperature.Some? || backYardTemperature.Some?;
        timePanel == old(timePanel).(w := LeftWidth(show)) &&
        alarmPanel == old(alarmPanel).(w := LeftWidth(show)) &&
        datePanel == old(datePanel).(w := LeftWidth(show)) &&
        insideLabelPanel == old(insideLabelPanel).(enabled := show) &&
        outdoorLabelPanel == old(outdoorLabelPanel).(enabled := show)
      ensures insideTempPanel == old(insideTempPanel).(
        enabled := insideTemperature.Some? || backYardTemperature.Some?,
        text := if insideTemperature.Some? then [Reading(insideTemperature.value, "°")] else old(insideTempPanel.text))
      ensures outdoorTempPanel == old(outdoorTempPanel).(
        enabled := insideTemperature.Some? || backYardTemperature.Some?,
        text := if backYardTemperature.Some? then [Reading(backYardTemperature.value, "°")] else old(outdoorTempPanel.text))
      ensures old(Consistent()) ==> Consistent()
    {
      if backYardTemperature.Some? || insideTemperature.Some? {
        timePanel := timePanel.(w := TimeWidth);
        datePanel := datePanel.(w := DateWidth);
        alarmPanel := alarmPanel.(w := AlarmWidth);
        insideTempPanel := insideTempPanel.(enabled := true);
        outdoorTempPanel := outdoorTempPanel.(enabled := true);
        insideLabelPanel := insideLabelPanel.(enabled := true);
        outdoorLabelPanel := outdoorLabelPanel.(enabled := true);
        if insideTemperature.Some? {
          insideTempPanel := insideTempPanel.(text := [Reading(insideTemperature.value, "°")]);
        }
        if backYardTemperature.Some? {
          outdoorTempPanel := outdoorTempPanel.(text := [Reading(backYardTemperature.value, "°")]);
        }
      } else {
        timePanel := timePanel.(w := TotalWidth);
        datePanel := datePanel.(w := TotalWidth);
        alarmPanel := alarmPanel.(w := TotalWidth);
        insideTempPanel := insideTempPanel.(enabled := false);
        outdoorTempPanel := outdoorTempPanel.(enabled := false);
        insideLabelPanel := insideLabelPanel.(enabled := false);
        outdoorLabelPanel := outdoorLabelPanel.(enabled := false);
      }
    }

    /**
     * `updatePanelStates`: the time, the alarm or wind line and the date
     * (weekday, month and day) are refreshed, then the temperature column is
     * shown or hidden. The layout is kept.
     */
    method UpdatePanelStates(now: Time, nextAlarm: Option<string>, windSpeed: Option<real>, windGust: Option<real>,
                             windDirection: Option<string>, insideTemperature: Option<real>,
                             backYardTemperature: Option<real>)
      modifies this
      ensures var show := insideTemperature.Some? || backYardTemperature.Some?;
        timePanel == old(timePanel).(text := [Clock(TwelveHour(now.hour), now.minute)], w := LeftWidth(show)) &&
        alarmPanel == old(alarmPanel).(
          text := [AlarmOrWindLine(nextAlarm, windSpeed, windGust, windDirection)], w := LeftWidth(show)) &&
        datePanel == old(datePanel).(text := [Stamp("%a/%b %-d", now)], w := LeftWidth(show)) &&
        insideLabelPanel == old(insideLabelPanel).(enabled := show) &&
        outdoorLabelPanel == old(outdoorLabelPanel).(enabled := show)
      ensures insideTempPanel == old(insideTempPanel).(
        enabled := insideTemperature.Some? || backYardTemperature.Some?,
        text := if insideTemperature.Some? then [Reading(insideTemperature.value, "°")] else old(insideTempPanel.text))
      ensures outdoorTempPanel == old(outdoorTempPanel).(
        enabled := insideTemperature.Some? || backYardTemperature.Some?,
        text := if backYardTemperature.Some? then [Reading(backYardTemperature.value, "°")] else old(outdoorTempPanel.text))
      ensures old(Consistent()) ==> Consistent()
    {
      UpdateTime(now);
      UpdateAlarm(nextAlarm, windSpeed, windGust, windDirection);
      datePanel := datePanel.(text := [Stamp("%a/%b %-d", now)]);
      UpdateTemperatures(insideTemperature, backYardTemperature);
    }

    /** `drawPanels`: the seven panels through `drawAllPanels`. */
    method DrawPanels(screen: Screen, metrics: Metrics) returns (drawn: Screen)
      ensures drawn == screen + AllPanelsOps(Panels(), metrics)
    {
      drawn := DrawAllPanels(screen, Panels(), metrics);
    }
  }

  /**
   * In the kept layout no two drawn panels share a pixel and all lie on the
   * 128 x 64 display: the temperature column is drawn only while the left
   * column is narrow.
   */
  lemma ConsistentLayoutTiles(g: GuestRoom)
    requires g.Consistent()
    ensures NoVisibleOverlap(g.Panels())
    ensures VisibleWithin(g.Panels(), TotalWidth, DisplayHeight)
  {
    var ps := g.Panels();
    if g.insideLabelPanel.enabled {
      assert forall i :: 0 <= i < 3 ==> ps[i].x + ps[i].w == TimeWidth;
    } else {
      assert forall i :: 3 <= i < 7 ==> !Visible(ps[i]);
    }
  }

  /** Both columns are exactly as tall as the display. */
  lemma ColumnsFillHeight()
    ensures TimeHeight + AlarmHeight + DateHeight == DisplayHeight
    ensures 2 * (TempLabelHeight + TempHeight) == DisplayHeight
  {
  }
}
