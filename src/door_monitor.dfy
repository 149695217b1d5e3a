/**
 * The back-door monitor's 320 x 240 touch display: a panel per door coloured
 * by whether the door is open and whether it locks itself, two brightness
 * buttons, and a bottom row with the time and the back-yard temperature. The
 * time takes the whole bottom row while no temperature is known.
 */
module DoorMonitor {
  import opened Wrappers
  import opened Clocks
  import opened DisplayPanels

  /** The display, and the panel sizes its percentage layout gives once truncated to whole pixels. */
  const Width: U32 := 320
  const Height: U32 := 240
  const DoorWidth: U32 := 140       // 44% of the width
  const HalfHeight: U32 := 120      // 50% of the height
  const ButtonsX: U32 := 281        // 88% of the width
  const ButtonWidth: U32 := 38      // 12% of the width
  const ButtonHeight: U32 := 60     // 25% of the height
  const TimeWidth: U32 := 192       // 60% of the width
  const TempWidth: U32 := 128       // 40% of the width

  const Yellow: Paint := Named("color_yellow")
  const Orange: Paint := Named("color_orange")
  const Green: Paint := Named("color_green")
  const Red: Paint := Named("color_red")
  const Blue: Paint := Named("color_blue")

  /**
   * The colour of a door's panel: yellow while open with autolock on,
   * orange while open without it, green while closed with autolock on, red
   * while closed without it.
   */
  function DoorColor(open: bool, autolock: bool): (c: Paint)
    ensures c in {Yellow, Orange, Green, Red}
  {
    if open && autolock then Yellow
    else if open && !autolock then Orange
    else if autolock then Green
    else Red
  }

  /** Text on a door panel is black, except white on the red of a closed door without autolock. */
  function DoorTextColor(open: bool, autolock: bool): Paint
  {
    if open then Black else if autolock then Black else White
  }

  /** Each of the four states of a door has its own colour. */
  lemma DoorColorDistinguishesStates(open1: bool, autolock1: bool, open2: bool, autolock2: bool)
    ensures DoorColor(open1, autolock1) == DoorColor(open2, autolock2) <==>
      open1 == open2 && autolock1 == autolock2
  {
  }

  /** Text is white exactly on a red panel, and black on every other colour. */
  lemma WhiteTextOnlyOnRed(open: bool, autolock: bool)
    ensures DoorTextColor(open, autolock) == White <==> DoorColor(open, autolock) == Red
    ensures DoorTextColor(open, autolock) in {Black, White}
  {
  }

  /**
   * The front door's colour as the monitor computes it: the first test reads
   * the back door's autolock where the front door's is meant.
   */
  function FrontDoorColorAsWritten(frontOpen: bool, frontAutolock: bool, backAutolock: bool): Paint
  {
    if frontOpen && backAutolock then Yellow
    else if frontOpen && !frontAutolock then Orange
    else if frontAutolock then Green
    else Red
  }

  /**
   * The front panel shows the front door's state exactly when the front door
   * is closed or both doors have the same autolock setting.
   */
  lemma FrontDoorColorAsWrittenDiffers(frontOpen: bool, frontAutolock: bool, backAutolock: bool)
    ensures FrontDoorColorAsWritten(frontOpen, frontAutolock, backAutolock) != DoorColor(frontOpen, frontAutolock) <==>
      frontOpen && frontAutolock != backAutolock
  {
  }

  /**
   * An open front door without autolock is shown yellow, as if it locked
   * itself, while the back door has autolock on; an open front door with
   * autolock is shown green, as if closed, while the back door has it off.
   */
  lemma FrontDoorColorCounterexample()
    ensures FrontDoorColorAsWritten(true, false, true) == Yellow && DoorColor(true, false) == Orange
    ensures FrontDoorColorAsWritten(true, true, false) == Green && DoorColor(true, true) == Yellow
  {
  }

  /** The lines of a door panel: "<name> Door", with "Open" below while the door is open. */
  function DoorText(name: string, open: bool): seq<Line>
  {
    if open then [Literal(name), Literal("Door"), Literal("Open")] else [Literal(name), Literal("Door")]
  }

  /** The sketch's global panels, which its functions update in place. */
  class DoorMonitorDisplay {
    var backDoorPanel: DisplayPanel
    var frontDoorPanel: DisplayPanel
    var brightnessUpPanel: DisplayPanel
    var brightnessDownPanel: DisplayPanel
    var timePanel: DisplayPanel
    var tempPanel: DisplayPanel

    /** The panels in the order `drawPanels` hands them to `drawAllPanels`. */
    function Panels(): seq<DisplayPanel>
      reads this
    {
      [backDoorPanel, frontDoorPanel, brightnessUpPanel, brightnessDownPanel, timePanel, tempPanel]
    }

    /**
     * The layout the panels keep: every rectangle as declared, except that
     * the bottom row is split 192 + 128 between time and temperature, or
     * given entirely to the time.
     */
    predicate Consistent()
      reads this
    {
      backDoorPanel.x == 0 && backDoorPanel.y == 0 &&
      backDoorPanel.w == DoorWidth && backDoorPanel.h == HalfHeight &&
      frontDoorPanel.x == DoorWidth && frontDoorPanel.y == 0 &&
      frontDoorPanel.w == DoorWidth && frontDoorPanel.h == HalfHeight &&
      brightnessUpPanel.x == ButtonsX && brightnessUpPanel.y == 0 &&
      brightnessUpPanel.w == ButtonWidth && brightnessUpPanel.h == ButtonHeight &&
      brightnessDownPanel.x == ButtonsX && brightnessDownPanel.y == ButtonHeight &&
      brightnessDownPanel.w == ButtonWidth && brightnessDownPanel.h == ButtonHeight &&
      timePanel.x == 0 && timePanel.y == HalfHeight && timePanel.h == HalfHeight &&
      tempPanel.x == TimeWidth && tempPanel.y == HalfHeight && tempPanel.h == HalfHeight &&
      ((timePanel.w == TimeWidth && tempPanel.w == TempWidth) || (timePanel.w == Width && tempPanel.w == 0))
    }

    /** The panels as the sketch declares them. */
    constructor()
      ensures Consistent()
      ensures backDoorPanel == NewPanel(0, 0, DoorWidth, HalfHeight)
      ensures frontDoorPanel == NewPanel(DoorWidth, 0, DoorWidth, HalfHeight)
      ensures brightnessUpPanel == NewPanel(ButtonsX, 0, ButtonWidth, ButtonHeight)
      ensures brightnessDownPanel == NewPanel(ButtonsX, ButtonHeight, ButtonWidth, ButtonHeight)
      ensures timePanel == NewPanel(0, HalfHeight, TimeWidth, HalfHeight)
      ensures tempPanel == NewPanel(TimeWidth, HalfHeight, TempWidth, HalfHeight)
    {
      backDoorPanel := NewPanel(0, 0, DoorWidth, HalfHeight);
      frontDoorPanel := NewPanel(DoorWidth, 0, DoorWidth, HalfHeight);
      brightnessUpPanel := NewPanel(ButtonsX, 0, ButtonWidth, ButtonHeight);
      brightnessDownPanel := NewPanel(ButtonsX, ButtonHeight, ButtonWidth, ButtonHeight);
      timePanel := NewPanel(0, HalfHeight, TimeWidth, HalfHeight);
      tempPanel := NewPanel(TimeWidth, HalfHeight, TempWidth, HalfHeight);
    }

    /**
     * `initializePanels`: the door font pulled up by 5 pixels, white on blue
     * for time and temperature, and the "+" and "-" buttons black on yellow.
     */
    method InitializePanels()
      modifies this
      ensures backDoorPanel == old(backDoorPanel).(font := Font("font_door"), fontVertOffset := -5, fontHeightOffset := -5)
      ensures frontDoorPanel == old(frontDoorPanel).(font := Font("font_door"), fontVertOffset := -5, fontHeightOffset := -5)
      ensures timePanel == old(timePanel).(color := Blue, font := Font("font_time"), textColor := White)
      ensures tempPanel == old(tempPanel).(color := Blue, font := Font("font_temp"), textColor := White)
      ensures brightnessUpPanel == old(brightnessUpPanel).(
        text := [Literal("+")], color := Yellow, font := Font("font_brightness"), textColor := Black)
      ensures brightnessDownPanel == old(brightnessDownPanel).(
        text := [Literal("-")], color := Yellow, font := Font("font_brightness"), textColor := Black)
      ensures old(Consistent()) ==> Consistent()
    {
      backDoorPanel := backDoorPanel.(font := Font("font_door"), fontVertOffset := -5, fontHeightOffset := -5);
      frontDoorPanel := frontDoorPanel.(font := Font("font_door"), fontVertOffset := -5, fontHeightOffset := -5);
      timePanel := timePanel.(color := Blue, font := Font("font_time"), textColor := White);
      tempPanel := tempPanel.(color := Blue, font := Font("font_temp"), textColor := White);
      brightnessUpPanel := brightnessUpPanel.(text := [Literal("+")], color := Yellow);
      brightnessUpPanel := brightnessUpPanel.(font := Font("font_brightness"), textColor := Black);
      brightnessDownPanel := brightnessDownPanel.(text := [Literal("-")], color := Yellow);
      brightnessDownPanel := brightnessDownPanel.(font := Font("font_brightness"), textColor := Black);
    }

    /** Both door panels show their own door's state, the front one with its own autolock. */
    method UpdateDoors(backOpen: bool, backAutolock: bool, frontOpen: bool, frontAutolock: bool)
      modifies this`backDoorPanel, this`frontDoorPanel
      ensures backDoorPanel == old(backDoorPanel).(color := DoorColor(backOpen, backAutolock),
        textColor := DoorTextColor(backOpen, backAutolock), text := DoorText("Back", backOpen))
      ensures frontDoorPanel == old(frontDoorPanel).(color := DoorColor(frontOpen, frontAutolock),
        textColor := DoorTextColor(frontOpen, frontAutolock), text := DoorText("Front", frontOpen))
    {
      backDoorPanel := backDoorPanel.(color := DoorColor(backOpen, backAutolock));
      backDoorPanel := backDoorPanel.(textColor := DoorTextColor(backOpen, backAutolock));
      backDoorPanel := backDoorPanel.(text := DoorText("Back", backOpen));
      frontDoorPanel := frontDoorPanel.(color := DoorColor(frontOpen, frontAutolock));
      frontDoorPanel := frontDoorPanel.(textColor := DoorTextColor(frontOpen, frontAutolock));
      frontDoorPanel := frontDoorPanel.(text := DoorText("Front", frontOpen));
    }

    /** The time, on a 12-hour face. */
    method UpdateTime(now: Time)
      modifies this`timePanel
      ensures timePanel == old(timePanel).(text := [Clock(TwelveHour(now.hour), now.minute)])
    {
      var hour := now.hour;
      hour := if hour == 0 then 12 else if hour > 12 then hour - 12 else hour;
      timePanel := timePanel.(text := [Clock(hour, now.minute)]);
    }

    /**
     * With a temperature the bottom row is split and the temperature
     * refreshed; without one the time takes the row and the temperature
     * panel, zero wide, keeps its last text.
     */
    method UpdateTemperature(backYardTemperature: Option<real>)
      modifies this`timePanel, this`tempPanel
      ensures timePanel == old(timePanel).(w := if backYardTemperature.Some? then TimeWidth else Width)
      ensures tempPanel == old(tempPanel).(
        w := if backYardTemperature.Some? then TempWidth else 0,
        text := if backYardTemperature.Some? then [Reading(backYardTemperature.value, "Â°")] else old(tempPanel.text))
    {
      if backYardTemperature.Some? {
        timePanel := timePanel.(w := TimeWidth);
        tempPanel := tempPanel.(w := TempWidth);
        tempPanel := tempPanel.(text := [Reading(backYardTemperature.value, "Â°")]);
      } else {
        timePanel := timePanel.(w := Width);
        tempPanel := tempPanel.(w := 0);
      }
    }

    /** `updatePanelStates`: doors, time and temperature; the layout is kept. */
    method UpdatePanelStates(now: Time, backOpen: bool, backAutolock: bool, frontOpen: bool, frontAutolock: bool,
                             backYardTemperature: Option<real>)
      modifies this
      ensures backDoorPanel == old(backDoorPanel).(color := DoorColor(backOpen, backAutolock),
        textColor := DoorTextColor(backOpen, backAutolock), text := DoorText("Back", backOpen))
      ensures frontDoorPanel == old(frontDoorPanel).(color := DoorColor(frontOpen, frontAutolock),
        textColor := DoorTextColor(frontOpen, frontAutolock), text := DoorText("Front", frontOpen))
      ensures brightnessUpPanel == old(brightnessUpPanel) && brightnessDownPanel == old(brightnessDownPanel)
      ensures timePanel == old(timePanel).(text := [Clock(TwelveHour(now.hour), now.minute)],
        w := if backYardTemperature.Some? then TimeWidth else Width)
      ensures tempPanel == old(tempPanel).(
        w := if backYardTemperature.Some? then TempWidth else 0,
        text := if backYardTemperature.Some? then [Reading(backYardTemperature.value, "Â°")] else old(tempPanel.text))
      ensures old(Consistent()) ==> Consistent()
    {
      UpdateDoors(backOpen, backAutolock, frontOpen, frontAutolock);
      UpdateTime(now);
      UpdateTemperature(backYardTemperature);
    }

    /** `drawPanels`: all six panels through `drawAllPanels`. */
    method DrawPanels(screen: Screen, metrics: Metrics) returns (drawn: Screen)
      ensures drawn == screen + AllPanelsOps(Panels(), metrics)
    {
      drawn := DrawAllPanels(screen, Panels(), metrics);
    }
  }

  /**
   * In the kept layout no two drawn panels share a pixel and all lie on the
   * 320 x 240 display; the temperature panel draws nothing while it is zero
   * wide.
   */
  lemma ConsistentLayoutTiles(d: DoorMonitorDisplay)
    requires d.Consistent()
    ensures NoVisibleOverlap(d.Panels())
    ensures VisibleWithin(d.Panels(), Width, Height)
    ensures d.tempPanel.w == 0 ==> !Visible(d.tempPanel)
  {
  }
}
