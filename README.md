# ESPHome clock and panel sketches, modelled in Dafny

This project models the logic of a set of ESPHome C++ sketches:

- **BCD LED clock.** Hours, minutes and seconds are split into decimal digits (`dec_to_bin`). Each digit's four bits are written into an addressable LED buffer. The matrix version goes through a fixed wiring table (`setBCDLEDs`, `setLEDGroup`). The strip version writes contiguous LED ranges (`turnOnLEDs`).
- **Matrix addressing.** `MatrixPixel` maps serpentine LED positions to (row, column) and back, and bounds-checks both directions.
- **Effect hooks.** The base hooks do nothing, and `averageColors` averages pixel colours. Flicker dims pure primaries by a random amount. Bleed lights unset cells from their first lit neighbour.
- **Sample smoothing.** The cat water sensor uses a 10-tap moving-average filter over a cyclic buffer, plus a "recent minimum" hysteresis rule. `cat-water-sensor/FIR.h` holds the same filter code as `data-smoothing.h` (`initFIR` and `observeSample`), without the recent-minimum part and with different comments, so the filter is modelled once.
- **Display panels.** `DisplayPanel` and `DisplayTouchPanel` hit-test touches against a rectangle fixed at construction. They skip drawing when disabled or empty, and `drawAllPanels` fills every panel before printing any text. The two copies of `display-touch-panel.h` (guest-time-temp and tft-office) are the same code and share one model.
- **Per-device panel logic.** This covers five devices:
  - the door monitor;
  - the guest room clock;
  - the cat water display;
  - the office clock;
  - the office clock with wind.

  Each device converts the hour to a 12-hour face and picks texts and colours from its sensors. It shows, hides, narrows or widens panels depending on which sensors have a state. The office devices raise and expire a flash message.

How each kind of code is modelled:

- **Loops** over buffers are methods proved against specification functions, for example:
  - `dec_to_bin` and `Digits`;
  - `setBCDLEDs` and `Painted`;
  - `averageColors` and `Average`;
  - the Bleed pass and `BleedPixels`;
  - `observeSample` and the window mean;
  - `drawAllPanels` and `AllPanelsOps`.
- **The sketches' global state** is a class per device, and the filter state is a class too. Their methods change exactly the fields the source assigns. Drawing is recorded as a list of display calls (`DrawOp`).
- **Sensors, the clock and `rand()`** are inputs:
  - a sensor without a state is `None`;
  - the clock is a `Time` of epoch seconds, hour and minute;
  - `rand()` is a natural number.
- **Panel text** is an abstract `Line` that records what a line is made from, not the formatted characters.

## Model

| member | source | states |
|---|---|---|
| Bcd.Digits | bcd-led-clock/bcd-led-clock.h:24-32 | every BCD group holds a decimal digit 0..9, and the first group of a positive number is non-zero (most significant first) |
| Bcd.Reversed | bcd-led-clock/bcd-led-clock.h:30 | `std::reverse` keeps the length and puts element `len-1-i` at index i |
| Bcd.DecToBin | bcd-led-clock/bcd-led-clock.h:24-32 | the divide-and-push loop followed by the reversal yields exactly the decimal digits of n, most significant first (the same code is bcd-led-clock/bcd-lcd-clock.h:28-36) |
| Bcd.ValueOfDigits | bcd-led-clock/bcd-led-clock.h:26-30 | folding `acc * 10 + g` over the groups gives back n for every n >= 0 |
| Bcd.DigitsLength | bcd-led-clock/bcd-led-clock.h:17-19 | no groups iff n <= 0, one group iff 1 <= n <= 9, two groups iff 10 <= n <= 99 |
| Bcd.TwoDigitGroups | bcd-led-clock/bcd-led-clock.h:26-30 | for 10..99 the two groups are the tens digit and then the ones digit |
| Bcd.OneDigitGroup | bcd-led-clock/bcd-led-clock.h:26-30 | for 1..9 the single group is the number itself |
| Bcd.HighBitsClear | bcd-led-clock/bcd-led-clock.h:27 | a digit below 2^w has no bit set at index w or above |
| LedColor.ToChannel | bcd-led-clock/bcd_led_clock/effect_flickr.h:24-30 | storing an int in an 8-bit colour channel keeps 0..255 unchanged and otherwise reduces it modulo 256 |
| LedStripClock.TurnedOn | bcd-led-clock/bcd-lcd-clock.h:41-47 | the buffer after `turnOnLEDs` has the length of the buffer before; which LEDs it lights is stated by `TurnedOnStaysInRange` |
| LedStripClock.TurnOnLeds | bcd-led-clock/bcd-lcd-clock.h:41-47 | the buffer after the loop is `TurnedOn` of the buffer before: LED startLED+i takes onColor when i < numLEDs and bit i is set, and every other LED keeps its colour |
| LedStripClock.TurnedOnStaysInRange | bcd-led-clock/bcd-lcd-clock.h:42-44 | every set bit below numLEDs lights its LED; nothing outside [startLED, startLED+numLEDs) changes; every LED ends with its old colour or onColor |
| LedStripClock.ColumnsTileTheStrip | bcd-led-clock/bcd-lcd-clock.h:5-18 | the six column ranges start at 0, each starts where the previous one ends, they end at LED 20, and each holds 1 to 4 LEDs (so `numLEDs <= 4` always holds) |
| LedStripClock.EachLedInOneColumn | bcd-led-clock/bcd-lcd-clock.h:5-18 | every LED 0..19 belongs to exactly one column range |
| LedStripClock.TensDigitFitsColumn | bcd-led-clock/bcd-lcd-clock.h:5-18 | the tens digit of a minute or second sets no bit beyond the 3 LEDs of its column, and that of an hour no bit beyond its 2 LEDs |
| LedMatrixClock.Painted | bcd-led-clock/bcd-led-clock.h:37-43 | the buffer after `setBCDLEDs` has the length of the buffer before; which LEDs it paints is stated by `PaintedWritesSetBits` |
| LedMatrixClock.SetBcdLeds | bcd-led-clock/bcd-led-clock.h:37-43 | the buffer after the loop is `Painted` of the buffer before: `col[i]` takes the colour when bit i is set, every other LED keeps its colour |
| LedMatrixClock.SetLedGroup | bcd-led-clock/bcd-led-clock.h:48-61 | one group draws into the ones column, two groups draw the tens into column 0 and the ones into column 1, any other number draws nothing |
| LedMatrixClock.PaintedWritesSetBits | bcd-led-clock/bcd-led-clock.h:38-40 | every set bit i < col.size() paints `col[i]`; no LED turns off or changes to another colour; LEDs not in the column keep their colour |
| LedMatrixClock.HighBitsIgnored | bcd-led-clock/bcd-led-clock.h:38-39 | bits at index col.size() or above are never read: two nibbles that agree below it paint the same buffer |
| LedMatrixClock.GroupTouchesOnlyItsColumns | bcd-led-clock/bcd-led-clock.h:54-60 | an LED outside the ones column (and outside the tens column when there are two groups) keeps its colour |
| LedMatrixClock.ShortGroupsTouchOnlyOnes | bcd-led-clock/bcd-led-clock.h:54-56 | with one group only the ones column changes; with no group the buffer is unchanged |
| LedMatrixClock.WiringFollowsSerpentine | bcd-led-clock/bcd-led-clock.h:5-12 | bit i of a group's tens digit is the LED in row i of the group's left matrix column, and bit i of its ones digit is the LED in row i of its right column, under the serpentine addressing of a 6-column matrix |
| LedMatrixClock.TensColumn | bcd-led-clock/bcd-led-clock.h:5-12 | every tens LED of a group lies on the 24-LED matrix, in the group's left column |
| LedMatrixClock.OnesColumn | bcd-led-clock/bcd-led-clock.h:5-12 | every ones LED of a group lies on the 24-LED matrix, in the group's right column |
| LedMatrixClock.WiredInGroupColumns | bcd-led-clock/bcd-led-clock.h:5-12 | every LED in a group's table lies on the matrix, in one of the group's two columns |
| LedMatrixClock.TensAndOnesDisjoint | bcd-led-clock/bcd-led-clock.h:5-12 | a group's tens list and ones list share no LED |
| LedMatrixClock.GroupsDisjoint | bcd-led-clock/bcd-led-clock.h:5-12 | the LED lists of two different groups share no LED |
| LedMatrixClock.OtherGroupsUntouched | bcd-led-clock/bcd-led-clock.h:48-61 | drawing one group never changes an LED wired to another group |
| LedMatrixClock.NoBitDropped | bcd-led-clock/bcd-led-clock.h:5-12 | for hours up to 23 and minutes and seconds up to 59, every set bit of the tens digit has an LED in its list, and every ones list has 4 LEDs |
| LedMatrixClock.ClockGroupFits | bcd-led-clock/bcd-led-clock.h:48-61 | every value a group shows draws only inside a buffer of 24 LEDs or more |
| MatrixPixels.RowIsFloor | bcd-led-clock/bcd_led_clock/matrix_pixel.h:22-38 | for positions >= 0 the row is position / columns, and the column is position % columns, reflected on odd rows |
| MatrixPixels.Serpentine | bcd-led-clock/bcd_led_clock/matrix_pixel.h:44-47 | the position is C*r + c on even rows and C*r + (C-1-c) on odd rows |
| MatrixPixels.PositionInBounds | bcd-led-clock/bcd_led_clock/matrix_pixel.h:44-47 | every in-bounds (row, column) maps into [0, rows*columns) |
| MatrixPixels.RowColumnRoundTrip | bcd-led-clock/bcd_led_clock/matrix_pixel.h:22-47 | (row, column) → position → (row, column) is the identity for row >= 0 and 0 <= column < columns |
| MatrixPixels.PositionRoundTrip | bcd-led-clock/bcd_led_clock/matrix_pixel.h:22-47 | position → (row, column) → position is the identity for every position >= 0, with the column in range |
| MatrixPixels.RowInBounds | bcd-led-clock/bcd_led_clock/matrix_pixel.h:22-24 | a position below rows*columns lies on a row below rows |
| MatrixPixels.FromPosition | bcd-led-clock/bcd_led_clock/matrix_pixel.h:54-62 | on the matrix iff 0 <= position < rows*columns; row and column are then in bounds and map back to the position, and otherwise stay -1 |
| MatrixPixels.FromPositionIn | bcd-led-clock/bcd_led_clock/matrix_pixel.h:64-73 | the same pixel as `FromPosition`, coloured from the buffer only when on the matrix, black otherwise |
| MatrixPixels.FromRowColumn | bcd-led-clock/bcd_led_clock/matrix_pixel.h:80-88 | on the matrix iff both coordinates are in bounds; the position is then in range and maps back to (row, column), and otherwise stays -1 |
| MatrixPixels.FromRowColumnIn | bcd-led-clock/bcd_led_clock/matrix_pixel.h:90-99 | the same pixel as `FromRowColumn`, coloured from the buffer only when on the matrix, so an off-matrix neighbour never reads the buffer |
| MatrixPixels.EdgeNeighboursOffMatrix | bcd-led-clock/bcd_led_clock/matrix_pixel.h:90-99 | a neighbour one step outside the matrix is off the matrix and black |
| Effects.Pre | bcd-led-clock/bcd_led_clock/effect.h:10-12 | `pre` leaves the strip unchanged |
| Effects.RecolorPixel | bcd-led-clock/bcd_led_clock/effect.h:14-17 | the base and Bleed effects return the colour unchanged; Flicker changes only pure primaries |
| Effects.RecolorNeverBrightens | bcd-led-clock/bcd_led_clock/effect_flickr.h:18-33 | no effect with a band width of 1..255 makes any channel brighter |
| Effects.Post | bcd-led-clock/bcd_led_clock/effect.h:19-21 | the base `post` returns no pixels; Bleed returns exactly its bleed pixels |
| Effects.SumOnMatrix | bcd-led-clock/bcd_led_clock/effect.h:32-42 | the loop's count and channel sums are those of the colours of the on-matrix entries, read from the buffer only at on-matrix positions |
| Effects.AverageColors | bcd-led-clock/bcd_led_clock/effect.h:27-51 | the result is the per-channel truncated mean of the on-matrix colours, and black when there are none |
| Effects.AverageWithin | bcd-led-clock/bcd_led_clock/effect.h:43-48 | each averaged channel lies between the least and the greatest value of that channel among the averaged colours |
| Effects.NoPixelsOnMatrixIsBlack | bcd-led-clock/bcd_led_clock/effect.h:43-44 | with no entry on the matrix, no colour is counted and the average is black |
| BleedEffect.ScaleChannel | bcd-led-clock/bcd_led_clock/effect_bleed.h:37-40 | `round(v * factor)` with the factor in tenths is the nearest integer to v*t/10 (halves up), never above v |
| BleedEffect.Scale | bcd-led-clock/bcd_led_clock/effect_bleed.h:37-40 | no channel of a scaled colour exceeds the channel it came from |
| BleedEffect.FirstCandidate | bcd-led-clock/bcd_led_clock/effect_bleed.h:32-43 | None iff no entry is on the matrix and lit; otherwise the index of the first such entry |
| BleedEffect.SelectBleedColor | bcd-led-clock/bcd_led_clock/effect_bleed.h:31-46 | the linear search returns the scaled colour of the first on-matrix, non-black entry, and black when there is none |
| BleedEffect.BleedCellFacts | bcd-led-clock/bcd_led_clock/effect_bleed.h:56-69 | a cell contributes one pixel, at its own coordinates, exactly when it was not set and its bleed colour is not black |
| BleedEffect.ScanRowsFacts | bcd-led-clock/bcd_led_clock/effect_bleed.h:55 | scanning the rows of one column lists each cell's pixel once, in row order |
| BleedEffect.ScanColumnsFacts | bcd-led-clock/bcd_led_clock/effect_bleed.h:54-55 | scanning all columns lists every cell's pixel once, in column-major order |
| BleedEffect.BleedPixelsCharacterised | bcd-led-clock/bcd_led_clock/effect_bleed.h:52-74 | the pass returns, in strict column-major order, exactly one pixel for each unset cell with a non-black bleed colour, and nothing else |
| BleedEffect.BleedPixelsUnsetAndLit | bcd-led-clock/bcd_led_clock/effect_bleed.h:56-68 | every returned pixel is on the matrix, was not set this frame, and is lit |
| BleedEffect.BleedCellUnfolded | bcd-led-clock/bcd_led_clock/effect_bleed.h:56-68 | one cell's contribution is computed from its neighbours in the order row+1, row-1, column-1, column+1, read from the unchanged strip |
| BleedEffect.BleedAt | bcd-led-clock/bcd_led_clock/effect_bleed.h:56-69 | the loop body keeps the base pixel with its bleed colour exactly when the cell bleeds |
| BleedEffect.BleedColumn | bcd-led-clock/bcd_led_clock/effect_bleed.h:55-70 | the inner loop returns the bleed pixels of one column, top to bottom |
| BleedEffect.Post | bcd-led-clock/bcd_led_clock/effect_bleed.h:52-74 | the nested loops return `BleedPixels` of the strip as it was, every one unset and lit; the strip and the flags are only read |
| BleedEffect.SingleRedNeighbour | bcd-led-clock/bcd_led_clock/effect_bleed.h:16-18 | a single full-red neighbour bleeds (77, 0, 0) with the default factors |
| FlickerEffect.Subcolor | bcd-led-clock/bcd_led_clock/effect_flickr.h:22 | for a band width w > 0 the subcolor lies in [255-w, 254] |
| FlickerEffect.RecolorFacts | bcd-led-clock/bcd_led_clock/effect_flickr.h:20-32 | non-primaries are returned unchanged; a pure primary keeps its zero channels and its full channel drops into [255-w, 254]; no channel gets brighter |
| FlickerEffect.SubcolorReachable | bcd-led-clock/bcd_led_clock/effect_flickr.h:22 | every brightness in [255-w, 254] is produced by some random number |
| FlickerEffect.DefaultBand | bcd-led-clock/bcd_led_clock/effect_flickr.h:13-22 | with the default width 30 a primary is drawn at 225..254, so the commented 255 is never reached |
| DataSmoothing.Window | cat-water-sensor/data-smoothing.h:50-54 | the averaged readings are the last min(n, 10) readings |
| DataSmoothing.FirFilter.constructor | cat-water-sensor/data-smoothing.h:21-23 | the zero-initialised globals form a valid filter with no readings |
| DataSmoothing.FirFilter.InitFir | cat-water-sensor/data-smoothing.h:31-37 | every tap is zero, the cursor and the count are zero, and no reading is remembered (also cat-water-sensor/FIR.h:22-28) |
| DataSmoothing.FirFilter.SumTaps | cat-water-sensor/data-smoothing.h:52-54 | the loop adds up exactly the first numTapsToUse taps |
| DataSmoothing.FirFilter.Record | cat-water-sensor/data-smoothing.h:43-48 | only the tap at the old cursor changes, the cursor advances by one and wraps at 10, the count grows by one, and the buffer stays the rotated window of readings |
| DataSmoothing.FirFilter.ObserveSample | cat-water-sensor/data-smoothing.h:42-56 | as `Record`, and the result is the mean, truncated toward zero, of the last min(n, 10) readings; the count used is at least 1 (also cat-water-sensor/FIR.h:30-44) |
| DataSmoothing.NextSlot | cat-water-sensor/data-smoothing.h:45-48 | the slot after the cursor is one more, wrapping to 0 after the last slot |
| DataSmoothing.TapsSumIsWindowSum | cat-water-sensor/data-smoothing.h:50-54 | the first min(n, 10) taps of the cyclic buffer sum to the window of the last readings, whatever the cursor |
| DataSmoothing.TruncMeanBounds | cat-water-sensor/data-smoothing.h:55 | the truncated mean of a sum of values in [lo, hi] lies in [lo, hi] |
| DataSmoothing.SmoothedWithinReadings | cat-water-sensor/data-smoothing.h:42-56 | the smoothed value lies between the least and the greatest reading |
| DataSmoothing.SteadyReading | cat-water-sensor/data-smoothing.h:42-56 | a steady reading comes back unchanged; in particular the first reading after `initFIR` is returned as it is |
| DataSmoothing.NextRecentMin | cat-water-sensor/data-smoothing.h:63-79 | the reading is always within [r, r+1] of the new minimum; the minimum is kept iff it was set and the reading lies in its window (or equals it), otherwise the reading becomes the minimum |
| DataSmoothing.NextRecentMinIdempotent | cat-water-sensor/data-smoothing.h:63-79 | feeding the same reading twice changes nothing the second time |
| DataSmoothing.RecentMinTracker.constructor | cat-water-sensor/data-smoothing.h:26 | the recent minimum starts unset (-1) |
| DataSmoothing.RecentMinTracker.RecentMinForSample | cat-water-sensor/data-smoothing.h:63-79 | the state moves to `NextRecentMin` and the result equals the new recent minimum |
| Clocks.TwelveHour | tft-back-door/tft-door-monitor.h:88-89 | for hours 0..23 the shown hour is in 1..12 and congruent modulo 12; hours 1..12 are shown as they are |
| Clocks.TwelveHourFace | guest-time-temp/room-time-temp-wind.h:88-89 | two hours share a face iff they are equal modulo 12 |
| DisplayPanels.ToU32 | guest-time-temp/display-panel.h:120 | conversion to `unsigned int` keeps 0..2^32-1 and wraps negative values by 2^32 |
| DisplayPanels.ToI32 | guest-time-temp/display-panel.h:120 | an `unsigned int` below 2^31 is kept, and converting back gives the same unsigned value |
| DisplayPanels.TopPadding | guest-time-temp/display-panel.h:120-121 | the padding is never negative; it is half the room left when the lines fit, and 0 when they do not |
| DisplayPanels.TopPaddingAsWritten | guest-time-temp/display-panel.h:120-121 | the source computes half of h - lines*height taken modulo 2^32, a value in [0, 2^31) that the clamp never changes |
| DisplayPanels.TopPaddingWraps | guest-time-temp/display-panel.h:120-121 | two 15-pixel lines on a 20-pixel panel: 2147483643 as written, 0 as intended |
| DisplayPanels.TopPaddingAgreesWhenLinesFit | guest-time-temp/display-panel.h:120-121 | when the lines fit, the unsigned computation gives the intended padding |
| DisplayPanels.StackedLines | guest-time-temp/display-panel.h:124-132 | one top-centred print per line, in order |
| DisplayPanels.StackedLinesSpacing | guest-time-temp/display-panel.h:126-129 | consecutive lines are exactly one text height apart |
| DisplayPanels.DisplayPanel.IsTouchOnPanel | guest-time-temp/display-panel.h:74-79 | a touch at non-negative coordinates hits iff it lies in the closed rectangle [x, maxX] × [y, maxY], whose edges are the ones set at construction (later changes of w do not move them); a negative coordinate misses panels below 2^31 |
| DisplayPanels.DisplayPanel.DrawRect | guest-time-temp/display-panel.h:83-95 | the calls are those of `RectOps`: nothing when disabled or empty, else the fill and then the optional outline |
| DisplayPanels.DisplayPanel.PrintMiddle | guest-time-temp/display-panel.h:137-143 | one centred print at the panel's centre, shifted by the vertical offset |
| DisplayPanels.DisplayPanel.PrintMulti | guest-time-temp/display-panel.h:113-133 | the loop prints every line, stacked from the intended top padding |
| DisplayPanels.DisplayPanel.DrawText | guest-time-temp/display-panel.h:97-109 | the calls are those of `TextOps`: nothing when hidden or textless, the middle print for one line, the stacked prints for more |
| DisplayPanels.DisplayPanel.Draw | guest-time-temp/display-panel.h:59-62 | the rectangle's calls, then the text's |
| DisplayPanels.NewPanel | guest-time-temp/display-panel.h:50-57 | the panel is placed as given, with touch edges x+w and y+h unless the sum wraps; it is enabled (visible iff w and h are non-zero), with no outline, font or text |
| DisplayPanels.RectOpsShape | guest-time-temp/display-panel.h:83-95 | a hidden panel draws no rectangle; a visible one draws its fill first, one or two calls on its own rectangle, and never prints |
| DisplayPanels.TextOpsShape | guest-time-temp/display-panel.h:97-109 | a visible panel prints each of its lines exactly once, in order, in its text colour, centred iff it has one line; a hidden one prints nothing |
| DisplayPanels.MultiLinesCentred | guest-time-temp/display-panel.h:113-133 | when the lines fit, they sit one line height apart and the block is centred to within one pixel |
| DisplayPanels.HiddenPanelAddsNoOverlap | guest-time-temp/display-panel.h:84-87 | a panel that draws nothing can join a layout without creating an overlap |
| DisplayPanels.RectPassHasNoPrint | guest-time-temp/display-panel.h:65-67 | the first loop of `drawAllPanels` never prints |
| DisplayPanels.TextPassOnlyPrints | guest-time-temp/display-panel.h:68-70 | the second loop only prints |
| DisplayPanels.FillsBeforePrints | guest-time-temp/display-panel.h:64-71 | every fill or outline comes before every print, so no rectangle covers another panel's text |
| DisplayPanels.TextPassLength | guest-time-temp/display-panel.h:68-70 | the second loop prints one line per text line of each visible panel |
| DisplayPanels.DrawRects | guest-time-temp/display-panel.h:65-67 | the first loop draws every panel's rectangle, in order |
| DisplayPanels.DrawTexts | guest-time-temp/display-panel.h:68-70 | the second loop draws every panel's text, in order |
| DisplayPanels.DrawAllPanels | guest-time-temp/display-panel.h:64-71 | all rectangles, then all texts |
| DisplayPanels.NewTouchPanel | guest-time-temp/display-touch-panel.h:20-23 | the panel as `DisplayPanel` builds it, with its own touch edges at the same far corner |
| DisplayPanels.TouchPanelCornersHit | tft-office/display-touch-panel.h:18-23 | both corners (x, y) and (maxX, maxY) hit a touch panel whose far corner does not wrap |
| DisplayPanels.PanelCornersHit | guest-time-temp/display-panel.h:74-79 | both corners hit, and the points one pixel past the far edges miss |
| DoorMonitor.DoorColor | tft-back-door/tft-door-monitor.h:67-70 | a door's colour is one of yellow, orange, green or red |
| DoorMonitor.DoorColorDistinguishesStates | tft-back-door/tft-door-monitor.h:67-70 | two door states get the same colour iff they are the same (open, autolock) state |
| DoorMonitor.WhiteTextOnlyOnRed | tft-back-door/tft-door-monitor.h:71-73 | the text is white exactly on red (closed without autolock) and black otherwise |
| DoorMonitor.FrontDoorColorAsWrittenDiffers | tft-back-door/tft-door-monitor.h:76-79 | the front colour as written differs from the intended table iff the front door is open and the two autolocks differ |
| DoorMonitor.FrontDoorColorCounterexample | tft-back-door/tft-door-monitor.h:76-79 | front open without autolock, back autolocked: yellow instead of orange; front open and autolocked, back not: green instead of yellow |
| DoorMonitor.DoorMonitorDisplay.constructor | tft-back-door/tft-door-monitor.h:14-19 | the six panels at their declared rectangles, with the time and temperature widths 192 and 128 |
| DoorMonitor.DoorMonitorDisplay.InitializePanels | tft-back-door/tft-door-monitor.h:29-55 | fonts, offsets and colours as assigned, the "+" and "-" buttons, and the layout kept |
| DoorMonitor.DoorMonitorDisplay.UpdateDoors | tft-back-door/tft-door-monitor.h:67-83 | each door panel takes its own door's colour, text colour and text, the front door with its own autolock |
| DoorMonitor.DoorMonitorDisplay.UpdateTime | tft-back-door/tft-door-monitor.h:86-92 | the time panel shows the 12-hour time |
| DoorMonitor.DoorMonitorDisplay.UpdateTemperature | tft-back-door/tft-door-monitor.h:94-106 | with a temperature the widths are 192/128 and the reading is shown; without one the time takes all 320 pixels, the temperature panel is 0 wide and keeps its text |
| DoorMonitor.DoorMonitorDisplay.UpdatePanelStates | tft-back-door/tft-door-monitor.h:63-107 | doors, time and temperature as above, the buttons untouched, and the layout kept |
| DoorMonitor.DoorMonitorDisplay.DrawPanels | tft-back-door/tft-door-monitor.h:109-118 | the six panels through `drawAllPanels`, in their order |
| DoorMonitor.ConsistentLayoutTiles | tft-back-door/tft-door-monitor.h:14-19 | in either width setting no two visible panels overlap, all lie within 320×240, and a 0-wide temperature panel draws nothing |
| GuestRoomDisplay.AlarmOrWindLine | guest-time-temp/room-time-temp-wind.h:95-115 | a valid next alarm is shown as it is; a wind line carries the gust and direction readings |
| GuestRoomDisplay.WindOnlyWithoutAlarm | guest-time-temp/room-time-temp-wind.h:95-115 | the wind is shown iff there is no valid alarm and the speed is known and below 200; with neither, the line is blank |
| GuestRoomDisplay.GuestRoom.constructor | guest-time-temp/room-time-temp-wind.h:25-32 | the seven panels at their declared rectangles |
| GuestRoomDisplay.GuestRoom.InitializePanels | guest-time-temp/room-time-temp-wind.h:48-80 | fonts and white-on-black colours as assigned, the "room" and "outside" labels, and the layout kept |
| GuestRoomDisplay.GuestRoom.UpdateTime | guest-time-temp/room-time-temp-wind.h:83-92 | the time panel shows the 12-hour time |
| GuestRoomDisplay.GuestRoom.UpdateAlarm | guest-time-temp/room-time-temp-wind.h:94-115 | the alarm panel shows the alarm, else the wind, else a blank line |
| GuestRoomDisplay.GuestRoom.UpdateTemperatures | guest-time-temp/room-time-temp-wind.h:122-152 | the left widths are 92 and the four temperature panels enabled iff either temperature is known (else 128 and disabled); each reading is replaced only when its own sensor has a state |
| GuestRoomDisplay.GuestRoom.UpdatePanelStates | guest-time-temp/room-time-temp-wind.h:82-153 | time, alarm line, date and temperatures as above, and the layout kept |
| GuestRoomDisplay.GuestRoom.DrawPanels | guest-time-temp/room-time-temp-wind.h:156-158 | the seven listed panels through `drawAllPanels` |
| GuestRoomDisplay.ConsistentLayoutTiles | guest-time-temp/room-time-temp-wind.h:25-32 | in either width setting no two visible panels overlap and all lie within 128×64 |
| GuestRoomDisplay.ColumnsFillHeight | guest-time-temp/room-time-temp-wind.h:10-22 | both columns are exactly 64 pixels tall (37+13+14 and 10+22+10+22) |
| CatWaterDisplay.CatWaterSensor.constructor | cat-water-sensor/cat-water-sensor.h:21-26 | the five panels at their declared rectangles |
| CatWaterDisplay.CatWaterSensor.InitializePanels | cat-water-sensor/cat-water-sensor.h:31-53 | fonts and colours as assigned, the fixed "Cat"/"H2O" symbol, a blank water level, and the layout kept |
| CatWaterDisplay.CatWaterSensor.DrawPanels | cat-water-sensor/cat-water-sensor.h:55-61 | each of the five panels drawn in full, in the fixed order |
| CatWaterDisplay.CatWaterSensor.UpdateTime | cat-water-sensor/cat-water-sensor.h:64-74 | the time panel shows the 12-hour time |
| CatWaterDisplay.CatWaterSensor.UpdateAlarm | cat-water-sensor/cat-water-sensor.h:75-86 | the alarm panel shows a valid next alarm, else the day of the week |
| CatWaterDisplay.CatWaterSensor.UpdateWater | cat-water-sensor/cat-water-sensor.h:94-114 | with a water level the left widths are narrow, both water panels enabled and the percentage refreshed; without one the widths are 128 and both are disabled |
| CatWaterDisplay.CatWaterSensor.UpdatePanelStates | cat-water-sensor/cat-water-sensor.h:63-115 | time, alarm line, date and water as above, and the layout kept |
| CatWaterDisplay.ConsistentLayoutTiles | cat-water-sensor/cat-water-sensor.h:21-26 | in either width setting no two visible panels overlap and all lie within 128×64 |
| CatWaterDisplay.ColumnsSameHeight | cat-water-sensor/cat-water-sensor.h:6-18 | the left column (37+13+14) and the water column (2×32) are both 64 pixels tall |
| OfficeRoom.FlashDeadline | tft-office/tft-room-time-temp.h:124-129 | the flash deadline lies after the moment it was raised |
| OfficeRoom.FlashShownAfter | tft-office/tft-room-time-temp.h:182-184 | after an update the flash is up only if it was up and the deadline has not passed |
| OfficeRoom.FlashLastsOneSecond | tft-office/tft-room-time-temp.h:124-129 | a raised flash survives an update iff it is at most one second old; a flash that is down stays down |
| OfficeRoom.OfficeLayoutTiles | tft-office/tft-room-time-temp.h:42-52 | the nine office panels, in drawing order, have no visible overlap |
| OfficeRoom.OfficeDisplay.constructor | tft-office/tft-room-time-temp.h:42-54 | the ten panels at their declared rectangles and the deadline at the epoch |
| OfficeRoom.OfficeDisplay.InitializeTopPanels | tft-office/tft-room-time-temp.h:67-88 | fonts, colours and offsets of the top row and the time, with the brightness icons |
| OfficeRoom.OfficeDisplay.InitializeBottomPanels | tft-office/tft-room-time-temp.h:90-114 | fonts and colours of the temperatures and labels; the flash is outlined and starts disabled |
| OfficeRoom.OfficeDisplay.InitializePanels | tft-office/tft-room-time-temp.h:66-118 | every panel's font, colours and offset as assigned, the labels and icons set, the flash hidden and outlined; nothing else of any panel changes |
| OfficeRoom.OfficeDisplay.EnableFlash | tft-office/tft-room-time-temp.h:124-129 | the flash is enabled with the given text until one second after now |
| OfficeRoom.OfficeDisplay.UpdateTimeAndDate | tft-office/tft-room-time-temp.h:134-154 | the 12-hour time, the weekday and the month and day |
| OfficeRoom.OfficeDisplay.UpdateTemperatures | tft-office/tft-room-time-temp.h:156-180 | the four temperature panels are enabled together iff either temperature is known, and each reading is replaced only when its own sensor has a state |
| OfficeRoom.OfficeDisplay.ExpireFlash | tft-office/tft-room-time-temp.h:182-184 | the flash goes down once now is past the deadline and is left alone otherwise |
| OfficeRoom.OfficeDisplay.UpdatePanelStates | tft-office/tft-room-time-temp.h:133-185 | each updated panel is its old value with only the time, day, date and temperature texts, the four joint enabled flags and the flash's enabled flag changed; the icons and the deadline are untouched |
| OfficeRoom.OfficeDisplay.DrawPanels | tft-office/tft-room-time-temp.h:188-204 | the nine panels through `drawAllPanels`, then the flash over them |
| OfficeRoom.ConsistentLayoutTiles | tft-office/tft-room-time-temp.h:42-52 | in the kept layout no two visible panels of the nine overlap |
| OfficeRoom.ConsistentLayoutFits | tft-office/tft-room-time-temp.h:42-54 | every visible panel, the flash included, lies within 320×240, and the flash lies over the time |
| OfficeRoomWind.WindLine | tft-office/tft-room-time-temp-wind.h:197-207 | a wind line is produced iff the speed is known and below 200, and it marks a gust iff the gust is known |
| OfficeRoomWind.FlashOnNoPage | tft-office/tft-room-time-temp-wind.h:65-79 | the flash is on no page, and every other panel is on the page |
| OfficeRoomWind.OfficeWindDisplay.PagePanels | tft-office/tft-room-time-temp-wind.h:65-79 | a page's panels are the panels its entries point at, in order |
| OfficeRoomWind.OfficeWindDisplay.constructor | tft-office/tft-room-time-temp-wind.h:49-63 | the eleven panels at their declared rectangles, page 0, no touched panel, and the deadline at the epoch |
| OfficeRoomWind.OfficeWindDisplay.InitializeTopPanels | tft-office/tft-room-time-temp-wind.h:94-123 | fonts, colours and offsets of the top row and the time, with the brightness icons |
| OfficeRoomWind.OfficeWindDisplay.InitializeTemperaturePanels | tft-office/tft-room-time-temp-wind.h:125-147 | fonts, colours and labels of the temperature panels |
| OfficeRoomWind.OfficeWindDisplay.InitializeOverlayPanels | tft-office/tft-room-time-temp-wind.h:149-162 | the butterfly and the outlined flash both start disabled |
| OfficeRoomWind.OfficeWindDisplay.InitializePanels | tft-office/tft-room-time-temp-wind.h:91-166 | every panel's font, colours and offset as assigned, the labels and icons set, the butterfly and flash hidden; nothing else of any panel, nor the page, touch or deadline, changes |
| OfficeRoomWind.OfficeWindDisplay.EnableFlash | tft-office/tft-room-time-temp-wind.h:172-177 | the flash is enabled with the given text until one second after now |
| OfficeRoomWind.OfficeWindDisplay.UpdateTimeAndDay | tft-office/tft-room-time-temp-wind.h:183-194 | the 12-hour time and the weekday, month and day |
| OfficeRoomWind.OfficeWindDisplay.UpdateWind | tft-office/tft-room-time-temp-wind.h:197-207 | the date panel shows the wind when the speed is known and below 200, and keeps its text otherwise |
| OfficeRoomWind.OfficeWindDisplay.UpdateTemperatures | tft-office/tft-room-time-temp-wind.h:209-229 | the four temperature panels are enabled together iff either temperature is known, and each reading is replaced only when its own sensor has a state |
| OfficeRoomWind.OfficeWindDisplay.ExpireFlash | tft-office/tft-room-time-temp-wind.h:231-233 | the flash goes down once now is past the deadline and is left alone otherwise |
| OfficeRoomWind.OfficeWindDisplay.UpdatePanelStates | tft-office/tft-room-time-temp-wind.h:181-234 | each updated panel is its old value with only the time, day, wind and temperature texts, the four joint enabled flags and the flash's enabled flag changed; the icons, butterfly, page, touch and deadline are untouched |
| OfficeRoomWind.OfficeWindDisplay.DrawPanels | tft-office/tft-room-time-temp-wind.h:237-243 | the current page's panels through `drawAllPanels`, then the flash over them |
| OfficeRoomWind.OfficeWindDisplay.IsPanelTouched | tft-office/tft-room-time-temp-wind.h:249-251 | the last touched panel is always overwritten, and the result is true iff a panel was touched |
| OfficeRoomWind.PageZeroPanels | tft-office/tft-room-time-temp-wind.h:65-79 | page 0 lists every panel but the flash, in the declared order with the butterfly last |
| OfficeRoomWind.ConsistentLayoutTiles | tft-office/tft-room-time-temp-wind.h:49-63 | while the butterfly is off, no two visible panels of page 0 overlap |
| OfficeRoomWind.ButterflyWouldOverlap | tft-office/tft-room-time-temp-wind.h:61 | the butterfly square covers the time and the brightness-down panel, so it must stay disabled; it and the flash lie within 320×240 |

## Left out

- Host drawing (`filled_rectangle`, `rectangle`, `print`) is recorded as a list of calls, not pixels. `display.fill`, the backlight and the brightness global are not modelled.
- Font metrics (`font->measure`) are a parameter that maps a font to its text height.
- String formatting (`sprintf`, `strftime`, `%.0f`, the 25-character buffer) is not modelled. A `Line` records the values a line is formatted from, so buffer overflow and the formatted characters are not modelled.
- The door monitor's temperature unit is kept as the bytes the source spells (`"Â°"`), a mis-encoded degree sign. It is not corrected.
- The PW/PH percentage macros use floating point. Their results, truncated to whole pixels, are constants.
- The bleed factors are the source's doubles 0.3, 0.3 and 0.4. They are modelled as tenths with round-half-up, which equals `round` on these products up to double rounding.
- FirFilter.ObserveSample: models the mean as an exact integer sum truncated toward zero. The source sums doubles `taps[i] * (1/n)` and casts, which can differ by floating-point rounding. The 32-bit `int` and `long` ranges are not modelled either.
- `rand()` is a natural-number input. The negative band widths Flicker admits are covered only by `Subcolor`.
- The per-frame driver is not part of this model. It clears the strip, keeps `pixelsSet` and calls the hooks. So are `pixel_position.h` and the values of `NUM_ROWS`/`NUM_COLUMNS`; rows and columns are parameters.
- Effects are a closed datatype. Virtual dispatch and the mismatched `post` override are not modelled. `Effect::name` is left out.
- Esphome's `Color` white channel is left out.
- `ESPTime` is reduced to epoch seconds, hour and minute. The date and weekday lines record the time they format.
- Sensors are inputs: `None` stands for "no state". Only the door sensors are plain booleans.
- Float sensor states are modelled as `real`, so a NaN state that `has_state()` reports is not modelled. On NaN the source's comparisons are false (`wind_speed->state < 200` skips the wind line) and `%.0f` prints `nan`; the model has no such value and says nothing about those cases.
- The tft-office sketches include their own `display-panel.h`, with `touchedPanel`, touch flags, names and images, which is not part of this model. OfficeRoomWind.OfficeWindDisplay.IsPanelTouched therefore takes the panel found under the touch as an input, rather than searching the page.
- The guest device's list of panel pointers is modelled as the list of the panels' current values, passed to `drawAllPanels` when drawing.
- Sketch wiring is not modelled: the `esphome::display` handle, logging (`ESP_LOGI`) and the includes.
- `office-person-sensor/person_sensor/person_sensor.h` is I2C bus I/O and is not part of this model.

## Findings

| source | as written | input that shows it | evidently intended | confidence | as-written member | corrected member |
|---|---|---|---|---|---|---|
| tft-back-door/tft-door-monitor.h:76-79 | the front door's first colour clause tests `back_door_autolock` | front open, front autolock off, back autolock on: yellow, where the table gives orange | test `front_door_autolock`, as the back door does | high; not executed | DoorMonitor.FrontDoorColorCounterexample | DoorMonitor.DoorColorDistinguishesStates |
| guest-time-temp/display-panel.h:120-121 | `h - text.size() * textHeight` is computed in unsigned arithmetic, so when the lines do not fit it wraps, and the `>= 0` clamp never fires | a 20-pixel panel with two 15-pixel lines: top padding 2147483643 instead of 0 | clamp to 0 when the lines overflow the panel | high; not executed | DisplayPanels.TopPaddingWraps | DisplayPanels.TopPadding |
