# CST328 touch demo — a verified model

This project models a small ESP32 firmware that shows coloured bands on a
240x320 ST7789 panel and paints a black 8x8 block wherever a CST328
capacitive touch controller reports a finger. It has three modules:

- `Unsigned` (`unsigned_ops.dfy`) defines C's `uint8_t`/`uint16_t` and the
  operators `>>`, `<<`, `&`, `|` and the truncating casts on mathematical
  integers. It proves what the operators compute where the driver uses them:
  a mask of low bits is a remainder, and an or of disjoint bit ranges is a sum.
- `TouchCst328` (`touch_cst328.dfy`) models the driver:
  - the two-byte register address on the wire;
  - the decode of the 7-byte finger report into a point (12-bit x and y,
    pressure, pressed);
  - the error paths of a point read;
  - the platform calls of the initialisation routine, kept as a list of
    actions;
  - the driver's file-scope state (port and pins), as the `Driver` class.
- `App` (`app.dfy`) models the application:
  - the background pattern;
  - the clipped feedback block;
  - the polling loop's clamping and its DOWN / MOVE / UP press-state machine.

No bus, GPIO or panel call is made. The bus's answer to a read is a parameter
(`BusReply`). Each bus transaction, initialisation call and bitmap draw is
returned in order as a value (`Transaction`, `InitAction`, `Draw`). The panel
resolution comes from a header that is not part of this model. So every
drawing operation takes a `Screen` and is proved for every positive
resolution. `App.Lcd` is the 240x320 panel of this board, and `App.LcdLayout`
states its band boundaries and corner blocks.

## Model

| member | source | states |
|---|---|---|
| Unsigned.LowMask | components/touch_cst328/touch_cst328.c:99-102 | `a & (2^k - 1)` is `a mod 2^k`, for every a and k (the masks `& 0x0F` and `& 0xFF`) |
| Unsigned.DisjointOr | components/touch_cst328/touch_cst328.c:101-102 | `(a << k) \| b` equals `a * 2^k + b` whenever `b < 2^k` |
| Unsigned.ShiftRight | components/touch_cst328/touch_cst328.c:70 | definition of `a >> k` on a non-negative value: the quotient `a / 2^k` |
| Unsigned.ShiftLeft | components/touch_cst328/touch_cst328.c:101-102 | definition of `a << k` before any truncation: `a * 2^k` |
| Unsigned.BitAnd | components/touch_cst328/touch_cst328.c:99-102 | definition of `a & b`, bit by bit from the least significant bit |
| Unsigned.BitOr | components/touch_cst328/touch_cst328.c:101-102 | definition of `a \| b`, bit by bit from the least significant bit |
| Unsigned.ToU8 | components/touch_cst328/touch_cst328.c:70 | definition of the `(uint8_t)` cast: the value modulo 256 |
| Unsigned.ToU16 | components/touch_cst328/touch_cst328.c:101-102 | definition of the `uint16_t` truncation: the value modulo 65536 |
| TouchCst328.SplitAddress | components/touch_cst328/touch_cst328.c:70 | the two address bytes are the high byte then the low byte: `reg[0] * 256 + reg[1] == reg16` |
| TouchCst328.JoinAddress | components/touch_cst328/touch_cst328.c:70 | the inverse packing of two wire bytes, `hi * 256 + lo` |
| TouchCst328.AddressRoundTrip | components/touch_cst328/touch_cst328.c:70 | splitting then joining returns every 16-bit register, and joining then splitting returns every byte pair |
| TouchCst328.BaseRegisterOnWire | components/touch_cst328/touch_cst328.c:10 | the base register 0xD000 goes out as the bytes D0 00 |
| TouchCst328.IsPressedStatus | components/touch_cst328/touch_cst328.c:99 | a report is a press iff the low nibble of the status byte is 6 |
| TouchCst328.CoordX | components/touch_cst328/touch_cst328.c:101 | x is `xh * 16` plus the high nibble of the shared byte |
| TouchCst328.CoordY | components/touch_cst328/touch_cst328.c:102 | y is `yh * 16` plus the low nibble of the shared byte |
| TouchCst328.Decode | components/touch_cst328/touch_cst328.c:88-107 | the point of a report: pressed iff status nibble is 6, x and y as above and at most 0xFFF, pressure is byte 4 |
| TouchCst328.EncodeCoordinates | components/touch_cst328/touch_cst328.c:101-102 | the report bytes 1-3 that carry given 12-bit coordinates: `x / 16`, `y / 16`, `(x % 16) * 16 + y % 16` |
| TouchCst328.CoordinatesRoundTrip | components/touch_cst328/touch_cst328.c:89-91 | bytes 1-3 of every report are recovered exactly from the decoded x and y, so the decode loses no coordinate bit |
| TouchCst328.EncodeThenDecode | components/touch_cst328/touch_cst328.c:101-102 | every pair of 12-bit coordinates is decoded back unchanged, whatever the other bytes hold |
| TouchCst328.IgnoredBits | components/touch_cst328/touch_cst328.c:93-99 | two reports agreeing on the status low nibble and bytes 1-4 decode to the same point (bytes 5 and 6 and the high status nibble are ignored) |
| TouchCst328.DecodeExample | components/touch_cst328/touch_cst328.c:99-102 | report 06 12 34 56 7F decodes to a press at (0x125, 0x346) with pressure 127 |
| TouchCst328.DecodeMaxExample | components/touch_cst328/touch_cst328.c:101-102 | all coordinate bits set give (0xFFF, 0xFFF) |
| TouchCst328.DecodeReleasedExample | components/touch_cst328/touch_cst328.c:99 | status 01 is not a press |
| TouchCst328.ResetPulseIffAssigned | components/touch_cst328/touch_cst328.c:39-48 | the reset line is driven (low, 5 ms, high) iff its pin number is non-negative, and no level is set otherwise |
| TouchCst328.IrqConfiguredIffAssigned | components/touch_cst328/touch_cst328.c:51-59 | the interrupt line is configured as an input with pull-up iff its pin number is non-negative |
| TouchCst328.BusFirstBootDelayLast | components/touch_cst328/touch_cst328.c:27-36 | the bus is configured (pull-ups on) and its driver installed first, and the 220 ms boot delay comes last, for any wiring |
| TouchCst328.ResetPulse | components/touch_cst328/touch_cst328.c:39-48 | definition: configure the reset pin as an output, drive it low, wait 5 ms, drive it high |
| TouchCst328.InitSequence | components/touch_cst328/touch_cst328.c:27-62 | definition of the platform calls of `cst328_init` in order: bus configuration with pull-ups, driver install, the reset pulse if the reset pin is assigned, the pull-up input if the interrupt pin is assigned, the 220 ms boot delay |
| TouchCst328.PointStruct.constructor | components/touch_cst328/touch_cst328.c:104-107 | the output struct holds the given point |
| TouchCst328.Driver.constructor | components/touch_cst328/touch_cst328.c:12-14 | the static initialisers: port 0, reset and interrupt pins unassigned (-1) |
| TouchCst328.Driver.Init | components/touch_cst328/touch_cst328.c:16-66 | records port, reset pin and interrupt pin in the driver state, returns ESP_OK, and makes exactly the calls of `InitSequence` |
| TouchCst328.Driver.ReadRegs | components/touch_cst328/touch_cst328.c:68-75 | one write-then-read of `buf.Length` bytes at address 0x1A with the register high byte first and a 20 ms timeout; the buffer receives the data, or on a bus error the error is returned and the buffer kept |
| TouchCst328.ReportTransaction | components/touch_cst328/touch_cst328.c:71-82 | definition of the one transaction of a point read: the recorded port, device 0x1A, the wire bytes of register 0xD000, 7 bytes back, 20 ms timeout |
| TouchCst328.Driver.ReadPoint | components/touch_cst328/touch_cst328.c:77-110 | null output: ESP_ERR_INVALID_ARG and no bus transaction; bus error: that error, output unchanged; else ESP_OK and the output holds `Decode` of the report |
| App.BandOf | main/main.c:23-25 | the band of a row is one of 0, 1, 2 |
| App.BandStart | main/main.c:23 | definition of the first row of a band, `(vRes / 3) * band` |
| App.BandEnd | main/main.c:24-25 | definition of one past the last row of a band, `(vRes / 3) * (band + 1)`, and `vRes` for the last band |
| App.BandBoundaries | main/main.c:23-25 | band 0 starts at row 0, each band ends where the next starts, and band 2 ends at the bottom edge |
| App.BandsPartitionRows | main/main.c:19-30 | every row lies in the band `BandOf` names and in no other band |
| App.PatternRow | main/main.c:20-28 | definition of the draw of background row y: the full-width one-row area, every pixel in the colour of the band `BandOf` names |
| App.PatternRowWellFormed | main/main.c:28 | every background row draw is inside the screen with one pixel per cell |
| App.FillLine | main/main.c:20-22 | after the loop every entry of the line buffer holds the band colour |
| App.DrawTestPattern | main/main.c:14-31 | exactly one draw per row, top to bottom, each a full-width one-row line in the colour of the row's band and inside the screen |
| App.TouchBlock | main/main.c:36-50 | the clipped block of an on-screen point contains it, lies on the screen, and is 1 to 8 pixels each way |
| App.TouchBlockIsClippedSquare | main/main.c:39-47 | the clipped block is exactly the on-screen part of the square [x-4, x+4) x [y-4, y+4) |
| App.BlockFitsBuffer | main/main.c:53-54 | the w * h pixels of the block fit the 64-entry buffer |
| App.RowSliceInBounds | main/main.c:57-63 | each row slice `buf + row * w` of width w lies within the w * h filled entries |
| App.BlockDrawsPaintClippedSquare | main/main.c:34-65 | the block's draws paint a pixel iff the point is on screen and the pixel is an on-screen pixel of the 8x8 square around it |
| App.BlockDrawsWellFormed | main/main.c:57-64 | at most 8 draws, each inside the screen, one row high, one pixel per cell, all in the block colour |
| App.BlockDraws | main/main.c:34-65 | definition of the draws of the feedback block: none for an off-screen point, else the row draws of the clipped block |
| App.RowDraws | main/main.c:57-64 | definition: one draw per row of a rectangle, top to bottom, one row high and full width, in one colour |
| App.DrawTouchBlock | main/main.c:34-65 | the draws made are exactly `BlockDraws`: none for an off-screen point, else one per row of the clipped block |
| App.DrawBlockRows | main/main.c:53-64 | filling w * h buffer entries and drawing slice `row * w` per row gives one full row of the colour per draw |
| App.Clamp | main/main.c:106-110 | the clamped coordinate is on the screen, unchanged if already on it, and the nearest on-screen value otherwise |
| App.Outcome | main/main.c:95-96 | definition of the read result of a bus reply: the decoded point, or the bus error; `App.TouchApp.Step` proves the driver's point read gives exactly this result |
| App.Poll | main/main.c:96-130 | definition of one iteration on the press state: an error keeps the state with no event; a press gives DOWN or MOVE at the clamped position and the pressed state; a release gives UP after a press and the released state |
| App.EventDraws | main/main.c:120 | definition: a DOWN or MOVE draws the feedback block at its position in black, other events draw nothing |
| App.PollClassifies | main/main.c:101-127 | DOWN iff press after release, MOVE iff press after press, UP iff release after press, nothing iff release after release; the new state is the point's `pressed` |
| App.PollPositionOnScreen | main/main.c:103-120 | a press reports DOWN or MOVE at the clamped raw coordinates, which are on the screen |
| App.PollErrorKeepsState | main/main.c:96-130 | a failed read reports nothing and leaves the press state as it was |
| App.FailedReadsInvisible | main/main.c:94-130 | dropping every failed read from a run changes neither the final press state nor the reported events |
| App.Run | main/main.c:88-133 | definition of successive iterations: the events of each read in order and the state after the last one |
| App.TouchingAfter | main/main.c:121-126 | definition of whether a touch is on after a list of events |
| App.Bracketed | main/main.c:112-125 | definition of the touch protocol: no DOWN while a touch is on, no MOVE or UP while none is |
| App.RunIsBracketed | main/main.c:101-127 | over any run the reported events follow the touch protocol (never a DOWN during a touch, never a MOVE or UP outside one), and a touch is still open after the last event exactly when the loop ends pressed, so a run that ends released has closed every touch with an UP |
| App.TouchApp.constructor | main/main.c:86-89 | the loop starts released with the counter at 0 |
| App.TouchApp.Step | main/main.c:89-127 | one iteration: the counter goes up by one, "alive" is reported when it was a multiple of 50, the state and event are those of `Poll` on the driver's result, and the draws are the feedback block of a DOWN or MOVE |
| App.PollLoop | main/main.c:88-133 | n iterations leave the state and report the events of `Run` over the n read results, and advance the counter by n |
| App.AppMain | main/main.c:67-86 | the background is the test pattern, the driver state holds the configured port and pins, the init calls are `InitSequence`, and the loop starts released |
| App.LcdLayout | main/main.c:23-47 | on the 240x320 panel the bands are rows [0, 106), [106, 212) and [212, 320), and the blocks at the corners (0, 0) and (239, 319) are cut to [0, 4) x [0, 4) and [235, 240) x [315, 320) |

## Left out

- Logging (`ESP_LOGI`, `ESP_LOGW`, `ESP_LOGD`) is not modelled; the alive message is the `alive` result of `Step`.
- The I2C, GPIO and panel driver calls are not performed. Their requests are returned as values, and the bus's reply is a parameter.
- The FreeRTOS delays are not modelled. The reset and boot delays appear as `DelayMs` actions, and the 20 ms loop delay is not modelled at all.
- `ESP_ERROR_CHECK` aborts the program when a call fails. The model assumes every checked call succeeds: the LCD init, the bus setup, the GPIO configuration and `cst328_init`.
- The LCD initialisation (`lcd_st7789_init`) and the panel header values are not part of this model. The resolution is a parameter.
- The ui module is not part of this model.
- The GPIO bit mask `1ULL << pin` is abstracted to the pin number in the `ConfigureOutput` and `ConfigureInput` actions.
- TouchCst328.Driver.ReadRegs: on a bus error the model keeps the buffer unchanged. A real failed transfer may have written part of it, which the driver never reads.
- App.TouchApp.Step: the output struct is created with zeros. In the source it is an uninitialised local, and the loop reads it only after a successful read.
- App.TouchApp.Step: the signed `loop_cnt` is unbounded here. Its overflow after 2^31 iterations is not modelled.
- App.PollLoop covers any finite number of iterations of the endless loop; the loop's non-termination is not modelled.
- App.DrawTouchBlock keeps the empty-block guard of main/main.c:51. The contract of `TouchBlock` shows the guard never fires for an on-screen point, since the clipped block is always at least 1x1.
