# HD44780 LCD driver of the BeagleSky sensor station, in Dafny

The program reads a BMP280 temperature and pressure sensor and a light sensor.
It shows the readings on a character LCD with an HD44780 controller. The
controller is wired to six GPIO lines: RS, E, and the data lines D4..D7.
The lines are driven through the Linux sysfs GPIO interface, and the display
runs in 4-bit mode.

This project models the LCD driver of `bmp_example.c`:

- the four GPIO primitives (export, unexport, direction, write);
- `lcd_send_nibble`, `lcd_send_byte`, `lcd_clear`, `lcd_print` and
  `lcd_display_string`;
- the `lcd_init` sequence;
- the part of the display and toggle tasks that picks which pair of strings
  goes on the LCD.

The modules are:

- `Gpio` (Gpio.dfy): the six lines and the sysfs state of the kernel.
  This state is which lines are exported, which are outputs, and the level
  of each line. Every GPIO operation and every `usleep` becomes an `Event`,
  and `Replay` folds a trace of events into the kernel's state.
- `Hd44780` (Hd44780.dfy): an independent reader of the lines.
  A controller watches the level writes and latches D4..D7 and RS on each
  falling edge of E. It pairs the latched nibbles, high one first, into
  received bytes. The driver's traces are decoded against this reader.
- `LcdProtocol` (LcdProtocol.dfy): the traces each LCD function issues, as
  functions of its arguments, with the lemmas about them. The lemmas cover:
  - the order and values of the writes;
  - round trips through the controller;
  - the set-up state after `lcd_init`;
  - the levels left on the lines.
- `LcdDriver` (LcdDriver.dfy): class `Driver`, the driver as the program runs
  it.
  - Its fields are the sysfs state, and its methods update them call by call.
  - A ghost `trace` records every operation. `Valid()` says that the fields
    are the replay of that trace from the state found at start-up.
  - Each method's contract gives the events it appends, and so its new state.
- `Display` (Display.dfy): the globals the tasks share (`toggle` and the
  three text buffers) as class `SharedState`.
  - `Lines` is the parity rule of `display_thread`, using C's truncating
    remainder.
  - `Refresh` hands the chosen pair to `Driver.DisplayString`.

Constants follow the code.

- The pins are sysfs lines 67, 68, 44, 26, 46 and 65.
- `lcd_init` waits 15000 us, then sends 0x03, waits 4100 us, sends 0x03,
  waits 100 us, and sends 0x03, 0x02, 0x28, 0x0C and 0x06. It ends with a
  clear: 0x01, then 1520 us.
- The nibble's enable pulse waits 1 us high and 37 us after.
- The second line starts at 0xC0.
- The code sends 0x03 and 0x02 as whole bytes, each as two nibbles through
  `lcd_send_byte`. The HD44780 datasheet's 4-bit start-up sends them as
  single nibbles. The model follows the code.

`display_thread` holds the mutex while it redraws the LCD
(bmp_example.c:150-156). `Refresh` runs as one step that reads the shared
buffers and drives the LCD.

## Model

| member | source | states |
|---|---|---|
| Gpio.IdsDistinct | bmp_example.c:16-21 | The six LCD lines are distinct sysfs GPIO numbers. This records the wiring; the rest of the model names lines by `Pin`. |
| Gpio.Levels.Set | bmp_example.c:223-233 | Writing a value to a line sets that line's level and leaves the other five as they were. |
| Gpio.AllLive | bmp_example.c:236-249 | Once each of the six lines is an exported output, the lines are ready for every write. |
| Hd44780.DataNibble | bmp_example.c:274-278 | The nibble on the data lines has D4 as bit 0, D5 as bit 1, D6 as bit 2 and D7 as bit 3, and is below 16. |
| Hd44780.RunQuiet | bmp_example.c:174-220 | The controller model reads only level writes, so exports, unexports, direction settings and pauses leave it as it was. |
| Hd44780.RunAppend | bmp_example.c:267-296 | The controller reads a concatenation of traces as one trace after the other. |
| LcdProtocol.DataLinesWrites | bmp_example.c:275-278 | The first half of a nibble writes D4, D5, D6, D7 in that order, with bits 0, 1, 2, 3 of the data. |
| LcdProtocol.EnablePulseWrites | bmp_example.c:279-282 | The enable pulse writes E high and then E low, and nothing else. |
| LcdProtocol.NibbleWrites | bmp_example.c:274-283 | A nibble writes exactly D4..D7 with bits 0..3, then E high, then E low; it never writes RS. |
| LcdProtocol.ByteWrites | bmp_example.c:267-271 | A byte is 13 level writes. RS is written first and never again, and the last write sets E low. |
| LcdProtocol.DataLinesRun | bmp_example.c:275-278 | To the controller, the data-line writes of a nibble put bits 0..3 on D4..D7 and latch nothing. |
| LcdProtocol.EnablePulseRun | bmp_example.c:279-282 | The falling edge of E latches the four data lines with the RS level present, and leaves E low. |
| LcdProtocol.NibbleLatch | bmp_example.c:274-283 | A nibble makes the controller latch exactly one nibble: the low four bits of the data, under the RS level it found. It leaves the lines as `Strobed` gives them. |
| LcdProtocol.ByteDelivered | bmp_example.c:267-271 | From a controller with no half byte pending, a byte's trace delivers exactly that byte with the requested RS. The high nibble is sent first and becomes bits 4..7. |
| LcdProtocol.NibblesJoin | bmp_example.c:268-269 | The high nibble `data >> 4` and the low nibble `data & 0xF` put back together give `data`. |
| LcdProtocol.EmitDelivered | bmp_example.c:267-296 | Any sequence of byte sends and pauses delivers exactly its bytes, in order, and leaves no half byte pending. |
| LcdProtocol.Decodes | bmp_example.c:267-296 | Whatever the lines held before, the controller decodes a sequence of steps into exactly the bytes those steps send. |
| LcdProtocol.CStr | bmp_example.c:292-296 | The characters `lcd_print` reads form a prefix of the buffer that holds no NUL. The buffer ends there or has a NUL at that point. |
| LcdProtocol.PrintDelivers | bmp_example.c:292-296 | `lcd_print` delivers each character before the NUL as one data byte (RS high), in order. An empty string issues nothing. |
| LcdProtocol.EmitClear | bmp_example.c:286-289 | `lcd_clear` is the byte 0x01 with RS low followed by a 1520 us pause. |
| LcdProtocol.DisplayDelivers | bmp_example.c:327-332 | `lcd_display_string(a, b)` delivers command 0x01, then the characters of `a`, then command 0xC0, then the characters of `b`. |
| LcdProtocol.ExportOne | bmp_example.c:185-207 | `export_gpio` leaves the line exported as an input, whether or not it was exported before. |
| LcdProtocol.ExportsOfDone | bmp_example.c:237-242 | Exporting distinct lines one after another leaves exactly those lines newly exported as inputs and touches nothing else. |
| LcdProtocol.DirectionsOfDone | bmp_example.c:244-249 | Setting exported lines to "out" one after another makes each an output driven low, and touches no other line. |
| LcdProtocol.InitPinsAll | bmp_example.c:237-249 | `lcd_init` sets up six distinct lines, and they are all the LCD's lines. |
| LcdProtocol.ExportsReady | bmp_example.c:237-242 | The six exports of `lcd_init` leave every line exported as an input, with its level unchanged, from any starting state. |
| LcdProtocol.DirectionsReady | bmp_example.c:244-249 | Once every line is exported, the six "out" settings make every line an output driven low. |
| LcdProtocol.SetupReady | bmp_example.c:236-249 | After the set-up part of `lcd_init`, all six lines are exported outputs driven low, from any starting state. |
| LcdProtocol.SetupUnseen | bmp_example.c:236-249 | The controller model, which reads only level writes, takes nothing from the set-up part of `lcd_init`. |
| LcdProtocol.InitSent | bmp_example.c:251-263 | The commands of `lcd_init` are 0x03, 0x03, 0x03, 0x02, 0x28, 0x0C, 0x06, 0x01, in that order. |
| LcdProtocol.InitDelivers | bmp_example.c:236-264 | The whole of `lcd_init` delivers exactly those eight commands, all with RS low, to a controller starting from any levels. |
| LcdProtocol.EmitLevelOnly | bmp_example.c:267-296 | After set-up, the LCD functions only write levels and pause. |
| LcdProtocol.ControllerSeesLevels | bmp_example.c:223-233 | On set-up lines, the kernel's levels after a trace of writes and pauses are the levels the controller has seen, and nothing else changes. |
| LcdProtocol.NibbleLevels | bmp_example.c:274-283 | On set-up lines, a nibble leaves bits 0..3 on D4..D7 and E low, and leaves RS and the sysfs set-up untouched. |
| LcdProtocol.ByteLevels | bmp_example.c:267-271 | On set-up lines, a byte leaves RS at the mode's level, E low, and the low nibble on D4..D7. |
| LcdProtocol.NibbleSteps | bmp_example.c:274-283 | The eight calls of `lcd_send_nibble`, one after another, issue `NibbleTrace`. |
| LcdProtocol.ByteSteps | bmp_example.c:267-271 | The RS write and the two nibble calls of `lcd_send_byte` issue `ByteTrace`. |
| LcdProtocol.InitSteps | bmp_example.c:251-263 | The pauses and byte sends of `lcd_init`, one after another, issue the events of `InitOps`. |
| LcdProtocol.ExportsSteps | bmp_example.c:237-242 | The six `export_gpio` calls, each seeing the lines the earlier ones exported, issue the exports of `lcd_init`. |
| LcdProtocol.PrintStep | bmp_example.c:293-295 | One more pass of the `lcd_print` loop extends the trace by the next character's data byte. |
| LcdDriver.Driver.UnexportGpio | bmp_example.c:174-182 | The line is no longer exported and has no direction; levels are unchanged and one `Unexport` is recorded. |
| LcdDriver.Driver.ExportGpio | bmp_example.c:185-207 | A line already exported is unexported first. The line ends up exported as an input, and the recorded events follow that branch. |
| LcdDriver.Driver.SetGpioDirection | bmp_example.c:210-220 | `Out` makes an exported line an output and drives it low; `In` makes it an input. A line that is not exported is left as it is. |
| LcdDriver.Driver.WriteGpio | bmp_example.c:223-233 | The level reaches the line only when the line is an exported output; otherwise nothing changes. |
| LcdDriver.Driver.Sleep | bmp_example.c:279-282 | A pause is recorded and changes no line. |
| LcdDriver.Driver.SendNibble | bmp_example.c:274-283 | Issues D4..D7 with bits 0..3, then E high, 1 us, E low, 37 us. The lines stay set up exactly when they were; on set-up lines, the data lines carry the bits, E ends low and RS is untouched. |
| LcdDriver.Driver.SendByte | bmp_example.c:267-271 | Writes RS as 1 exactly when the mode is nonzero, then sends the high and the low nibble. The lines stay set up exactly when they were; on set-up lines, RS is at that level and E ends low. |
| LcdDriver.Driver.Clear | bmp_example.c:286-289 | Issues command 0x01, then a 1520 us pause. The lines stay set up exactly when they were; on set-up lines, RS and E end low and D4..D7 carry 0x1. |
| LcdDriver.Driver.Print | bmp_example.c:292-296 | Loops over the string until the NUL or the end of the buffer. It issues one data byte per character and nothing for an empty string, and the lines stay set up exactly when they were. |
| LcdDriver.Driver.DisplayString | bmp_example.c:327-332 | Issues a clear, line 1, command 0xC0, then line 2. The lines stay set up exactly when they were. |
| LcdDriver.Driver.Init | bmp_example.c:236-264 | Issues the six exports, the six "out" directions, then the command sequence with its pauses. All six lines end up exported outputs, with RS and E low and the low nibble of the final 0x01 on D4..D7. |
| Display.CRem | bmp_example.c:151 | C's remainder: it goes with the truncating quotient, is smaller than the divisor in size, and takes the sign of the dividend. |
| Display.CRemParity | bmp_example.c:151 | `toggle % 2 == 0` in C holds exactly for even counts, negative ones included. |
| Display.Lines | bmp_example.c:151-155 | An even count shows temperature on line 1, an odd count shows light there, and line 2 is always pressure. |
| Display.LinesStep | bmp_example.c:151-155 | One more toggle step swaps the temperature and light lines. |
| Display.LinesTwoSteps | bmp_example.c:151-155 | Two toggle steps bring back the same pair. |
| Display.RefreshAlternates | bmp_example.c:151-155 | Consecutive refreshes with one toggle step between them alternate line 1 between temperature and light, and keep the pressure line. |
| Display.RefreshDelivers | bmp_example.c:148-160 | One refresh delivers command 0x01, the chosen first line up to its NUL, command 0xC0, and the pressure text up to its NUL. |
| Display.SharedState.constructor | bmp_example.c:24-25 | At start the count is 0 and the three 32-byte buffers hold only NULs. |
| Display.SharedState.Toggle | bmp_example.c:163-170 | One pass of `toggle_thread` adds exactly 1 to the count and leaves the buffers alone. |
| Display.SharedState.PublishTempPressure | bmp_example.c:112-115 | Stores the formatted temperature and pressure texts and nothing else. |
| Display.SharedState.PublishLight | bmp_example.c:133-135 | Stores the formatted light text and nothing else. |
| Display.SharedState.Refresh | bmp_example.c:148-160 | One pass of `display_thread` draws the pair that `Lines` picks for the current count. |

## Left out

- `main`, the four threads, their scheduling priorities and the mutex. Each
  task's body is one method, and the interleaving is not modelled.
- Time. Every `usleep` or `sleep` of the LCD code is recorded as a `Delay`
  event with its microseconds, and the pauses of the task loops are not
  recorded. Nothing checks real time, so the HD44780 timing margins are not
  modelled.
- Failures to open a sysfs file. The model assumes every open succeeds, and
  the error messages on `stderr` are not modelled. The kernel's refusals are
  modelled: a write to a line that is not an exported output changes
  nothing, and so does a direction set on a line that is not exported.
- `read_adc`, `append_to_csv`, the BMP280 driver (`bmp_init`, `get_values`)
  and `close_all`. They are not part of this model.
- `sprintf` formatting of the readings. `PublishTempPressure` and
  `PublishLight` take the formatted text as parameters.
- Display.SharedState.Toggle: the count is an unbounded integer. The C
  `int` would overflow after 2^31 steps, which is undefined behaviour.
- LcdDriver.Driver.SendByte: `char` is modelled as an unsigned byte. On a
  target where `char` is signed, `data >> 4` sign-extends, but the nibble
  reads only bits 0..3, so the lines carry the same bits.
- LcdDriver.Driver.SendNibble, LcdDriver.Driver.SendByte: the levels are
  stated only for lines that are already set up. On other lines, the writes
  that the kernel refuses are given by `WriteGpio`.
- LcdProtocol.SetupUnseen: the controller model reads only level writes.
  When `lcd_init` sets a line to "out", the kernel drives it low, and the
  kernel state records this (`SetupReady`), but the drop is not fed to the
  controller. If an earlier user of the line left E high, that drop is a
  falling edge that could latch a stray nibble. The model assumes the
  controller takes nothing from the set-up.
- LcdProtocol.InitDelivers: it rests on the same assumption as
  `SetupUnseen`, that the set-up latches nothing in the controller.
- Hd44780.Run: the controller is read in 4-bit mode from the first nibble.
  Its power-on 8-bit mode, and what the first `lcd_init` nibbles do to it,
  are not modelled.
- The text buffers are sequences of bytes. `lcd_print` stops at the first
  NUL or at the end of the sequence, so reading past a buffer with no NUL
  cannot happen in the model.
