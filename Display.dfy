/** The display task of bmp_example.c and the state it shares with the other
    tasks (bmp_example.c:23-25, 112-115, 133-135, 148-170): three text
    buffers the sensor tasks fill, and a counter the toggle task steps.  The
    display task shows temperature and pressure on an even count, light and
    pressure on an odd one. */
module Display {
  import opened Gpio
  import opened Hd44780
  import opened LcdProtocol
  import opened LcdDriver

  /** C's `/` on `int`: the quotient truncates toward zero. */
  function CDiv(a: int, b: int): int
    requires b > 0
  {
    if a >= 0 then a / b else -((-a) / b)
  }

  /** C's `%` on `int`: what is left of the dividend after the truncating
      quotient, so the remainder takes the sign of the dividend. */
  function CRem(a: int, b: int): (r: int)
    requires b > 0
    ensures a == CDiv(a, b) * b + r
    ensures -b < r < b
    ensures a >= 0 ==> r >= 0
    ensures a <= 0 ==> r <= 0
  {
    if a >= 0 then a % b else -((-a) % b)
  }

  /** A C remainder by 2 is zero exactly for the even numbers, negative ones
      included. */
  lemma CRemParity(a: int)
    ensures (CRem(a, 2) == 0) == (a % 2 == 0)
  {
    if a < 0 {
      assert (-a) % 2 == 0 <==> a % 2 == 0;
    }
  }

  /** The two lines display_thread hands to lcd_display_string for a toggle
      count: line 1 is the temperature on an even count and the light level
      on an odd one; line 2 is always the pressure. */
  function Lines(toggle: int, temp: seq<Byte>, light: seq<Byte>, pres: seq<Byte>): (r: (seq<Byte>, seq<Byte>))
    ensures r.1 == pres
    ensures toggle % 2 == 0 ==> r.0 == temp
    ensures toggle % 2 != 0 ==> r.0 == light
  {
    CRemParity(toggle);
    if CRem(toggle, 2) == 0 then (temp, pres) else (light, pres)
  }

  /** One toggle step swaps the roles of the temperature and light lines. */
  lemma LinesStep(toggle: int, temp: seq<Byte>, light: seq<Byte>, pres: seq<Byte>)
    ensures Lines(toggle + 1, temp, light, pres) == Lines(toggle, light, temp, pres)
  {
    assert (toggle + 1) % 2 == 0 <==> toggle % 2 != 0;
  }

  /** Two toggle steps bring the display back to the same pair. */
  lemma LinesTwoSteps(toggle: int, temp: seq<Byte>, light: seq<Byte>, pres: seq<Byte>)
    ensures Lines(toggle + 2, temp, light, pres) == Lines(toggle, temp, light, pres)
  {
    LinesStep(toggle + 1, temp, light, pres);
    LinesStep(toggle, light, temp, pres);
  }

  /** What one refresh puts on the display: the clear command, the text of
      the selected first line up to its NUL, the move to line 2 (0xC0), and
      the pressure text up to its NUL. */
  lemma RefreshDelivers(start: Levels, toggle: int, temp: seq<Byte>, light: seq<Byte>, pres: seq<Byte>)
    ensures Received(start, Emit(DisplayOps(Lines(toggle, temp, light, pres).0, Lines(toggle, temp, light, pres).1))) ==
            [Command(0x01)] + AsData(CStr(if toggle % 2 == 0 then temp else light)) +
            [Command(0xC0)] + AsData(CStr(pres))
  {
    var lines := Lines(toggle, temp, light, pres);
    DisplayDelivers(start, lines.0, lines.1);
  }

  /** A buffer of `char[32]` as C leaves a global one: all NUL. */
  const EmptyBuffer: seq<Byte> := seq(32, _ => 0)

  /** The globals the tasks share under the mutex. */
  class SharedState {
    var toggle: int
    var tempDisp: seq<Byte>
    var presDisp: seq<Byte>
    var ldrDisp: seq<Byte>

    /** The globals at program start: the count is 0 and every buffer holds
        the empty string. */
    constructor ()
      ensures toggle == 0
      ensures tempDisp == EmptyBuffer && presDisp == EmptyBuffer && ldrDisp == EmptyBuffer
    {
      toggle := 0;
      tempDisp, presDisp, ldrDisp := EmptyBuffer, EmptyBuffer, EmptyBuffer;
    }

    /** One pass of toggle_thread: the count goes up by exactly one and the
        buffers are left alone. */
    method Toggle()
      modifies this
      ensures toggle == old(toggle) + 1
      ensures tempDisp == old(tempDisp) && presDisp == old(presDisp) && ldrDisp == old(ldrDisp)
    {
      toggle := toggle + 1;
    }

    /** temp_pressure_thread storing its two formatted readings. */
    method PublishTempPressure(temp: seq<Byte>, pres: seq<Byte>)
      modifies this
      ensures tempDisp == temp && presDisp == pres
      ensures toggle == old(toggle) && ldrDisp == old(ldrDisp)
    {
      tempDisp := temp;
      presDisp := pres;
    }

    /** light_intensity_thread storing its formatted reading. */
    method PublishLight(light: seq<Byte>)
      modifies this
      ensures ldrDisp == light
      ensures toggle == old(toggle) && tempDisp == old(tempDisp) && presDisp == old(presDisp)
    {
      ldrDisp := light;
    }

    /** One pass of display_thread: the pair chosen by the count's parity is
        shown through lcd_display_string. */
    method Refresh(lcd: Driver)
      requires lcd.Valid()
      modifies lcd
      ensures lcd.Valid() && lcd.origin == old(lcd.origin)
      ensures lcd.trace == old(lcd.trace) +
                           Emit(DisplayOps(Lines(toggle, tempDisp, ldrDisp, presDisp).0, presDisp))
      ensures lcd.exported == old(lcd.exported) && lcd.output == old(lcd.output)
    {
      if CRem(toggle, 2) == 0 {
        lcd.DisplayString(tempDisp, presDisp);
      } else {
        lcd.DisplayString(ldrDisp, presDisp);
      }
    }
  }

  /** Refreshing, stepping the count once and refreshing again shows the
      light line where the temperature line was, and the other way round;
      the pressure line stays. */
  lemma RefreshAlternates(toggle: int, temp: seq<Byte>, light: seq<Byte>, pres: seq<Byte>)
    ensures Lines(toggle, temp, light, pres).0 == (if toggle % 2 == 0 then temp else light)
    ensures Lines(toggle + 1, temp, light, pres).0 == (if toggle % 2 == 0 then light else temp)
    ensures Lines(toggle + 1, temp, light, pres).1 == Lines(toggle, temp, light, pres).1
  {
    LinesStep(toggle, temp, light, pres);
  }
}
