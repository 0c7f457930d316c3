/** The LCD driver of bmp_example.c as the program runs it: every call issues
    its GPIO operations one after another and changes the state of the lines.
    The ghost `trace` records every operation issued; `Valid` ties the lines'
    state to a replay of that trace from the state found at start-up. */
module LcdDriver {
  import opened Gpio
  import opened Hd44780
  import opened LcdProtocol

  class Driver {
    /** Lines exported in sysfs. */
    var exported: set<Pin>
    /** Exported lines whose direction is "out". */
    var output: set<Pin>
    /** The level of each line. */
    var levels: Levels
    /** The state of the lines when the driver was created. */
    ghost var origin: Host
    /** Every GPIO operation and pause issued so far, in order. */
    ghost var trace: seq<Event>

    function State(): Host
      reads this
    {
      Host(exported, output, levels)
    }

    ghost predicate Valid()
      reads this
    {
      State() == Replay(origin, trace)
    }

    /** All six lines are exported outputs, as lcd_init leaves them. */
    predicate Ready()
      reads this
    {
      State().Ready()
    }

    /** The lines as a previous process may have left them. */
    constructor (exported0: set<Pin>, output0: set<Pin>, levels0: Levels)
      ensures Valid() && trace == []
      ensures State() == Host(exported0, output0, levels0)
    {
      exported, output, levels := exported0, output0, levels0;
      origin := Host(exported0, output0, levels0);
      trace := [];
    }

    /** unexport_gpio: releases the line. */
    method UnexportGpio(p: Pin)
      requires Valid()
      modifies this
      ensures Valid() && origin == old(origin)
      ensures trace == old(trace) + [Unexport(p)]
      ensures exported == old(exported) - {p} && output == old(output) - {p}
      ensures levels == old(levels)
    {
      ReplaySnoc(origin, trace, Unexport(p));
      exported := exported - {p};
      output := output - {p};
      trace := trace + [Unexport(p)];
    }

    /** export_gpio: a line still exported is unexported first, then the line
        is exported afresh, as an input. */
    method ExportGpio(p: Pin)
      requires Valid()
      modifies this
      ensures Valid() && origin == old(origin)
      ensures trace == old(trace) + ExportTrace(old(exported), p)
      ensures exported == old(exported) + {p} && output == old(output) - {p}
      ensures levels == old(levels)
    {
      if p in exported {
        UnexportGpio(p);
      }
      ReplaySnoc(origin, trace, Export(p));
      exported := exported + {p};
      output := output - {p};
      trace := trace + [Export(p)];
    }

    /** set_gpio_direction: only an exported line takes a direction, and
        "out" drives it low. */
    method SetGpioDirection(p: Pin, d: Direction)
      requires Valid()
      modifies this
      ensures Valid() && origin == old(origin)
      ensures trace == old(trace) + [SetDirection(p, d)]
      ensures exported == old(exported)
      ensures output == if p !in exported then old(output)
                        else if d == Out then old(output) + {p} else old(output) - {p}
      ensures levels == if p in exported && d == Out then old(levels).Set(p, false) else old(levels)
    {
      ReplaySnoc(origin, trace, SetDirection(p, d));
      output := if p !in exported then output else if d == Out then output + {p} else output - {p};
      levels := if p in exported && d == Out then levels.Set(p, false) else levels;
      trace := trace + [SetDirection(p, d)];
    }

    /** write_gpio: the level reaches the line only when the line is an
        exported output; otherwise the write fails and nothing changes. */
    method WriteGpio(p: Pin, high: bool)
      requires Valid()
      modifies this
      ensures Valid() && origin == old(origin)
      ensures trace == old(trace) + [Write(p, high)]
      ensures exported == old(exported) && output == old(output)
      ensures levels == if old(State()).Live(p) then old(levels).Set(p, high) else old(levels)
    {
      ReplaySnoc(origin, trace, Write(p, high));
      levels := if p in exported && p in output then levels.Set(p, high) else levels;
      trace := trace + [Write(p, high)];
    }

    /** usleep: recorded as a pause; the lines do not change. */
    method Sleep(micros: nat)
      requires Valid()
      modifies this
      ensures Valid() && origin == old(origin)
      ensures trace == old(trace) + [Delay(micros)]
      ensures State() == old(State())
    {
      ReplaySnoc(origin, trace, Delay(micros));
      trace := trace + [Delay(micros)];
    }

    /** lcd_send_nibble: the data lines take bits 0..3 of `data`, then E is
        pulsed high and low.  RS is not touched and E is low at the end. */
    method SendNibble(data: Byte)
      requires Valid()
      modifies this
      ensures Valid() && origin == old(origin)
      ensures trace == old(trace) + NibbleTrace(data)
      ensures State() == Replay(old(State()), NibbleTrace(data))
      ensures exported == old(exported) && output == old(output)
      ensures Ready() == old(Ready())
      ensures old(Ready()) ==> levels == Strobed(old(levels), data)
    {
      ghost var t0 := trace;
      WriteGpio(D4, (data & 0x1) != 0);
      ghost var t1 := trace;
      WriteGpio(D5, (data & 0x2) != 0);
      ghost var t2 := trace;
      WriteGpio(D6, (data & 0x4) != 0);
      ghost var t3 := trace;
      WriteGpio(D7, (data & 0x8) != 0);
      ghost var t4 := trace;
      WriteGpio(E, true);
      ghost var t5 := trace;
      Sleep(1);
      ghost var t6 := trace;
      WriteGpio(E, false);
      ghost var t7 := trace;
      Sleep(37);
      NibbleSteps(data, t0, t1, t2, t3, t4, t5, t6, t7, trace);
      ReplayFrom(origin, old(trace), NibbleTrace(data), trace);
      ReadySame(old(State()), State());
      if old(Ready()) {
        NibbleLevels(old(State()), data);
      }
    }

    /** lcd_send_byte: RS is 1 exactly when `mode` is nonzero; then the high
        nibble, then the low nibble. */
    method SendByte(data: Byte, mode: int)
      requires Valid()
      modifies this
      ensures Valid() && origin == old(origin)
      ensures trace == old(trace) + ByteTrace(data, mode != 0)
      ensures State() == Replay(old(State()), ByteTrace(data, mode != 0))
      ensures exported == old(exported) && output == old(output)
      ensures Ready() == old(Ready())
      ensures old(Ready()) ==> levels == Strobed(old(levels).(rs := mode != 0), data & 0xF)
    {
      ghost var t0 := trace;
      WriteGpio(RS, if mode != 0 then true else false);
      ghost var t1 := trace;
      SendNibble(data >> 4);
      ghost var t2 := trace;
      SendNibble(data & 0xF);
      ByteSteps(data, mode != 0, t0, t1, t2, trace);
      ReplayFrom(origin, old(trace), ByteTrace(data, mode != 0), trace);
      ReadySame(old(State()), State());
      if old(Ready()) {
        ByteLevels(old(State()), data, mode != 0);
      }
    }

    /** lcd_clear: command 0x01, then a 1520 microsecond pause. */
    method Clear()
      requires Valid()
      modifies this
      ensures Valid() && origin == old(origin)
      ensures trace == old(trace) + Emit(ClearOps)
      ensures State() == Replay(old(State()), Emit(ClearOps))
      ensures exported == old(exported) && output == old(output)
      ensures Ready() == old(Ready())
      ensures old(Ready()) ==> levels == Strobed(old(levels).(rs := false), 0x01)
    {
      SendByte(0x01, 0);
      Sleep(1520);
      EmitClear();
      ReplayFrom(origin, old(trace), Emit(ClearOps), trace);
    }

    /** lcd_print: one data byte per character until the NUL. */
    method Print(s: seq<Byte>)
      requires Valid()
      modifies this
      ensures Valid() && origin == old(origin)
      ensures trace == old(trace) + Emit(PrintOps(s))
      ensures State() == Replay(old(State()), Emit(PrintOps(s)))
      ensures exported == old(exported) && output == old(output)
      ensures Ready() == old(Ready())
    {
      var i := 0;
      ghost var str := CStr(s);
      assert Emit(Sends(AsData(str[..0]))) == [] by {
        assert Sends(AsData(str[..0])) == [];
        assert Flatten([]) == [];
      }
      while i < |s| && s[i] != 0
        invariant i <= |str|
        invariant Valid() && origin == old(origin)
        invariant exported == old(exported) && output == old(output)
        invariant trace == old(trace) + Emit(Sends(AsData(str[..i])))
      {
        assert i < |str| && str[i] == s[i];
        ghost var before := trace;
        SendByte(s[i], 1);
        i := i + 1;
        PrintStep(old(trace), before, trace, str, i);
      }
      assert str[..i] == str;
      ReplayFrom(origin, old(trace), Emit(PrintOps(s)), trace);
      ReadySame(old(State()), State());
    }

    /** lcd_display_string: clear, line 1, move to line 2 (0xC0), line 2. */
    method DisplayString(line1: seq<Byte>, line2: seq<Byte>)
      requires Valid()
      modifies this
      ensures Valid() && origin == old(origin)
      ensures trace == old(trace) + Emit(DisplayOps(line1, line2))
      ensures State() == Replay(old(State()), Emit(DisplayOps(line1, line2)))
      ensures exported == old(exported) && output == old(output)
      ensures Ready() == old(Ready())
    {
      Clear();
      ghost var t1 := trace;
      Print(line1);
      OpsStep(old(trace), t1, trace, ClearOps, PrintOps(line1));
      ghost var t2 := trace;
      SendByte(0xC0, 0);
      OpStep(old(trace), t2, trace, ClearOps + PrintOps(line1), Send(Command(0xC0)));
      ghost var t3 := trace;
      Print(line2);
      OpsStep(old(trace), t3, trace, ClearOps + PrintOps(line1) + [Send(Command(0xC0))], PrintOps(line2));
      ReplayFrom(origin, old(trace), Emit(DisplayOps(line1, line2)), trace);
    }

    /** lcd_init: every line exported and set to "out", then the power-on
        command sequence. */
    method Init()
      requires Valid()
      modifies this
      ensures Valid() && origin == old(origin)
      ensures trace == old(trace) + SetupTrace(old(exported)) + Emit(InitOps)
      ensures Ready()
      ensures levels == Levels(false, false, true, false, false, false)
    {
      ghost var pre := exported;
      ghost var t0 := trace;
      ExportGpio(RS);
      ghost var t1 := trace;
      ExportGpio(E);
      ghost var t2 := trace;
      ExportGpio(D4);
      ghost var t3 := trace;
      ExportGpio(D5);
      ghost var t4 := trace;
      ExportGpio(D6);
      ghost var t5 := trace;
      ExportGpio(D7);
      ExportsSteps(pre, t0, t1, t2, t3, t4, t5, trace);
      ghost var d0 := trace;
      SetGpioDirection(RS, Out);
      ghost var d1 := trace;
      SetGpioDirection(E, Out);
      ghost var d2 := trace;
      SetGpioDirection(D4, Out);
      ghost var d3 := trace;
      SetGpioDirection(D5, Out);
      ghost var d4 := trace;
      SetGpioDirection(D6, Out);
      ghost var d5 := trace;
      SetGpioDirection(D7, Out);
      DirectionsSteps(d0, d1, d2, d3, d4, d5, trace);
      AppendAssoc(t0, ExportsTrace(pre), DirectionsTrace);
      AllLive(State());

      ghost var c0 := trace;
      Sleep(15000);
      ghost var c1 := trace;
      SendByte(0x03, 0);
      ghost var c2 := trace;
      Sleep(4100);
      ghost var c3 := trace;
      SendByte(0x03, 0);
      ghost var c4 := trace;
      Sleep(100);
      ghost var c5 := trace;
      SendByte(0x03, 0);
      ghost var c6 := trace;
      SendByte(0x02, 0);
      ghost var c7 := trace;
      SendByte(0x28, 0);
      ghost var c8 := trace;
      SendByte(0x0C, 0);
      ghost var c9 := trace;
      SendByte(0x06, 0);
      ghost var c10 := trace;
      Clear();
      InitSteps(c0, c1, c2, c3, c4, c5, c6, c7, c8, c9, c10, trace);
    }
  }
}
