/** What an HD44780 controller in 4-bit mode receives from the six lines: on
    each falling edge of E it latches the data lines D4..D7 as a nibble,
    together with RS; the first nibble of a pair is the high half of a byte and
    the second the low half.  This is the reader against which the driver's
    GPIO traces are decoded. */
module Hd44780 {
  import opened Gpio

  type Byte = bv8

  /** One byte delivered to the controller: a command (`rs` false) or
      display data (`rs` true). */
  datatype Transfer = Transfer(rs: bool, value: Byte)

  function Command(b: Byte): Transfer { Transfer(false, b) }

  function Data(b: Byte): Transfer { Transfer(true, b) }

  /** Whether a high nibble is waiting for its low half. */
  datatype Pending = Idle | HighNibble(rs: bool, nibble: Byte)

  datatype Controller = Controller(pins: Levels, pending: Pending, received: seq<Transfer>)

  /** The nibble the data lines carry (D4 is bit 0, D7 is bit 3). */
  function DataNibble(l: Levels): (n: Byte)
    ensures n < 16
    ensures (n & 1 != 0) == l.d4 && (n & 2 != 0) == l.d5
    ensures (n & 4 != 0) == l.d6 && (n & 8 != 0) == l.d7
  {
    (if l.d4 then 1 else 0) | (if l.d5 then 2 else 0) |
    (if l.d6 then 4 else 0) | (if l.d7 then 8 else 0)
  }

  /** Takes one latched nibble: holds it as the high half, or completes a byte. */
  function Latch(c: Controller, rs: bool, n: Byte): Controller {
    match c.pending
    case Idle => c.(pending := HighNibble(rs, n))
    case HighNibble(hrs, hi) =>
      c.(pending := Idle, received := c.received + [Transfer(hrs, (hi << 4) | n)])
  }

  /** The controller's reaction to one event: only level writes are seen, and
      a write of 0 to E while E is high latches the lines as they stand. */
  function Step(c: Controller, ev: Event): Controller {
    match ev
    case Write(p, v) =>
      var moved := c.(pins := c.pins.Set(p, v));
      if p == E && c.pins.e && !v then Latch(moved, c.pins.rs, DataNibble(c.pins)) else moved
    case _ => c
  }

  function Run(c: Controller, t: seq<Event>): Controller
    decreases |t|
  {
    if t == [] then c else Step(Run(c, t[..|t| - 1]), t[|t| - 1])
  }

  /** The bytes a controller starting from `start` with no half byte pending
      receives from a trace. */
  function Received(start: Levels, t: seq<Event>): seq<Transfer> {
    Run(Controller(start, Idle, []), t).received
  }

  lemma {:induction false} RunAppend(c: Controller, a: seq<Event>, b: seq<Event>)
    ensures Run(c, a + b) == Run(Run(c, a), b)
    decreases |b|
  {
    if b == [] {
      assert a + b == a;
    } else {
      RunAppend(c, a, b[..|b| - 1]);
      assert (a + b)[..|a + b| - 1] == a + b[..|b| - 1];
    }
  }

  lemma RunSnoc(c: Controller, t: seq<Event>, ev: Event)
    ensures Run(c, t + [ev]) == Step(Run(c, t), ev)
  {
    assert (t + [ev])[..|t|] == t;
  }

  /** A level write that is not a falling edge of E only moves that line. */
  lemma StepLine(c: Controller, p: Pin, v: bool)
    requires p != E
    ensures Step(c, Write(p, v)) == Controller(c.pins.Set(p, v), c.pending, c.received)
  {
  }

  /** Three traces, one after another. */
  lemma RunThree(c: Controller, a: seq<Event>, b: seq<Event>, d: seq<Event>,
                 c1: Controller, c2: Controller, c3: Controller)
    requires c1 == Run(c, a) && c2 == Run(c1, b) && c3 == Run(c2, d)
    ensures Run(c, a + b + d) == c3
  {
    RunAppend(c, a + b, d);
    RunAppend(c, a, b);
  }

  /** Four events, one after another. */
  lemma RunFour(c: Controller, e1: Event, e2: Event, e3: Event, e4: Event,
                c1: Controller, c2: Controller, c3: Controller, c4: Controller)
    requires c1 == Step(c, e1) && c2 == Step(c1, e2) && c3 == Step(c2, e3) && c4 == Step(c3, e4)
    ensures Run(c, [e1, e2, e3, e4]) == c4
  {
    RunSnoc(c, [], e1);
    RunSnoc(c, [e1], e2);
    assert [e1] + [e2] == [e1, e2];
    RunSnoc(c, [e1, e2], e3);
    assert [e1, e2] + [e3] == [e1, e2, e3];
    RunSnoc(c, [e1, e2, e3], e4);
    assert [e1, e2, e3] + [e4] == [e1, e2, e3, e4];
  }

  /** A trace without level writes leaves the controller as it was. */
  lemma {:induction false} RunQuiet(c: Controller, t: seq<Event>)
    requires forall i :: 0 <= i < |t| ==> !t[i].Write?
    ensures Run(c, t) == c
    decreases |t|
  {
    if t != [] {
      RunQuiet(c, t[..|t| - 1]);
    }
  }
}
