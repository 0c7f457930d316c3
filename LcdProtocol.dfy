/** The GPIO traces the LCD driver issues (bmp_example.c:235-296, 326-332),
    as functions of its arguments, and what an HD44780 controller decodes
    from them. */
module LcdProtocol {
  import opened Gpio
  import opened Hd44780

  /** lcd_send_nibble, first half: D4..D7 from bits 0..3 of `data`. */
  function DataLines(data: Byte): seq<Event> {
    [Write(D4, (data & 0x1) != 0), Write(D5, (data & 0x2) != 0),
     Write(D6, (data & 0x4) != 0), Write(D7, (data & 0x8) != 0)]
  }

  /** lcd_send_nibble, second half: E high, at least 1 microsecond, E low,
      then 37 microseconds for the controller. */
  const EnablePulse: seq<Event> := [Write(E, true), Delay(1), Write(E, false), Delay(37)]

  function NibbleTrace(data: Byte): seq<Event> {
    DataLines(data) + EnablePulse
  }

  /** lcd_send_byte: register select, then the high nibble, then the low one. */
  function ByteTrace(data: Byte, rs: bool): seq<Event> {
    [Write(RS, rs)] + NibbleTrace(data >> 4) + NibbleTrace(data & 0xF)
  }

  /** A driver-level step: one byte sent, or a pause. */
  datatype Op = Send(t: Transfer) | Wait(micros: nat)

  function OpTrace(op: Op): seq<Event> {
    match op
    case Send(t) => ByteTrace(t.value, t.rs)
    case Wait(us) => [Delay(us)]
  }

  function Flatten(ts: seq<seq<Event>>): seq<Event>
    decreases |ts|
  {
    if ts == [] then [] else Flatten(ts[..|ts| - 1]) + ts[|ts| - 1]
  }

  /** The GPIO trace of a sequence of steps. */
  function Emit(ops: seq<Op>): seq<Event> {
    Flatten(seq(|ops|, i requires 0 <= i < |ops| => OpTrace(ops[i])))
  }

  /** The bytes a sequence of steps sends, in order. */
  function Sent(ops: seq<Op>): seq<Transfer>
    decreases |ops|
  {
    if ops == [] then []
    else Sent(ops[..|ops| - 1]) + (if ops[|ops| - 1].Send? then [ops[|ops| - 1].t] else [])
  }

  function Sends(ts: seq<Transfer>): seq<Op> {
    seq(|ts|, i requires 0 <= i < |ts| => Send(ts[i]))
  }

  function AsData(s: seq<Byte>): seq<Transfer> {
    seq(|s|, i requires 0 <= i < |s| => Data(s[i]))
  }

  /** The characters of a C string held in a buffer: everything before the
      first NUL (the whole buffer when it holds none). */
  function CStr(s: seq<Byte>): (r: seq<Byte>)
    ensures r <= s
    ensures forall i :: 0 <= i < |r| ==> r[i] != 0
    ensures |r| < |s| ==> s[|r|] == 0
  {
    if s == [] || s[0] == 0 then [] else [s[0]] + CStr(s[1..])
  }

  /** lcd_print: one data byte per character, up to the NUL. */
  function PrintOps(s: seq<Byte>): seq<Op> {
    Sends(AsData(CStr(s)))
  }

  /** lcd_clear: command 0x01, then 1520 microseconds for the controller. */
  const ClearOps: seq<Op> := [Send(Command(0x01)), Wait(1520)]

  /** lcd_display_string: clear, line 1, move to line 2 (0xC0), line 2. */
  function DisplayOps(line1: seq<Byte>, line2: seq<Byte>): seq<Op> {
    ClearOps + PrintOps(line1) + [Send(Command(0xC0))] + PrintOps(line2)
  }

  /** The command part of lcd_init, with its pauses.  0x03 and 0x02 are sent
      as whole bytes, as lcd_send_byte frames every byte. */
  const InitOps: seq<Op> :=
    [Wait(15000), Send(Command(0x03)), Wait(4100), Send(Command(0x03)), Wait(100),
     Send(Command(0x03)), Send(Command(0x02)), Send(Command(0x28)),
     Send(Command(0x0C)), Send(Command(0x06))] + ClearOps

  /** export_gpio: a line left exported by an earlier process is unexported
      first. */
  function ExportTrace(pre: set<Pin>, p: Pin): seq<Event> {
    if p in pre then [Unexport(p), Export(p)] else [Export(p)]
  }

  /** The lines lcd_init sets up, in the order it sets them up. */
  const InitPins: seq<Pin> := [RS, E, D4, D5, D6, D7]

  /** export_gpio for each of the lines `ps` in turn, given the lines exported
      beforehand. */
  function ExportsOf(pre: set<Pin>, ps: seq<Pin>): seq<Event>
    decreases |ps|
  {
    if ps == [] then [] else ExportsOf(pre, ps[..|ps| - 1]) + ExportTrace(pre, ps[|ps| - 1])
  }

  /** The exports of lcd_init, given the lines exported beforehand. */
  function ExportsTrace(pre: set<Pin>): seq<Event> {
    ExportsOf(pre, InitPins)
  }

  /** set_gpio_direction(_, "out") for each of the lines `ps` in turn. */
  function DirectionsOf(ps: seq<Pin>): seq<Event> {
    seq(|ps|, i requires 0 <= i < |ps| => SetDirection(ps[i], Out))
  }

  const DirectionsTrace: seq<Event> := DirectionsOf(InitPins)

  /** The GPIO set-up of lcd_init: every line exported, then set to "out". */
  function SetupTrace(pre: set<Pin>): seq<Event> {
    ExportsTrace(pre) + DirectionsTrace
  }

  /** The bytes lcd_init sends. */
  const InitCommands: seq<Transfer> :=
    [Command(0x03), Command(0x03), Command(0x03), Command(0x02),
     Command(0x28), Command(0x0C), Command(0x06), Command(0x01)]

  /** The levels a nibble leaves on the lines: the data lines carry its bits
      and E is low again. */
  function Strobed(l: Levels, data: Byte): Levels {
    l.(e := false, d4 := (data & 0x1) != 0, d5 := (data & 0x2) != 0,
       d6 := (data & 0x4) != 0, d7 := (data & 0x8) != 0)
  }

  /** The first half of a nibble puts bits 0..3 of `data` on D4..D7 and
      latches nothing. */
  lemma DataLinesRun(c: Controller, data: Byte)
    ensures Run(c, DataLines(data)) == c.(pins := c.pins.(d4 := (data & 0x1) != 0, d5 := (data & 0x2) != 0,
                                                         d6 := (data & 0x4) != 0, d7 := (data & 0x8) != 0))
  {
    LinesRun(c, (data & 0x1) != 0, (data & 0x2) != 0, (data & 0x4) != 0, (data & 0x8) != 0);
  }

  /** Writing the four data lines only moves those lines. */
  lemma LinesRun(c: Controller, b0: bool, b1: bool, b2: bool, b3: bool)
    ensures Run(c, [Write(D4, b0), Write(D5, b1), Write(D6, b2), Write(D7, b3)]) ==
            c.(pins := c.pins.(d4 := b0, d5 := b1, d6 := b2, d7 := b3))
  {
    var c1 := Step(c, Write(D4, b0));
    var c2 := Step(c1, Write(D5, b1));
    var c3 := Step(c2, Write(D6, b2));
    var c4 := Step(c3, Write(D7, b3));
    StepLine(c, D4, b0);
    StepLine(c1, D5, b1);
    StepLine(c2, D6, b2);
    StepLine(c3, D7, b3);
    RunFour(c, Write(D4, b0), Write(D5, b1), Write(D6, b2), Write(D7, b3), c1, c2, c3, c4);
  }

  lemma EnablePulseRun(c: Controller)
    ensures Run(c, EnablePulse) == Latch(c.(pins := c.pins.(e := false)), c.pins.rs, DataNibble(c.pins))
  {
    var c1 := Step(c, Write(E, true));
    var c2 := Step(c1, Delay(1));
    var c3 := Step(c2, Write(E, false));
    var c4 := Step(c3, Delay(37));
    assert c1 == c.(pins := c.pins.(e := true));
    assert DataNibble(c1.pins) == DataNibble(c.pins);
    RunFour(c, Write(E, true), Delay(1), Write(E, false), Delay(37), c1, c2, c3, c4);
  }

  /** A nibble's trace makes the controller latch exactly one nibble, the low
      four bits of `data`, under the RS level it found; RS is left as it was
      and E ends low. */
  lemma NibbleLatch(c: Controller, data: Byte)
    ensures Run(c, NibbleTrace(data)) == Latch(c.(pins := Strobed(c.pins, data)), c.pins.rs, data & 0xF)
  {
    RunAppend(c, DataLines(data), EnablePulse);
    DataLinesRun(c, data);
    var c4 := Run(c, DataLines(data));
    EnablePulseRun(c4);
    assert DataNibble(c4.pins) == data & 0xF;
    assert c4.pins.(e := false) == Strobed(c.pins, data);
  }

  /** A byte's trace delivers exactly that byte, with RS as given: RS is
      written first, and the high nibble sent before the low one is the one
      the controller puts in bits 4..7. */
  lemma ByteDelivered(c: Controller, data: Byte, rs: bool)
    requires c.pending == Idle
    ensures Run(c, ByteTrace(data, rs)) ==
            c.(pins := Strobed(c.pins.(rs := rs), data & 0xF), received := c.received + [Transfer(rs, data)])
  {
    var w := [Write(RS, rs)];
    var hi, lo := NibbleTrace(data >> 4), NibbleTrace(data & 0xF);
    var c1 := Step(c, Write(RS, rs));
    StepLine(c, RS, rs);
    assert Run(c, w) == c1 by {
      RunSnoc(c, [], Write(RS, rs));
      assert [] + w == w;
    }
    var c2 := Run(c1, hi);
    NibbleLatch(c1, data >> 4);
    var c3 := Run(c2, lo);
    NibbleLatch(c2, data & 0xF);
    NibblesJoin(data);
    RunThree(c, w, hi, lo, c1, c2, c3);
  }

  /** The high and the low nibble of a byte put back together give the byte. */
  lemma NibblesJoin(data: Byte)
    ensures (((data >> 4) & 0xF) << 4) | ((data & 0xF) & 0xF) == data
  {
  }

  /** The round trip: whatever the lines held before, a controller with no
      half byte pending decodes the trace of a sequence of steps into exactly
      the bytes those steps send, and is left with no half byte pending. */
  lemma {:induction false} EmitDelivered(c: Controller, ops: seq<Op>)
    requires c.pending == Idle
    ensures Run(c, Emit(ops)).pending == Idle
    ensures Run(c, Emit(ops)).received == c.received + Sent(ops)
    decreases |ops|
  {
    if ops != [] {
      var init, op := ops[..|ops| - 1], ops[|ops| - 1];
      EmitDelivered(c, init);
      assert ops == init + [op];
      EmitSnoc(init, op);
      RunAppend(c, Emit(init), OpTrace(op));
      var c1 := Run(c, Emit(init));
      match op
      case Send(t) =>
        ByteDelivered(c1, t.value, t.rs);
      case Wait(us) =>
        assert [Delay(us)][..0] == [];
    }
  }

  lemma {:induction false} FlattenAppend(a: seq<seq<Event>>, b: seq<seq<Event>>)
    ensures Flatten(a + b) == Flatten(a) + Flatten(b)
    decreases |b|
  {
    if b == [] {
      assert a + b == a;
    } else {
      var init, last := b[..|b| - 1], b[|b| - 1];
      FlattenAppend(a, init);
      assert (a + b)[..|a + b| - 1] == a + init;
      assert (a + b)[|a + b| - 1] == last;
      AppendAssoc(Flatten(a), Flatten(init), last);
    }
  }

  lemma EmitAppend(a: seq<Op>, b: seq<Op>)
    ensures Emit(a + b) == Emit(a) + Emit(b)
  {
    var ta := seq(|a|, i requires 0 <= i < |a| => OpTrace(a[i]));
    var tb := seq(|b|, i requires 0 <= i < |b| => OpTrace(b[i]));
    assert seq(|a + b|, i requires 0 <= i < |a + b| => OpTrace((a + b)[i])) == ta + tb;
    FlattenAppend(ta, tb);
  }

  lemma EmitSnoc(ops: seq<Op>, op: Op)
    ensures Emit(ops + [op]) == Emit(ops) + OpTrace(op)
  {
    EmitAppend(ops, [op]);
    assert seq(1, i requires 0 <= i < 1 => OpTrace([op][i])) == [OpTrace(op)];
    assert Flatten([OpTrace(op)]) == OpTrace(op) by {
      assert [OpTrace(op)][..0] == [];
    }
  }

  lemma {:induction false} SentAppend(a: seq<Op>, b: seq<Op>)
    ensures Sent(a + b) == Sent(a) + Sent(b)
    decreases |b|
  {
    if b == [] {
      assert a + b == a;
    } else {
      SentAppend(a, b[..|b| - 1]);
      assert (a + b)[..|a + b| - 1] == a + b[..|b| - 1];
    }
  }

  lemma {:induction false} SentSends(ts: seq<Transfer>)
    ensures Sent(Sends(ts)) == ts
    decreases |ts|
  {
    if ts != [] {
      SentSends(ts[..|ts| - 1]);
      assert Sends(ts)[..|ts| - 1] == Sends(ts[..|ts| - 1]);
    }
  }

  /** Decoding every byte sent: from any levels on the lines, the controller
      receives exactly the bytes of the steps, in order. */
  lemma Decodes(start: Levels, ops: seq<Op>)
    ensures Received(start, Emit(ops)) == Sent(ops)
  {
    EmitDelivered(Controller(start, Idle, []), ops);
  }

  lemma WritesPrefix(t: seq<Event>, k: nat)
    requires 0 < k <= |t|
    ensures Writes(t[..k]) == Writes(t[..k - 1]) + (if t[k - 1].Write? then [t[k - 1]] else [])
  {
    assert t[..k][..k - 1] == t[..k - 1];
  }

  lemma DataLinesWrites(data: Byte)
    ensures Writes(DataLines(data)) == DataLines(data)
  {
    var t := DataLines(data);
    assert t[..0] == [];
    WritesPrefix(t, 1);
    WritesPrefix(t, 2);
    WritesPrefix(t, 3);
    WritesPrefix(t, 4);
    assert t[..4] == t;
  }

  lemma EnablePulseWrites()
    ensures Writes(EnablePulse) == [Write(E, true), Write(E, false)]
  {
    var p := EnablePulse;
    assert p[..0] == [];
    WritesPrefix(p, 1);
    WritesPrefix(p, 2);
    WritesPrefix(p, 3);
    WritesPrefix(p, 4);
    assert p[..4] == p;
  }

  lemma NibbleWrites(data: Byte)
    ensures Writes(NibbleTrace(data)) == DataLines(data) + [Write(E, true), Write(E, false)]
  {
    WritesAppend(DataLines(data), EnablePulse);
    DataLinesWrites(data);
    EnablePulseWrites();
  }

  /** Only the RS write and the two nibbles' writes are issued: 13 level
      writes per byte, RS first and never again, E low at the end. */
  lemma ByteWrites(data: Byte, rs: bool)
    ensures |Writes(ByteTrace(data, rs))| == 13
    ensures Writes(ByteTrace(data, rs))[0] == Write(RS, rs)
    ensures forall i :: 0 < i < 13 ==> Writes(ByteTrace(data, rs))[i].pin != RS
    ensures Writes(ByteTrace(data, rs))[12] == Write(E, false)
  {
    var hi, lo := DataLines(data >> 4), DataLines(data & 0xF);
    var pulse := [Write(E, true), Write(E, false)];
    assert Writes(ByteTrace(data, rs)) == [Write(RS, rs)] + (hi + pulse) + (lo + pulse) by {
      NibbleWrites(data >> 4);
      NibbleWrites(data & 0xF);
      var w := [Write(RS, rs)];
      WritesAppend(w + NibbleTrace(data >> 4), NibbleTrace(data & 0xF));
      WritesAppend(w, NibbleTrace(data >> 4));
      assert Writes(w) == w by {
        assert w[..0] == [];
      }
    }
  }

  /** lcd_print sends each character before the NUL as one data byte, in
      order, and nothing at all for an empty string. */
  lemma PrintDelivers(start: Levels, s: seq<Byte>)
    ensures Received(start, Emit(PrintOps(s))) == AsData(CStr(s))
    ensures |Received(start, Emit(PrintOps(s)))| == |CStr(s)|
    ensures (s == [] || s[0] == 0) ==> Emit(PrintOps(s)) == []
  {
    Decodes(start, PrintOps(s));
    SentSends(AsData(CStr(s)));
    if s == [] || s[0] == 0 {
      assert PrintOps(s) == [];
      assert Flatten([]) == [];
    }
  }

  /** lcd_display_string(a, b) delivers command 0x01, the characters of `a`,
      command 0xC0, then the characters of `b`. */
  lemma DisplayDelivers(start: Levels, line1: seq<Byte>, line2: seq<Byte>)
    ensures Received(start, Emit(DisplayOps(line1, line2))) ==
            [Command(0x01)] + AsData(CStr(line1)) + [Command(0xC0)] + AsData(CStr(line2))
  {
    var p1, p2 := PrintOps(line1), PrintOps(line2);
    var move := [Send(Command(0xC0))];
    Decodes(start, DisplayOps(line1, line2));
    SentAppend(ClearOps + p1 + move, p2);
    SentAppend(ClearOps + p1, move);
    SentAppend(ClearOps, p1);
    SentSends(AsData(CStr(line1)));
    SentSends(AsData(CStr(line2)));
    assert Sent(move) == [Command(0xC0)] by {
      assert move[..0] == [];
    }
    assert Sent(ClearOps) == [Command(0x01)] by {
      assert ClearOps[..1][..0] == [];
    }
  }

  /** export_gpio leaves the line exported as an input, whether or not it was
      exported before. */
  lemma ExportOne(h: Host, pre: set<Pin>, p: Pin)
    requires p in pre <==> p in h.exported
    ensures Replay(h, ExportTrace(pre, p)) == h.(exported := h.exported + {p}, output := h.output - {p})
  {
    if p in pre {
      ReplaySnoc(h, [Unexport(p)], Export(p));
      ReplaySnoc(h, [], Unexport(p));
    } else {
      ReplaySnoc(h, [], Export(p));
    }
  }

  /** Exporting distinct lines one after another, starting from the state in
      which `pre` was taken, leaves each of them exported as an input and
      touches no other line. */
  lemma {:induction false} ExportsOfDone(h: Host, ps: seq<Pin>)
    requires forall i, j :: 0 <= i < j < |ps| ==> ps[i] != ps[j]
    ensures Replay(h, ExportsOf(h.exported, ps)) ==
            h.(exported := h.exported + Members(ps), output := h.output - Members(ps))
    decreases |ps|
  {
    if ps != [] {
      var init, p := ps[..|ps| - 1], ps[|ps| - 1];
      ExportsOfDone(h, init);
      ReplayAppend(h, ExportsOf(h.exported, init), ExportTrace(h.exported, p));
      assert p !in Members(init) by {
        MembersIn(init, p);
        forall k | 0 <= k < |init| ensures init[k] != p {
          assert init[k] == ps[k];
        }
      }
      ExportOne(Replay(h, ExportsOf(h.exported, init)), h.exported, p);
    }
  }

  /** Setting exported lines to "out" one after another makes each of them an
      output driven low and touches nothing else. */
  lemma {:induction false} DirectionsOfDone(h: Host, ps: seq<Pin>)
    requires forall q :: q in ps ==> q in h.exported
    ensures Replay(h, DirectionsOf(ps)).exported == h.exported
    ensures Replay(h, DirectionsOf(ps)).output == h.output + Members(ps)
    ensures forall q: Pin :: Replay(h, DirectionsOf(ps)).levels.Get(q) == (q !in ps && h.levels.Get(q))
    decreases |ps|
  {
    if ps != [] {
      var init, p := ps[..|ps| - 1], ps[|ps| - 1];
      DirectionsOfDone(h, init);
      assert DirectionsOf(ps) == DirectionsOf(init) + [SetDirection(p, Out)];
      ReplaySnoc(h, DirectionsOf(init), SetDirection(p, Out));
      assert ps == init + [p];
    }
  }

  /** The lines listed in `ps`. */
  function Members(ps: seq<Pin>): set<Pin>
    decreases |ps|
  {
    if ps == [] then {} else Members(ps[..|ps| - 1]) + {ps[|ps| - 1]}
  }

  lemma {:induction false} MembersIn(ps: seq<Pin>, q: Pin)
    ensures q in Members(ps) <==> q in ps
    decreases |ps|
  {
    if ps != [] {
      MembersIn(ps[..|ps| - 1], q);
      assert ps == ps[..|ps| - 1] + [ps[|ps| - 1]];
    }
  }

  /** lcd_init sets up six distinct lines, all of them. */
  lemma InitPinsAll()
    ensures forall i, j :: 0 <= i < j < |InitPins| ==> InitPins[i] != InitPins[j]
    ensures Members(InitPins) == AllPins
  {
    forall q: Pin ensures q in Members(InitPins) <==> q in AllPins {
      MembersIn(InitPins, q);
      AllPinsComplete(q);
    }
  }

  /** The six exports of lcd_init leave every line exported as an input. */
  lemma ExportsReady(h: Host)
    ensures Replay(h, ExportsTrace(h.exported)) == Host(AllPins, {}, h.levels)
  {
    InitPinsAll();
    ExportsOfDone(h, InitPins);
    var h6 := Replay(h, ExportsTrace(h.exported));
    forall q: Pin ensures q in h6.exported <==> q in AllPins {
      AllPinsComplete(q);
    }
    forall q: Pin ensures q !in h6.output {
      AllPinsComplete(q);
    }
  }

  /** The six direction settings of lcd_init, on lines that are all exported,
      make every line an output driven low. */
  lemma DirectionsReady(l: Levels)
    ensures Replay(Host(AllPins, {}, l), DirectionsTrace) == Host(AllPins, AllPins, AllLow)
  {
    var h6 := Host(AllPins, {}, l);
    InitPinsAll();
    DirectionsOfDone(h6, InitPins);
    var r := Replay(h6, DirectionsTrace);
    forall q: Pin ensures !r.levels.Get(q) {
      assert q in InitPins by {
        MembersIn(InitPins, q);
        AllPinsComplete(q);
      }
    }
    assert !r.levels.Get(RS) && !r.levels.Get(E) && !r.levels.Get(D4);
    assert !r.levels.Get(D5) && !r.levels.Get(D6) && !r.levels.Get(D7);
  }

  /** The set-up part of lcd_init leaves all six lines exported, set to
      "out" and driven low. */
  lemma SetupReady(h: Host)
    ensures Replay(h, SetupTrace(h.exported)) == Host(AllPins, AllPins, AllLow)
    ensures Replay(h, SetupTrace(h.exported)).Ready()
  {
    ReplayAppend(h, ExportsTrace(h.exported), DirectionsTrace);
    ExportsReady(h);
    DirectionsReady(h.levels);
    var r := Replay(h, SetupTrace(h.exported));
    forall p: Pin ensures r.Live(p) {
      AllPinsComplete(p);
    }
  }

  lemma {:induction false} ExportsOfUnseen(c: Controller, pre: set<Pin>, ps: seq<Pin>)
    ensures Run(c, ExportsOf(pre, ps)) == c
    decreases |ps|
  {
    if ps != [] {
      var init, p := ps[..|ps| - 1], ps[|ps| - 1];
      ExportsOfUnseen(c, pre, init);
      RunAppend(c, ExportsOf(pre, init), ExportTrace(pre, p));
      RunQuiet(c, ExportTrace(pre, p));
    }
  }

  /** The controller model takes nothing from lcd_init's GPIO set-up: it
      reads level writes only, and the set-up issues none.  The low level
      the kernel drives when a line is set to "out" is not fed to it. */
  lemma SetupUnseen(c: Controller, pre: set<Pin>)
    ensures Run(c, SetupTrace(pre)) == c
  {
    RunAppend(c, ExportsTrace(pre), DirectionsTrace);
    ExportsOfUnseen(c, pre, InitPins);
    RunQuiet(c, DirectionsTrace);
  }

  /** lcd_init delivers exactly the commands 0x03, 0x03, 0x03, 0x02, 0x28,
      0x0C, 0x06, 0x01, all with RS low. */
  lemma InitDelivers(start: Levels, pre: set<Pin>)
    ensures Received(start, SetupTrace(pre) + Emit(InitOps)) == InitCommands
  {
    var c := Controller(start, Idle, []);
    RunAppend(c, SetupTrace(pre), Emit(InitOps));
    SetupUnseen(c, pre);
    EmitDelivered(c, InitOps);
    InitSent();
  }

  lemma SentSnoc(ops: seq<Op>, op: Op)
    ensures Sent(ops + [op]) == Sent(ops) + (if op.Send? then [op.t] else [])
  {
    assert (ops + [op])[..|ops|] == ops;
  }

  /** The commands among lcd_init's operations, in order. */
  lemma InitSent()
    ensures Sent(InitOps) == InitCommands
  {
    var h1 := [Wait(15000)];
    var h2 := h1 + [Send(Command(0x03))];
    var h3 := h2 + [Wait(4100)];
    var h4 := h3 + [Send(Command(0x03))];
    var head := h4 + [Wait(100)];
    var cmds := [Command(0x03), Command(0x02), Command(0x28), Command(0x0C), Command(0x06), Command(0x01)];
    var tail := [Wait(1520)];
    assert InitOps == head + Sends(cmds) + tail;
    SentAppend(head + Sends(cmds), tail);
    SentAppend(head, Sends(cmds));
    SentSends(cmds);
    SentSnoc([], Wait(1520));
    assert [] + tail == tail;
    SentSnoc([], Wait(15000));
    assert [] + h1 == h1;
    SentSnoc(h1, Send(Command(0x03)));
    SentSnoc(h2, Wait(4100));
    SentSnoc(h3, Send(Command(0x03)));
    SentSnoc(h4, Wait(100));
  }


  lemma EmitOne(op: Op)
    ensures Emit([op]) == OpTrace(op)
  {
    EmitSnoc([], op);
    assert Emit([]) == [] by {
      assert Flatten([]) == [];
    }
  }

  lemma EmitClear()
    ensures Emit(ClearOps) == ByteTrace(0x01, false) + [Delay(1520)]
  {
    EmitOne(Send(Command(0x01)));
    EmitSnoc([Send(Command(0x01))], Wait(1520));
    assert ClearOps == [Send(Command(0x01))] + [Wait(1520)];
  }

  /** lcd_send_nibble's eight calls, one after another, issue `NibbleTrace`. */
  lemma NibbleSteps(data: Byte, t0: seq<Event>, t1: seq<Event>, t2: seq<Event>, t3: seq<Event>,
                    t4: seq<Event>, t5: seq<Event>, t6: seq<Event>, t7: seq<Event>, t8: seq<Event>)
    requires t1 == t0 + [Write(D4, (data & 0x1) != 0)]
    requires t2 == t1 + [Write(D5, (data & 0x2) != 0)]
    requires t3 == t2 + [Write(D6, (data & 0x4) != 0)]
    requires t4 == t3 + [Write(D7, (data & 0x8) != 0)]
    requires t5 == t4 + [Write(E, true)]
    requires t6 == t5 + [Delay(1)]
    requires t7 == t6 + [Write(E, false)]
    requires t8 == t7 + [Delay(37)]
    ensures t8 == t0 + NibbleTrace(data)
  {
    AppendAssoc(t0, DataLines(data), EnablePulse);
  }

  /** lcd_send_byte's three calls, one after another, issue `ByteTrace`. */
  lemma ByteSteps(data: Byte, rs: bool, t0: seq<Event>, t1: seq<Event>, t2: seq<Event>, t3: seq<Event>)
    requires t1 == t0 + [Write(RS, rs)]
    requires t2 == t1 + NibbleTrace(data >> 4)
    requires t3 == t2 + NibbleTrace(data & 0xF)
    ensures t3 == t0 + ByteTrace(data, rs)
  {
    AppendAssoc(t0, [Write(RS, rs)], NibbleTrace(data >> 4));
    AppendAssoc(t0, [Write(RS, rs)] + NibbleTrace(data >> 4), NibbleTrace(data & 0xF));
  }

  /** A trace that follows `t0` with the operations `done` and then with the
      events of `op` follows it with `done + [op]`. */
  lemma OpStep(t0: seq<Event>, before: seq<Event>, t: seq<Event>, done: seq<Op>, op: Op)
    requires before == t0 + Emit(done)
    requires t == before + OpTrace(op)
    ensures t == t0 + Emit(done + [op])
  {
    EmitSnoc(done, op);
    AppendAssoc(t0, Emit(done), OpTrace(op));
  }

  /** A trace that follows `t0` with the operations `done` and then with those
      of `more` follows it with `done + more`. */
  lemma OpsStep(t0: seq<Event>, before: seq<Event>, t: seq<Event>, done: seq<Op>, more: seq<Op>)
    requires before == t0 + Emit(done)
    requires t == before + Emit(more)
    ensures t == t0 + Emit(done + more)
  {
    EmitAppend(done, more);
    AppendAssoc(t0, Emit(done), Emit(more));
  }

  /** Exporting a line the earlier exports did not touch issues the same
      events as exporting it first. */
  lemma ExportTraceFrom(pre: set<Pin>, done: set<Pin>, p: Pin)
    requires p !in done
    ensures ExportTrace(pre + done, p) == ExportTrace(pre, p)
  {
  }

  lemma ExportsOfSnoc(pre: set<Pin>, ps: seq<Pin>, p: Pin)
    ensures ExportsOf(pre, ps + [p]) == ExportsOf(pre, ps) + ExportTrace(pre, p)
  {
    assert (ps + [p])[..|ps|] == ps;
  }

  lemma ExportsUnrolled(pre: set<Pin>)
    ensures ExportsTrace(pre) == ExportTrace(pre, RS) + ExportTrace(pre, E) + ExportTrace(pre, D4) +
                                 ExportTrace(pre, D5) + ExportTrace(pre, D6) + ExportTrace(pre, D7)
  {
    var p1 := [RS];
    var p2 := p1 + [E];
    var p3 := p2 + [D4];
    var p4 := p3 + [D5];
    var p5 := p4 + [D6];
    var p6 := p5 + [D7];
    assert ExportsOf(pre, p1) == ExportTrace(pre, RS) by {
      ExportsOfSnoc(pre, [], RS);
      assert [] + p1 == p1;
    }
    ExportsOfSnoc(pre, p1, E);
    ExportsOfSnoc(pre, p2, D4);
    ExportsOfSnoc(pre, p3, D5);
    ExportsOfSnoc(pre, p4, D6);
    ExportsOfSnoc(pre, p5, D7);
    assert p6 == InitPins;
  }

  /** The six exports of lcd_init, one after another, issue `ExportsTrace`. */
  lemma ExportsSteps(pre: set<Pin>, t0: seq<Event>, t1: seq<Event>, t2: seq<Event>, t3: seq<Event>,
                     t4: seq<Event>, t5: seq<Event>, t6: seq<Event>)
    requires t1 == t0 + ExportTrace(pre, RS)
    requires t2 == t1 + ExportTrace(pre + {RS}, E)
    requires t3 == t2 + ExportTrace(pre + {RS} + {E}, D4)
    requires t4 == t3 + ExportTrace(pre + {RS} + {E} + {D4}, D5)
    requires t5 == t4 + ExportTrace(pre + {RS} + {E} + {D4} + {D5}, D6)
    requires t6 == t5 + ExportTrace(pre + {RS} + {E} + {D4} + {D5} + {D6}, D7)
    ensures t6 == t0 + ExportsTrace(pre)
  {
    ExportTraceFrom(pre, {RS}, E);
    ExportTraceFrom(pre, {RS}, D4);
    ExportTraceFrom(pre + {RS}, {E}, D4);
    ExportTraceFrom(pre, {RS}, D5);
    ExportTraceFrom(pre + {RS}, {E}, D5);
    ExportTraceFrom(pre + {RS} + {E}, {D4}, D5);
    ExportTraceFrom(pre, {RS}, D6);
    ExportTraceFrom(pre + {RS}, {E}, D6);
    ExportTraceFrom(pre + {RS} + {E}, {D4}, D6);
    ExportTraceFrom(pre + {RS} + {E} + {D4}, {D5}, D6);
    ExportTraceFrom(pre, {RS}, D7);
    ExportTraceFrom(pre + {RS}, {E}, D7);
    ExportTraceFrom(pre + {RS} + {E}, {D4}, D7);
    ExportTraceFrom(pre + {RS} + {E} + {D4}, {D5}, D7);
    ExportTraceFrom(pre + {RS} + {E} + {D4} + {D5}, {D6}, D7);
    var a, b, c := ExportTrace(pre, RS), ExportTrace(pre, E), ExportTrace(pre, D4);
    var d, e, f := ExportTrace(pre, D5), ExportTrace(pre, D6), ExportTrace(pre, D7);
    AppendAssoc(t0, a, b);
    AppendAssoc(t0, a + b, c);
    AppendAssoc(t0, a + b + c, d);
    AppendAssoc(t0, a + b + c + d, e);
    AppendAssoc(t0, a + b + c + d + e, f);
    ExportsUnrolled(pre);
  }

  /** The command part of lcd_init, issued one call after another, issues
      the events of `InitOps`. */
  lemma InitSteps(t0: seq<Event>, t1: seq<Event>, t2: seq<Event>, t3: seq<Event>, t4: seq<Event>,
                  t5: seq<Event>, t6: seq<Event>, t7: seq<Event>, t8: seq<Event>, t9: seq<Event>,
                  t10: seq<Event>, t11: seq<Event>)
    requires t1 == t0 + [Delay(15000)]
    requires t2 == t1 + ByteTrace(0x03, false)
    requires t3 == t2 + [Delay(4100)]
    requires t4 == t3 + ByteTrace(0x03, false)
    requires t5 == t4 + [Delay(100)]
    requires t6 == t5 + ByteTrace(0x03, false)
    requires t7 == t6 + ByteTrace(0x02, false)
    requires t8 == t7 + ByteTrace(0x28, false)
    requires t9 == t8 + ByteTrace(0x0C, false)
    requires t10 == t9 + ByteTrace(0x06, false)
    requires t11 == t10 + Emit(ClearOps)
    ensures t11 == t0 + Emit(InitOps)
  {
    var w0, w1, w2 := Wait(15000), Wait(4100), Wait(100);
    var s3, s2, s28, s0c, s06 := Send(Command(0x03)), Send(Command(0x02)), Send(Command(0x28)), Send(Command(0x0C)), Send(Command(0x06));
    assert t0 == t0 + Emit([]) by {
      assert Flatten([]) == [];
    }
    OpStep(t0, t0, t1, [], w0);
    OpStep(t0, t1, t2, [w0], s3);
    OpStep(t0, t2, t3, [w0] + [s3], w1);
    OpStep(t0, t3, t4, [w0] + [s3] + [w1], s3);
    OpStep(t0, t4, t5, [w0] + [s3] + [w1] + [s3], w2);
    OpStep(t0, t5, t6, [w0] + [s3] + [w1] + [s3] + [w2], s3);
    OpStep(t0, t6, t7, [w0] + [s3] + [w1] + [s3] + [w2] + [s3], s2);
    OpStep(t0, t7, t8, [w0] + [s3] + [w1] + [s3] + [w2] + [s3] + [s2], s28);
    OpStep(t0, t8, t9, [w0] + [s3] + [w1] + [s3] + [w2] + [s3] + [s2] + [s28], s0c);
    OpStep(t0, t9, t10, [w0] + [s3] + [w1] + [s3] + [w2] + [s3] + [s2] + [s28] + [s0c], s06);
    var done := [w0] + [s3] + [w1] + [s3] + [w2] + [s3] + [s2] + [s28] + [s0c] + [s06];
    OpsStep(t0, t10, t11, done, ClearOps);
    assert done == [w0, s3, w1, s3, w2, s3, s2, s28, s0c, s06];
  }

  /** The six direction settings of lcd_init, one after another, issue
      `DirectionsTrace`. */
  lemma DirectionsSteps(t0: seq<Event>, t1: seq<Event>, t2: seq<Event>, t3: seq<Event>,
                        t4: seq<Event>, t5: seq<Event>, t6: seq<Event>)
    requires t1 == t0 + [SetDirection(RS, Out)]
    requires t2 == t1 + [SetDirection(E, Out)]
    requires t3 == t2 + [SetDirection(D4, Out)]
    requires t4 == t3 + [SetDirection(D5, Out)]
    requires t5 == t4 + [SetDirection(D6, Out)]
    requires t6 == t5 + [SetDirection(D7, Out)]
    ensures t6 == t0 + DirectionsTrace
  {
  }

  /** One more character printed extends the trace by one data byte: a trace
      `t` that follows `t0` with the first `n - 1` characters and then the
      byte `s[n - 1]` follows it with the first `n` characters. */
  lemma PrintStep(t0: seq<Event>, before: seq<Event>, t: seq<Event>, s: seq<Byte>, n: nat)
    requires 0 < n <= |s|
    requires before == t0 + Emit(Sends(AsData(s[..n - 1])))
    requires t == before + ByteTrace(s[n - 1], true)
    ensures t == t0 + Emit(Sends(AsData(s[..n])))
  {
    assert Sends(AsData(s[..n])) == Sends(AsData(s[..n - 1])) + [Send(Data(s[n - 1]))];
    EmitSnoc(Sends(AsData(s[..n - 1])), Send(Data(s[n - 1])));
    AppendAssoc(t0, Emit(Sends(AsData(s[..n - 1]))), ByteTrace(s[n - 1], true));
  }

  /** A trace of level writes and pauses only. */
  ghost predicate LevelOnly(t: seq<Event>) {
    forall i :: 0 <= i < |t| ==> t[i].Write? || t[i].Delay?
  }

  lemma {:induction false} FlattenLevelOnly(ts: seq<seq<Event>>)
    requires forall k :: 0 <= k < |ts| ==> LevelOnly(ts[k])
    ensures LevelOnly(Flatten(ts))
    decreases |ts|
  {
    if ts != [] {
      FlattenLevelOnly(ts[..|ts| - 1]);
    }
  }

  /** Once set up, the driver only writes levels and pauses. */
  lemma EmitLevelOnly(ops: seq<Op>)
    ensures LevelOnly(Emit(ops))
  {
    FlattenLevelOnly(seq(|ops|, i requires 0 <= i < |ops| => OpTrace(ops[i])));
  }

  /** With all six lines exported as outputs, every level the driver writes
      reaches its line: the kernel's levels are those a controller watching
      the lines has seen, and nothing else changes. */
  lemma {:induction false} ControllerSeesLevels(h: Host, c: Controller, t: seq<Event>)
    requires h.Ready() && c.pins == h.levels
    requires LevelOnly(t)
    ensures Replay(h, t) == h.(levels := Run(c, t).pins)
    decreases |t|
  {
    if t != [] {
      var init, ev := t[..|t| - 1], t[|t| - 1];
      assert LevelOnly(init);
      ControllerSeesLevels(h, c, init);
      if ev.Write? {
        assert h.Live(ev.pin);
      }
    }
  }

  /** On set-up lines, lcd_send_nibble leaves bits 0..3 of `data` on D4..D7
      and E low, and does not touch RS or anything else. */
  lemma NibbleLevels(h: Host, data: Byte)
    requires h.Ready()
    ensures Replay(h, NibbleTrace(data)) == h.(levels := Strobed(h.levels, data))
  {
    var c := Controller(h.levels, Idle, []);
    assert LevelOnly(NibbleTrace(data));
    ControllerSeesLevels(h, c, NibbleTrace(data));
    NibbleLatch(c, data);
  }

  /** On set-up lines, lcd_send_byte leaves RS at the level the mode asks for,
      E low, and the low nibble of `data` on D4..D7. */
  lemma ByteLevels(h: Host, data: Byte, rs: bool)
    requires h.Ready()
    ensures Replay(h, ByteTrace(data, rs)) == h.(levels := Strobed(h.levels.(rs := rs), data & 0xF))
  {
    var c := Controller(h.levels, Idle, []);
    assert LevelOnly(ByteTrace(data, rs));
    ControllerSeesLevels(h, c, ByteTrace(data, rs));
    ByteDelivered(c, data, rs);
  }
}
