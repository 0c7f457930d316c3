/** The sysfs GPIO lines that drive the LCD, seen as abstract state
    (bmp_example.c:15-21, 173-233).  Every GPIO operation of the driver is
    recorded as an `Event`; `Replay` gives the state of the lines after a
    sequence of events. */
module Gpio {

  /** The six lines wired to the LCD: register select, enable and the four
      data lines of the 4-bit interface. */
  datatype Pin = RS | E | D4 | D5 | D6 | D7
  {
    /** The sysfs line number the driver writes for this pin.  This only
        records the board's wiring: the rest of the model names lines by
        `Pin`, never by number. */
    function Id(): string {
      match this
      case RS => "67"
      case E => "68"
      case D4 => "44"
      case D5 => "26"
      case D6 => "46"
      case D7 => "65"
    }
  }

  const AllPins: set<Pin> := {RS, E, D4, D5, D6, D7}

  /** Every line low. */
  const AllLow: Levels := Levels(false, false, false, false, false, false)

  /** Distinct pins are wired to distinct sysfs lines, so the six lines the
      model keeps apart are six lines of the board too. */
  lemma IdsDistinct(p: Pin, q: Pin)
    ensures p.Id() == q.Id() ==> p == q
  {
  }

  lemma AllPinsComplete(p: Pin)
    ensures p in AllPins
  {
  }

  datatype Direction = In | Out

  /** One GPIO operation as the driver issues it, or a pause. */
  datatype Event =
    | Export(pin: Pin)
    | Unexport(pin: Pin)
    | SetDirection(pin: Pin, dir: Direction)
    | Write(pin: Pin, high: bool)
    | Delay(micros: nat)

  /** The level of each of the six lines. */
  datatype Levels = Levels(rs: bool, e: bool, d4: bool, d5: bool, d6: bool, d7: bool)
  {
    function Get(p: Pin): bool {
      match p
      case RS => rs
      case E => e
      case D4 => d4
      case D5 => d5
      case D6 => d6
      case D7 => d7
    }

    function Set(p: Pin, v: bool): (r: Levels)
      ensures r.Get(p) == v
      ensures forall q: Pin :: q != p ==> r.Get(q) == Get(q)
    {
      match p
      case RS => this.(rs := v)
      case E => this.(e := v)
      case D4 => this.(d4 := v)
      case D5 => this.(d5 := v)
      case D6 => this.(d6 := v)
      case D7 => this.(d7 := v)
    }
  }

  /** What the kernel holds for the six lines: which are exported, which of
      those are set to "out", and the level of each line. */
  datatype Host = Host(exported: set<Pin>, output: set<Pin>, levels: Levels)
  {
    /** A level written to a live line reaches the line. */
    predicate Live(p: Pin) {
      p in exported && p in output
    }

    predicate Ready() {
      forall p: Pin :: Live(p)
    }
  }

  /** The lines are ready once each of the six is a live output. */
  lemma AllLive(h: Host)
    requires h.Live(RS) && h.Live(E) && h.Live(D4) && h.Live(D5) && h.Live(D6) && h.Live(D7)
    ensures h.Ready()
  {
    forall p: Pin ensures h.Live(p) {
      AllPinsComplete(p);
    }
  }

  /** Whether the lines are ready depends only on which are exported and
      which are outputs, not on their levels. */
  lemma ReadySame(a: Host, b: Host)
    requires a.exported == b.exported && a.output == b.output
    ensures a.Ready() == b.Ready()
  {
    if a.Ready() {
      forall p: Pin ensures b.Live(p) {
        assert a.Live(p);
      }
    }
    if b.Ready() {
      forall p: Pin ensures a.Live(p) {
        assert b.Live(p);
      }
    }
  }

  /** The effect of one event on the kernel's state.  Exporting a line that is
      already exported, and setting the direction or the value of a line that
      is not exported (or not an output), fail in the kernel and change
      nothing.  A freshly exported line is an input; an unexported line has no
      direction.  Writing "out" to a line's direction makes it an output
      driven low, whatever it was before. */
  function Apply(h: Host, ev: Event): Host {
    match ev
    case Export(p) =>
      if p in h.exported then h else h.(exported := h.exported + {p}, output := h.output - {p})
    case Unexport(p) =>
      h.(exported := h.exported - {p}, output := h.output - {p})
    case SetDirection(p, d) =>
      if p !in h.exported then h
      else if d == Out then h.(output := h.output + {p}, levels := h.levels.Set(p, false))
      else h.(output := h.output - {p})
    case Write(p, v) =>
      if h.Live(p) then h.(levels := h.levels.Set(p, v)) else h
    case Delay(_) => h
  }

  /** The kernel's state after a sequence of events. */
  function Replay(h: Host, t: seq<Event>): Host
    decreases |t|
  {
    if t == [] then h else Apply(Replay(h, t[..|t| - 1]), t[|t| - 1])
  }

  lemma {:induction false} ReplayAppend(h: Host, a: seq<Event>, b: seq<Event>)
    ensures Replay(h, a + b) == Replay(Replay(h, a), b)
    decreases |b|
  {
    if b == [] {
      assert a + b == a;
    } else {
      ReplayAppend(h, a, b[..|b| - 1]);
      assert (a + b)[..|a + b| - 1] == a + b[..|b| - 1];
    }
  }

  /** A trace that extends `t0` by `more` replays as `more` from where `t0`
      left the lines. */
  lemma ReplayFrom(h: Host, t0: seq<Event>, more: seq<Event>, t: seq<Event>)
    requires t == t0 + more
    ensures Replay(h, t) == Replay(Replay(h, t0), more)
  {
    ReplayAppend(h, t0, more);
  }

  lemma ReplaySnoc(h: Host, t: seq<Event>, ev: Event)
    ensures Replay(h, t + [ev]) == Apply(Replay(h, t), ev)
  {
    assert (t + [ev])[..|t|] == t;
  }

  /** The level writes of a trace, in order. */
  function Writes(t: seq<Event>): (r: seq<Event>)
    ensures |r| <= |t|
    ensures forall i :: 0 <= i < |r| ==> r[i].Write? && r[i] in t
    decreases |t|
  {
    if t == [] then []
    else Writes(t[..|t| - 1]) + (if t[|t| - 1].Write? then [t[|t| - 1]] else [])
  }

  lemma {:induction false} WritesAppend(a: seq<Event>, b: seq<Event>)
    ensures Writes(a + b) == Writes(a) + Writes(b)
    decreases |b|
  {
    if b == [] {
      assert a + b == a;
    } else {
      var init, last := b[..|b| - 1], b[|b| - 1];
      WritesAppend(a, init);
      assert (a + b)[..|a + b| - 1] == a + init;
      assert (a + b)[|a + b| - 1] == last;
      AppendAssoc(Writes(a), Writes(init), if last.Write? then [last] else []);
    }
  }

  /** Regrouping three traces.  Callers name the one regrouping they need,
      which keeps their proofs small. */
  lemma AppendAssoc(a: seq<Event>, b: seq<Event>, c: seq<Event>)
    ensures a + b + c == a + (b + c)
  {
  }
}
