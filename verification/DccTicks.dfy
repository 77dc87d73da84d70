/** The line encoding (section A of NMRA S-9.1): how chosen bits become high and low ticks.

    `stateTransform` and `signalTransform` drive the line one tick at a time; the reader below
    knows only the shape of a one (high, low) and of a zero (high, high, low, low). */
module DccTicks {

  datatype Wave = WaveStart | WaveMid1 | WaveHigh0 | WaveMid0 | WaveLow0 | WavePending

  const HIGH: bool := true
  const LOW: bool := false

  function StateTransform(w: Wave): Wave {
    match w
    case WaveStart => WavePending
    case WaveMid1 => WaveStart
    case WaveHigh0 => WaveMid0
    case WaveMid0 => WaveLow0
    case WaveLow0 => WaveStart
    case WavePending => WavePending
  }

  function SignalTransform(w: Wave): bool {
    match w
    case WaveStart => HIGH
    case WaveMid1 => LOW
    case WaveHigh0 => HIGH
    case WaveMid0 => LOW
    case WaveLow0 => LOW
    case WavePending => LOW
  }

  /** The state in which a chosen bit continues. */
  function Chosen(bit: bool): Wave {
    if bit then WaveMid1 else WaveHigh0
  }

  /** The line so far: where the wave is, the bits chosen and the levels driven. */
  datatype Line = Line(wave: Wave, chosen: seq<bool>, levels: seq<bool>)

  /** One tick.  `next` is the bit the transmitter would choose; it is taken only when the wave has
      just gone high and the length of the bit is still open. */
  function Tick(l: Line, next: bool): Line {
    var wave := StateTransform(l.wave);
    var levels := l.levels + [SignalTransform(l.wave)];
    if wave == WavePending then Line(Chosen(next), l.chosen + [next], levels)
    else Line(wave, l.chosen, levels)
  }

  function TickRun(nexts: seq<bool>): Line {
    if nexts == [] then Line(WaveStart, [], [])
    else Tick(TickRun(nexts[..|nexts| - 1]), nexts[|nexts| - 1])
  }

  // ---------------------------------------------------------------- reading the line

  function Shape(bit: bool): seq<bool> {
    if bit then [HIGH, LOW] else [HIGH, HIGH, LOW, LOW]
  }

  function Shapes(bits: seq<bool>): seq<bool> {
    if bits == [] then [] else Shapes(bits[..|bits| - 1]) + Shape(bits[|bits| - 1])
  }

  /** Reads complete bits off the line, left to right. */
  function ReadLine(levels: seq<bool>): seq<bool> {
    if |levels| >= 2 && levels[0] == HIGH && levels[1] == LOW then
      [true] + ReadLine(levels[2..])
    else if |levels| >= 4 && levels[..4] == Shape(false) then
      [false] + ReadLine(levels[4..])
    else []
  }

  function Highs(levels: seq<bool>): nat {
    if levels == [] then 0
    else Highs(levels[..|levels| - 1]) + if levels[|levels| - 1] == HIGH then 1 else 0
  }

  lemma {:induction false} ShapesConcat(a: seq<bool>, b: seq<bool>)
    ensures Shapes(a + b) == Shapes(a) + Shapes(b)
    decreases |b|
  {
    hide Shape;
    if b == [] {
      assert a + b == a;
    } else {
      var ab, front := a + b, b[..|b| - 1];
      assert ab[..|ab| - 1] == a + front && ab[|ab| - 1] == b[|b| - 1];
      ShapesConcat(a, front);
      assert Shapes(ab) == (Shapes(a) + Shapes(front)) + Shape(b[|b| - 1]);
    }
  }

  /** Whole bits followed by less than a bit are read back exactly. */
  lemma {:induction false} ReadShapes(bits: seq<bool>, rest: seq<bool>)
    requires ReadLine(rest) == []
    ensures ReadLine(Shapes(bits) + rest) == bits
    decreases |bits|
  {
    hide Shapes, ReadLine, Shape;
    if bits == [] {
      ShapesNone();
      assert [] + rest == rest;
    } else {
      var b, tail := bits[0], bits[1..];
      ShapesFirst(b, tail);
      assert bits == [b] + tail;
      ReadShapes(tail, rest);
      ReadFirst(b, Shapes(tail) + rest);
      assert Shapes(bits) + rest == Shape(b) + (Shapes(tail) + rest);
    }
  }

  lemma ShapesNone()
    ensures Shapes([]) == []
  {
  }

  lemma ShapesFirst(b: bool, tail: seq<bool>)
    ensures Shapes([b] + tail) == Shape(b) + Shapes(tail)
  {
    ShapesConcat([b], tail);
    assert Shapes([b]) == Shapes([]) + Shape(b) == Shape(b);
  }

  lemma ReadFirst(b: bool, more: seq<bool>)
    ensures ReadLine(Shape(b) + more) == [b] + ReadLine(more)
  {
    var l := Shape(b) + more;
    assert if b then l[2..] == more else l[4..] == more && l[..4] == Shape(false);
  }

  lemma {:induction false} HighsConcat(a: seq<bool>, b: seq<bool>)
    ensures Highs(a + b) == Highs(a) + Highs(b)
    decreases |b|
  {
    if b == [] {
      assert a + b == a;
    } else {
      var ab := a + b;
      assert ab[..|ab| - 1] == a + b[..|b| - 1];
      HighsConcat(a, b[..|b| - 1]);
    }
  }

  lemma ShapeBalanced(bit: bool)
    ensures 2 * Highs(Shape(bit)) == |Shape(bit)|
  {
    var s := Shape(bit);
    if bit {
      assert s[..1][..0] == [] && Highs(s[..1]) == 1;
    } else {
      assert Highs(s[..3][..2][..1]) == 1;
      assert Highs(s[..3][..2]) == 2 && Highs(s[..3]) == 2;
    }
  }

  lemma {:induction false} ShapesBalanced(bits: seq<bool>)
    ensures 2 * Highs(Shapes(bits)) == |Shapes(bits)|
    decreases |bits|
  {
    if bits != [] {
      ShapesBalanced(bits[..|bits| - 1]);
      ShapeBalanced(bits[|bits| - 1]);
      HighsConcat(Shapes(bits[..|bits| - 1]), Shape(bits[|bits| - 1]));
    }
  }

  // ---------------------------------------------------------------- every run of ticks

  /** How much of the current bit has been driven. */
  function Driven(wave: Wave): seq<bool> {
    match wave
    case WaveStart => []
    case WaveMid1 => [HIGH]
    case WaveHigh0 => [HIGH]
    case WaveMid0 => [HIGH, HIGH]
    case WaveLow0 => [HIGH, HIGH, LOW]
    case WavePending => []
  }

  /** The bits driven to their end. */
  function WholeBits(l: Line): seq<bool> {
    if l.wave == WaveStart || l.chosen == [] then l.chosen else l.chosen[..|l.chosen| - 1]
  }

  ghost predicate LineOk(l: Line) {
    && l.wave != WavePending
    && (l.wave != WaveStart ==> l.chosen != [] && (l.wave == WaveMid1 <==> l.chosen[|l.chosen| - 1]))
    && l.levels == Shapes(WholeBits(l)) + Driven(l.wave)
  }

  lemma TickOk(l: Line, next: bool)
    requires LineOk(l)
    ensures LineOk(Tick(l, next))
  {
    hide Shape;
    var l' := Tick(l, next);
    var whole := Shapes(WholeBits(l));
    if l.wave == WaveStart {
      assert l'.chosen[..|l'.chosen| - 1] == l.chosen;
    } else if l'.wave == WaveStart {
      ShapeEnds(l.wave, l.chosen[|l.chosen| - 1]);
      assert l.chosen[..|l.chosen| - 1] == WholeBits(l);
      assert l'.levels == whole + (Driven(l.wave) + [LOW]);
    } else {
      assert WholeBits(l') == WholeBits(l);
      assert l'.levels == whole + (Driven(l.wave) + [SignalTransform(l.wave)]);
    }
  }

  lemma ShapeEnds(wave: Wave, bit: bool)
    requires if bit then wave == WaveMid1 else wave == WaveLow0
    ensures Driven(wave) + [SignalTransform(wave)] == Shape(bit)
  {
  }

  lemma {:induction false} TickRunOk(nexts: seq<bool>)
    ensures LineOk(TickRun(nexts))
    decreases |nexts|
  {
    if nexts != [] {
      TickRunOk(nexts[..|nexts| - 1]);
      TickOk(TickRun(nexts[..|nexts| - 1]), nexts[|nexts| - 1]);
    }
  }

  /** Whatever bits are chosen, the levels driven read back as exactly the bits driven to their
      end, and at every bit boundary the line has been high for half of the time. */
  lemma TicksCarryBits(nexts: seq<bool>)
    ensures var l := TickRun(nexts);
            && ReadLine(l.levels) == WholeBits(l)
            && (l.wave == WaveStart ==> WholeBits(l) == l.chosen && 2 * Highs(l.levels) == |l.levels|)
  {
    var l := TickRun(nexts);
    TickRunOk(nexts);
    assert ReadLine(Driven(l.wave)) == [];
    ReadShapes(WholeBits(l), Driven(l.wave));
    if l.wave == WaveStart {
      ShapesBalanced(l.chosen);
      assert l.levels == Shapes(l.chosen);
    }
  }
}
