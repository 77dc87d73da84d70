/** The DCC packet format (section A of NMRA S-9.2) as seen by a receiver.

    Nothing here mentions the transmitter: frames are defined from packets, and the receiver is
    an independent bit-by-bit machine.  The main results say that the receiver inverts framing
    on whole streams, wherever it joins them. */
module DccFraming {

  /** Longest payload of a packet, without its checksum. */
  const MAX_PACKET_SIZE: nat := 5

  /** Fewest one-bits a receiver accepts as a preamble. */
  const MIN_PREAMBLE: nat := 10

  type Packet = seq<bv8>

  // ---------------------------------------------------------------- checksums

  function XorAll(s: Packet): bv8 {
    if s == [] then 0 else XorAll(s[..|s| - 1]) ^ s[|s| - 1]
  }

  /** A payload followed by its error detection byte. */
  function Checksummed(payload: Packet): Packet {
    payload + [XorAll(payload)]
  }

  lemma ChecksummedXorsToZero(payload: Packet)
    ensures XorAll(Checksummed(payload)) == 0
  {
    var c := Checksummed(payload);
    assert c[..|c| - 1] == payload;
    var x := XorAll(payload);
    assert x ^ x == 0;
  }

  // ---------------------------------------------------------------- bits of a frame

  /** The nine bits a byte occupies on the track: a zero start bit, then the byte, high bit first. */
  function BitAt(b: bv8, k: nat): bool
    requires k < 9
  {
    b & BitMask(k) != 0
  }

  function BitMask(k: nat): bv8
    requires k < 9
  {
    if k == 0 then 0x00 else if k == 1 then 0x80 else if k == 2 then 0x40
    else if k == 3 then 0x20 else if k == 4 then 0x10 else if k == 5 then 0x08
    else if k == 6 then 0x04 else if k == 7 then 0x02 else 0x01
  }

  function ByteBits(b: bv8): (r: seq<bool>)
    ensures |r| == 9 && !r[0]
  {
    seq(9, k requires 0 <= k < 9 => BitAt(b, k))
  }

  function ByteOf(bits: seq<bool>): bv8
    requires |bits| == 8
  {
    (if bits[0] then 0x80 else 0) | (if bits[1] then 0x40 else 0) |
    (if bits[2] then 0x20 else 0) | (if bits[3] then 0x10 else 0) |
    (if bits[4] then 0x08 else 0) | (if bits[5] then 0x04 else 0) |
    (if bits[6] then 0x02 else 0) | (if bits[7] then 0x01 else 0)
  }

  lemma BitsRebuildByte(b: bv8)
    ensures (if b & 0x80 != 0 then 0x80 else 0) | (if b & 0x40 != 0 then 0x40 else 0) |
            (if b & 0x20 != 0 then 0x20 else 0) | (if b & 0x10 != 0 then 0x10 else 0) |
            (if b & 0x08 != 0 then 0x08 else 0) | (if b & 0x04 != 0 then 0x04 else 0) |
            (if b & 0x02 != 0 then 0x02 else 0) | (if b & 0x01 != 0 then 0x01 else 0) == b
  {
  }

  lemma ByteRoundTrip(b: bv8)
    ensures ByteOf(ByteBits(b)[1..]) == b
  {
    var r := ByteBits(b)[1..];
    forall k | 0 <= k < 8 ensures r[k] == BitAt(b, k + 1) {
      assert r[k] == ByteBits(b)[k + 1];
    }
    BitsRebuildByte(b);
  }

  function Ones(n: nat): (r: seq<bool>)
    ensures |r| == n && forall i :: 0 <= i < n ==> r[i]
  {
    seq(n, _ => true)
  }

  /** The bytes of a packet, each led by its start bit. */
  function Body(p: Packet): seq<bool> {
    if p == [] then [] else Body(p[..|p| - 1]) + ByteBits(p[|p| - 1])
  }

  /** The end bit of the previous frame and the preamble, then the bytes. */
  function Frame(ones: nat, p: Packet): seq<bool> {
    Ones(ones) + Body(p)
  }

  function Frames(ones: nat, ps: seq<Packet>): seq<bool> {
    if ps == [] then [] else Frames(ones, ps[..|ps| - 1]) + Frame(ones, ps[|ps| - 1])
  }

  // ---------------------------------------------------------------- the receiver

  /** Either counting ones in search of a preamble, or inside a packet. */
  datatype Rx = Hunt(ones: nat) | Data(bits: seq<bool>, bytes: Packet)

  ghost predicate RxOk(r: Rx) {
    r.Data? ==> |r.bits| <= 8
  }

  datatype Heard = Heard(state: Rx, packets: seq<Packet>)

  /** One bit.  A zero after enough ones opens a packet; the bit after each byte either announces
      another byte or closes the packet, and a closing bit counts towards the next preamble. */
  function RxStep(h: Heard, bit: bool): (r: Heard)
    requires RxOk(h.state)
    ensures RxOk(r.state)
  {
    match h.state
    case Hunt(n) =>
      if bit then h.(state := Hunt(n + 1))
      else if n >= MIN_PREAMBLE then h.(state := Data([], []))
      else h.(state := Hunt(0))
    case Data(bits, bytes) =>
      if |bits| < 8 then h.(state := Data(bits + [bit], bytes))
      else if bit then Heard(Hunt(1), h.packets + [bytes + [ByteOf(bits)]])
      else h.(state := Data([], bytes + [ByteOf(bits)]))
  }

  function Hear(h: Heard, bits: seq<bool>): (r: Heard)
    requires RxOk(h.state)
    ensures RxOk(r.state)
  {
    if bits == [] then h else RxStep(Hear(h, bits[..|bits| - 1]), bits[|bits| - 1])
  }

  /** A receiver that has just been switched on. */
  function Listen(bits: seq<bool>): Heard {
    Hear(Heard(Hunt(0), []), bits)
  }

  // ---------------------------------------------------------------- how the receiver moves

  lemma {:induction false} HearConcat(h: Heard, a: seq<bool>, b: seq<bool>)
    requires RxOk(h.state)
    ensures Hear(h, a + b) == Hear(Hear(h, a), b)
    decreases |b|
  {
    if b == [] {
      assert a + b == a;
    } else {
      assert (a + b)[..|a + b| - 1] == a + b[..|b| - 1];
      HearConcat(h, a, b[..|b| - 1]);
    }
  }

  lemma {:induction false} HearOnes(h: Heard, n: nat)
    requires h.state.Hunt?
    ensures Hear(h, Ones(n)) == h.(state := Hunt(h.state.ones + n))
    decreases n
  {
    if n > 0 {
      assert Ones(n)[..n - 1] == Ones(n - 1);
      HearOnes(h, n - 1);
    }
  }

  /** Data bits are collected one by one. */
  lemma {:induction false} HearData(h: Heard, bits: seq<bool>)
    requires h.state.Data? && |h.state.bits| + |bits| <= 8
    ensures Hear(h, bits) == h.(state := Data(h.state.bits + bits, h.state.bytes))
    decreases |bits|
  {
    if bits == [] {
      assert h.state.bits + bits == h.state.bits;
    } else {
      var front := bits[..|bits| - 1];
      HearData(h, front);
      assert h.state.bits + front + [bits[|bits| - 1]] == h.state.bits + bits;
    }
  }

  /** A receiver holding the bits of byte x, with bytes before it, is waiting for the bit after it. */
  ghost predicate Holding(r: Rx, p: Packet) {
    && p != []
    && r.Data?
    && |r.bits| == 8
    && r.bytes + [ByteOf(r.bits)] == p
  }

  /** Having locked at a frame start, the receiver collects exactly the bytes of the frame. */
  lemma {:induction false} HearBody(h: Heard, p: Packet)
    requires h.state.Hunt? && h.state.ones >= MIN_PREAMBLE
    requires p != []
    ensures Holding(Hear(h, Body(p)).state, p)
    ensures Hear(h, Body(p)).packets == h.packets
    decreases |p|
  {
    var front, b := p[..|p| - 1], p[|p| - 1];
    if front != [] {
      HearBody(h, front);
    }
    HearConcat(h, Body(front), ByteBits(b));
    assert front + [b] == p;
    hide ByteBits, RxStep;
    HearByte(Hear(h, Body(front)), front, b);
  }

  /** One more byte of a frame. */
  lemma HearByte(h: Heard, front: Packet, b: bv8)
    requires if front == [] then h.state.Hunt? && h.state.ones >= MIN_PREAMBLE else Holding(h.state, front)
    ensures Holding(Hear(h, ByteBits(b)).state, front + [b])
    ensures Hear(h, ByteBits(b)).packets == h.packets
  {
    var bits := ByteBits(b);
    assert bits == [false] + bits[1..];
    HearConcat(h, [false], bits[1..]);
    assert Hear(h, [false]) == RxStep(h, false);
    HearData(RxStep(h, false), bits[1..]);
    ByteRoundTrip(b);
    assert [] + bits[1..] == bits[1..];
    hide ByteBits;
  }

  /** Coming to a frame hunting: its packet is held at the end. */
  lemma HearFirstFrame(h: Heard, ones: nat, p: Packet)
    requires ones > MIN_PREAMBLE && p != []
    requires h.state.Hunt?
    ensures Holding(Hear(h, Frame(ones, p)).state, p)
    ensures Hear(h, Frame(ones, p)).packets == h.packets
  {
    HearConcat(h, Ones(ones), Body(p));
    HearOnes(h, ones);
    HearBody(Hear(h, Ones(ones)), p);
  }

  /** Coming to a frame holding the packet before it: its end bit delivers that packet. */
  lemma HearNextFrame(h: Heard, ones: nat, p: Packet, held: Packet)
    requires ones > MIN_PREAMBLE && p != []
    requires Holding(h.state, held)
    ensures Holding(Hear(h, Frame(ones, p)).state, p)
    ensures Hear(h, Frame(ones, p)).packets == h.packets + [held]
  {
    HearConcat(h, Ones(ones), Body(p));
    HearEndBit(h, ones, held);
    HearBody(Hear(h, Ones(ones)), p);
  }

  lemma HearEndBit(h: Heard, ones: nat, held: Packet)
    requires ones > 0 && Holding(h.state, held)
    ensures Hear(h, Ones(ones)) == Heard(Hunt(ones), h.packets + [held])
  {
    assert Ones(ones) == [true] + Ones(ones - 1);
    HearConcat(h, [true], Ones(ones - 1));
    assert Hear(h, [true]) == RxStep(Hear(h, []), true);
    HearOnes(RxStep(h, true), ones - 1);
  }

  predicate NonEmpty(ps: seq<Packet>) {
    forall i :: 0 <= i < |ps| ==> ps[i] != []
  }

  /** A receiver hunting at a frame boundary hears every frame: all but the last packet are
      delivered, and the last one is held until its end bit arrives. */
  lemma {:induction false} HearFrames(h: Heard, ones: nat, ps: seq<Packet>)
    requires ones > MIN_PREAMBLE && NonEmpty(ps) && ps != []
    requires h.state.Hunt?
    ensures Holding(Hear(h, Frames(ones, ps)).state, ps[|ps| - 1])
    ensures Hear(h, Frames(ones, ps)).packets == h.packets + ps[..|ps| - 1]
    decreases |ps|
  {
    hide RxStep, Frame, Holding;
    var front, p := ps[..|ps| - 1], ps[|ps| - 1];
    HearConcat(h, Frames(ones, front), Frame(ones, p));
    if front == [] {
      HearFirstFrame(h, ones, p);
    } else {
      HearFrames(h, ones, front);
      var last := front[|front| - 1];
      HearNextFrame(Hear(h, Frames(ones, front)), ones, p, last);
      assert h.packets + front[..|front| - 1] + [last] == h.packets + front;
    }
  }

  // ---------------------------------------------------------------- joining in the middle

  /** Inside a packet a hunting receiver never counts more than eight ones in a row. */
  lemma {:induction false} HuntThroughByte(h: Heard, b: bv8, k: nat)
    requires 1 <= k <= 9
    requires h.state.Hunt? && h.state.ones <= 8
    ensures var r := Hear(h, ByteBits(b)[..k]);
            r.state.Hunt? && r.state.ones <= k - 1 && r.packets == h.packets
    decreases k
  {
    var bits := ByteBits(b)[..k];
    if k == 1 {
      assert bits == [false];
      assert Hear(h, bits) == RxStep(Hear(h, []), false);
    } else {
      assert bits[..k - 1] == ByteBits(b)[..k - 1];
      HuntThroughByte(h, b, k - 1);
    }
  }

  lemma {:induction false} HuntThroughBody(h: Heard, p: Packet)
    requires h.state.Hunt? && h.state.ones <= 8
    ensures var r := Hear(h, Body(p)); r.state.Hunt? && r.state.ones <= 8 && r.packets == h.packets
    decreases |p|
  {
    if p != [] {
      var front, b := p[..|p| - 1], p[|p| - 1];
      HearConcat(h, Body(front), ByteBits(b));
      HuntThroughBody(h, front);
      assert ByteBits(b)[..9] == ByteBits(b);
      HuntThroughByte(Hear(h, Body(front)), b, 9);
    }
  }

  /** Any stretch of at most eight bits leaves a hunting receiver hunting with at most that many
      extra ones. */
  lemma {:induction false} HuntShort(h: Heard, bits: seq<bool>)
    requires h.state.Hunt? && h.state.ones + |bits| <= MIN_PREAMBLE
    ensures var r := Hear(h, bits);
            r.state.Hunt? && r.state.ones <= h.state.ones + |bits| && r.packets == h.packets
    decreases |bits|
  {
    if bits != [] {
      HuntShort(h, bits[..|bits| - 1]);
    }
  }

  lemma {:induction false} BodyLength(p: Packet)
    ensures |Body(p)| == 9 * |p|
    decreases |p|
  {
    if p != [] {
      BodyLength(p[..|p| - 1]);
    }
  }

  /** Joining anywhere inside the bytes of a frame, the receiver reaches the end of the frame
      still hunting and has delivered nothing. */
  lemma {:induction false} JoinInBody(p: Packet, i: nat)
    requires i <= |Body(p)|
    ensures var r := Listen(Body(p)[i..]); r.state.Hunt? && r.state.ones <= 8 && r.packets == []
    decreases |p|
  {
    if p != [] {
      var front, b := p[..|p| - 1], p[|p| - 1];
      BodyLength(front);
      var h := Heard(Hunt(0), []);
      if i <= |Body(front)| {
        assert Body(p)[i..] == Body(front)[i..] + ByteBits(b);
        HearConcat(h, Body(front)[i..], ByteBits(b));
        JoinInBody(front, i);
        assert ByteBits(b)[..9] == ByteBits(b);
        HuntThroughByte(Listen(Body(front)[i..]), b, 9);
      } else {
        var j := i - |Body(front)|;
        assert Body(p)[i..] == ByteBits(b)[j..];
        HuntShort(h, ByteBits(b)[j..]);
      }
    }
  }

  /** What a receiver that joined somewhere inside a frame is doing at the end of that frame:
      it either locked onto this frame's true start, or is still hunting with a short run. */
  lemma JoinInFrame(ones: nat, p: Packet, i: nat)
    requires ones > MIN_PREAMBLE && p != []
    requires i <= |Frame(ones, p)|
    ensures var r := Listen(Frame(ones, p)[i..]);
            r.packets == [] && (Holding(r.state, p) || (r.state.Hunt? && r.state.ones <= 8))
  {
    hide RxStep, Hear, Body;
    var h := Heard(Hunt(0), []);
    if i <= ones {
      assert Frame(ones, p)[i..] == Ones(ones - i) + Body(p);
      HearConcat(h, Ones(ones - i), Body(p));
      HearOnes(h, ones - i);
      var h1 := Heard(Hunt(ones - i), []);
      if ones - i >= MIN_PREAMBLE {
        HearBody(h1, p);
      } else if ones - i <= 8 {
        HuntThroughBody(h1, p);
      } else {
        NineOnesAreNotEnough(h1, p);
      }
    } else {
      assert Frame(ones, p)[i..] == Body(p)[i - ones..];
      JoinInBody(p, i - ones);
    }
  }

  /** Nine ones fall one short of a preamble, and the body's first start bit clears them. */
  lemma {:induction false} NineOnesAreNotEnough(h: Heard, p: Packet)
    requires h.state == Hunt(9) && p != []
    ensures var r := Hear(h, Body(p)); r.state.Hunt? && r.state.ones <= 8 && r.packets == h.packets
  {
    var h0 := h.(state := Hunt(0));
    FirstBitForgets(h, h0, p);
    HuntThroughBody(h0, p);
  }

  lemma {:induction false} FirstBitForgets(h: Heard, h0: Heard, p: Packet)
    requires h.state == Hunt(9) && h0 == h.(state := Hunt(0)) && p != []
    ensures Hear(h, Body(p)) == Hear(h0, Body(p))
    decreases |p|
  {
    var front, b := p[..|p| - 1], p[|p| - 1];
    HearConcat(h, Body(front), ByteBits(b));
    HearConcat(h0, Body(front), ByteBits(b));
    if front == [] {
      var bits := ByteBits(b);
      assert bits == [false] + bits[1..];
      HearConcat(h, [false], bits[1..]);
      HearConcat(h0, [false], bits[1..]);
      assert Hear(h, [false]) == RxStep(Hear(h, []), false) == RxStep(Hear(h0, []), false);
      assert Hear(h0, [false]) == RxStep(Hear(h0, []), false);
    } else {
      FirstBitForgets(h, h0, front);
    }
  }

  lemma {:induction false} FramesConcat(ones: nat, a: seq<Packet>, b: seq<Packet>)
    ensures Frames(ones, a + b) == Frames(ones, a) + Frames(ones, b)
    decreases |b|
  {
    if b == [] {
      assert a + b == a;
    } else {
      var ab, front := a + b, b[..|b| - 1];
      assert ab[..|ab| - 1] == a + front && ab[|ab| - 1] == b[|b| - 1];
      FramesConcat(ones, a, front);
      calc {
        Frames(ones, ab);
        Frames(ones, a + front) + Frame(ones, b[|b| - 1]);
        (Frames(ones, a) + Frames(ones, front)) + Frame(ones, b[|b| - 1]);
        Frames(ones, a) + (Frames(ones, front) + Frame(ones, b[|b| - 1]));
      }
    }
  }

  /** The receiver at the end of a stream has delivered the packets from number k on, the last
      one being held; or it is still hunting, if k says that it has heard no frame whole. */
  ghost predicate CaughtFrom(r: Heard, ps: seq<Packet>, k: nat) {
    && k <= |ps|
    && if k == |ps| then r.state.Hunt? && r.packets == []
       else Holding(r.state, ps[|ps| - 1]) && r.packets == ps[k..|ps| - 1]
  }

  /** Once a frame has been heard whole, the next one is too. */
  lemma CatchNext(r: Heard, ones: nat, front: seq<Packet>, p: Packet, k: nat)
    requires ones > MIN_PREAMBLE && p != []
    requires CaughtFrom(r, front, k)
    ensures CaughtFrom(Hear(r, Frame(ones, p)), front + [p], k)
  {
    var ps := front + [p];
    if k == |front| {
      HearFirstFrame(r, ones, p);
      assert ps[k..|ps| - 1] == [];
    } else {
      var last := front[|front| - 1];
      HearNextFrame(r, ones, p, last);
      assert front[k..|front| - 1] + [last] == ps[k..|ps| - 1];
    }
  }

  /** Joining inside the last frame. */
  lemma CatchLast(ones: nat, front: seq<Packet>, p: Packet, j: nat) returns (k: nat)
    requires ones > MIN_PREAMBLE && p != []
    requires j <= |Frame(ones, p)|
    ensures CaughtFrom(Listen(Frame(ones, p)[j..]), front + [p], k) && |front| <= k
  {
    JoinInFrame(ones, p, j);
    var r := Listen(Frame(ones, p)[j..]);
    var ps := front + [p];
    k := if r.state.Hunt? then |ps| else |front|;
    assert k == |front| ==> ps[k..|ps| - 1] == [];
  }

  /** The bit at which frame number k starts. */
  function FrameStart(ones: nat, ps: seq<Packet>, k: nat): nat
    requires k <= |ps|
  {
    |Frames(ones, ps[..k])|
  }

  lemma FrameStartMonotone(ones: nat, front: seq<Packet>, p: Packet, k: nat)
    requires k <= |front|
    ensures FrameStart(ones, front + [p], k) == FrameStart(ones, front, k) <= |Frames(ones, front)|
  {
    FramesConcat(ones, front[..k], front[k..]);
    assert front == front[..k] + front[k..];
    assert (front + [p])[..k] == front[..k];
  }

  /** Resynchronisation.  A receiver that joins a stream of frames at any bit whatever delivers
      nothing but true packets, consecutively and to the end: every packet of the stream from the
      frame it joined in, or from the one after that. */
  lemma {:induction false} Resynchronises(ones: nat, ps: seq<Packet>, i: nat) returns (k: nat)
    requires ones > MIN_PREAMBLE && NonEmpty(ps)
    requires i <= |Frames(ones, ps)|
    ensures CaughtFrom(Listen(Frames(ones, ps)[i..]), ps, k)
    ensures k > 0 ==> FrameStart(ones, ps, k - 1) <= i
    decreases |ps|
  {
    hide RxStep, Frame, Holding, FrameStart;
    if ps == [] {
      return 0;
    }
    var front, p := ps[..|ps| - 1], ps[|ps| - 1];
    assert ps == front + [p];
    var head, tail := Frames(ones, front), Frame(ones, p);
    if i <= |head| {
      assert (head + tail)[i..] == head[i..] + tail;
      HearConcat(Heard(Hunt(0), []), head[i..], tail);
      k := Resynchronises(ones, front, i);
      CatchNext(Listen(head[i..]), ones, front, p, k);
    } else {
      assert (head + tail)[i..] == tail[i - |head|..];
      k := CatchLast(ones, front, p, i - |head|);
    }
    if k > 0 {
      FrameStartMonotone(ones, front, p, k - 1);
    }
  }
}
