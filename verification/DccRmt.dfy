/** The second transmitter: on an ESP32 the RMT peripheral loops over a memory of ready-made bits
    and interrupts at the end of every loop (DCCRMT).  The results say that it puts the same
    frames on the track as the timer-driven transmitter, as often as asked. */
module DccRmt {
  import opened DccFraming
  import opened DccTransmitter

  // ---------------------------------------------------------------- items

  /** One RMT item: a bit (equal high and low halves) or the end-of-transmission marker. */
  datatype Item = One | Zero | Eot

  function ItemOf(bit: bool): Item {
    if bit then One else Zero
  }

  function ItemsOf(bits: seq<bool>): (r: seq<Item>)
    ensures |r| == |bits| && forall i :: 0 <= i < |r| ==> r[i] == ItemOf(bits[i])
  {
    seq(|bits|, i requires 0 <= i < |bits| => ItemOf(bits[i]))
  }

  /** The bits the hardware sends before it reaches the marker and loops. */
  function Looped(memory: seq<Item>): seq<bool> {
    if memory == [] || memory[0] == Eot then [] else [memory[0] == One] + Looped(memory[1..])
  }

  lemma {:induction false} LoopedItems(bits: seq<bool>, rest: seq<Item>)
    ensures Looped(ItemsOf(bits) + [Eot] + rest) == bits
    decreases |bits|
  {
    var m := ItemsOf(bits) + [Eot] + rest;
    if bits != [] {
      LoopedItems(bits[1..], rest);
      assert m[1..] == ItemsOf(bits[1..]) + [Eot] + rest;
      assert [bits[0]] + bits[1..] == bits;
    }
  }

  /** The preamble buffer: ones, and the start bit of the first byte. */
  function PreambleBits(plen: nat): seq<bool> {
    Ones(plen) + [false]
  }

  /** The data buffer: the bytes separated by zeros, and the end bit. */
  function DataBits(p: Packet): seq<bool>
    requires p != []
  {
    BodyLength(p);
    Body(p)[1..] + [true]
  }

  /** One loop of the memory. */
  function RmtFrame(plen: nat, p: Packet): seq<bool>
    requires p != []
  {
    PreambleBits(plen) + DataBits(p)
  }

  function RmtFrames(plen: nat, ps: seq<Packet>): seq<bool>
    requires NonEmpty(ps)
  {
    if ps == [] then [] else RmtFrames(plen, ps[..|ps| - 1]) + RmtFrame(plen, ps[|ps| - 1])
  }

  // ---------------------------------------------------------------- one signal

  lemma {:induction false} BodyStartsWithZero(p: Packet)
    requires p != []
    ensures |Body(p)| == 9 * |p| && !Body(p)[0]
    decreases |p|
  {
    BodyLength(p);
    var front := p[..|p| - 1];
    BodyLength(front);
    if front != [] {
      BodyStartsWithZero(front);
    }
  }

  /** A loop of the RMT memory is a frame with its end bit moved from the front to the back. */
  lemma FrameRotated(plen: nat, p: Packet)
    requires p != []
    ensures [true] + RmtFrame(plen, p) == Frame(plen + 1, p) + [true]
  {
    BodyStartsWithZero(p);
    hide Body;
    Rotate(plen, Body(p));
  }

  lemma Rotate(plen: nat, body: seq<bool>)
    requires body != [] && !body[0]
    ensures [true] + ((Ones(plen) + [false]) + (body[1..] + [true])) == (Ones(plen + 1) + body) + [true]
  {
    assert body == [false] + body[1..];
    assert [true] + Ones(plen) == Ones(plen + 1);
  }

  /** Two transmitters, one signal: after the very first bit the two streams are equal. */
  lemma {:induction false} SameSignal(plen: nat, ps: seq<Packet>)
    requires NonEmpty(ps)
    ensures [true] + RmtFrames(plen, ps) == Frames(plen + 1, ps) + [true]
    decreases |ps|
  {
    if ps != [] {
      hide RmtFrame, Frame;
      var front, p := ps[..|ps| - 1], ps[|ps| - 1];
      SameSignal(plen, front);
      FrameRotated(plen, p);
      Rotated(RmtFrames(plen, front), Frames(plen + 1, front), RmtFrame(plen, p), Frame(plen + 1, p));
    } else {
      assert [true] + RmtFrames(plen, ps) == [true] == Frames(plen + 1, ps) + [true];
    }
  }

  lemma Rotated(a: seq<bool>, b: seq<bool>, c: seq<bool>, d: seq<bool>)
    requires [true] + a == b + [true] && [true] + c == d + [true]
    ensures [true] + (a + c) == (b + d) + [true]
  {
    calc {
      [true] + (a + c);
      ([true] + a) + c;
      (b + [true]) + c;
      b + ([true] + c);
      b + (d + [true]);
      (b + d) + [true];
    }
  }

  // ---------------------------------------------------------------- the channel

  /** `data` and `memory` name packets; what they look like as items is `DataBits`.  `filling` holds
      the job whose bits are being written, before the channel is told. */
  datatype Channel = Channel(
    isMain: bool,
    dataReady: bool,
    dataRepeat: nat,
    data: seq<Job>,
    memory: Packet,
    filling: seq<Job>)

  datatype RmtLog = RmtLog(accepted: seq<Job>, aired: seq<Airing>)

  datatype RmtWorld = RmtWorld(ch: Channel, log: RmtLog)

  datatype RmtEvent =
    | LoopEnd            // the interrupt at the end of a loop
    | BeginFill(job: Job)
    | EndFill            // dataReady and dataRepeat are set together

  /** The memory is prefilled with the idle packet, which the hardware starts to send. */
  function RmtStart(isMain: bool): RmtWorld {
    RmtWorld(Channel(isMain, false, 0, [], Filler(isMain), []),
             RmtLog([], [Airing([], Filler(isMain), 0, 1, false)]))
  }

  const BYTE: nat := 256

  /** dataRepeat is a byte: a repeat count of 255 wraps to none. */
  function RepeatByte(repeats: nat): nat {
    (repeats + 1) % BYTE
  }

  lemma RepeatByteIs(repeats: nat)
    requires repeats < BYTE
    ensures RepeatByte(repeats) + (if repeats == 255 then 1 else 0) == Loops(repeats)
  {
  }

  /** How often a packet is looped before anything else is. */
  function Loops(repeats: nat): nat {
    if repeats == 255 then 1 else repeats + 1
  }

  ghost predicate ChannelOk(ch: Channel) {
    && |ch.data| <= 1 && |ch.filling| <= 1
    && ch.dataRepeat < BYTE
    && (ch.dataReady ==> ch.data != [] && ch.data[0].repeats < BYTE && ch.dataRepeat == RepeatByte(ch.data[0].repeats))
    && (ch.filling != [] ==> ch.filling[0].repeats < BYTE)
    && (ch.filling != [] ==> !ch.dataReady && ch.dataRepeat == 0)
  }

  predicate CanFill(ch: Channel, job: Job) {
    && ch.filling == [] && ch.dataRepeat == 0 && !ch.dataReady
    && |job.payload| <= MAX_PACKET_SIZE && job.repeats < BYTE
  }

  function OnLoopEnd(ch: Channel): (r: Channel)
    requires ChannelOk(ch)
    ensures ChannelOk(r)
  {
    if !ch.dataReady && ch.dataRepeat == 0 then
      ch.(memory := Filler(ch.isMain))
    else if ch.dataReady then
      ch.(memory := Checksummed(ch.data[0].payload), dataReady := false,
          dataRepeat := if ch.dataRepeat > 0 then ch.dataRepeat - 1 else 0)
    else
      ch.(dataRepeat := ch.dataRepeat - 1)
  }

  /** The loop that begins now is a new airing or one more of the last. */
  function LogLoop(ch: Channel, aired: seq<Airing>): seq<Airing>
    requires ChannelOk(ch)
  {
    if !ch.dataReady && ch.dataRepeat == 0 then
      aired + [Airing([], Filler(ch.isMain), 0, 1, false)]
    else if ch.dataReady then
      aired + [Airing([ch.data[0]], Checksummed(ch.data[0].payload), ch.data[0].repeats, 1, false)]
    else if aired == [] then []
    else
      var last := aired[|aired| - 1];
      aired[..|aired| - 1] + [last.(sent := last.sent + 1)]
  }

  function RmtStep(w: RmtWorld, e: RmtEvent): (r: RmtWorld)
    requires ChannelOk(w.ch)
    ensures ChannelOk(r.ch)
  {
    match e
    case LoopEnd => RmtWorld(OnLoopEnd(w.ch), w.log.(aired := LogLoop(w.ch, w.log.aired)))
    case BeginFill(job) =>
      if CanFill(w.ch, job) then
        RmtWorld(w.ch.(data := [job], filling := [job]), w.log.(accepted := w.log.accepted + [job]))
      else w
    case EndFill =>
      if w.ch.filling == [] then w
      else w.(ch := w.ch.(dataReady := true, dataRepeat := RepeatByte(w.ch.filling[0].repeats),
                          data := w.ch.filling, filling := []))
  }

  function RmtRun(w: RmtWorld, es: seq<RmtEvent>): (r: RmtWorld)
    requires ChannelOk(w.ch)
    ensures ChannelOk(r.ch)
  {
    if es == [] then w else RmtStep(RmtRun(w, es[..|es| - 1]), es[|es| - 1])
  }

  function RmtInFlight(ch: Channel): seq<Job>
    requires ChannelOk(ch)
  {
    (if ch.dataReady then ch.data else []) + ch.filling
  }

  ghost predicate RmtInv(w: RmtWorld) {
    && ChannelOk(w.ch)
    && w.log.aired != []
    && (forall i :: 0 <= i < |w.log.aired| ==> AiringOk(w.log.aired[i], w.ch.isMain))
    && (forall i :: 0 <= i < |w.log.aired| - 1 ==> w.log.aired[i].sent == Loops(w.log.aired[i].repeats))
    && var last := w.log.aired[|w.log.aired| - 1];
       && last.packet == w.ch.memory
       && last.sent + (if w.ch.dataReady then 0 else w.ch.dataRepeat) == Loops(last.repeats)
       && w.log.accepted == JobsOf(w.log.aired) + RmtInFlight(w.ch)
  }

  lemma RmtNewAiring(w: RmtWorld, a: Airing)
    requires RmtInv(w) && (w.ch.dataReady || w.ch.dataRepeat == 0)
    requires OnLoopEnd(w.ch).memory == a.packet && AiringOk(a, w.ch.isMain) && a.sent == 1
    requires Loops(a.repeats) == 1 + OnLoopEnd(w.ch).dataRepeat && !OnLoopEnd(w.ch).dataReady
    requires LogLoop(w.ch, w.log.aired) == w.log.aired + [a]
    requires a.job + RmtInFlight(OnLoopEnd(w.ch)) == RmtInFlight(w.ch)
    ensures RmtInv(RmtStep(w, LoopEnd))
  {
    hide AiringOk, OnLoopEnd, LogLoop;
    AirNew(w.log.aired, a);
    hide JobsOf;
    var w' := RmtStep(w, LoopEnd);
    assert JobsOf(w.log.aired) + a.job + RmtInFlight(w'.ch) == JobsOf(w.log.aired) + RmtInFlight(w.ch);
    assert OnLoopEnd(w.ch).isMain == w.ch.isMain by { LoopKeepsTrack(w.ch); }
  }

  lemma LoopKeepsTrack(ch: Channel)
    requires ChannelOk(ch)
    ensures OnLoopEnd(ch).isMain == ch.isMain
  {
  }

  lemma RmtStepInv(w: RmtWorld, e: RmtEvent)
    requires RmtInv(w)
    ensures RmtInv(RmtStep(w, e))
  {
    match e
    case LoopEnd => RmtLoopInv(w);
    case BeginFill(job) =>
      hide JobsOf, AiringOk;
      var w' := RmtStep(w, e);
      if w' != w {
        assert RmtInFlight(w'.ch) == RmtInFlight(w.ch) + [job];
      }
    case EndFill =>
      hide JobsOf, AiringOk;
      var w' := RmtStep(w, e);
      assert RmtInFlight(w'.ch) == RmtInFlight(w.ch);
  }

  lemma RmtLoopInv(w: RmtWorld)
    requires RmtInv(w)
    ensures RmtInv(RmtStep(w, LoopEnd))
  {
    if !w.ch.dataReady && w.ch.dataRepeat == 0 {
      FillerXors(w.ch.isMain);
      hide XorAll, Filler, JobsOf;
      RmtNewAiring(w, Airing([], Filler(w.ch.isMain), 0, 1, false));
    } else if w.ch.dataReady {
      var job := w.ch.data[0];
      ChecksummedXorsToZero(job.payload);
      RepeatByteIs(job.repeats);
      hide XorAll, JobsOf, RepeatByte;
      assert w.ch.data == [job];
      RmtNewAiring(w, Airing([job], Checksummed(job.payload), job.repeats, 1, false));
    } else {
      RmtRepeat(w);
    }
  }

  lemma RmtRepeat(w: RmtWorld)
    requires RmtInv(w) && !w.ch.dataReady && w.ch.dataRepeat > 0
    ensures RmtInv(RmtStep(w, LoopEnd))
  {
    hide XorAll, Checksummed;
    var aired := w.log.aired;
    var last := aired[|aired| - 1];
    JobsSameLast(aired, last.(sent := last.sent + 1));
    assert RmtInFlight(RmtStep(w, LoopEnd).ch) == RmtInFlight(w.ch);
    hide JobsOf;
  }

  lemma RmtStartInv(isMain: bool)
    ensures RmtInv(RmtStart(isMain)) && RmtStart(isMain).ch.isMain == isMain
  {
    FillerXors(isMain);
    var aired := RmtStart(isMain).log.aired;
    assert JobsOf(aired[..0]) == [];
    hide XorAll, Filler;
  }

  lemma RmtStepMain(w: RmtWorld, e: RmtEvent)
    requires ChannelOk(w.ch)
    ensures RmtStep(w, e).ch.isMain == w.ch.isMain
  {
  }

  lemma {:induction false} RmtRunInv(isMain: bool, es: seq<RmtEvent>)
    ensures RmtInv(RmtRun(RmtStart(isMain), es))
    ensures RmtRun(RmtStart(isMain), es).ch.isMain == isMain
    decreases |es|
  {
    RmtStartInv(isMain);
    var w := RmtStart(isMain);
    assert ChannelOk(w.ch);
    hide RmtInv, RmtStart, ChannelOk, RmtStep;
    if es != [] {
      var front := es[..|es| - 1];
      RmtRunInv(isMain, front);
      var mid := RmtRun(w, front);
      RmtStepInv(mid, es[|es| - 1]);
      RmtStepMain(mid, es[|es| - 1]);
    }
  }

  /** In every run of loop ends and fills: each accepted job goes on the track once, in order, and
      is looped exactly repeats + 1 times before anything else, if and only if its repeat count is not
      255, and once if it is; jobs not there yet are the one being filled or the one ready. */
  lemma RmtAiringsAreExact(isMain: bool, es: seq<RmtEvent>, i: nat)
    requires i < |RmtRun(RmtStart(isMain), es).log.aired|
    ensures var w := RmtRun(RmtStart(isMain), es);
            && AiringOk(w.log.aired[i], isMain)
            && (i < |w.log.aired| - 1 ==>
                  var a := w.log.aired[i];
                  (a.sent == a.repeats + 1 <==> a.repeats != 255) && (a.repeats == 255 ==> a.sent == 1))
            && w.log.accepted == JobsOf(w.log.aired) + RmtInFlight(w.ch)
            && |RmtInFlight(w.ch)| <= 1
  {
    RmtRunInv(isMain, es);
    hide AiringOk, JobsOf;
  }

  /** It does wrap: a packet to be repeated 255 times is looped once, and then the filler. */
  lemma RepeatCountWraps(isMain: bool, payload: Packet)
    requires |payload| <= MAX_PACKET_SIZE
    ensures var job := Job(payload, 255);
            var w := RmtRun(RmtStart(isMain), [BeginFill(job), EndFill, LoopEnd, LoopEnd]);
            && w.log.accepted == [job]
            && w.log.aired == [Airing([], Filler(isMain), 0, 1, false), Airing([job], Checksummed(payload), 255, 1, false),
                               Airing([], Filler(isMain), 0, 1, false)]
  {
    hide XorAll, Filler;
    var job := Job(payload, 255);
    var w0 := RmtStart(isMain);
    var w1 := RmtStep(w0, BeginFill(job));
    var w2 := RmtStep(w1, EndFill);
    var w3 := RmtStep(w2, LoopEnd);
    assert w3.ch.dataRepeat == 0 && !w3.ch.dataReady;
    var es := [BeginFill(job), EndFill, LoopEnd, LoopEnd];
    assert es[..3] == [BeginFill(job), EndFill, LoopEnd] && es[..3][..2] == [BeginFill(job), EndFill];
    assert es[..3][..2][..1] == [BeginFill(job)] && [BeginFill(job)][..0] == [];
    assert RmtRun(w0, [BeginFill(job)]) == w1;
    assert RmtRun(w0, [BeginFill(job), EndFill]) == w2;
    assert RmtRun(w0, [BeginFill(job), EndFill, LoopEnd]) == w3;
  }

  /** The loops of a run are what the timer-driven transmitter would have sent for the same
      airings, so the same receiver hears the same packets. */
  lemma RmtIsHeard(isMain: bool, es: seq<RmtEvent>)
    ensures var ps := OnTrack(RmtRun(RmtStart(isMain), es).log.aired);
            && NonEmpty(ps)
            && Listen([true] + RmtFrames(RequiredPreambles(isMain) - 1, ps)).packets == ps
  {
    RmtRunInv(isMain, es);
    var aired := RmtRun(RmtStart(isMain), es).log.aired;
    OnTrackNonEmpty(aired, isMain);
    var ps, plen := OnTrack(aired), RequiredPreambles(isMain) - 1;
    OnTrackCovers(aired);
    hide RmtInv, OnTrack;
    HeardToTheEnd(plen, ps);
  }

  lemma HeardToTheEnd(plen: nat, ps: seq<Packet>)
    requires NonEmpty(ps) && ps != [] && plen >= MIN_PREAMBLE
    ensures Listen([true] + RmtFrames(plen, ps)).packets == ps
  {
    hide Hear, RmtFrames, Frames, RxStep, Holding;
    SameSignal(plen, ps);
    var h := Heard(Hunt(0), []);
    HearFrames(h, plen + 1, ps);
    HearConcat(h, Frames(plen + 1, ps), [true]);
    HearEndBit(Listen(Frames(plen + 1, ps)), 1, ps[|ps| - 1]);
    assert Ones(1) == [true];
    assert ps[..|ps| - 1] + [ps[|ps| - 1]] == ps;
  }

  lemma OnTrackCovers(aired: seq<Airing>)
    requires aired != [] && aired[|aired| - 1].sent >= 1
    ensures OnTrack(aired) != []
  {
  }

  // ---------------------------------------------------------------- the object

  /** The filler packets, bit by bit. */
  lemma FillerBits(isMain: bool)
    ensures DataBits(Filler(isMain)) ==
            seq(27, i => if isMain then i < 8 || 18 <= i else i == 26)
  {
    var f := Filler(isMain);
    assert f[..2][..1][..0] == [];
    assert Body(f[..2][..1]) == ByteBits(f[0]);
    assert Body(f[..2]) == ByteBits(f[0]) + ByteBits(f[1]);
    assert Body(f) == ByteBits(f[0]) + ByteBits(f[1]) + ByteBits(f[2]);
    BitsOfAll();
  }

  lemma BitsOfAll()
    ensures ByteBits(0) == [false] + seq(8, _ => false)
    ensures ByteBits(0xFF) == [false] + seq(8, _ => true)
  {
  }

  /** The memory starts with these bits and the marker. */
  ghost predicate Holds(memory: seq<Item>, bits: seq<bool>) {
    |bits| < |memory| && memory[..|bits| + 1] == ItemsOf(bits) + [Eot]
  }

  lemma FrameItems(plen: nat, p: Packet)
    requires p != []
    ensures ItemsOf(RmtFrame(plen, p)) == ItemsOf(PreambleBits(plen)) + ItemsOf(DataBits(p))
    ensures |RmtFrame(plen, p)| == |PreambleBits(plen)| + |DataBits(p)| && |PreambleBits(plen)| == plen + 1
  {
    hide DataBits;
  }

  lemma ByteItems(b: bv8, items: seq<Item>)
    requires |items| == 9 && items[8] == Zero && forall k :: 0 <= k < 8 ==> items[k] == ItemOf(BitAt(b, k + 1))
    ensures items == ItemsOf(ByteBits(b)[1..] + [false])
  {
    hide BitAt;
    var bits := ByteBits(b)[1..] + [false];
    assert forall k :: 0 <= k < 8 ==> bits[k] == BitAt(b, k + 1);
  }

  class RmtChannel {
    const isMain: bool
    const preamble: array<Item>
    const idle: array<Item>
    const data: array<Item>
    var dataLen: nat
    var dataReady: bool
    var dataRepeat: nat
    const memory: array<Item>      // the peripheral's own

    /** The job whose items are in `data`, and the packet whose items are in `memory`. */
    ghost var job: seq<Job>
    ghost var looping: Packet

    ghost function Plen(): nat {
      RequiredPreambles(isMain) - 1
    }

    ghost function View(): Channel
      reads this
    {
      Channel(isMain, dataReady, dataRepeat, job, looping, [])
    }

    ghost predicate Valid()
      reads this, preamble, idle, data, memory
    {
      && preamble != memory && idle != memory && data != memory && data != preamble && data != idle
      && preamble[..] == ItemsOf(PreambleBits(Plen())) + [Eot]
      && idle[..] == ItemsOf(DataBits(Filler(isMain))) + [Eot]
      && data.Length == 55 && memory.Length == 128 && dataLen <= data.Length
      && ChannelOk(View())
      && (job != [] ==> |job[0].payload| <= MAX_PACKET_SIZE)
      && (job != [] ==> data[..dataLen] == ItemsOf(DataBits(Checksummed(job[0].payload))) + [Eot])
      && looping != [] && |looping| <= BUFFER_SIZE
      && Holds(memory[..], RmtFrame(Plen(), looping))
    }

    constructor (main: bool)
      ensures Valid() && isMain == main && View() == RmtStart(main).ch
    {
      var plen := if main then PREAMBLE_BITS_MAIN else PREAMBLE_BITS_PROG;
      var id := new Item[28](_ => Zero);
      if main {
        for n := 0 to 8
          invariant forall i :: 0 <= i < 28 ==> id[i] == if i < n then One else Zero
        {
          id[n] := One;
        }
        for n := 18 to 26
          invariant forall i :: 0 <= i < 28 ==> id[i] == if i < 8 || 18 <= i < n then One else Zero
        {
          id[n] := One;
        }
      }
      id[26] := One;
      id[27] := Eot;
      var pre := new Item[plen + 2](_ => One);
      pre[plen] := Zero;
      pre[plen + 1] := Eot;
      isMain, preamble, idle := main, pre, id;
      data := new Item[55](_ => Eot);
      memory := new Item[128](i => if i < plen then One else Zero);
      dataLen, dataReady, dataRepeat := 0, false, 0;
      job, looping := [], Filler(main);
      new;
      FillerBits(main);
      assert pre[..] == ItemsOf(PreambleBits(plen)) + [Eot];
      assert id[..] == ItemsOf(DataBits(Filler(main))) + [Eot];
      FillMemory(idle, 28, Filler(main));
    }

    /** What the hardware sends in one loop. */
    lemma LoopsThePacket()
      requires Valid()
      ensures Looped(memory[..]) == RmtFrame(Plen(), looping)
    {
      var f := RmtFrame(Plen(), looping);
      LoopedItems(f, memory[|f| + 1..]);
      assert memory[..] == memory[..|f| + 1] + memory[|f| + 1..];
    }

    /** rmt_fill_tx_items at the end of the preamble. */
    method FillMemory(items: array<Item>, len: nat, ghost p: Packet)
      requires items != memory && preamble != memory && memory.Length == 128
      requires p != [] && |p| <= BUFFER_SIZE && len <= items.Length
      requires items[..len] == ItemsOf(DataBits(p)) + [Eot]
      requires preamble[..] == ItemsOf(PreambleBits(Plen())) + [Eot]
      requires memory[..Plen() + 1] == ItemsOf(PreambleBits(Plen()))
      modifies memory
      ensures Holds(memory[..], RmtFrame(Plen(), p))
    {
      BodyLength(p);
      var offset := preamble.Length - 1;
      assert len <= 55 && offset == Plen() + 1;
      FrameItems(Plen(), p);
      hide ItemsOf, PreambleBits, DataBits, RmtFrame;
      CopyItems(items, len, offset);
      assert memory[..offset + len] == memory[..offset] + memory[offset..offset + len];
    }

    method CopyItems(items: array<Item>, len: nat, offset: nat)
      requires items != memory && len <= items.Length && offset + len <= memory.Length
      modifies memory
      ensures memory[..offset] == old(memory[..offset]) && memory[offset..offset + len] == items[..len]
    {
      for i := 0 to len
        invariant forall k :: 0 <= k < offset ==> memory[k] == old(memory[k])
        invariant forall k :: offset <= k < offset + i ==> memory[k] == items[k - offset]
      {
        memory[offset + i] := items[i];
      }
    }

    /** Turns a packet with its checksum into items, unless earlier work is unfinished.  The result
        is 0 when the job was taken. */
    method FillData(buffer: seq<bv8>, repeatCount: nat, ghost payload: Packet) returns (result: int)
      requires Valid() && buffer == Checksummed(payload) && repeatCount < BYTE
      modifies this`dataLen, this`dataReady, this`dataRepeat, this`job, data
      ensures Valid()
      ensures result == 0 <==> CanFill(old(View()), Job(payload, repeatCount))
      ensures var w := RmtWorld(old(View()), RmtLog([], []));
              View() == RmtStep(RmtStep(w, BeginFill(Job(payload, repeatCount))), EndFill).ch
    {
      hide RmtFrame, DataBits, Body, XorAll, PreambleBits;
      if dataRepeat > 0 {
        return dataRepeat;
      }
      if dataReady {
        return 1000;
      }
      if |buffer| * 9 + 1 > data.Length {
        return -1;
      }
      FillItems(buffer);
      dataLen := |buffer| * 9 + 1;
      dataReady := true;
      dataRepeat := (repeatCount + 1) % BYTE;
      job := [Job(payload, repeatCount)];
      result := 0;
    }

    /** The nested loops of RMTfillData: eight items a byte and a zero, the last zero overwritten
        by the end bit. */
    method FillItems(buffer: seq<bv8>)
      requires buffer != [] && |buffer| * 9 + 1 <= data.Length
      modifies data
      ensures data[..|buffer| * 9 + 1] == ItemsOf(DataBits(buffer)) + [Eot]
    {
      var n := 0;
      assert buffer[..0] == [];
      while n < |buffer|
        invariant n <= |buffer|
        invariant |Spaced(buffer[..n])| == 9 * n
        invariant data[..9 * n] == ItemsOf(Spaced(buffer[..n]))
      {
        FillByte(buffer[n], 9 * n);
        SpacedGrows(buffer[..n], buffer[n]);
        assert buffer[..n + 1] == buffer[..n] + [buffer[n]];
        assert data[..9 * n + 9] == data[..9 * n] + data[9 * n..9 * n + 9];
        n := n + 1;
      }
      assert buffer[..n] == buffer;
      SpacedEnds(buffer);
      data[9 * n - 1] := One;
      data[9 * n] := Eot;
      assert data[..9 * n + 1] == ItemsOf(Spaced(buffer)[..9 * n - 1] + [true]) + [Eot];
    }

    method FillByte(b: bv8, at: nat)
      requires at + 9 <= data.Length
      modifies data
      ensures data[..at] == old(data[..at])
      ensures data[at..at + 9] == ItemsOf(ByteBits(b)[1..] + [false])
    {
      hide BitAt;
      var bit := 0;
      while bit < 8
        invariant bit <= 8
        invariant forall k :: 0 <= k < at ==> data[k] == old(data[k])
        invariant forall k :: at <= k < at + bit ==> data[k] == ItemOf(BitAt(b, k - at + 1))
      {
        data[at + bit] := if BitAt(b, bit + 1) then One else Zero;
        bit := bit + 1;
      }
      data[at + 8] := Zero;
      ByteItems(b, data[at..at + 9]);
    }

    /** The interrupt at the end of a loop. */
    method Interrupt()
      requires Valid()
      modifies this`dataReady, this`dataRepeat, this`looping, memory
      ensures Valid() && View() == OnLoopEnd(old(View()))
    {
      BodyLength(looping);
      assert memory[..Plen() + 1] == ItemsOf(PreambleBits(Plen())) by { PreambleStays(); }
      if !dataReady && dataRepeat == 0 {
        FillMemory(idle, idle.Length, Filler(isMain));
        looping := Filler(isMain);
        return;
      }
      if dataReady {
        FillMemory(data, dataLen, Checksummed(job[0].payload));
        looping := Checksummed(job[0].payload);
        dataReady := false;
      }
      if dataRepeat > 0 {
        dataRepeat := dataRepeat - 1;
      }
    }

    lemma PreambleStays()
      requires Valid()
      ensures memory[..Plen() + 1] == ItemsOf(PreambleBits(Plen()))
    {
      var f := RmtFrame(Plen(), looping);
      assert memory[..Plen() + 1] == memory[..|f| + 1][..Plen() + 1];
    }
  }

  /** Bytes as RMTfillData lays them out before it closes the packet: eight bits and a zero. */
  function Spaced(p: Packet): seq<bool> {
    if p == [] then [] else Spaced(p[..|p| - 1]) + (ByteBits(p[|p| - 1])[1..] + [false])
  }

  lemma SpacedGrows(p: Packet, b: bv8)
    ensures Spaced(p + [b]) == Spaced(p) + (ByteBits(b)[1..] + [false])
  {
    var q := p + [b];
    assert q[..|q| - 1] == p;
  }

  /** The same bits as a frame's body, shifted by one start bit. */
  lemma {:induction false} SpacedIsBody(p: Packet)
    ensures [false] + Spaced(p) == Body(p) + [false]
    decreases |p|
  {
    if p == [] {
      assert [false] + Spaced(p) == [false] == Body(p) + [false];
    } else {
      hide ByteBits;
      var front, b := p[..|p| - 1], p[|p| - 1];
      SpacedIsBody(front);
      var bits := ByteBits(b);
      assert bits == [false] + bits[1..];
      calc {
        [false] + Spaced(p);
        ([false] + Spaced(front)) + (bits[1..] + [false]);
        (Body(front) + [false]) + (bits[1..] + [false]);
        (Body(front) + ([false] + bits[1..])) + [false];
        Body(p) + [false];
      }
    }
  }

  lemma SpacedEnds(p: Packet)
    requires p != []
    ensures |Spaced(p)| == 9 * |p| && Spaced(p)[..9 * |p| - 1] + [true] == DataBits(p)
  {
    SpacedIsBody(p);
    BodyLength(p);
    hide Spaced, Body;
    assert Spaced(p) == ([false] + Spaced(p))[1..] == (Body(p) + [false])[1..];
    assert Spaced(p)[..9 * |p| - 1] == Body(p)[1..];
  }
}
