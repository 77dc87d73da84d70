/** The sniffer: what it makes of a received packet, and why that inverts the encoders. */
module DccSniffer {
  import opened DccFraming
  import opened PacketEncoders

  /** What the sniffer remembers of a loco. */
  datatype Loco = Loco(speedCode: bv8, functions: bv32)

  const UNSEEN := Loco(128, 0)

  /** A loco's place in the table. */
  datatype Key = Key(cab: Cab)

  type Slots = map<Key, Loco>

  datatype Action =
    | SetThrottle(cab: Cab, speed: bv8, forward: bool)
    | FuncMap(cab: Cab, value: bv8, low: nat, high: nat)
    | SetAccessory(address: bv16, port: bv8, gate: bool, on: bool)

  datatype Parsed = Parsed(slots: Slots, actions: seq<Action>, changed: bool)

  /** Who a packet is for, and where its instruction starts. */
  datatype Header = Rejected | Mobile(cab: Cab, instr: nat) | Accessory(low: bv16)

  function Get(slots: Slots, cab: Cab): Loco {
    if Key(cab) in slots then slots[Key(cab)] else UNSEEN
  }

  /** Byte i of the receive buffer; `beyond` stands for whatever lies behind the packet. */
  function ByteAt(d: Packet, beyond: bv8, i: nat): bv8 {
    if i < |d| then d[i] else beyond
  }

  function HeaderOf(d: Packet, beyond: bv8): (r: Header)
    ensures r.Rejected? <== |d| < 3 || |d| > 6 || XorAll(d) != 0
  {
    if ByteAt(d, beyond, 0) == 0xFF then Rejected
    else if |d| < 3 || |d| > 6 then Rejected
    else if XorAll(d) != 0 then Rejected
    else if d[0] & 0x80 == 0 then Mobile(d[0] as bv16, 1)
    else if d[0] & 0x40 != 0 then Mobile(256 * ((d[0] & 0x3F) as bv16) + d[1] as bv16, 2)
    else Accessory((d[0] & 0x3F) as bv16)
  }

  function LocoUpdated(slots: Slots, cab: Cab, code: bv8): Parsed {
    if Get(slots, cab).speedCode == code then Parsed(slots[Key(cab) := Get(slots, cab)], [], false)
    else Parsed(slots[Key(cab) := Get(slots, cab).(speedCode := code)], [], true)
  }

  function WithNibble(functions: bv32, func: bv8, shift: nat): bv32
    requires shift <= 25
  {
    var f := if shift == 1 then (functions & !1) | (((func & 0x10) >> 4) as bv32) else functions;
    (f & !(0xF << shift)) | (((func & 0x0F) as bv32) << shift)
  }

  function FuncUpdated(slots: Slots, cab: Cab, func: bv8, shift: nat): Parsed
    requires shift <= 25
  {
    var before := Get(slots, cab);
    var functions := WithNibble(before.functions, func, shift);
    Parsed(slots[Key(cab) := before.(functions := functions)], [], functions != before.functions)
  }

  /** The 28-step speed bits as a 128-step speed. */
  function Speed128(i0: bv8): bv8 {
    if i0 & 0x0F > 1 then
      ((((((i0 & 0x0F) << 1) + ((i0 >> 4) & 1)) - 3) as bv16 * 9) / 2) as bv8
    else
      i0 & 0x0F
  }

  function HighNibble(b: bv8): bv8 {
    b >> 4
  }

  /** Direction and speed bits of a 28-step instruction. */
  function CoarseBits(i0: bv8): bv8 {
    i0 & 0x3F
  }

  function SpeedOf(code: bv8): bv8 {
    code & 0x7F
  }

  /** An update followed by an action if it changed anything. */
  function Then(p: Parsed, a: Action): Parsed {
    if p.changed then p.(actions := p.actions + [a]) else p
  }

  /** Two nibbles of functions, the low one first; the second decides what is reported. */
  function TwoNibbles(slots: Slots, cab: Cab, value: bv8, low: nat): Parsed
    requires low <= 21
  {
    var p := Then(FuncUpdated(slots, cab, value, low), FuncMap(cab, value, low, low + 3));
    var r := Then(FuncUpdated(p.slots, cab, HighNibble(value), low + 4), FuncMap(cab, HighNibble(value), low + 4, low + 7));
    r.(actions := p.actions + r.actions)
  }

  datatype Instruction = FullSpeed | CoarseSpeed | Functions(group: Group) | Unused

  /** What the first instruction byte announces. */
  function InstructionOf(i0: bv8): Instruction {
    var kind := i0 & 0xE0;
    if kind == 0x20 then (if i0 == SET_SPEED then FullSpeed else Unused)
    else if kind == 0x40 || kind == 0x60 then CoarseSpeed
    else if kind == 0x80 then Functions(G1)
    else if kind == 0xA0 then Functions(if i0 & 0x10 != 0 then G2 else G3)
    else if kind == 0xC0 then
      (if i0 & 0x1F == 0x1E then Functions(G4) else if i0 & 0x1F == 0x1F then Functions(G5) else Unused)
    else Unused
  }

  /** The light function of group 1 moved in front of the others. */
  function Normalized(i0: bv8): bv8 {
    ((i0 << 1) & 0x1E) | ((i0 >> 4) & 0x01)
  }

  predicate Forward(code: bv8, mask: bv8) {
    code & mask != 0
  }

  function DecodeMobile(slots: Slots, cab: Cab, i0: bv8, i1: bv8): Parsed {
    if cab == 0 then Parsed(slots, [], false)
    else
      match InstructionOf(i0)
      case FullSpeed => Then(LocoUpdated(slots, cab, i1), SetThrottle(cab, SpeedOf(i1), Forward(i1, 0x80)))
      case CoarseSpeed => Then(LocoUpdated(slots, cab, CoarseBits(i0)), SetThrottle(cab, Speed128(i0), Forward(i0, 0x20)))
      case Functions(G1) => Then(FuncUpdated(slots, cab, i0, 1), FuncMap(cab, Normalized(i0), 0, 4))
      case Functions(G2) => Then(FuncUpdated(slots, cab, i0, 5), FuncMap(cab, i0, 5, 8))
      case Functions(G3) => Then(FuncUpdated(slots, cab, i0, 9), FuncMap(cab, i0, 9, 12))
      case Functions(G4) => TwoNibbles(slots, cab, i1, 13)
      case Functions(G5) => TwoNibbles(slots, cab, i1, 21)
      case Unused => Parsed(slots, [], false)
  }

  function DecodeAccessory(slots: Slots, low: bv16, i0: bv8, len: nat): Parsed {
    if i0 & 0x80 != 0 && len == 3 then
      var address := ((((!i0) & 0x70) as bv16) << 2) + low;
      Parsed(slots, [SetAccessory(address, (i0 & 0x06) >> 1, i0 & 0x01 != 0, i0 & 0x08 != 0)], true)
    else
      Parsed(slots, [], false)
  }

  function Decode(slots: Slots, d: Packet, beyond: bv8): Parsed {
    match HeaderOf(d, beyond)
    case Rejected => Parsed(slots, [], false)
    case Mobile(cab, n) => DecodeMobile(slots, cab, ByteAt(d, beyond, n), ByteAt(d, beyond, n + 1))
    case Accessory(low) => DecodeAccessory(slots, low, d[1], |d|)
  }

  // ---------------------------------------------------------------- addresses

  /** A loco packet as it is received: address, instruction, checksum. */
  function LocoPacket(cab: Cab, h: Cab, instr: Packet): Packet {
    Checksummed(AddressBytes(cab, h) + instr)
  }

  predicate IsShort(b: bv8) {
    b & 0x80 == 0
  }

  predicate IsLong(b: bv8) {
    b & 0x80 != 0 && b & 0x40 != 0
  }

  function ShortAddress(b: bv8): Cab {
    b as bv16
  }

  function LongAddress(b: bv8, c: bv8): Cab {
    256 * ((b & 0x3F) as bv16) + c as bv16
  }

  lemma AddressForm(cab: Cab, h: Cab)
    requires h <= 127
    ensures var a := AddressBytes(cab, h);
            && (|a| == 1 <==> cab <= h)
            && (|a| == 1 ==> IsShort(a[0]) && ShortAddress(a[0]) == cab && a[0] != 0xFF && cab < 0x3F00)
            && (|a| == 2 ==> IsLong(a[0]))
            && (|a| == 2 ==> (a[0] != 0xFF && LongAddress(a[0], a[1]) == cab <==> cab < 0x3F00))
  {
  }

  lemma ShortHeader(d: Packet, beyond: bv8)
    requires 3 <= |d| <= 6 && XorAll(d) == 0 && IsShort(d[0]) && d[0] != 0xFF
    ensures HeaderOf(d, beyond) == Mobile(ShortAddress(d[0]), 1)
  {
    hide XorAll;
  }

  lemma LongHeader(d: Packet, beyond: bv8)
    requires 3 <= |d| <= 6 && XorAll(d) == 0 && IsLong(d[0])
    ensures HeaderOf(d, beyond) == if d[0] == 0xFF then Rejected else Mobile(LongAddress(d[0], d[1]), 2)
  {
    hide XorAll;
  }

  /** A loco's packets reach that loco exactly if its address is below 0x3F00: from there to 0x3FFF
      they are taken for idle packets, and above they reach another loco. */
  lemma HeaderInvertsAddress(cab: Cab, h: Cab, instr: Packet, beyond: bv8)
    requires h <= 127 && 1 <= |instr| <= 3
    ensures HeaderOf(LocoPacket(cab, h, instr), beyond) == Mobile(cab, |AddressBytes(cab, h)|) <==> cab < 0x3F00
  {
    var d, a := LocoPacket(cab, h, instr), AddressBytes(cab, h);
    AddressForm(cab, h);
    ChecksummedXorsToZero(a + instr);
    hide AddressBytes, XorAll, HeaderOf, IsShort, IsLong, ShortAddress, LongAddress;
    assert d[0] == a[0] && (|a| == 2 ==> d[1] == a[1]);
    if |a| == 1 {
      ShortHeader(d, beyond);
    } else {
      LongHeader(d, beyond);
    }
  }

  lemma BytesBehind(a: Packet, instr: Packet, x: bv8, beyond: bv8)
    requires 1 <= |instr| <= 2
    ensures var d := a + instr + [x];
            ByteAt(d, beyond, |a|) == instr[0] && ByteAt(d, beyond, |a| + 1) == if |instr| == 1 then x else instr[1]
  {
  }

  /** So the instruction bytes are parsed for the loco they were built for. */
  lemma InstructionArrives(slots: Slots, cab: Cab, h: Cab, instr: Packet, beyond: bv8)
    requires h <= 127 && 1 <= |instr| <= 2 && cab < 0x3F00
    ensures var x := if |instr| == 1 then XorAll(AddressBytes(cab, h) + instr) else instr[1];
            Decode(slots, LocoPacket(cab, h, instr), beyond) == DecodeMobile(slots, cab, instr[0], x)
  {
    hide HeaderOf, DecodeMobile, DecodeAccessory, XorAll, AddressBytes, ByteAt;
    HeaderInvertsAddress(cab, h, instr, beyond);
    var a := AddressBytes(cab, h);
    BytesBehind(a, instr, XorAll(a + instr), beyond);
  }

  // ---------------------------------------------------------------- speed

  /** A 128-step throttle packet: the loco's speed code is remembered exactly, nothing else changes,
      and a change is passed on as the same speed and direction. */
  lemma ThrottleArrives(slots: Slots, cab: Cab, code: bv8, h: Cab, beyond: bv8)
    requires h <= 127 && 0 < cab < 0x3F00
    ensures var p := Decode(slots, Checksummed(ThrottlePacket(cab, code, Steps128, h)), beyond);
            && p.slots == slots[Key(cab) := Get(slots, cab).(speedCode := code)]
            && p.changed == (Get(slots, cab).speedCode != code)
            && p.actions == if p.changed then [SetThrottle(cab, code & 0x7F, code & 0x80 != 0)] else []
  {
    InstructionArrives(slots, cab, h, SpeedBytes(code, Steps128), beyond);
    hide Decode, XorAll, AddressBytes;
  }

  /** Reading a 28-step byte and building it again gives the same byte. */
  lemma Speed28IsStable(code: bv8)
    ensures var i0 := SpeedBytes(code, Steps28)[0];
            && i0 & 0xC0 == 0x40
            && SpeedBytes(Speed128(i0) | (if i0 & 0x20 != 0 then 0x80 else 0), Steps28) == [i0]
            && (i0 & 0x20 != 0 <==> code & 0x80 != 0)
            && (code & 0x7F <= 1 <==> Speed128(i0) <= 1)
            && (code & 0x7F <= 1 ==> Speed128(i0) == code & 0x7F)
  {
  }

  /** A 28-step throttle packet: its six speed and direction bits are remembered as the speed code,
      nothing else changes, and exactly if that is a new code it is passed on, as a speed and direction
      that the encoder turns into the same packet; stop and emergency stop exactly. */
  lemma Throttle28Arrives(slots: Slots, cab: Cab, code: bv8, h: Cab, beyond: bv8)
    requires h <= 127 && 0 < cab < 0x3F00
    ensures var packet := ThrottlePacket(cab, code, Steps28, h);
            var p := Decode(slots, Checksummed(packet), beyond);
            var bits := CoarseBits(SpeedBytes(code, Steps28)[0]);
            && p.slots == slots[Key(cab) := Get(slots, cab).(speedCode := bits)]
            && (p.changed <==> Get(slots, cab).speedCode != bits)
            && |p.actions| == (if p.changed then 1 else 0)
            && forall a :: a in p.actions ==>
              && a.SetThrottle? && a.cab == cab && (a.forward <==> code & 0x80 != 0)
              && ThrottlePacket(cab, a.speed | (if a.forward then 0x80 else 0), Steps28, h) == packet
              && (code & 0x7F <= 1 ==> a.speed == code & 0x7F)
  {
    var i0 := SpeedBytes(code, Steps28)[0];
    assert SpeedBytes(code, Steps28) == [i0];
    hide Decode, XorAll, AddressBytes, Code28, SpeedBytes, Speed128, DecodeMobile, Then, LocoUpdated, InstructionOf, Forward, CoarseBits;
    InstructionArrives(slots, cab, h, [i0], beyond);
    Speed28IsStable(code);
    Is28(i0);
    CoarseDecoded(slots, cab, i0, XorAll(AddressBytes(cab, h) + [i0]));
    ForwardIs(i0);
  }

  /** A 28-step packet is lost if its bits happen to be the 128-step code remembered: after speed 5 in
      128 steps, speed 30 in 28 steps is not passed on. */
  lemma SpeedReportLost(beyond: bv8)
    ensures var first := Decode(map[], Checksummed(ThrottlePacket(3, 5, Steps128, 127)), beyond);
            var second := Decode(first.slots, Checksummed(ThrottlePacket(3, 30, Steps28, 127)), beyond);
            first.actions == [Action.SetThrottle(3, 5, false)] && second.actions == [] && !second.changed
  {
    ThrottleArrives(map[], 3, 5, 127, beyond);
    var first := Decode(map[], Checksummed(ThrottlePacket(3, 5, Steps128, 127)), beyond);
    Throttle28Arrives(first.slots, 3, 30, 127, beyond);
    assert CoarseBits(SpeedBytes(30, Steps28)[0]) == 5;
    hide Decode, ThrottlePacket, SpeedBytes, CoarseBits;
  }

  lemma ForwardIs(i0: bv8)
    ensures Forward(i0, 0x20) <==> i0 & 0x20 != 0
  {
  }

  lemma CoarseDecoded(slots: Slots, cab: Cab, i0: bv8, i1: bv8)
    requires cab != 0 && InstructionOf(i0) == CoarseSpeed
    ensures var p, a := DecodeMobile(slots, cab, i0, i1), Action.SetThrottle(cab, Speed128(i0), Forward(i0, 0x20));
            && p.slots == slots[Key(cab) := Get(slots, cab).(speedCode := CoarseBits(i0))]
            && (p.changed <==> Get(slots, cab).speedCode != CoarseBits(i0))
            && p.actions == (if p.changed then [a] else [])
  {
    hide Speed128, Forward, InstructionOf, CoarseBits;
  }

  lemma Is28(i0: bv8)
    requires i0 & 0xC0 == 0x40
    ensures InstructionOf(i0) == CoarseSpeed
  {
  }

  // ---------------------------------------------------------------- functions

  /** The bits of the function map that a group carries. */
  function GroupMask(g: Group): bv32 {
    match g
    case G1 => 0x0000001F
    case G2 => 0x000001E0
    case G3 => 0x00001E00
    case G4 => 0x001FE000
    case G5 => 0x1FE00000
  }

  /** `after` where the mask is set, `before` elsewhere. */
  function Merge(before: bv32, after: bv32, mask: bv32): bv32 {
    (before & !mask) | (after & mask)
  }

  // The bit arithmetic behind the five groups, on plain words.

  lemma Bits1(before: bv32, f: bv32, v: bv8)
    requires v == (128 | ((f >> 1) & 0x0F) | ((f & 0x01) << 4)) as bv8
    ensures (((before & !1) | (((v & 0x10) >> 4) as bv32)) & !(0xF << 1)) | (((v & 0x0F) as bv32) << 1)
         == (before & !0x1F) | (f & 0x1F)
  {
  }

  lemma Bits2(before: bv32, f: bv32, v: bv8)
    requires v == (176 | ((f >> 5) & 0x0F)) as bv8
    ensures (before & !(0xF << 5)) | (((v & 0x0F) as bv32) << 5) == (before & !0x1E0) | (f & 0x1E0)
  {
  }

  lemma Bits3(before: bv32, f: bv32, v: bv8)
    requires v == (160 | ((f >> 9) & 0x0F)) as bv8
    ensures (before & !(0xF << 9)) | (((v & 0x0F) as bv32) << 9) == (before & !0x1E00) | (f & 0x1E00)
  {
  }

  lemma Bits4(before: bv32, f: bv32, v: bv8)
    requires v == ((f >> 13) & 0xFF) as bv8
    ensures (((before & !(0xF << 13)) | (((v & 0x0F) as bv32) << 13)) & !(0xF << 17)) | ((((v >> 4) & 0x0F) as bv32) << 17)
         == (before & !0x001FE000) | (f & 0x001FE000)
  {
  }

  lemma Bits5(before: bv32, f: bv32, v: bv8)
    requires v == ((f >> 21) & 0xFF) as bv8
    ensures (((before & !(0xF << 21)) | (((v & 0x0F) as bv32) << 21)) & !(0xF << 25)) | ((((v >> 4) & 0x0F) as bv32) << 25)
         == (before & !0x1FE00000) | (f & 0x1FE00000)
  {
  }

  lemma BitsMerge(a: bv32, b: bv32, m: bv32, n: bv32)
    ensures (((a & !m) | (b & m)) & !n) | (b & n) == (a & !(m | n)) | (b & (m | n))
    ensures (a & !0) | (b & 0) == a
  {
  }

  lemma BitsAll(a: bv32, f: bv32, m: bv32)
    requires m & 0x1F == 0x1F && m & 0x1E0 == 0x1E0 && m & 0x1E00 == 0x1E00
    requires m & 0x1FE000 == 0x1FE000 && m & 0x1FE00000 == 0x1FE00000
    ensures ((a & !m) | (f & m)) & 0x1FFFFFFF == f & 0x1FFFFFFF
  {
  }

  lemma BitsKept(a: bv32, b: bv32, m: bv32)
    requires a & m == m
    ensures (a | b) & m == m
  {
  }

  lemma BitsOwn(a: bv32, m: bv32)
    ensures (a | m) & m == m
  {
  }

  /** The nibbles of a group packet, put back, are the functions of that group. */
  function Rebuilt(before: bv32, g: Group, bytes: Packet): bv32
    requires |bytes| == 2 || (|bytes| == 1 && g != G4 && g != G5)
  {
    match g
    case G1 => WithNibble(before, bytes[0], 1)
    case G2 => WithNibble(before, bytes[0], 5)
    case G3 => WithNibble(before, bytes[0], 9)
    case G4 => WithNibble(WithNibble(before, bytes[1], 13), HighNibble(bytes[1]), 17)
    case G5 => WithNibble(WithNibble(before, bytes[1], 21), HighNibble(bytes[1]), 25)
  }

  lemma Rebuilt1(before: bv32, f: bv32)
    ensures Rebuilt(before, G1, GroupBytes(G1, f)) == Merge(before, f, 0x1F)
  {
    Bits1(before, f, GroupBytes(G1, f)[0]);
  }

  lemma Rebuilt2(before: bv32, f: bv32)
    ensures Rebuilt(before, G2, GroupBytes(G2, f)) == Merge(before, f, 0x1E0)
  {
    Bits2(before, f, GroupBytes(G2, f)[0]);
  }

  lemma Rebuilt3(before: bv32, f: bv32)
    ensures Rebuilt(before, G3, GroupBytes(G3, f)) == Merge(before, f, 0x1E00)
  {
    Bits3(before, f, GroupBytes(G3, f)[0]);
  }

  lemma Rebuilt4(before: bv32, f: bv32)
    ensures Rebuilt(before, G4, GroupBytes(G4, f)) == Merge(before, f, 0x1FE000)
  {
    Bits4(before, f, GroupBytes(G4, f)[1]);
  }

  lemma Rebuilt5(before: bv32, f: bv32)
    ensures Rebuilt(before, G5, GroupBytes(G5, f)) == Merge(before, f, 0x1FE00000)
  {
    Bits5(before, f, GroupBytes(G5, f)[1]);
  }

  lemma GroupRebuilt(before: bv32, g: Group, f: bv32)
    ensures Rebuilt(before, g, GroupBytes(g, f)) == Merge(before, f, GroupMask(g))
  {
    hide Rebuilt, Merge, GroupBytes;
    match g {
      case G1 => Rebuilt1(before, f);
      case G2 => Rebuilt2(before, f);
      case G3 => Rebuilt3(before, f);
      case G4 => Rebuilt4(before, f);
      case G5 => Rebuilt5(before, f);
    }
  }

  lemma GroupCodes(g: Group, f: bv32)
    ensures InstructionOf(GroupBytes(g, f)[0]) == Functions(g)
    ensures |GroupBytes(g, f)| == if g == G4 || g == G5 then 2 else 1
  {
  }

  /** The instruction bytes of a group set the functions they carry. */
  lemma GroupDecoded(slots: Slots, cab: Cab, g: Group, i0: bv8, i1: bv8)
    requires cab != 0 && InstructionOf(i0) == Functions(g)
    ensures var now := Get(slots, cab);
            DecodeMobile(slots, cab, i0, i1).slots
              == slots[Key(cab) := now.(functions := Rebuilt(now.functions, g, [i0, i1]))]
  {
    hide WithNibble, LocoUpdated, FuncUpdated, Then, TwoNibbles, InstructionOf, Normalized, HighNibble, SpeedOf, Forward, Speed128;
    match g {
      case G1 => NibbleSet(slots, cab, i0, 1, FuncMap(cab, Normalized(i0), 0, 4));
      case G2 => NibbleSet(slots, cab, i0, 5, FuncMap(cab, i0, 5, 8));
      case G3 => NibbleSet(slots, cab, i0, 9, FuncMap(cab, i0, 9, 12));
      case G4 => NibblesSet(slots, cab, i1, 13);
      case G5 => NibblesSet(slots, cab, i1, 21);
    }
  }

  lemma NibbleSet(slots: Slots, cab: Cab, func: bv8, shift: nat, a: Action)
    requires shift <= 25
    ensures var now := Get(slots, cab);
            Then(FuncUpdated(slots, cab, func, shift), a).slots == slots[Key(cab) := now.(functions := WithNibble(now.functions, func, shift))]
  {
    hide WithNibble;
  }

  lemma NibblesSet(slots: Slots, cab: Cab, value: bv8, low: nat)
    requires low <= 21
    ensures var now := Get(slots, cab);
            TwoNibbles(slots, cab, value, low).slots
              == slots[Key(cab) := now.(functions := WithNibble(WithNibble(now.functions, value, low), HighNibble(value), low + 4))]
  {
    hide WithNibble, HighNibble, Then, FuncUpdated;
    NibbleSet(slots, cab, value, low, FuncMap(cab, value, low, low + 3));
    var p := Then(FuncUpdated(slots, cab, value, low), FuncMap(cab, value, low, low + 3));
    NibbleSet(p.slots, cab, HighNibble(value), low + 4, FuncMap(cab, HighNibble(value), low + 4, low + 7));
  }

  /** A group packet sets exactly its own functions of that loco. */
  lemma GroupArrives(slots: Slots, cab: Cab, g: Group, f: bv32, h: Cab, beyond: bv8)
    requires h <= 127 && 0 < cab < 0x3F00
    ensures var now := Get(slots, cab);
            Decode(slots, Checksummed(FunctionPacket(cab, g, f, h)), beyond).slots
              == slots[Key(cab) := now.(functions := Merge(now.functions, f, GroupMask(g)))]
  {
    var now, bytes := Get(slots, cab).functions, GroupBytes(g, f);
    hide Decode, DecodeMobile, InstructionOf, XorAll, AddressBytes, GroupBytes, WithNibble, Merge, GroupMask;
    InstructionArrives(slots, cab, h, bytes, beyond);
    var i1 := if |bytes| == 1 then XorAll(AddressBytes(cab, h) + bytes) else bytes[1];
    GroupRebuilt(now, g, f);
    GroupCodes(g, f);
    GroupDecoded(slots, cab, g, bytes[0], i1);
    assert Rebuilt(now, g, [bytes[0], i1]) == Rebuilt(now, g, bytes);
  }

  /** A report of functions low to high tells what they are in f. */
  predicate Tells(a: Action, cab: Cab, f: bv32) {
    && a.FuncMap? && a.cab == cab && a.low <= 25
    && ((a.low == 0 && a.high == 4) || (a.low > 0 && a.high == a.low + 3))
    && TellsBits(a.value, a.low, if a.low == 0 then 0x1F else 0x0F, f)
  }

  predicate TellsBits(value: bv8, low: nat, span: bv32, f: bv32)
    requires low <= 25
  {
    (value as bv32) & span == (f >> low) & span
  }

  lemma BitsTold1(f: bv32, v: bv8, w: bv8)
    requires v == (128 | ((f >> 1) & 0x0F) | ((f & 0x01) << 4)) as bv8 && w == ((v << 1) & 0x1E) | ((v >> 4) & 0x01)
    ensures (w as bv32) & 0x1F == (f >> 0) & 0x1F
  {
  }

  lemma BitsToldLow(f: bv32, v: bv8, w: bv8, x: bv8, y: bv8)
    requires v == (176 | ((f >> 5) & 0x0F)) as bv8 && w == (160 | ((f >> 9) & 0x0F)) as bv8
    requires x == ((f >> 13) & 0xFF) as bv8 && y == ((f >> 21) & 0xFF) as bv8
    ensures (v as bv32) & 0x0F == (f >> 5) & 0x0F && (w as bv32) & 0x0F == (f >> 9) & 0x0F
    ensures (x as bv32) & 0x0F == (f >> 13) & 0x0F && (y as bv32) & 0x0F == (f >> 21) & 0x0F
  {
  }

  lemma BitsToldHigh(f: bv32, x: bv8, y: bv8)
    requires x == ((f >> 13) & 0xFF) as bv8 && y == ((f >> 21) & 0xFF) as bv8
    ensures ((x >> 4) as bv32) & 0x0F == (f >> 17) & 0x0F && ((y >> 4) as bv32) & 0x0F == (f >> 25) & 0x0F
  {
  }

  lemma ToldOf(g: Group, f: bv32)
    ensures g == G1 ==> TellsBits(Normalized(GroupBytes(G1, f)[0]), 0, 0x1F, f)
    ensures g == G2 ==> TellsBits(GroupBytes(G2, f)[0], 5, 0x0F, f)
    ensures g == G3 ==> TellsBits(GroupBytes(G3, f)[0], 9, 0x0F, f)
    ensures g == G4 ==> TellsBits(GroupBytes(G4, f)[1], 13, 0x0F, f) && TellsBits(HighNibble(GroupBytes(G4, f)[1]), 17, 0x0F, f)
    ensures g == G5 ==> TellsBits(GroupBytes(G5, f)[1], 21, 0x0F, f) && TellsBits(HighNibble(GroupBytes(G5, f)[1]), 25, 0x0F, f)
  {
    match g {
      case G1 => BitsTold1(f, GroupBytes(G1, f)[0], Normalized(GroupBytes(G1, f)[0]));
      case G2 => BitsToldLow(f, GroupBytes(G2, f)[0], GroupBytes(G3, f)[0], GroupBytes(G4, f)[1], GroupBytes(G5, f)[1]);
      case G3 => BitsToldLow(f, GroupBytes(G2, f)[0], GroupBytes(G3, f)[0], GroupBytes(G4, f)[1], GroupBytes(G5, f)[1]);
      case G4 =>
        BitsToldLow(f, GroupBytes(G2, f)[0], GroupBytes(G3, f)[0], GroupBytes(G4, f)[1], GroupBytes(G5, f)[1]);
        BitsToldHigh(f, GroupBytes(G4, f)[1], GroupBytes(G5, f)[1]);
      case G5 =>
        BitsToldLow(f, GroupBytes(G2, f)[0], GroupBytes(G3, f)[0], GroupBytes(G4, f)[1], GroupBytes(G5, f)[1]);
        BitsToldHigh(f, GroupBytes(G4, f)[1], GroupBytes(G5, f)[1]);
    }
  }

  // Which ranges are reported.

  /** The ranges of functions that a group is reported in, by their lowest function. */
  function Ranges(g: Group): seq<nat> {
    match g
    case G1 => [0]
    case G2 => [5]
    case G3 => [9]
    case G4 => [13, 17]
    case G5 => [21, 25]
  }

  function RangeMask(low: nat): bv32 {
    if low == 0 then 0x1F else if low == 5 then 0x1E0 else if low == 9 then 0x1E00
    else if low == 13 then 0x1E000 else if low == 17 then 0x1E0000 else if low == 21 then 0x1E00000 else 0x1E000000
  }

  function Masked(functions: bv32, mask: bv32): bv32 {
    functions & mask
  }

  /** Some function of the range is not as it was. */
  predicate Differs(before: bv32, f: bv32, low: nat) {
    Masked(before, RangeMask(low)) != Masked(f, RangeMask(low))
  }

  function Differing(lows: seq<nat>, before: bv32, f: bv32): seq<nat> {
    if lows == [] then []
    else (if Differs(before, f, lows[0]) then [lows[0]] else []) + Differing(lows[1..], before, f)
  }

  /** The ranges reported, by their lowest function. */
  function Reported(actions: seq<Action>): seq<nat> {
    if actions == [] then []
    else (if actions[0].FuncMap? then [actions[0].low] else []) + Reported(actions[1..])
  }

  lemma BitsKeep(a: bv32, b: bv32, m: bv32)
    requires a & m == b & m
    ensures (a & !m) | (b & m) == a
  {
    assert a == (a & !m) | (a & m);
  }

  lemma BitsTaken(a: bv32, b: bv32, m: bv32)
    ensures ((a & !m) | (b & m)) & m == b & m
  {
  }

  lemma MergedRange(a: bv32, b: bv32, m: bv32)
    ensures Masked(Merge(a, b, m), m) == Masked(b, m)
    ensures Masked(a, m) == Masked(b, m) ==> Merge(a, b, m) == a
  {
    BitsTaken(a, b, m);
    if Masked(a, m) == Masked(b, m) {
      BitsKeep(a, b, m);
    }
  }

  lemma DiffersIs(before: bv32, f: bv32, low: nat)
    ensures Differs(before, f, low) <==> Merge(before, f, RangeMask(low)) != before
  {
    hide RangeMask, Masked, Merge;
    MergedRange(before, f, RangeMask(low));
  }

  lemma Bits13(before: bv32, f: bv32, v: bv8)
    requires v == ((f >> 13) & 0xFF) as bv8
    ensures (before & !(0xF << 13)) | (((v & 0x0F) as bv32) << 13) == (before & !0x1E000) | (f & 0x1E000)
  {
  }

  lemma Bits17(before: bv32, f: bv32, v: bv8)
    requires v == ((f >> 13) & 0xFF) as bv8
    ensures (before & !(0xF << 17)) | ((((v >> 4) & 0x0F) as bv32) << 17) == (before & !0x1E0000) | (f & 0x1E0000)
  {
  }

  lemma Bits21(before: bv32, f: bv32, v: bv8)
    requires v == ((f >> 21) & 0xFF) as bv8
    ensures (before & !(0xF << 21)) | (((v & 0x0F) as bv32) << 21) == (before & !0x1E00000) | (f & 0x1E00000)
  {
  }

  lemma Bits25(before: bv32, f: bv32, v: bv8)
    requires v == ((f >> 21) & 0xFF) as bv8
    ensures (before & !(0xF << 25)) | ((((v >> 4) & 0x0F) as bv32) << 25) == (before & !0x1E000000) | (f & 0x1E000000)
  {
  }

  lemma BitsApart(a: bv32, b: bv32)
    ensures ((a & !0x1E000) | (b & 0x1E000)) & 0x1E0000 == a & 0x1E0000
    ensures ((a & !0x1E00000) | (b & 0x1E00000)) & 0x1E000000 == a & 0x1E000000
  {
  }

  /** A nibble written as the loco's functions are. */
  predicate Writes(before: bv32, func: bv8, shift: nat, f: bv32, low: nat)
    requires shift <= 25
  {
    WithNibble(before, func, shift) == Merge(before, f, RangeMask(low))
  }

  lemma NibbleReported(slots: Slots, cab: Cab, func: bv8, shift: nat, a: Action, f: bv32, low: nat)
    requires shift <= 25 && Writes(Get(slots, cab).functions, func, shift, f, low)
    ensures var now, p := Get(slots, cab).functions, Then(FuncUpdated(slots, cab, func, shift), a);
            && p.changed == Differs(now, f, low) && p.actions == (if Differs(now, f, low) then [a] else [])
            && Get(p.slots, cab).functions == Merge(now, f, RangeMask(low))
  {
    DiffersIs(Get(slots, cab).functions, f, low);
    hide WithNibble, RangeMask, Differs, Merge;
  }

  lemma Writes13(before: bv32, f: bv32)
    ensures Writes(before, GroupBytes(G4, f)[1], 13, f, 13)
  {
    Bits13(before, f, GroupBytes(G4, f)[1]);
  }

  lemma Writes17(before: bv32, f: bv32)
    ensures Writes(before, HighNibble(GroupBytes(G4, f)[1]), 17, f, 17)
  {
    Bits17(before, f, GroupBytes(G4, f)[1]);
  }

  lemma Writes21(before: bv32, f: bv32)
    ensures Writes(before, GroupBytes(G5, f)[1], 21, f, 21)
  {
    Bits21(before, f, GroupBytes(G5, f)[1]);
  }

  lemma Writes25(before: bv32, f: bv32)
    ensures Writes(before, HighNibble(GroupBytes(G5, f)[1]), 25, f, 25)
  {
    Bits25(before, f, GroupBytes(G5, f)[1]);
  }

  lemma RangesApart(before: bv32, f: bv32)
    ensures Differs(Merge(before, f, RangeMask(13)), f, 17) == Differs(before, f, 17)
    ensures Differs(Merge(before, f, RangeMask(21)), f, 25) == Differs(before, f, 25)
  {
    BitsApart(before, f);
  }

  lemma TwoReported(slots: Slots, cab: Cab, value: bv8, low: nat, f: bv32)
    requires low <= 21 && Writes(Get(slots, cab).functions, value, low, f, low)
    requires var mid := Merge(Get(slots, cab).functions, f, RangeMask(low));
             Writes(mid, HighNibble(value), low + 4, f, low + 4) && Differs(mid, f, low + 4) == Differs(Get(slots, cab).functions, f, low + 4)
    ensures var now, p := Get(slots, cab).functions, TwoNibbles(slots, cab, value, low);
            && p.changed == Differs(now, f, low + 4)
            && p.actions == (if Differs(now, f, low) then [FuncMap(cab, value, low, low + 3)] else [])
                 + (if Differs(now, f, low + 4) then [FuncMap(cab, HighNibble(value), low + 4, low + 7)] else [])
  {
    hide WithNibble, HighNibble, Then, FuncUpdated, Writes, Differs, Merge, RangeMask;
    NibbleReported(slots, cab, value, low, FuncMap(cab, value, low, low + 3), f, low);
    var p := Then(FuncUpdated(slots, cab, value, low), FuncMap(cab, value, low, low + 3));
    NibbleReported(p.slots, cab, HighNibble(value), low + 4, FuncMap(cab, HighNibble(value), low + 4, low + 7), f, low + 4);
  }

  /** The value that a range of a group is reported with. */
  function RangeValue(g: Group, i0: bv8, i1: bv8, low: nat): bv8 {
    match g
    case G1 => Normalized(i0)
    case G2 => i0
    case G3 => i0
    case G4 => if low == 13 then i1 else HighNibble(i1)
    case G5 => if low == 21 then i1 else HighNibble(i1)
  }

  function RangeAction(cab: Cab, g: Group, i0: bv8, i1: bv8, low: nat): Action {
    FuncMap(cab, RangeValue(g, i0, i1, low), low, if low == 0 then 4 else low + 3)
  }

  function RangeActions(cab: Cab, g: Group, i0: bv8, i1: bv8, lows: seq<nat>): (r: seq<Action>)
    ensures |r| == |lows| && forall i :: 0 <= i < |lows| ==> r[i] == RangeAction(cab, g, i0, i1, lows[i])
  {
    seq(|lows|, i requires 0 <= i < |lows| => RangeAction(cab, g, i0, i1, lows[i]))
  }

  /** The actions are the reports of the ranges that differ, and the last range decides the result. */
  predicate ReportsGroup(p: Parsed, cab: Cab, g: Group, i0: bv8, i1: bv8, now: bv32, f: bv32) {
    var lows := Ranges(g);
    && p.actions == RangeActions(cab, g, i0, i1, Differing(lows, now, f))
    && p.changed == Differs(now, f, lows[|lows| - 1])
  }

  /** Where the first range of a group is written. */
  function ShiftOf(g: Group): (shift: nat)
    ensures shift <= 21
  {
    if g == G1 then 1 else Ranges(g)[0]
  }

  lemma OneReported(slots: Slots, cab: Cab, g: Group, i0: bv8, i1: bv8, f: bv32)
    requires cab != 0 && InstructionOf(i0) == Functions(g) && [i0] == GroupBytes(g, f) && g != G4 && g != G5
    ensures ReportsGroup(DecodeMobile(slots, cab, i0, i1), cab, g, i0, i1, Get(slots, cab).functions, f)
  {
    hide *;
    var now := Get(slots, cab).functions;
    OneDecoded(slots, cab, g, i0, i1);
    OneWrites(now, g, f);
    RangesAre(g);
    var low := Ranges(g)[0];
    NibbleReported(slots, cab, i0, ShiftOf(g), RangeAction(cab, g, i0, i1, low), f, low);
    ReportsOne(DecodeMobile(slots, cab, i0, i1), cab, g, i0, i1, now, f);
  }

  lemma RangesAre(g: Group)
    ensures Ranges(g) == if g == G4 || g == G5 then [ShiftOf(g), ShiftOf(g) + 4] else [Ranges(g)[0]]
  {
  }

  lemma OneDecoded(slots: Slots, cab: Cab, g: Group, i0: bv8, i1: bv8)
    requires cab != 0 && InstructionOf(i0) == Functions(g) && g != G4 && g != G5
    ensures |Ranges(g)| > 0
    ensures DecodeMobile(slots, cab, i0, i1)
         == Then(FuncUpdated(slots, cab, i0, ShiftOf(g)), RangeAction(cab, g, i0, i1, Ranges(g)[0]))
  {
    hide InstructionOf, Then, FuncUpdated, Normalized;
  }

  lemma ReportsOne(p: Parsed, cab: Cab, g: Group, i0: bv8, i1: bv8, now: bv32, f: bv32)
    requires g != G4 && g != G5 && |Ranges(g)| > 0
    requires var low := Ranges(g)[0];
             && p.changed == Differs(now, f, low)
             && p.actions == if Differs(now, f, low) then [RangeAction(cab, g, i0, i1, low)] else []
    ensures ReportsGroup(p, cab, g, i0, i1, now, f)
  {
    hide Differs, Differing, RangeAction;
    DifferingOne(Ranges(g)[0], now, f);
  }

  lemma OneWrites(before: bv32, g: Group, f: bv32)
    requires g != G4 && g != G5
    ensures |Ranges(g)| > 0 && Writes(before, GroupBytes(g, f)[0], ShiftOf(g), f, Ranges(g)[0])
  {
    hide WithNibble, GroupBytes, Merge;
    match g {
      case G1 => Rebuilt1(before, f);
      case G2 => Rebuilt2(before, f);
      case G3 => Rebuilt3(before, f);
    }
  }

  lemma DifferingOne(low: nat, now: bv32, f: bv32)
    ensures Differing([low], now, f) == if Differs(now, f, low) then [low] else []
  {
    assert [low][1..] == [];
  }

  lemma DifferingTwo(low: nat, high: nat, now: bv32, f: bv32)
    ensures Differing([low, high], now, f) == (if Differs(now, f, low) then [low] else []) + (if Differs(now, f, high) then [high] else [])
  {
    assert [low, high][1..] == [high];
    DifferingOne(high, now, f);
  }

  lemma BothWrite(before: bv32, g: Group, f: bv32)
    requires g == G4 || g == G5
    ensures |GroupBytes(g, f)| == 2
    ensures var low, v := ShiftOf(g), GroupBytes(g, f)[1];
            var mid := Merge(before, f, RangeMask(low));
            && Writes(before, v, low, f, low) && Writes(mid, HighNibble(v), low + 4, f, low + 4)
            && Differs(mid, f, low + 4) == Differs(before, f, low + 4)
  {
    GroupCodes(g, f);
    hide WithNibble, Merge, Differs, RangeMask, HighNibble, Writes, GroupBytes, InstructionOf;
    RangesApart(before, f);
    if g == G4 {
      Writes13(before, f);
      Writes17(Merge(before, f, RangeMask(13)), f);
    } else {
      Writes21(before, f);
      Writes25(Merge(before, f, RangeMask(21)), f);
    }
  }

  lemma BothReported(slots: Slots, cab: Cab, g: Group, i0: bv8, i1: bv8, f: bv32)
    requires cab != 0 && InstructionOf(i0) == Functions(g) && [i0, i1] == GroupBytes(g, f) && (g == G4 || g == G5)
    ensures ReportsGroup(DecodeMobile(slots, cab, i0, i1), cab, g, i0, i1, Get(slots, cab).functions, f)
  {
    hide *;
    var now := Get(slots, cab).functions;
    BothDecoded(slots, cab, g, i0, i1);
    BothWrite(now, g, f);
    TwoReported(slots, cab, i1, ShiftOf(g), f);
    ReportsTwo(DecodeMobile(slots, cab, i0, i1), cab, g, i0, i1, now, f);
  }

  lemma ReportsTwo(p: Parsed, cab: Cab, g: Group, i0: bv8, i1: bv8, now: bv32, f: bv32)
    requires g == G4 || g == G5
    requires var low := ShiftOf(g);
             && p.changed == Differs(now, f, low + 4)
             && p.actions == (if Differs(now, f, low) then [FuncMap(cab, i1, low, low + 3)] else [])
                  + (if Differs(now, f, low + 4) then [FuncMap(cab, HighNibble(i1), low + 4, low + 7)] else [])
    ensures ReportsGroup(p, cab, g, i0, i1, now, f)
  {
    var low := ShiftOf(g);
    RangesAre(g);
    hide Differs, Differing, RangeActions, RangeAction, HighNibble, Ranges, ShiftOf;
    DifferingTwo(low, low + 4, now, f);
    BothActions(cab, g, i0, i1, Differs(now, f, low), Differs(now, f, low + 4));
  }

  lemma BothDecoded(slots: Slots, cab: Cab, g: Group, i0: bv8, i1: bv8)
    requires cab != 0 && InstructionOf(i0) == Functions(g) && (g == G4 || g == G5)
    ensures DecodeMobile(slots, cab, i0, i1) == TwoNibbles(slots, cab, i1, ShiftOf(g))
  {
    hide TwoNibbles, InstructionOf;
  }

  lemma BothActions(cab: Cab, g: Group, i0: bv8, i1: bv8, x: bool, y: bool)
    requires g == G4 || g == G5
    ensures var low := ShiftOf(g);
            RangeActions(cab, g, i0, i1, (if x then [low] else []) + (if y then [low + 4] else []))
            == (if x then [FuncMap(cab, i1, low, low + 3)] else []) + (if y then [FuncMap(cab, HighNibble(i1), low + 4, low + 7)] else [])
  {
    hide HighNibble;
  }

  lemma {:induction false} ReportedRanges(cab: Cab, g: Group, i0: bv8, i1: bv8, lows: seq<nat>)
    ensures Reported(RangeActions(cab, g, i0, i1, lows)) == lows
  {
    if lows != [] {
      var r := RangeActions(cab, g, i0, i1, lows);
      assert r[1..] == RangeActions(cab, g, i0, i1, lows[1..]);
      ReportedRanges(cab, g, i0, i1, lows[1..]);
      hide RangeAction;
      assert r[0] == RangeAction(cab, g, i0, i1, lows[0]);
      ActionLow(cab, g, i0, i1, lows[0]);
    }
  }

  lemma ActionLow(cab: Cab, g: Group, i0: bv8, i1: bv8, low: nat)
    ensures RangeAction(cab, g, i0, i1, low).FuncMap? && RangeAction(cab, g, i0, i1, low).low == low
  {
  }

  lemma DifferingIn(lows: seq<nat>, now: bv32, f: bv32)
    ensures forall low :: low in Differing(lows, now, f) ==> low in lows
  {
    hide Differs;
  }

  lemma RangeTells(cab: Cab, g: Group, i0: bv8, i1: bv8, f: bv32, low: nat)
    requires low in Ranges(g) && (if g == G4 || g == G5 then GroupBytes(g, f) == [i0, i1] else GroupBytes(g, f) == [i0])
    ensures Tells(RangeAction(cab, g, i0, i1, low), cab, f)
  {
    ToldOf(g, f);
    hide TellsBits, GroupBytes, Normalized, HighNibble;
  }

  ghost predicate ReportedWell(p: Parsed, cab: Cab, g: Group, now: bv32, f: bv32) {
    && Reported(p.actions) == Differing(Ranges(g), now, f)
    && (forall a :: a in p.actions ==> Tells(a, cab, f))
    && p.changed == Differs(now, f, Ranges(g)[|Ranges(g)| - 1])
  }

  lemma ReportsAreWell(p: Parsed, cab: Cab, g: Group, i0: bv8, i1: bv8, now: bv32, f: bv32)
    requires ReportsGroup(p, cab, g, i0, i1, now, f)
    requires if g == G4 || g == G5 then GroupBytes(g, f) == [i0, i1] else GroupBytes(g, f) == [i0]
    ensures ReportedWell(p, cab, g, now, f)
  {
    var lows := Differing(Ranges(g), now, f);
    ReportedRanges(cab, g, i0, i1, lows);
    DifferingIn(Ranges(g), now, f);
    hide Differing, Differs, Tells, Reported, GroupBytes, RangeAction;
    forall low | low in lows ensures Tells(RangeAction(cab, g, i0, i1, low), cab, f) {
      RangeTells(cab, g, i0, i1, f, low);
    }
  }

  lemma MobileReported(slots: Slots, cab: Cab, g: Group, f: bv32, i1: bv8)
    requires cab != 0 && (g == G4 || g == G5 ==> i1 == GroupBytes(g, f)[1])
    ensures ReportedWell(DecodeMobile(slots, cab, GroupBytes(g, f)[0], i1), cab, g, Get(slots, cab).functions, f)
  {
    hide DecodeMobile, InstructionOf, GroupBytes, ReportsGroup, ReportedWell;
    var i0 := GroupBytes(g, f)[0];
    GroupCodes(g, f);
    if g == G4 || g == G5 {
      assert GroupBytes(g, f) == [i0, i1];
      BothReported(slots, cab, g, i0, i1, f);
    } else {
      assert GroupBytes(g, f) == [i0];
      OneReported(slots, cab, g, i0, i1, f);
    }
    ReportsAreWell(DecodeMobile(slots, cab, i0, i1), cab, g, i0, i1, Get(slots, cab).functions, f);
  }

  /** A group packet is passed on as reports of exactly those of its ranges in which a function is not as
      it was remembered, in order, and each tells the functions as they are; and the sniffer says that
      something changed exactly if the last range did. */
  lemma GroupReported(slots: Slots, cab: Cab, g: Group, f: bv32, h: Cab, beyond: bv8)
    requires h <= 127 && 0 < cab < 0x3F00
    ensures var now := Get(slots, cab).functions;
            var p := Decode(slots, Checksummed(FunctionPacket(cab, g, f, h)), beyond);
            && Reported(p.actions) == Differing(Ranges(g), now, f)
            && (forall a :: a in p.actions ==> Tells(a, cab, f))
            && p.changed == Differs(now, f, Ranges(g)[|Ranges(g)| - 1])
  {
    var bytes := GroupBytes(g, f);
    hide Decode, DecodeMobile, XorAll, AddressBytes, GroupBytes, Reported, Differing, Tells, Differs;
    InstructionArrives(slots, cab, h, bytes, beyond);
    var i1 := if |bytes| == 1 then XorAll(AddressBytes(cab, h) + bytes) else bytes[1];
    GroupCodes(g, f);
    MobileReported(slots, cab, g, f, i1);
  }

  function Union(a: bv32, b: bv32): bv32 {
    a | b
  }

  function MaskOf(groups: seq<Group>): bv32 {
    if groups == [] then 0 else Union(MaskOf(groups[..|groups| - 1]), GroupMask(groups[|groups| - 1]))
  }

  /** The sniffer's memory after a loco's group packets, in any order and number. */
  function AfterGroups(slots: Slots, cab: Cab, groups: seq<Group>, f: bv32, h: Cab, beyond: bv8): Slots {
    if groups == [] then slots
    else
      var last := |groups| - 1;
      Decode(AfterGroups(slots, cab, groups[..last], f, h, beyond), Checksummed(FunctionPacket(cab, groups[last], f, h)), beyond).slots
  }

  lemma MergeMerge(a: bv32, b: bv32, m: bv32, n: bv32)
    ensures Merge(Merge(a, b, m), b, n) == Merge(a, b, Union(m, n))
    ensures Merge(a, b, 0) == a
  {
    BitsMerge(a, b, m, n);
  }

  /** The function map after any sequence of group packets: theirs where one of them was for that
      function, as before elsewhere. */
  lemma {:induction false} GroupsRebuild(slots: Slots, cab: Cab, groups: seq<Group>, f: bv32, h: Cab, beyond: bv8)
    requires h <= 127 && 0 < cab < 0x3F00
    ensures var now, after := Get(slots, cab), AfterGroups(slots, cab, groups, f, h, beyond);
            && Get(after, cab) == now.(functions := Merge(now.functions, f, MaskOf(groups)))
            && forall other :: other != cab ==> Get(after, other) == Get(slots, other)
  {
    hide Decode, Merge, GroupMask, Union;
    var now := Get(slots, cab).functions;
    if groups == [] {
      MergeMerge(now, f, 0, 0);
    } else {
      var last := |groups| - 1;
      GroupsRebuild(slots, cab, groups[..last], f, h, beyond);
      var mid := AfterGroups(slots, cab, groups[..last], f, h, beyond);
      GroupArrives(mid, cab, groups[last], f, h, beyond);
      assert AfterGroups(slots, cab, groups, f, h, beyond)
          == Decode(mid, Checksummed(FunctionPacket(cab, groups[last], f, h)), beyond).slots;
      MergeMerge(now, f, MaskOf(groups[..last]), GroupMask(groups[last]));
    }
  }

  predicate Has(mask: bv32, g: Group) {
    mask & GroupMask(g) == GroupMask(g)
  }

  lemma HasUnion(a: bv32, b: Group, g: Group)
    requires Has(a, g)
    ensures Has(Union(a, GroupMask(b)), g)
  {
    BitsKept(a, GroupMask(b), GroupMask(g));
  }

  lemma HasOwn(a: bv32, g: Group)
    ensures Has(Union(a, GroupMask(g)), g)
  {
    BitsOwn(a, GroupMask(g));
  }

  lemma MaskHas(groups: seq<Group>, g: Group)
    requires g in groups
    ensures Has(MaskOf(groups), g)
  {
    hide Has, GroupMask, Union;
    var last := |groups| - 1;
    if groups[last] == g {
      HasOwn(MaskOf(groups[..last]), g);
    } else {
      MaskHas(groups[..last], g);
      HasUnion(MaskOf(groups[..last]), groups[last], g);
    }
  }

  /** F0 to F28. */
  function Real(functions: bv32): bv32 {
    functions & 0x1FFFFFFF
  }

  lemma MergeAll(a: bv32, f: bv32, m: bv32)
    requires Has(m, G1) && Has(m, G2) && Has(m, G3) && Has(m, G4) && Has(m, G5)
    ensures Real(Merge(a, f, m)) == Real(f)
  {
    BitsAll(a, f, m);
  }

  /** Once all five groups have been heard, in whatever order, the 29 functions are the loco's. */
  lemma AllFunctionsArrive(slots: Slots, cab: Cab, groups: seq<Group>, f: bv32, h: Cab, beyond: bv8)
    requires h <= 127 && 0 < cab < 0x3F00
    requires forall g: Group :: g in groups
    ensures Real(Get(AfterGroups(slots, cab, groups, f, h, beyond), cab).functions) == Real(f)
  {
    hide AfterGroups, MaskOf, GroupMask, Merge, Has, Real, Union;
    GroupsRebuild(slots, cab, groups, f, h, beyond);
    MaskHas(groups, G1);
    MaskHas(groups, G2);
    MaskHas(groups, G3);
    MaskHas(groups, G4);
    MaskHas(groups, G5);
    MergeAll(Get(slots, cab).functions, f, MaskOf(groups));
  }

  // ---------------------------------------------------------------- accessories

  lemma BitsAccessory(address: bv16, port: bv8, gate: bv8, b0: bv8, b1: bv8, c: bv8)
    requires address <= 511 && port <= 3 && gate <= 1 && (c == b1 || c == b1 & 0xF7)
    requires b0 == (address % 64) as bv8 + 128
    requires b1 == (((((address / 64) % 8) as bv8) << 4) + ((port % 4) << 1) + gate) ^ 0xF8
    ensures b0 & 0xC0 == 0x80 && c & 0x80 != 0
    ensures ((((!c) & 0x70) as bv16) << 2) + ((b0 & 0x3F) as bv16) == address
    ensures (c & 0x06) >> 1 == port && c & 0x01 == gate && b1 & 0x08 != 0
  {
  }

  predicate ForAccessory(b: bv8) {
    b & 0xC0 == 0x80
  }

  predicate IsBasic(b: bv8) {
    b & 0x80 != 0
  }

  /** What a basic accessory packet says. */
  function Fields(b0: bv8, b1: bv8): Action {
    SetAccessory(((((!b1) & 0x70) as bv16) << 2) + ((b0 & 0x3F) as bv16), (b1 & 0x06) >> 1, b1 & 0x01 != 0, b1 & 0x08 != 0)
  }

  lemma AccessoryForm(address: bv16, port: bv8, gate: bool, on: bool)
    requires address <= 511 && port <= 3
    ensures |AccessoryPacket(address, port, gate, on)| == 1
    ensures var b := AccessoryPacket(address, port, gate, on)[0];
            ForAccessory(b[0]) && IsBasic(b[1]) && Fields(b[0], b[1]) == SetAccessory(address, port, gate, on)
  {
    InRange(address, port);
    var g: bv8 := if gate then 1 else 0;
    var b0 := (address % 64) as bv8 + 128;
    var b1 := (((((address / 64) % 8) as bv8) << 4) + ((port % 4) << 1) + g) ^ 0xF8;
    FieldsAre(address, port, gate, on, b0, b1);
    hide ForAccessory, IsBasic, Fields;
  }

  lemma FieldsAre(address: bv16, port: bv8, gate: bool, on: bool, b0: bv8, b1: bv8)
    requires address <= 511 && port <= 3
    requires b0 == (address % 64) as bv8 + 128
    requires b1 == (((((address / 64) % 8) as bv8) << 4) + ((port % 4) << 1) + (if gate then 1 else 0)) ^ 0xF8
    ensures var c := if on then b1 else b1 & 0xF7;
            ForAccessory(b0) && IsBasic(c) && Fields(b0, c) == SetAccessory(address, port, gate, on)
  {
    var g: bv8 := if gate then 1 else 0;
    var c := if on then b1 else b1 & 0xF7;
    BitsAccessory(address, port, g, b0, b1, c);
    BitsOff(b1);
    FieldsOf(address, port, g, b0, c);
  }

  lemma FieldsOf(address: bv16, port: bv8, g: bv8, b0: bv8, c: bv8)
    requires ((((!c) & 0x70) as bv16) << 2) + ((b0 & 0x3F) as bv16) == address
    requires (c & 0x06) >> 1 == port && c & 0x01 == g
    ensures Fields(b0, c) == SetAccessory(address, port, g != 0, c & 0x08 != 0)
  {
  }

  lemma BitsOff(b: bv8)
    ensures b & 0xF7 & 0x08 == 0
  {
  }

  lemma InRange(address: bv16, port: bv8)
    ensures address == address & 511 <==> address <= 511
    ensures port == port & 3 <==> port <= 3
  {
  }

  lemma AccessoryRange(address: bv16, port: bv8, gate: bool, on: bool)
    ensures AccessoryPacket(address, port, gate, on) == [] <==> address > 511 || port > 3
  {
    InRange(address, port);
  }

  lemma AccessoryDecodes(slots: Slots, address: bv16, port: bv8, gate: bool, on: bool, beyond: bv8)
    requires address <= 511 && port <= 3
    ensures AccessoryPacket(address, port, gate, on) != []
    ensures Decode(slots, Checksummed(AccessoryPacket(address, port, gate, on)[0]), beyond)
         == Parsed(slots, [SetAccessory(address, port, gate, on)], true)
  {
    hide XorAll, AccessoryPacket, Decode, ForAccessory, IsBasic, Fields;
    AccessoryForm(address, port, gate, on);
    BasicDecodes(slots, AccessoryPacket(address, port, gate, on)[0], beyond);
  }

  lemma BasicDecodes(slots: Slots, b: Packet, beyond: bv8)
    requires |b| == 2 && ForAccessory(b[0]) && IsBasic(b[1])
    ensures Decode(slots, Checksummed(b), beyond) == Parsed(slots, [Fields(b[0], b[1])], true)
  {
    hide XorAll, HeaderOf, DecodeAccessory, DecodeMobile, ForAccessory, IsBasic, Fields, LowAddress;
    ChecksummedXorsToZero(b);
    AccessoryHeader(Checksummed(b), beyond);
    AccessoryDecoded(slots, b[0], b[1]);
  }

  /** A basic accessory packet is passed on with its address, port, gate and state, and touches no
      loco; requests outside the ranges send nothing. */
  lemma AccessoryArrives(slots: Slots, address: bv16, port: bv8, gate: bool, on: bool, beyond: bv8)
    ensures AccessoryPacket(address, port, gate, on) == [] <==> address > 511 || port > 3
    ensures address <= 511 && port <= 3 ==>
              Decode(slots, Checksummed(AccessoryPacket(address, port, gate, on)[0]), beyond)
                == Parsed(slots, [SetAccessory(address, port, gate, on)], true)
  {
    hide AccessoryPacket, Decode;
    AccessoryRange(address, port, gate, on);
    if address <= 511 && port <= 3 {
      AccessoryDecodes(slots, address, port, gate, on, beyond);
    }
  }

  lemma AccessoryHeader(d: Packet, beyond: bv8)
    requires |d| == 3 && XorAll(d) == 0 && ForAccessory(d[0])
    ensures HeaderOf(d, beyond) == Accessory(LowAddress(d[0]))
  {
    AccessoryByte(d[0]);
    hide XorAll;
  }

  function LowAddress(b: bv8): bv16 {
    (b & 0x3F) as bv16
  }

  lemma AccessoryDecoded(slots: Slots, b0: bv8, b1: bv8)
    requires IsBasic(b1)
    ensures DecodeAccessory(slots, LowAddress(b0), b1, 3) == Parsed(slots, [Fields(b0, b1)], true)
  {
  }

  lemma AccessoryByte(b: bv8)
    requires b & 0xC0 == 0x80
    ensures b & 0x80 != 0 && b & 0x40 == 0 && b != 0xFF
  {
  }

  // ---------------------------------------------------------------- errors

  function Xor(x: bv8, y: bv8): bv8 {
    x ^ y
  }

  lemma XorLaws(x: bv8, y: bv8, e: bv8)
    ensures Xor(x, Xor(y, e)) == Xor(Xor(x, y), e) && Xor(Xor(x, e), y) == Xor(Xor(x, y), e)
  {
  }

  lemma XorSplit(d: Packet)
    requires d != []
    ensures XorAll(d) == Xor(XorAll(d[..|d| - 1]), d[|d| - 1])
  {
  }

  /** An error in one byte shows in the checksum as itself. */
  lemma {:induction false} XorFlipped(d: Packet, i: nat, e: bv8)
    requires i < |d|
    ensures XorAll(d[i := Xor(d[i], e)]) == Xor(XorAll(d), e)
  {
    hide XorAll, Xor;
    var last, d' := |d| - 1, d[i := Xor(d[i], e)];
    XorSplit(d);
    XorSplit(d');
    XorLaws(XorAll(d[..last]), d[last], e);
    if i == last {
      assert d'[..last] == d[..last];
    } else {
      assert d'[..last] == d[..last][i := Xor(d[i], e)];
      XorFlipped(d[..last], i, e);
    }
  }

  /** Any error confined to one byte of a sound packet, such as a flipped bit, is noticed: the
      packet has no effect. */
  lemma ErrorIsRejected(slots: Slots, d: Packet, i: nat, e: bv8, beyond: bv8)
    requires XorAll(d) == 0 && i < |d| && e != 0
    ensures Decode(slots, d[i := Xor(d[i], e)], beyond) == Parsed(slots, [], false)
  {
    XorFlipped(d, i, e);
    ZeroXor(e);
    hide XorAll, Xor;
  }

  lemma ZeroXor(e: bv8)
    ensures Xor(0, e) == e
  {
  }

  predicate TwoBytes(i0: bv8) {
    i0 == SET_SPEED || i0 == 222 || i0 == 223
  }

  /** A sound three-byte packet to a loco with a long address, whose instruction needs one byte more. */
  predicate ReadsBehind(d: Packet) {
    && |d| == 3 && XorAll(d) == 0 && d[0] != 0xFF && IsLong(d[0])
    && LongAddress(d[0], d[1]) != 0 && TwoBytes(d[2])
  }

  /** What the parser does is independent of memory behind the packet if and only if the packet is not
      one of these. */
  lemma StaysInside(d: Packet)
    ensures (forall slots, b, b' :: Decode(slots, d, b) == Decode(slots, d, b')) <==> !ReadsBehind(d)
  {
    hide Decode, ReadsBehind;
    if ReadsBehind(d) {
      BehindMatters(d);
    } else {
      forall slots, b, b' ensures Decode(slots, d, b) == Decode(slots, d, b') {
        BehindIgnored(slots, d, b, b');
      }
    }
  }

  lemma BehindIgnored(slots: Slots, d: Packet, beyond: bv8, beyond': bv8)
    requires !ReadsBehind(d)
    ensures Decode(slots, d, beyond) == Decode(slots, d, beyond')
  {
    HeaderInside(d, beyond, beyond');
    hide DecodeMobile, DecodeAccessory, XorAll, HeaderOf, IsLong, LongAddress, TwoBytes;
    var h := HeaderOf(d, beyond);
    if h.Mobile? && |d| == 3 && h.instr == 2 {
      SecondByteUnused(slots, h.cab, d[2], beyond, beyond');
    }
  }

  /** With nothing remembered, whether 1 or 2 lies behind the packet makes a difference. */
  lemma BehindMatters(d: Packet)
    requires ReadsBehind(d)
    ensures Decode(map[], d, 1) != Decode(map[], d, 2)
  {
    LongHeader(d, 1);
    LongHeader(d, 2);
    var cab := LongAddress(d[0], d[1]);
    hide DecodeMobile, DecodeAccessory, XorAll, HeaderOf, IsLong, LongAddress;
    SecondByteMatters(cab, d[2]);
  }

  lemma SecondByteMatters(cab: Cab, i0: bv8)
    requires cab != 0 && TwoBytes(i0)
    ensures DecodeMobile(map[], cab, i0, 1) != DecodeMobile(map[], cab, i0, 2)
  {
    var p, r := DecodeMobile(map[], cab, i0, 1), DecodeMobile(map[], cab, i0, 2);
    Announced(i0);
    if i0 == SET_SPEED {
      hide SpeedOf, Forward, InstructionOf;
      assert Get(p.slots, cab).speedCode == 1 && Get(r.slots, cab).speedCode == 2;
    } else {
      var low := if i0 == 222 then 13 else 21;
      NibblesSet(map[], cab, 1, low);
      NibblesSet(map[], cab, 2, low);
      NibblesDiffer();
      hide WithNibble, HighNibble, InstructionOf, TwoNibbles;
      assert Get(p.slots, cab) != Get(r.slots, cab);
    }
  }

  lemma Announced(i0: bv8)
    ensures i0 == SET_SPEED ==> InstructionOf(i0) == FullSpeed
    ensures i0 == 222 ==> InstructionOf(i0) == Functions(G4)
    ensures i0 == 223 ==> InstructionOf(i0) == Functions(G5)
  {
  }

  lemma NibblesDiffer()
    ensures WithNibble(WithNibble(0, 1, 13), HighNibble(1), 17) != WithNibble(WithNibble(0, 2, 13), HighNibble(2), 17)
    ensures WithNibble(WithNibble(0, 1, 21), HighNibble(1), 25) != WithNibble(WithNibble(0, 2, 21), HighNibble(2), 25)
  {
  }

  lemma HeaderInside(d: Packet, beyond: bv8, beyond': bv8)
    ensures HeaderOf(d, beyond) == HeaderOf(d, beyond')
    ensures var h := HeaderOf(d, beyond);
            h.Mobile? ==>
              && |d| >= 3 && XorAll(d) == 0 && d[0] != 0xFF
              && (h.instr == 1 || (h.instr == 2 && IsLong(d[0]) && h.cab == LongAddress(d[0], d[1])))
  {
    hide XorAll;
  }

  lemma SecondByteUnused(slots: Slots, cab: Cab, i0: bv8, i1: bv8, i1': bv8)
    requires cab == 0 || !TwoBytes(i0)
    ensures DecodeMobile(slots, cab, i0, i1) == DecodeMobile(slots, cab, i0, i1')
  {
    OneByte(i0);
    hide LocoUpdated, FuncUpdated, TwoNibbles, Then, Speed128, InstructionOf, Normalized;
  }

  lemma OneByte(i0: bv8)
    ensures InstructionOf(i0) == FullSpeed ==> i0 == SET_SPEED
    ensures InstructionOf(i0) == Functions(G4) ==> i0 == 222
    ensures InstructionOf(i0) == Functions(G5) ==> i0 == 223
  {
  }

  // ---------------------------------------------------------------- the decoder itself

  class DccDecoder {
    var active: bool
    var slots: Slots
    var actions: seq<Action>

    constructor ()
      ensures !active && slots == map[] && actions == []
    {
      active, slots, actions := false, map[], [];
    }

    method UpdateLoco(cab: Cab, code: bv8) returns (changed: bool)
      requires cab != 0
      modifies this`slots
      ensures slots == LocoUpdated(old(slots), cab, code).slots
      ensures changed == LocoUpdated(old(slots), cab, code).changed
    {
      if Key(cab) !in slots {
        slots := slots[Key(cab) := UNSEEN];
      }
      assert slots == old(slots)[Key(cab) := Get(old(slots), cab)];
      if code == slots[Key(cab)].speedCode {
        return false;
      }
      slots := slots[Key(cab) := slots[Key(cab)].(speedCode := code)];
      return true;
    }

    method UpdateFunc(cab: Cab, func: bv8, shift: nat) returns (changed: bool)
      requires cab != 0 && shift <= 25
      modifies this`slots
      ensures slots == FuncUpdated(old(slots), cab, func, shift).slots
      ensures changed == FuncUpdated(old(slots), cab, func, shift).changed
    {
      if Key(cab) !in slots {
        slots := slots[Key(cab) := UNSEEN];
      }
      assert slots == old(slots)[Key(cab) := Get(old(slots), cab)];
      var previous := slots[Key(cab)].functions;
      var functions := WithNibble(previous, func, shift);
      hide WithNibble;
      if functions == previous {
        return false;
      }
      slots := slots[Key(cab) := slots[Key(cab)].(functions := functions)];
      return true;
    }

    method Checksum(d: Packet) returns (checksum: bv8)
      ensures checksum == XorAll(d)
    {
      checksum := 0;
      for n := 0 to |d|
        invariant checksum == XorAll(d[..n])
      {
        assert d[..n + 1][..n] == d[..n];
        checksum := checksum ^ d[n];
      }
      assert d[..|d|] == d;
    }

    method SetThrottle(cab: Cab, code: bv8, speed: bv8, forward: bool) returns (changed: bool)
      requires cab != 0
      modifies this`slots, this`actions
      ensures var p := Then(LocoUpdated(old(slots), cab, code), Action.SetThrottle(cab, speed, forward));
              slots == p.slots && changed == p.changed && actions == old(actions) + p.actions
    {
      changed := UpdateLoco(cab, code);
      if changed {
        actions := actions + [Action.SetThrottle(cab, speed, forward)];
      }
    }

    method SetFunctions(cab: Cab, func: bv8, shift: nat, value: bv8, low: nat, high: nat) returns (changed: bool)
      requires cab != 0 && shift <= 25
      modifies this`slots, this`actions
      ensures var p := Then(FuncUpdated(old(slots), cab, func, shift), FuncMap(cab, value, low, high));
              slots == p.slots && changed == p.changed && actions == old(actions) + p.actions
    {
      changed := UpdateFunc(cab, func, shift);
      if changed {
        actions := actions + [FuncMap(cab, value, low, high)];
      }
    }

    method ParseMobile(cab: Cab, i0: bv8, i1: bv8) returns (changed: bool)
      modifies this`slots, this`actions
      ensures var p := DecodeMobile(old(slots), cab, i0, i1);
              slots == p.slots && changed == p.changed && actions == old(actions) + p.actions
    {
      hide Then, LocoUpdated, FuncUpdated, Speed128, Forward, Normalized, CoarseBits;
      changed := false;
      if cab == 0 {
        return;
      }
      var kind := i0 & 0xE0;
      if kind == 0x20 {
        if i0 == SET_SPEED {
          changed := SetThrottle(cab, i1, SpeedOf(i1), Forward(i1, 0x80));
        }
      } else if kind == 0x40 || kind == 0x60 {
        changed := SetThrottle(cab, CoarseBits(i0), Speed128(i0), Forward(i0, 0x20));
      } else if kind == 0x80 {
        changed := SetFunctions(cab, i0, 1, Normalized(i0), 0, 4);
      } else if kind == 0xA0 {
        if i0 & 0x10 != 0 {
          changed := SetFunctions(cab, i0, 5, i0, 5, 8);
        } else {
          changed := SetFunctions(cab, i0, 9, i0, 9, 12);
        }
      } else if kind == 0xC0 {
        var low := if i0 & 0x1F == 0x1E then 13 else 21;
        if i0 & 0x1F == 0x1E || i0 & 0x1F == 0x1F {
          changed := SetFunctions(cab, i1, low, i1, low, low + 3);
          changed := SetFunctions(cab, HighNibble(i1), low + 4, HighNibble(i1), low + 4, low + 7);
        }
      }
    }

    /** True if something changed; without a sound checksum nothing does. */
    method Parse(d: Packet, beyond: bv8) returns (changed: bool)
      modifies this`slots, this`actions
      ensures !active ==> slots == old(slots) && actions == old(actions) && !changed
      ensures active ==>
                var p := Decode(old(slots), d, beyond);
                slots == p.slots && changed == p.changed && actions == old(actions) + p.actions
    {
      hide DecodeMobile, XorAll;
      if !active || ByteAt(d, beyond, 0) == 0xFF || |d| < 3 || |d| > 6 {
        return false;
      }
      var checksum := Checksum(d);
      if checksum != 0 {
        return false;
      }
      if d[0] & 0x80 == 0 {
        changed := ParseMobile(d[0] as bv16, d[1], d[2]);
      } else if d[0] & 0x40 != 0 {
        changed := ParseMobile(256 * ((d[0] & 0x3F) as bv16) + d[1] as bv16, d[2], ByteAt(d, beyond, 3));
      } else {
        changed := d[1] & 0x80 != 0 && |d| == 3;
        if changed {
          var address := ((((!d[1]) & 0x70) as bv16) << 2) + (d[0] & 0x3F) as bv16;
          actions := actions + [SetAccessory(address, (d[1] & 0x06) >> 1, d[1] & 0x01 != 0, d[1] & 0x08 != 0)];
        }
      }
    }
  }
}
