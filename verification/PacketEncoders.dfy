/** The packets the command station builds for locos and accessories, without their checksum.
    `h` is the highest address sent in the short form, a build option of at most 127. */
module PacketEncoders {
  import opened DccFraming

  type Cab = bv16

  const SET_SPEED: bv8 := 0x3F

  datatype Steps = Steps28 | Steps128

  function AddressBytes(cab: Cab, h: Cab): (r: Packet)
    ensures 1 <= |r| <= 2
  {
    var low := (cab & 0xFF) as bv8;
    if cab > h then [((cab >> 8) & 0xFF) as bv8 | 0xC0, low] else [low]
  }

  /** The five speed bits of the 28-step format for a 128-step speed code. */
  function Code28(speedCode: bv8): bv8 {
    var speed128 := speedCode & 0x7F;
    if speed128 == 0 || speed128 == 1 then speed128
    else
      var speed28 := ((speed128 as bv16 * 10 + 36) / 46) as bv8;
      ((speed28 + 3) / 2) | (if speed28 & 1 != 0 then 0 else 0x10)
  }

  function SpeedBytes(speedCode: bv8, steps: Steps): (r: Packet)
    ensures 1 <= |r| <= 2
  {
    if steps == Steps28 then
      [0x40 | Code28(speedCode) | (if speedCode & 0x80 != 0 then 0x20 else 0)]
    else
      [SET_SPEED, speedCode]
  }

  function ThrottlePacket(cab: Cab, speedCode: bv8, steps: Steps, h: Cab): (r: Packet)
    ensures 2 <= |r| <= 4
  {
    AddressBytes(cab, h) + SpeedBytes(speedCode, steps)
  }

  datatype Group = G1 | G2 | G3 | G4 | G5

  /** The instruction bytes of a function group, from the loco's function map. */
  function GroupBytes(group: Group, functions: bv32): (r: Packet)
    ensures 1 <= |r| <= 2
  {
    match group
    case G1 => [(128 | ((functions >> 1) & 0x0F) | ((functions & 0x01) << 4)) as bv8]
    case G2 => [(176 | ((functions >> 5) & 0x0F)) as bv8]
    case G3 => [(160 | ((functions >> 9) & 0x0F)) as bv8]
    case G4 => [222, ((functions >> 13) & 0xFF) as bv8]
    case G5 => [223, ((functions >> 21) & 0xFF) as bv8]
  }

  function FunctionPacket(cab: Cab, group: Group, functions: bv32, h: Cab): (r: Packet)
    ensures 2 <= |r| <= 4
  {
    AddressBytes(cab, h) + GroupBytes(group, functions)
  }

  /** A basic accessory packet; addresses above 511 and ports above 3 are refused. */
  function AccessoryPacket(address: bv16, port: bv8, gate: bool, on: bool): (r: seq<Packet>)
    ensures |r| <= 1 && forall p :: p in r ==> |p| == 2
  {
    if address != address & 511 || port != port & 3 then []
    else
      var b0 := (address % 64) as bv8 + 128;
      var b1 := (((((address / 64) % 8) as bv8) << 4) + ((port % 4) << 1) + (if gate then 1 else 0)) ^ 0xF8;
      [[b0, if on then b1 else b1 & 0xF7]]
  }
}
