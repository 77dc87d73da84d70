/** The packet scheduler as values: two queues of slots, the tag of the last packet sent, and what
    each request and each call of the main loop does to them.

    A slot's loco, delay and start time share one 32-bit word, as they share storage in the
    program: the tag is the low half of the word whatever it was written as. */
module PacketQueue {
  import opened DccFraming

  const HALF_WORD: nat := 65536
  const WORD: nat := 65536 * 65536
  const IDLE: Packet := [0xFF, 0x00]

  datatype Kind = Normal | Function(group: nat) | Speed | AccOn | AccOff

  /** `length` is what the caller said; the payload is cut to what a slot can hold. */
  datatype Slot = Slot(kind: Kind, length: nat, repeats: nat, payload: Packet, word: nat) {
    function Tag(): (t: nat)
      ensures t < HALF_WORD
    {
      word % HALF_WORD
    }

    predicate Delayed(now: nat) {
      kind == AccOff && now < word
    }
  }

  datatype Queues = Queues(high: seq<Slot>, low: seq<Slot>, lastSent: nat)

  /** A call of the waveform: the slot as it was, and the repeats left to the waveform.
      An idle packet has no slot and tag 0. */
  datatype Emission = Idle | Sent(slot: Slot, repeats: nat) {
    function Tag(): nat {
      if Idle? then 0 else slot.Tag()
    }

    function Payload(): Packet {
      if Idle? then IDLE else slot.payload
    }
  }

  datatype Option<T> = None | Some(value: T)

  // ---------------------------------------------------------------- requests

  function Cut(packet: Packet): Packet {
    if |packet| > MAX_PACKET_SIZE then packet[..MAX_PACKET_SIZE] else packet
  }

  function NewSlot(kind: Kind, packet: Packet, repeats: nat, loco: nat): Slot {
    Slot(kind, |packet|, repeats, Cut(packet), loco)
  }

  function Refilled(s: Slot, packet: Packet, repeats: nat): Slot {
    s.(payload := packet, length := |packet|, repeats := repeats)
  }

  /** The first slot with a tag, and of a kind if one is asked for; the length if there is none. */
  function Find(q: seq<Slot>, loco: nat, kind: Option<Kind>): (i: nat)
    ensures i <= |q|
    ensures i < |q| ==> q[i].Tag() == loco && (kind.Some? ==> q[i].kind == kind.value)
    ensures forall k :: 0 <= k < i ==> !(q[k].Tag() == loco && (kind.Some? ==> q[k].kind == kind.value))
  {
    if q == [] then 0
    else if q[0].Tag() == loco && (kind.Some? ==> q[0].kind == kind.value) then 0
    else
      assert forall k :: 1 <= k < |q| ==> q[k] == q[1..][k - 1];
      1 + Find(q[1..], loco, kind)
  }

  /** Replace the packet found, or join the end. */
  function Placed(q: seq<Slot>, i: nat, s: Slot): seq<Slot>
    requires i <= |q|
  {
    if i < |q| then q[i := Refilled(q[i], s.payload, s.repeats)] else q + [s]
  }

  function SendPacket(q: Queues, packet: Packet, repeats: nat, loco: nat): Queues {
    q.(low := q.low + [NewSlot(Normal, packet, repeats, loco)])
  }

  function SendSpeed(q: Queues, packet: Packet, repeats: nat, loco: nat): Queues {
    q.(high := Placed(q.high, Find(q.high, loco, None), NewSlot(Speed, packet, repeats, loco)))
  }

  function SendFunction(q: Queues, packet: Packet, loco: nat, group: nat): Queues {
    if 1 <= group <= 5 then
      q.(low := Placed(q.low, Find(q.low, loco, Some(Function(group))), NewSlot(Function(group), packet, 0, loco)))
    else
      q
  }

  predicate Flushed(s: Slot, loco: nat) {
    s.kind != AccOff && (loco == 0 || s.Tag() == loco)
  }

  function Survivors(q: seq<Slot>, loco: nat): seq<Slot> {
    if q == [] then []
    else (if Flushed(q[0], loco) then [] else [q[0]]) + Survivors(q[1..], loco)
  }

  function SendEstop(q: Queues, packet: Packet, repeats: nat, loco: nat): Queues {
    q.(high := [NewSlot(Speed, packet, repeats, 0)] + Survivors(q.high, loco))
  }

  function SendAccOnOff(q: Queues, packet: Packet, repeats: nat, delay: nat): Queues {
    q.(low := q.low + [NewSlot(AccOn, packet, repeats, delay)])
  }

  // ---------------------------------------------------------------- the next packet

  /** Whether a slot must wait: still delayed, or for the loco just sent to. */
  predicate Waits(s: Slot, lastSent: nat, now: nat) {
    s.Delayed(now) || (s.Tag() != 0 && s.Tag() == lastSent)
  }

  function FirstReady(q: seq<Slot>, lastSent: nat, now: nat): (i: nat)
    ensures i <= |q|
    ensures i < |q| ==> !Waits(q[i], lastSent, now)
    ensures forall k :: 0 <= k < i ==> Waits(q[k], lastSent, now)
  {
    if q == [] || !Waits(q[0], lastSent, now) then 0
    else
      assert forall k :: 1 <= k < |q| ==> q[k] == q[1..][k - 1];
      1 + FirstReady(q[1..], lastSent, now)
  }

  function GateOff(payload: Packet): Packet {
    if |payload| >= 2 then payload[1 := payload[1] & 0xF7] else payload
  }

  /** A coil-on slot becomes its delayed coil-off. */
  function TurnedOff(s: Slot, now: nat): Slot {
    s.(kind := AccOff, payload := GateOff(s.payload), word := (now + s.Tag()) % WORD)
  }

  function Without(q: seq<Slot>, i: nat): seq<Slot>
    requires i < |q|
  {
    q[..i] + q[i + 1..]
  }

  /** A slot with a tag repeats by staying queued; one without leaves repeats to the waveform. */
  function EmissionOf(s: Slot): Emission {
    Sent(s, if s.Tag() != 0 then 0 else s.repeats)
  }

  predicate Stays(s: Slot) {
    s.Tag() != 0 && s.repeats > 0
  }

  function OneLess(s: Slot): Slot
    requires s.repeats > 0
  {
    s.(repeats := s.repeats - 1)
  }

  /** Send slot i of the high queue. */
  function TakeHigh(q: Queues, i: nat, now: nat): Queues
    requires i < |q.high|
  {
    var s := q.high[i];
    var q' := q.(lastSent := s.Tag());
    if Stays(s) then q'.(high := q.high[i := OneLess(s)])
    else if s.kind == AccOn then q'.(high := [TurnedOff(s, now)] + Without(q.high, i))
    else q'.(high := Without(q.high, i))
  }

  /** Send slot i of the low queue. */
  function TakeLow(q: Queues, i: nat, now: nat): Queues
    requires i < |q.low|
  {
    var s := q.low[i];
    var q' := q.(lastSent := s.Tag());
    if Stays(s) then q'.(low := q.low[i := OneLess(s)])
    else if s.kind == AccOn then q'.(high := [TurnedOff(s, now)] + q.high, low := Without(q.low, i))
    else q'.(low := Without(q.low, i))
  }

  /** The first slot of the high queue that need not wait, if any. */
  function ServeHigh(q: Queues, now: nat): (Queues, Option<Emission>) {
    var i := FirstReady(q.high, q.lastSent, now);
    if i < |q.high| then (TakeHigh(q, i, now), Some(EmissionOf(q.high[i]))) else (q, None)
  }

  /** The first of the low queue. */
  function ServeLow(q: Queues, now: nat): (Queues, Option<Emission>) {
    var j := FirstReady(q.low, q.lastSent, now);
    if j < |q.low| then (TakeLow(q, j, now), Some(EmissionOf(q.low[j]))) else (q, None)
  }

  /** One call of the main loop: high queue, low queue, then an idle packet if one is demanded. */
  function Next(q: Queues, force: bool, now: nat): (Queues, Option<Emission>) {
    if ServeHigh(q, now).1.Some? then ServeHigh(q, now)
    else if ServeLow(q, now).1.Some? then ServeLow(q, now)
    else if force then (q.(lastSent := 0), Some(Idle))
    else (q, None)
  }
}
