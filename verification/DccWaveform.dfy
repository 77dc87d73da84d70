/** The transmitter object of DCCWaveform, updated in place by the timer interrupt and by the main
    thread.  Every method is proved to make exactly the step of `DccTransmitter` (and of
    `DccTicks`) of the same name, so the results about runs there are results about it. */
module DccWaveform {
  import opened DccFraming
  import opened DccTransmitter
  import opened DccTicks

  class Waveform {
    const isMainTrack: bool
    const transmitPacket: array<bv8>
    var transmitLength: nat
    var transmitRepeats: nat
    var remainingPreambles: nat
    const requiredPreambles: nat
    var bitsSent: nat
    var bytesSent: nat
    var state: Wave
    const pendingPacket: array<bv8>
    var pendingLength: nat
    var pendingRepeats: nat
    var packetPending: bool
    var sentResets: nat
    var reminderWindowOpen: bool

    /** Where the main thread is inside SchedulePacket. */
    var main: Main

    ghost function View(): Tx
      reads this, transmitPacket, pendingPacket
    {
      Tx(isMainTrack, transmitPacket[..], transmitLength, transmitRepeats, remainingPreambles,
         bitsSent, bytesSent, packetPending, pendingPacket[..], pendingLength, pendingRepeats,
         sentResets, reminderWindowOpen)
    }

    ghost predicate Valid()
      reads this, transmitPacket, pendingPacket
    {
      && transmitPacket != pendingPacket
      && requiredPreambles == RequiredPreambles(isMainTrack)
      && TxOk(View())
      && MainOk(View(), main)
      && state != WavePending
    }

    constructor (isMain: bool)
      ensures Valid() && View() == Boot(isMain) && main == Idle && state == WaveStart
    {
      isMainTrack := isMain;
      requiredPreambles := (if isMain then PREAMBLE_BITS_MAIN else PREAMBLE_BITS_PROG) + 1;
      var packet := new bv8[BUFFER_SIZE](_ => 0);
      packet[0], packet[1], packet[2] := 0xFF, 0x00, 0xFF;
      transmitPacket := packet;
      pendingPacket := new bv8[BUFFER_SIZE](_ => 0);
      transmitLength, transmitRepeats, remainingPreambles := 0, 0, 0;
      bitsSent, bytesSent, state := 0, 0, WaveStart;
      packetPending, pendingLength, pendingRepeats := false, 0, 0;
      sentResets, reminderWindowOpen, main := 0, false, Idle;
      new;
      assert transmitPacket[..] == Boot(isMain).transmitPacket;
    }

    method ClearRepeats()
      requires Valid()
      modifies this`transmitRepeats
      ensures Valid() && View() == old(View()).(transmitRepeats := 0)
    {
      transmitRepeats := 0;
    }

    /** Fills the transmit buffer from the mailbox, or with an idle or reset packet. */
    method PromotePendingPacket()
      requires Valid() && remainingPreambles > 0
      modifies this`transmitLength, this`transmitRepeats, this`packetPending, this`sentResets, transmitPacket
      ensures Valid() && View() == Promote(old(View()))
    {
      if transmitRepeats > 0 {
        transmitRepeats := transmitRepeats - 1;
        return;
      }
      if packetPending {
        forall i | 0 <= i < transmitPacket.Length {
          transmitPacket[i] := pendingPacket[i];
        }
        assert transmitPacket[..] == old(pendingPacket[..]);
        transmitLength := pendingLength;
        transmitRepeats := pendingRepeats;
        packetPending := false;
        sentResets := 0;
        return;
      }
      var filler := if isMainTrack then IDLE_PACKET else RESET_PACKET;
      transmitPacket[0] := filler[0];
      transmitPacket[1] := filler[1];
      transmitPacket[2] := filler[2];
      assert transmitPacket[..] == filler + old(transmitPacket[..])[3..];
      transmitLength := 3;
      transmitRepeats := 0;
      if sentResets < 250 {
        sentResets := sentResets + 1;
      }
    }

    /** Chooses the next bit and moves on in the packet. */
    method Interrupt2() returns (bit: bool)
      requires Valid()
      modifies this`transmitLength, this`transmitRepeats, this`packetPending, this`sentResets,
               this`remainingPreambles, this`reminderWindowOpen, this`bitsSent, this`bytesSent,
               this`state, transmitPacket
      ensures Valid() && View() == DccTransmitter.Interrupt2(old(View()))
      ensures bit == NextBit(old(View())) && state == Chosen(bit)
    {
      if remainingPreambles > 0 {
        hide DccTransmitter.Interrupt2;
        bit, state := true, WaveMid1;
        PreambleBit();
      } else {
        hide DccTransmitter.Interrupt2;
        bit := DataBit();
      }
    }

    method PreambleBit()
      requires Valid() && remainingPreambles > 0
      modifies this`transmitLength, this`transmitRepeats, this`packetPending, this`sentResets,
               this`remainingPreambles, this`reminderWindowOpen, transmitPacket
      ensures Valid() && View() == DccTransmitter.Interrupt2(old(View()))
    {
      hide XorAll, Promote, RequiredPreambles;
      remainingPreambles := remainingPreambles - 1;
      reminderWindowOpen := transmitRepeats == 0 && remainingPreambles < 12 && remainingPreambles > 1;
      if remainingPreambles == 1 {
        PromotePendingPacket();
      }
    }

    method DataBit() returns (bit: bool)
      requires Valid() && remainingPreambles == 0
      modifies this`remainingPreambles, this`bitsSent, this`bytesSent, this`state
      ensures Valid() && View() == DccTransmitter.Interrupt2(old(View()))
      ensures bit == NextBit(old(View())) && state == Chosen(bit)
    {
      hide XorAll, RequiredPreambles, BitAt;
      bit := BitAt(transmitPacket[bytesSent], bitsSent);
      state := if bit then WaveMid1 else WaveHigh0;
      bitsSent := bitsSent + 1;
      if bitsSent == 9 {
        bitsSent := 0;
        bytesSent := bytesSent + 1;
        if bytesSent >= transmitLength {
          bytesSent := 0;
          remainingPreambles := requiredPreambles;
        }
      }
    }

    /** This track's share of the timer interrupt: drive the line, move the wave on, and choose a
        bit when one is due.  The levels follow `DccTicks.Tick`. */
    method OnTimer(ghost line: Line) returns (level: bool, ghost line': Line)
      requires Valid() && line.wave == state
      modifies this`transmitLength, this`transmitRepeats, this`packetPending, this`sentResets,
               this`remainingPreambles, this`reminderWindowOpen, this`bitsSent, this`bytesSent,
               this`state, transmitPacket
      ensures Valid() && line'.wave == state
      ensures line' == Tick(line, NextBit(old(View()))) && line'.levels == line.levels + [level]
      ensures View() == if old(state) == WaveStart then DccTransmitter.Interrupt2(old(View())) else old(View())
    {
      line' := Tick(line, NextBit(View()));
      level := SignalTransform(state);
      var next := StateTransform(state);
      if next == WavePending {
        var _ := Interrupt2();
      } else {
        state := next;
      }
    }

    /** The call of SchedulePacket: an oversized packet is ignored. */
    method SchedulePacket(buffer: seq<bv8>, repeats: nat)
      requires Valid() && main == Idle
      modifies this`main
      ensures Valid() && View() == old(View())
      ensures main == if |buffer| <= MAX_PACKET_SIZE then Waiting(Job(buffer, repeats)) else Idle
    {
      if |buffer| > MAX_PACKET_SIZE {
        return;
      }
      main := Waiting(Job(buffer, repeats));
    }

    /** The next store of SchedulePacket, atomic with respect to the interrupt. */
    method ThreadStep()
      requires Valid()
      modifies this`main, this`packetPending, this`pendingLength, this`pendingRepeats,
               this`sentResets, pendingPacket
      ensures Valid()
      ensures (View(), main) == MainStep(old(View()), old(main))
    {
      hide XorAll, BitAt, RequiredPreambles;
      match main
      case Idle =>
      case Waiting(job) =>
        if !packetPending {
          main := Copying(job, 0, 0);
        }
      case Copying(job, i, checksum) =>
        Copy(job, i, checksum);
      case Sizing(job) =>
        pendingLength := |job.payload| + 1;
        main := Repeating(job);
      case Repeating(job) =>
        pendingRepeats := job.repeats;
        main := Publishing(job);
      case Publishing(_) =>
        packetPending := true;
        main := Tidying;
      case Tidying =>
        sentResets := 0;
        main := Idle;
    }

    /** The next byte, or behind the last one the checksum. */
    method Copy(job: Job, i: nat, checksum: bv8)
      requires Valid() && main == Copying(job, i, checksum)
      modifies this`main, pendingPacket
      ensures Valid()
      ensures (View(), main) == MainStep(old(View()), old(main))
    {
      hide XorAll, BitAt, RequiredPreambles;
      if i < |job.payload| {
        pendingPacket[i] := job.payload[i];
        assert pendingPacket[..] == old(pendingPacket[..])[i := job.payload[i]];
        main := Copying(job, i + 1, checksum ^ job.payload[i]);
      } else {
        pendingPacket[i] := checksum;
        assert pendingPacket[..] == old(pendingPacket[..])[i := checksum];
        main := Sizing(job);
      }
    }

    /** Whether a packet handed over now is the next one on the track (DccTimeline.WindowCatches). */
    method IsReminderWindowOpen() returns (open: bool)
      requires Valid()
      ensures open ==> !packetPending && reminderWindowOpen
      ensures !packetPending && reminderWindowOpen ==> open
    {
      open := reminderWindowOpen && !packetPending;
    }
  }

  /** The timer interrupt of both tracks.  A joined programming track copies the main signal, but
      its own wave runs on. */
  method InterruptHandler(mainTrack: Waveform, progTrack: Waveform, joined: bool,
                          ghost mainLine: Line, ghost progLine: Line)
    returns (sigMain: bool, sigProg: bool, ghost mainLine': Line, ghost progLine': Line)
    requires mainTrack != progTrack && mainTrack.Valid() && progTrack.Valid()
    requires {mainTrack.transmitPacket, mainTrack.pendingPacket} !!
             {progTrack.transmitPacket, progTrack.pendingPacket}
    requires mainLine.wave == mainTrack.state && progLine.wave == progTrack.state
    modifies mainTrack, progTrack, mainTrack.transmitPacket, progTrack.transmitPacket
    ensures mainTrack.Valid() && progTrack.Valid()
    ensures mainLine' == Tick(mainLine, NextBit(old(mainTrack.View())))
    ensures progLine' == Tick(progLine, NextBit(old(progTrack.View())))
    ensures mainLine'.levels == mainLine.levels + [sigMain]
    ensures joined ==> sigProg == sigMain
    ensures !joined ==> progLine'.levels == progLine.levels + [sigProg]
    ensures mainTrack.View() == if old(mainTrack.state) == WaveStart
                                then Interrupt2(old(mainTrack.View())) else old(mainTrack.View())
    ensures progTrack.View() == if old(progTrack.state) == WaveStart
                                then Interrupt2(old(progTrack.View())) else old(progTrack.View())
  {
    sigMain, mainLine' := mainTrack.OnTimer(mainLine);
    var own;
    own, progLine' := progTrack.OnTimer(progLine);
    sigProg := if joined then sigMain else own;
  }
}
