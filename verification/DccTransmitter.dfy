/** The track transmitter of DCCWaveform as a state machine over atomic steps.

    The timer interrupt (`interrupt2`, which promotes packets out of the mailbox) and the main
    thread (`schedulePacket`, one store at a time) interleave arbitrarily.  A run also keeps a
    log: what was requested, what was put on the track and the bits chosen.  The main results
    relate the three over every run. */
module DccTransmitter {
  import opened DccFraming

  const PREAMBLE_BITS_MAIN: nat := 16
  const PREAMBLE_BITS_PROG: nat := 22

  /** Buffers hold the longest payload and its checksum. */
  const BUFFER_SIZE: nat := MAX_PACKET_SIZE + 1

  const IDLE_PACKET: Packet := [0xFF, 0x00, 0xFF]
  const RESET_PACKET: Packet := [0x00, 0x00, 0x00]

  // ---------------------------------------------------------------- the transmitter

  datatype Tx = Tx(
    isMainTrack: bool,
    transmitPacket: Packet,
    transmitLength: nat,
    transmitRepeats: nat,
    remainingPreambles: nat,
    bitsSent: nat,
    bytesSent: nat,
    packetPending: bool,
    pendingPacket: Packet,
    pendingLength: nat,
    pendingRepeats: nat,
    sentResets: nat,
    reminderWindowOpen: bool)

  /** Preambles have at least the 14 bits that NMRA S-9.2 asks for, and the 20 of NMRA S-9.2.3 in service
      mode; the fillers are the idle and reset packets of S-9.2 with their checksum. */
  lemma MeetsTheStandard(isMainTrack: bool)
    ensures RequiredPreambles(isMainTrack) - 1 >= if isMainTrack then 14 else 20
    ensures Filler(isMainTrack) == Checksummed(if isMainTrack then [0xFF, 0x00] else [0x00, 0x00])
  {
    var p := if isMainTrack then [0xFF, 0x00] else [0x00, 0x00];
    assert p[..1][..0] == [] && XorAll(p[..1]) == p[0];
    assert XorAll(p) == p[0] ^ p[1];
  }

  /** One more than the preamble, to make the end bit of the previous packet. */
  function RequiredPreambles(isMainTrack: bool): nat {
    (if isMainTrack then PREAMBLE_BITS_MAIN else PREAMBLE_BITS_PROG) + 1
  }

  function Filler(isMainTrack: bool): Packet {
    if isMainTrack then IDLE_PACKET else RESET_PACKET
  }

  /** What keeps every index in bounds. */
  ghost predicate TxOk(tx: Tx) {
    && |tx.transmitPacket| == BUFFER_SIZE == |tx.pendingPacket|
    && tx.transmitLength <= BUFFER_SIZE
    && tx.bitsSent < 9
    && tx.bytesSent < BUFFER_SIZE
    && (tx.bytesSent > 0 ==> tx.bytesSent < tx.transmitLength)
    && tx.remainingPreambles <= RequiredPreambles(tx.isMainTrack)
    && (tx.remainingPreambles > 0 ==> tx.bitsSent == 0 && tx.bytesSent == 0)
    && (tx.packetPending ==> 1 <= tx.pendingLength <= BUFFER_SIZE)
  }

  /** Static storage is zero, the constructor loads an idle packet but no length. */
  function Boot(isMainTrack: bool): Tx {
    Tx(isMainTrack, IDLE_PACKET + [0, 0, 0], 0, 0, 0, 0, 0, false, [0, 0, 0, 0, 0, 0], 0, 0, 0, false)
  }

  function Promote(tx: Tx): (r: Tx)
    requires TxOk(tx) && tx.remainingPreambles > 0
    ensures TxOk(r)
  {
    if tx.transmitRepeats > 0 then
      tx.(transmitRepeats := tx.transmitRepeats - 1)
    else if tx.packetPending then
      tx.(transmitPacket := tx.pendingPacket,
          transmitLength := tx.pendingLength,
          transmitRepeats := tx.pendingRepeats,
          packetPending := false,
          sentResets := 0)
    else
      tx.(transmitPacket := Filler(tx.isMainTrack) + tx.transmitPacket[3..],
          transmitLength := 3,
          transmitRepeats := 0,
          sentResets := if tx.sentResets < 250 then tx.sentResets + 1 else tx.sentResets)
  }

  /** The bit the interrupt is about to choose. */
  function NextBit(tx: Tx): bool
    requires TxOk(tx)
  {
    tx.remainingPreambles > 0 || BitAt(tx.transmitPacket[tx.bytesSent], tx.bitsSent)
  }

  function Interrupt2(tx: Tx): (r: Tx)
    requires TxOk(tx)
    ensures TxOk(r)
  {
    if tx.remainingPreambles > 0 then
      var left := tx.remainingPreambles - 1;
      var t := tx.(remainingPreambles := left,
                   reminderWindowOpen := tx.transmitRepeats == 0 && 1 < left < 12);
      if left == 1 then Promote(t) else t
    else if tx.bitsSent < 8 then
      tx.(bitsSent := tx.bitsSent + 1)
    else if tx.bytesSent + 1 < tx.transmitLength then
      tx.(bitsSent := 0, bytesSent := tx.bytesSent + 1)
    else
      tx.(bitsSent := 0, bytesSent := 0, remainingPreambles := RequiredPreambles(tx.isMainTrack))
  }

  // ---------------------------------------------------------------- the main thread

  datatype Job = Job(payload: Packet, repeats: nat)

  /** Where the main thread is inside `schedulePacket`. */
  datatype Main =
    | Idle
    | Waiting(job: Job)                            // spinning on packetPending
    | Copying(job: Job, i: nat, checksum: bv8)     // about to copy byte i
    | Sizing(job: Job)                             // about to set pendingLength
    | Repeating(job: Job)                          // about to set pendingRepeats
    | Publishing(job: Job)                         // about to set packetPending
    | Tidying                                      // about to clear the reset count

  ghost predicate MainOk(tx: Tx, m: Main) {
    && (m != Idle && m != Tidying ==> |m.job.payload| <= MAX_PACKET_SIZE)
    && (m.Copying? ==> m.i <= |m.job.payload|)
    && (m.Repeating? || m.Publishing? ==> tx.pendingLength == |m.job.payload| + 1)
  }

  /** One atomic store (or one test of the flag) of `schedulePacket`. */
  function MainStep(tx: Tx, m: Main): (r: (Tx, Main))
    requires TxOk(tx) && MainOk(tx, m)
    ensures TxOk(r.0) && MainOk(r.0, r.1)
  {
    match m
    case Idle => (tx, m)
    case Waiting(job) => if tx.packetPending then (tx, m) else (tx, Copying(job, 0, 0))
    case Copying(job, i, checksum) =>
      if i < |job.payload| then
        (tx.(pendingPacket := tx.pendingPacket[i := job.payload[i]]),
         Copying(job, i + 1, checksum ^ job.payload[i]))
      else
        (tx.(pendingPacket := tx.pendingPacket[i := checksum]), Sizing(job))
    case Sizing(job) => (tx.(pendingLength := |job.payload| + 1), Repeating(job))
    case Repeating(job) => (tx.(pendingRepeats := job.repeats), Publishing(job))
    case Publishing(job) => (tx.(packetPending := true), Tidying)
    case Tidying => (tx.(sentResets := 0), Idle)
  }

  // ---------------------------------------------------------------- runs

  /** One packet put on the track, and how often.  `job` is empty for idle and reset packets. */
  datatype Airing = Airing(job: seq<Job>, packet: Packet, repeats: nat, sent: nat, cleared: bool)

  /** What a run is about: requests in order, airings in order, and bits from the first
      preamble on (the runt frame sent at power-up is not logged). */
  datatype Log = Log(requested: seq<Job>, aired: seq<Airing>, started: bool, bits: seq<bool>)

  datatype World = World(tx: Tx, main: Main, log: Log)

  datatype Event =
    | Interrupt           // one bit of the timer interrupt
    | Thread              // one store of the main thread
    | Request(job: Job)   // the main thread calls schedulePacket
    | ClearRepeats        // an acknowledgement cuts the repeats short

  function Start(isMainTrack: bool): World {
    World(Boot(isMainTrack), Idle, Log([], [], false, []))
  }

  /** The log entry made when a preamble is one bit from its end. */
  function Air(tx: Tx, aired: seq<Airing>): seq<Airing>
    requires TxOk(tx)
  {
    if tx.transmitRepeats > 0 && aired != [] then
      var last := aired[|aired| - 1];
      aired[..|aired| - 1] + [last.(sent := last.sent + 1)]
    else if tx.packetPending then
      aired + [Airing([PendingJob(tx)], tx.pendingPacket[..tx.pendingLength], tx.pendingRepeats, 1, false)]
    else
      aired + [Airing([], Filler(tx.isMainTrack), 0, 1, false)]
  }

  function PendingJob(tx: Tx): Job
    requires TxOk(tx) && tx.packetPending
  {
    Job(tx.pendingPacket[..tx.pendingLength - 1], tx.pendingRepeats)
  }

  function LogInterrupt(tx: Tx, log: Log): Log
    requires TxOk(tx)
  {
    log.(aired := if tx.remainingPreambles == 2 then Air(tx, log.aired) else log.aired,
         started := log.started || Interrupt2(tx).remainingPreambles > 0,
         bits := if log.started then log.bits + [NextBit(tx)] else log.bits)
  }

  function LogClear(log: Log): Log {
    if log.aired == [] then log else
    var last := log.aired[|log.aired| - 1];
    log.(aired := log.aired[..|log.aired| - 1] + [last.(cleared := true)])
  }

  ghost predicate WorldOk(w: World) {
    TxOk(w.tx) && MainOk(w.tx, w.main)
  }

  function Step(w: World, e: Event): (r: World)
    requires WorldOk(w)
    ensures WorldOk(r)
  {
    match e
    case Interrupt => World(Interrupt2(w.tx), w.main, LogInterrupt(w.tx, w.log))
    case Thread =>
      var (tx, main) := MainStep(w.tx, w.main);
      World(tx, main, w.log)
    case Request(job) =>
      if w.main == Idle && |job.payload| <= MAX_PACKET_SIZE then
        w.(main := Waiting(job), log := w.log.(requested := w.log.requested + [job]))
      else w
    case ClearRepeats => w.(tx := w.tx.(transmitRepeats := 0), log := LogClear(w.log))
  }

  function Run(w: World, es: seq<Event>): (r: World)
    requires WorldOk(w)
    ensures WorldOk(r)
  {
    if es == [] then w else Step(Run(w, es[..|es| - 1]), es[|es| - 1])
  }

  // ---------------------------------------------------------------- invariant: the mailbox

  /** The bytes stored so far by the main thread. */
  ghost predicate MailOk(tx: Tx, m: Main)
    requires TxOk(tx) && MainOk(tx, m)
  {
    && (m.Copying? || m.Sizing? || m.Repeating? || m.Publishing? ==> !tx.packetPending)
    && (m.Copying? ==> tx.pendingPacket[..m.i] == m.job.payload[..m.i]
                       && m.checksum == XorAll(m.job.payload[..m.i]))
    && (m.Sizing? || m.Repeating? || m.Publishing? ==>
          tx.pendingPacket[..|m.job.payload| + 1] == Checksummed(m.job.payload))
    && (m.Publishing? ==> tx.pendingRepeats == m.job.repeats)
    && (tx.packetPending ==>
          tx.pendingPacket[..tx.pendingLength] == Checksummed(PendingJob(tx).payload))
  }

  /** Requests that have not reached the track. */
  function InFlight(tx: Tx, m: Main): seq<Job>
    requires TxOk(tx)
  {
    (if tx.packetPending then [PendingJob(tx)] else []) +
    (if m == Idle || m == Tidying then [] else [m.job])
  }

  function JobsOf(aired: seq<Airing>): seq<Job> {
    if aired == [] then [] else JobsOf(aired[..|aired| - 1]) + aired[|aired| - 1].job
  }

  /** Every request is on the track or in flight: none lost, none duplicated, none reordered. */
  ghost predicate Conserved(w: World)
    requires WorldOk(w)
  {
    w.log.requested == JobsOf(w.log.aired) + InFlight(w.tx, w.main)
  }

  // ---------------------------------------------------------------- invariant: the airings

  ghost predicate AiringOk(a: Airing, isMainTrack: bool) {
    && a.packet != [] && XorAll(a.packet) == 0
    && 1 <= a.sent <= a.repeats + 1
    && |a.job| <= 1
    && (if a.job == [] then a.packet == Filler(isMainTrack) && a.repeats == 0
        else a.packet == Checksummed(a.job[0].payload) && a.repeats == a.job[0].repeats)
  }

  /** An airing that is over was sent once for each repeat and once more, unless cut short. */
  ghost predicate Complete(a: Airing) {
    a.cleared || a.sent == a.repeats + 1
  }

  ghost predicate AiredOk(tx: Tx, aired: seq<Airing>)
    requires TxOk(tx)
  {
    && (forall i :: 0 <= i < |aired| ==> AiringOk(aired[i], tx.isMainTrack))
    && (forall i :: 0 <= i < |aired| - 1 ==> Complete(aired[i]))
    && (aired == [] ==> tx.transmitRepeats == 0)
    && (aired != [] ==>
          var last := aired[|aired| - 1];
          && last.packet == tx.transmitPacket[..tx.transmitLength]
          && (if last.cleared then tx.transmitRepeats == 0
              else last.sent + tx.transmitRepeats == last.repeats + 1))
  }

  // ---------------------------------------------------------------- invariant: the bits

  /** The packets on the track, repeats written out. */
  function OnTrack(aired: seq<Airing>): seq<Packet> {
    if aired == [] then []
    else OnTrack(aired[..|aired| - 1]) + Copies(aired[|aired| - 1].packet, aired[|aired| - 1].sent)
  }

  function Copies(p: Packet, n: nat): (r: seq<Packet>)
    ensures |r| == n && forall i :: 0 <= i < n ==> r[i] == p
  {
    seq(n, _ => p)
  }

  /** A packet is chosen while its preamble is one bit from its end; from then on it is the frame
      being sent, until its last bit. */
  predicate Sending(tx: Tx) {
    tx.remainingPreambles <= 1
  }

  /** The part of the current frame that is on the track already. */
  function Partial(tx: Tx): seq<bool>
    requires TxOk(tx)
  {
    Ones(RequiredPreambles(tx.isMainTrack) - tx.remainingPreambles) +
    (if tx.remainingPreambles > 0 then []
     else Body(tx.transmitPacket[..tx.bytesSent]) + ByteBits(tx.transmitPacket[tx.bytesSent])[..tx.bitsSent])
  }

  /** The frames sent to their last bit. */
  function Finished(tx: Tx, aired: seq<Airing>): seq<Packet> {
    var ps := OnTrack(aired);
    if Sending(tx) && ps != [] then ps[..|ps| - 1] else ps
  }

  ghost predicate BitsOk(tx: Tx, log: Log)
    requires TxOk(tx)
  {
    if !log.started then
      && log.bits == [] && log.aired == []
      && tx.remainingPreambles == 0 && tx.transmitLength == 0
    else
      && (Sending(tx) ==> log.aired != [])
      && log.bits == Frames(RequiredPreambles(tx.isMainTrack), Finished(tx, log.aired)) + Partial(tx)
  }

  ghost predicate Inv(w: World) {
    && WorldOk(w)
    && MailOk(w.tx, w.main)
    && Conserved(w)
    && AiredOk(w.tx, w.log.aired)
    && BitsOk(w.tx, w.log)
  }

  // ---------------------------------------------------------------- preservation: main thread

  lemma XorStep(p: Packet, i: nat)
    requires i < |p|
    ensures XorAll(p[..i + 1]) == XorAll(p[..i]) ^ p[i]
  {
    assert p[..i + 1][..i] == p[..i];
  }

  lemma MailByCopying(tx: Tx, job: Job, i: nat, checksum: bv8)
    requires var m := Copying(job, i, checksum); TxOk(tx) && MainOk(tx, m) && MailOk(tx, m)
    ensures var m := Copying(job, i, checksum);
            var (tx', m') := MainStep(tx, m); MailOk(tx', m') && InFlight(tx', m') == InFlight(tx, m)
  {
    hide XorAll;
    var p := tx.pendingPacket;
    if i < |job.payload| {
      XorStep(job.payload, i);
      assert p[i := job.payload[i]][..i + 1] == p[..i] + [job.payload[i]];
      assert job.payload[..i + 1] == job.payload[..i] + [job.payload[i]];
    } else {
      assert job.payload[..i] == job.payload;
      assert p[i := checksum][..i + 1] == p[..i] + [checksum];
    }
  }

  lemma MailByThread(tx: Tx, m: Main)
    requires TxOk(tx) && MainOk(tx, m) && MailOk(tx, m)
    ensures var (tx', m') := MainStep(tx, m); MailOk(tx', m') && InFlight(tx', m') == InFlight(tx, m)
  {
    var (tx', m') := MainStep(tx, m);
    match m
    case Copying(job, i, checksum) =>
      MailByCopying(tx, job, i, checksum);
      hide MailOk, InFlight, MainStep;
    case Publishing(job) =>
      var n := |job.payload|;
      assert tx'.pendingPacket[..n] == tx'.pendingPacket[..n + 1][..n] == job.payload;
    case _ =>
  }

  /** The transmit side of the state, which the main thread never touches. */
  ghost predicate SameTransmit(a: Tx, b: Tx) {
    b == a.(packetPending := b.packetPending, pendingPacket := b.pendingPacket,
            pendingLength := b.pendingLength, pendingRepeats := b.pendingRepeats,
            sentResets := b.sentResets)
  }

  lemma TransmitSideKept(a: Tx, b: Tx, log: Log)
    requires TxOk(a) && TxOk(b) && SameTransmit(a, b)
    requires AiredOk(a, log.aired) && BitsOk(a, log)
    ensures AiredOk(b, log.aired) && BitsOk(b, log)
  {
    hide OnTrack, Frames, XorAll, Checksummed, Body, ByteBits;
    assert Partial(a) == Partial(b);
    assert Finished(a, log.aired) == Finished(b, log.aired);
    hide Partial, Finished;
  }

  lemma ThreadTouches(tx: Tx, m: Main)
    requires TxOk(tx) && MainOk(tx, m)
    ensures SameTransmit(tx, MainStep(tx, m).0)
  {
  }

  lemma StepThread(w: World)
    requires Inv(w)
    ensures Inv(Step(w, Thread))
  {
    MailByThread(w.tx, w.main);
    ThreadTouches(w.tx, w.main);
    hide MainStep, MailOk, SameTransmit, AiredOk, BitsOk, InFlight, JobsOf;
    TransmitSideKept(w.tx, Step(w, Thread).tx, w.log);
  }

  lemma MailByRequest(tx: Tx, job: Job)
    requires TxOk(tx) && MailOk(tx, Idle) && |job.payload| <= MAX_PACKET_SIZE
    ensures MainOk(tx, Waiting(job)) && MailOk(tx, Waiting(job)) && InFlight(tx, Waiting(job)) == InFlight(tx, Idle) + [job]
  {
    hide Checksummed, XorAll;
  }

  lemma BitsIgnoreRequests(tx: Tx, log: Log, log': Log)
    requires TxOk(tx) && BitsOk(tx, log) && log' == log.(requested := log'.requested)
    ensures BitsOk(tx, log')
  {
    hide Frames, Finished, Partial;
  }

  lemma StepRequest(w: World, job: Job)
    requires Inv(w)
    ensures Inv(Step(w, Request(job)))
  {
    if w.main == Idle && |job.payload| <= MAX_PACKET_SIZE {
      MailByRequest(w.tx, job);
      hide AiredOk, BitsOk, JobsOf, MailOk, InFlight, MainOk;
      var w' := Step(w, Request(job));
      assert w'.log.requested == w.log.requested + [job] && w'.tx == w.tx && w'.log == w.log.(requested := w'.log.requested);
      BitsIgnoreRequests(w.tx, w.log, w'.log);
    }
  }

  // ---------------------------------------------------------------- preservation: clearRepeats

  /** Replacing the last airing by one with the same job changes no job. */
  lemma JobsSameLast(aired: seq<Airing>, a: Airing)
    requires aired != [] && a.job == aired[|aired| - 1].job
    ensures JobsOf(aired[..|aired| - 1] + [a]) == JobsOf(aired)
  {
    var fresh' := aired[..|aired| - 1] + [a];
    assert fresh'[..|fresh'| - 1] == aired[..|aired| - 1];
  }

  lemma OnTrackLast(aired: seq<Airing>, a: Airing)
    requires aired != []
    ensures OnTrack(aired[..|aired| - 1] + [a]) == OnTrack(aired[..|aired| - 1]) + Copies(a.packet, a.sent)
  {
    var fresh' := aired[..|aired| - 1] + [a];
    assert fresh'[..|fresh'| - 1] == aired[..|aired| - 1];
  }

  lemma AiredByClear(tx: Tx, log: Log)
    requires TxOk(tx) && AiredOk(tx, log.aired)
    ensures var log' := LogClear(log);
            && AiredOk(tx.(transmitRepeats := 0), log'.aired)
            && JobsOf(log'.aired) == JobsOf(log.aired)
            && OnTrack(log'.aired) == OnTrack(log.aired)
  {
    var aired := log.aired;
    hide JobsOf, OnTrack, XorAll, Checksummed, Filler;
    if aired != [] {
      var last := aired[|aired| - 1].(cleared := true);
      JobsSameLast(aired, last);
      OnTrackLast(aired, aired[|aired| - 1]);
      OnTrackLast(aired, last);
      assert aired[..|aired| - 1] + [aired[|aired| - 1]] == aired;
      assert LogClear(log).aired == aired[..|aired| - 1] + [last];
    }
  }

  lemma BitsByClear(tx: Tx, log: Log)
    requires TxOk(tx) && AiredOk(tx, log.aired) && BitsOk(tx, log)
    ensures BitsOk(tx.(transmitRepeats := 0), LogClear(log))
  {
    hide Frames, OnTrack, Body, ByteBits, JobsOf, XorAll;
    AiredByClear(tx, log);
    var tx' := tx.(transmitRepeats := 0);
    assert Partial(tx') == Partial(tx);
    assert Finished(tx', LogClear(log).aired) == Finished(tx, log.aired);
  }

  lemma StepClear(w: World)
    requires Inv(w)
    ensures Inv(Step(w, ClearRepeats))
  {
    hide BitsOk, AiredOk;
    AiredByClear(w.tx, w.log);
    BitsByClear(w.tx, w.log);
    var w' := Step(w, ClearRepeats);
    assert InFlight(w'.tx, w'.main) == InFlight(w.tx, w.main);
  }

  // ---------------------------------------------------------------- preservation: the interrupt

  lemma FillerXors(isMainTrack: bool)
    ensures XorAll(Filler(isMainTrack)) == 0 && |Filler(isMainTrack)| == 3
  {
    var f := Filler(isMainTrack);
    assert f[..2][..1][..0] == [];
    assert XorAll(f[..2][..1]) == f[0];
    assert XorAll(f[..2]) == f[0] ^ f[1];
  }

  /** A repeat extends the last airing. */
  lemma AirAgain(tx: Tx, aired: seq<Airing>)
    requires TxOk(tx) && tx.remainingPreambles > 0 && AiredOk(tx, aired)
    requires tx.transmitRepeats > 0
    ensures AiredOk(Promote(tx), Air(tx, aired))
    ensures JobsOf(Air(tx, aired)) == JobsOf(aired)
    ensures OnTrack(Air(tx, aired)) == OnTrack(aired) + [tx.transmitPacket[..tx.transmitLength]]
  {
    hide XorAll, Checksummed;
    var last := aired[|aired| - 1];
    var again := last.(sent := last.sent + 1);
    JobsSameLast(aired, again);
    OnTrackLast(aired, again);
    assert Copies(last.packet, last.sent) + [last.packet] == Copies(last.packet, last.sent + 1);
  }

  /** Otherwise a new airing begins. */
  lemma AirNew(aired: seq<Airing>, a: Airing)
    requires a.sent == 1
    ensures JobsOf(aired + [a]) == JobsOf(aired) + a.job
    ensures OnTrack(aired + [a]) == OnTrack(aired) + [a.packet]
  {
    var longer := aired + [a];
    assert longer[..|longer| - 1] == aired;
    assert Copies(a.packet, 1) == [a.packet];
  }

  lemma AirNewOk(tx: Tx, aired: seq<Airing>, tx': Tx, a: Airing)
    requires TxOk(tx) && AiredOk(tx, aired) && tx.transmitRepeats == 0
    requires TxOk(tx') && tx'.isMainTrack == tx.isMainTrack
    requires AiringOk(a, tx.isMainTrack) && a.sent == 1 && !a.cleared
    requires a.packet == tx'.transmitPacket[..tx'.transmitLength] && tx'.transmitRepeats == a.repeats
    ensures AiredOk(tx', aired + [a])
  {
    hide AiringOk;
  }

  /** A packet leaves the mailbox. */
  lemma AirPending(tx: Tx, m: Main, aired: seq<Airing>)
    requires TxOk(tx) && tx.remainingPreambles > 0 && AiredOk(tx, aired)
    requires MainOk(tx, m) && MailOk(tx, m)
    requires tx.transmitRepeats == 0 && tx.packetPending
    ensures AiredOk(Promote(tx), Air(tx, aired))
    ensures JobsOf(Air(tx, aired)) == JobsOf(aired) + [PendingJob(tx)]
    ensures OnTrack(Air(tx, aired)) == OnTrack(aired) + [tx.pendingPacket[..tx.pendingLength]]
  {
    hide OnTrack, JobsOf;
    var job := PendingJob(tx);
    var a := Airing([job], tx.pendingPacket[..tx.pendingLength], tx.pendingRepeats, 1, false);
    ChecksummedXorsToZero(job.payload);
    assert AiringOk(a, tx.isMainTrack) by { hide AiredOk; }
    AirNew(aired, a);
    AirNewOk(tx, aired, Promote(tx), a);
  }

  /** Nothing is waiting: an idle or a reset packet goes out. */
  lemma AirFiller(tx: Tx, aired: seq<Airing>)
    requires TxOk(tx) && tx.remainingPreambles > 0 && AiredOk(tx, aired)
    requires tx.transmitRepeats == 0 && !tx.packetPending
    ensures AiredOk(Promote(tx), Air(tx, aired))
    ensures JobsOf(Air(tx, aired)) == JobsOf(aired)
    ensures OnTrack(Air(tx, aired)) == OnTrack(aired) + [Filler(tx.isMainTrack)]
  {
    hide OnTrack, JobsOf;
    var a := Airing([], Filler(tx.isMainTrack), 0, 1, false);
    FillerXors(tx.isMainTrack);
    AirNew(aired, a);
    assert Promote(tx).transmitPacket[..3] == Filler(tx.isMainTrack);
    AirNewOk(tx, aired, Promote(tx), a);
    assert JobsOf(aired) + [] == JobsOf(aired);
  }

  /** What `promotePendingPacket` does to the airings and to the requests in flight. */
  lemma AiredByPromote(tx: Tx, m: Main, aired: seq<Airing>)
    requires TxOk(tx) && tx.remainingPreambles > 0
    requires MainOk(tx, m) && MailOk(tx, m) && AiredOk(tx, aired)
    ensures AiredOk(Promote(tx), Air(tx, aired))
    ensures JobsOf(Air(tx, aired)) + InFlight(Promote(tx), m) == JobsOf(aired) + InFlight(tx, m)
    ensures OnTrack(Air(tx, aired)) ==
            OnTrack(aired) + [Promote(tx).transmitPacket[..Promote(tx).transmitLength]]
  {
    hide OnTrack, JobsOf, MailOk, AiredOk, Air, InFlight, MainOk;
    InFlightByPromote(tx, m);
    if tx.transmitRepeats > 0 {
      AirAgain(tx, aired);
    } else if tx.packetPending {
      AirPending(tx, m, aired);
    } else {
      AirFiller(tx, aired);
      assert Promote(tx).transmitPacket[..3] == Filler(tx.isMainTrack);
    }
  }

  lemma InFlightByPromote(tx: Tx, m: Main)
    requires TxOk(tx) && tx.remainingPreambles > 0
    ensures InFlight(tx, m) == (if tx.transmitRepeats == 0 && tx.packetPending then [PendingJob(tx)] else []) + InFlight(Promote(tx), m)
  {
  }

  lemma OnesGrow(k: nat)
    ensures Ones(k) + [true] == Ones(k + 1)
  {
  }

  /** One more preamble bit. */
  lemma PartialPreamble(tx: Tx)
    requires TxOk(tx) && tx.remainingPreambles > 0
    ensures Partial(tx) + [true] == Partial(Interrupt2(tx))
  {
    var n, k := RequiredPreambles(tx.isMainTrack), RequiredPreambles(tx.isMainTrack) - tx.remainingPreambles;
    OnesGrow(k);
    var tx' := Interrupt2(tx);
    assert tx'.remainingPreambles == tx.remainingPreambles - 1 && tx'.isMainTrack == tx.isMainTrack;
    assert Partial(tx) == Ones(k);
    if tx'.remainingPreambles == 0 {
      assert tx'.transmitPacket[..0] == [] && ByteBits(tx'.transmitPacket[0])[..0] == [];
      assert Body([]) == [];
      assert Partial(tx') == Ones(k + 1) + ([] + []);
    }
  }

  /** One more bit of a byte, perhaps its last. */
  lemma PartialByte(tx: Tx)
    requires TxOk(tx) && tx.remainingPreambles == 0
    ensures var n := RequiredPreambles(tx.isMainTrack);
            Partial(tx) + [NextBit(tx)] ==
            if tx.bitsSent < 8 then Partial(tx.(bitsSent := tx.bitsSent + 1))
            else Frame(n, tx.transmitPacket[..tx.bytesSent + 1])
  {
    hide ByteBits, BitAt;
    var n := RequiredPreambles(tx.isMainTrack);
    var b := tx.transmitPacket[tx.bytesSent];
    var front := Body(tx.transmitPacket[..tx.bytesSent]);
    BitOfByte(b, tx.bitsSent);
    assert (Ones(n) + (front + ByteBits(b)[..tx.bitsSent])) + [NextBit(tx)]
        == Ones(n) + (front + ByteBits(b)[..tx.bitsSent + 1]);
    if tx.bitsSent == 8 {
      var upto := tx.transmitPacket[..tx.bytesSent + 1];
      assert upto[..|upto| - 1] == tx.transmitPacket[..tx.bytesSent];
      assert ByteBits(b)[..9] == ByteBits(b);
    }
  }

  lemma BitOfByte(b: bv8, k: nat)
    requires k < 9
    ensures ByteBits(b)[..k] + [BitAt(b, k)] == ByteBits(b)[..k + 1]
  {
  }

  lemma BitsByInterruptInPreamble(tx: Tx, m: Main, log: Log)
    requires TxOk(tx) && MainOk(tx, m) && MailOk(tx, m)
    requires AiredOk(tx, log.aired) && BitsOk(tx, log)
    requires log.started && tx.remainingPreambles > 0
    ensures BitsOk(Interrupt2(tx), LogInterrupt(tx, log))
  {
    hide Partial, Frames, OnTrack, AiredOk, MailOk;
    PartialPreamble(tx);
    var tx', log' := Interrupt2(tx), LogInterrupt(tx, log);
    if tx.remainingPreambles == 2 {
      AiredByPromote(tx, m, log.aired);
      PromotedOnTrack(tx, m, log.aired);
    }
    assert Finished(tx', log'.aired) == Finished(tx, log.aired);
    var f := Frames(RequiredPreambles(tx.isMainTrack), Finished(tx, log.aired));
    assert (f + Partial(tx)) + [true] == f + (Partial(tx) + [true]);
  }

  lemma PromotedOnTrack(tx: Tx, m: Main, aired: seq<Airing>)
    requires TxOk(tx) && MainOk(tx, m) && MailOk(tx, m)
    requires AiredOk(tx, aired) && tx.remainingPreambles == 2
    ensures Air(tx, aired) != []
    ensures Finished(Interrupt2(tx), Air(tx, aired)) == Finished(tx, aired)
  {
    hide OnTrack, AiredOk, MailOk;
    AiredByPromote(tx, m, aired);
    var ps := OnTrack(Air(tx, aired));
    assert ps[..|ps| - 1] == OnTrack(aired);
    assert Interrupt2(tx).remainingPreambles == 1;
  }

  /** The packet being sent is the last one on the track. */
  lemma CurrentPacket(tx: Tx, aired: seq<Airing>)
    requires TxOk(tx) && AiredOk(tx, aired) && aired != []
    ensures OnTrack(aired) != []
    ensures OnTrack(aired)[|OnTrack(aired)| - 1] == tx.transmitPacket[..tx.transmitLength] != []
  {
    hide XorAll, Checksummed, Filler;
    var last := aired[|aired| - 1];
    assert AiringOk(last, tx.isMainTrack);
    assert Copies(last.packet, last.sent)[last.sent - 1] == last.packet;
  }

  lemma BitsByInterruptInBody(tx: Tx, log: Log)
    requires TxOk(tx)
    requires AiredOk(tx, log.aired) && BitsOk(tx, log)
    requires log.started && tx.remainingPreambles == 0
    ensures BitsOk(Interrupt2(tx), LogInterrupt(tx, log))
  {
    hide Partial, OnTrack, AiredOk, NextBit;
    PartialByte(tx);
    CurrentPacket(tx, log.aired);
    var n := RequiredPreambles(tx.isMainTrack);
    var tx', log' := Interrupt2(tx), LogInterrupt(tx, log);
    var done := Finished(tx, log.aired);
    var f := Frames(n, done);
    assert (f + Partial(tx)) + [NextBit(tx)] == f + (Partial(tx) + [NextBit(tx)]);
    if tx.bitsSent < 8 {
      assert Finished(tx', log'.aired) == done;
    } else if tx.bytesSent + 1 < tx.transmitLength {
      assert Finished(tx', log'.aired) == done;
      assert Partial(tx') == Frame(n, tx.transmitPacket[..tx.bytesSent + 1]) by {
        PartialAtByte(tx');
      }
    } else {
      var ps := OnTrack(log.aired);
      assert Finished(tx', log'.aired) == ps && ps[..|ps| - 1] == done;
      assert tx.bytesSent + 1 == tx.transmitLength;
      assert Partial(tx') == [] by { PartialAtEnd(tx'); }
    }
  }

  lemma PartialAtByte(tx: Tx)
    requires TxOk(tx) && tx.remainingPreambles == 0 && tx.bitsSent == 0
    ensures Partial(tx) == Frame(RequiredPreambles(tx.isMainTrack), tx.transmitPacket[..tx.bytesSent])
  {
  }

  lemma PartialAtEnd(tx: Tx)
    requires TxOk(tx) && tx.remainingPreambles == RequiredPreambles(tx.isMainTrack)
    ensures Partial(tx) == []
  {
  }

  lemma BitsByInterrupt(w: World)
    requires Inv(w)
    ensures BitsOk(Interrupt2(w.tx), LogInterrupt(w.tx, w.log))
  {
    var tx, log := w.tx, w.log;
    if !log.started {
      hide Frames;
      var tx', log' := Interrupt2(tx), LogInterrupt(tx, log);
      if log'.started {
        PartialAtEnd(tx');
        assert Finished(tx', []) == [];
        assert Frames(RequiredPreambles(tx.isMainTrack), []) + [] == [] by { FramesOfNone(RequiredPreambles(tx.isMainTrack)); }
      }
    } else if tx.remainingPreambles > 0 {
      hide BitsOk, AiredOk;
      BitsByInterruptInPreamble(tx, w.main, log);
    } else {
      hide BitsOk, AiredOk;
      BitsByInterruptInBody(tx, log);
    }
  }

  lemma FramesOfNone(n: nat)
    ensures Frames(n, []) == []
  {
  }

  /** The interrupt leaves the mailbox contents alone; it can only take the packet out. */
  lemma MailByInterrupt(tx: Tx, m: Main)
    requires TxOk(tx) && MainOk(tx, m) && MailOk(tx, m)
    ensures MailOk(Interrupt2(tx), m)
  {
    hide XorAll, Checksummed;
    var tx' := Interrupt2(tx);
    assert tx'.pendingPacket == tx.pendingPacket && tx'.pendingLength == tx.pendingLength
        && tx'.pendingRepeats == tx.pendingRepeats;
    assert tx'.packetPending ==> tx.packetPending;
  }

  lemma AiredByInterrupt(w: World)
    requires Inv(w)
    ensures var tx', log' := Interrupt2(w.tx), LogInterrupt(w.tx, w.log);
            && AiredOk(tx', log'.aired)
            && JobsOf(log'.aired) + InFlight(tx', w.main) == JobsOf(w.log.aired) + InFlight(w.tx, w.main)
  {
    hide BitsOk, Conserved, MailOk, AiringOk, JobsOf, XorAll;
    var tx, tx', log' := w.tx, Interrupt2(w.tx), LogInterrupt(w.tx, w.log);
    if tx.remainingPreambles == 2 {
      hide AiredOk;
      AiredByPromote(tx, w.main, w.log.aired);
      PromoteIgnoresPreamble(tx, tx', log'.aired, w.main);
    } else {
      assert tx'.transmitPacket == tx.transmitPacket && tx'.transmitLength == tx.transmitLength;
      assert InFlight(tx', w.main) == InFlight(tx, w.main);
    }
  }

  /** Promotion does not depend on the preamble counter or the reminder window. */
  lemma PromoteIgnoresPreamble(tx: Tx, tx': Tx, aired: seq<Airing>, m: Main)
    requires TxOk(tx) && tx.remainingPreambles == 2 && tx' == Interrupt2(tx)
    requires AiredOk(Promote(tx), aired)
    ensures AiredOk(tx', aired)
    ensures InFlight(tx', m) == InFlight(Promote(tx), m)
  {
    hide AiringOk, XorAll;
    assert SameButPreamble(Promote(tx), tx');
  }

  ghost predicate SameButPreamble(a: Tx, b: Tx) {
    b == a.(remainingPreambles := b.remainingPreambles, reminderWindowOpen := b.reminderWindowOpen)
  }

  lemma StepInterrupt(w: World)
    requires Inv(w)
    ensures Inv(Step(w, Interrupt))
  {
    BitsByInterrupt(w);
    AiredByInterrupt(w);
    MailByInterrupt(w.tx, w.main);
    hide BitsOk, AiredOk, MailOk;
  }

  // ---------------------------------------------------------------- main results

  lemma {:induction false} RunKeepsInv(start: World, es: seq<Event>)
    requires Inv(start)
    ensures Inv(Run(start, es))
    decreases |es|
  {
    if es != [] {
      var w := Run(start, es[..|es| - 1]);
      RunKeepsInv(start, es[..|es| - 1]);
      match es[|es| - 1]
      case Interrupt => StepInterrupt(w);
      case Thread => StepThread(w);
      case Request(job) => StepRequest(w, job);
      case ClearRepeats => StepClear(w);
    }
  }

  /** Every run, whatever the interleaving, keeps the invariant. */
  lemma RunInv(isMainTrack: bool, es: seq<Event>)
    ensures Inv(Run(Start(isMainTrack), es))
  {
    RunKeepsInv(Start(isMainTrack), es);
  }

  /** Hand-over without a lock: in every interleaving the requests that have reached the track,
      followed by at most two still on their way, are exactly the requests made, in order. */
  lemma HandOver(isMainTrack: bool, es: seq<Event>)
    ensures var w := Run(Start(isMainTrack), es);
            && w.log.requested == JobsOf(w.log.aired) + InFlight(w.tx, w.main)
            && |InFlight(w.tx, w.main)| <= 2
  {
    RunInv(isMainTrack, es);
    hide AiredOk, BitsOk, MailOk;
  }

  /** What went on the track is never half written and is repeated as asked: every airing carries
      its own job with a checksum that makes it XOR to zero, or is a filler; every airing but the
      one in progress was sent exactly repeats + 1 times unless an acknowledgement cut it short,
      and none is sent more often. */
  lemma AiringsAreWhole(isMainTrack: bool, es: seq<Event>, i: nat)
    requires i < |Run(Start(isMainTrack), es).log.aired|
    ensures var w := Run(Start(isMainTrack), es);
            && AiringOk(w.log.aired[i], isMainTrack)
            && (i < |w.log.aired| - 1 ==> Complete(w.log.aired[i]))
  {
    RunInv(isMainTrack, es);
    TrackIsFixed(isMainTrack, es);
    hide BitsOk, MailOk, AiringOk, Complete;
  }

  lemma TrackIsFixed(isMainTrack: bool, es: seq<Event>)
    ensures Run(Start(isMainTrack), es).tx.isMainTrack == isMainTrack
  {
    TrackStays(Start(isMainTrack), es);
  }

  lemma {:induction false} TrackStays(w: World, es: seq<Event>)
    requires WorldOk(w)
    ensures Run(w, es).tx.isMainTrack == w.tx.isMainTrack
    decreases |es|
  {
    if es != [] {
      TrackStays(w, es[..|es| - 1]);
      StepSameTrack(Run(w, es[..|es| - 1]), es[|es| - 1]);
      hide Step;
    }
  }

  lemma StepSameTrack(w: World, e: Event)
    requires WorldOk(w)
    ensures Step(w, e).tx.isMainTrack == w.tx.isMainTrack
  {
    hide Air, BitAt, RequiredPreambles;
  }

  // ------------------------------------------------ what a receiver makes of the bits

  lemma {:induction false} DeliveriesGrow(h: Heard, a: seq<bool>, b: seq<bool>)
    requires RxOk(h.state)
    ensures Hear(h, a).packets <= Hear(h, a + b).packets
    decreases |b|
  {
    if b == [] {
      assert a + b == a;
    } else {
      var ab := a + b;
      assert ab[..|ab| - 1] == a + b[..|b| - 1];
      DeliveriesGrow(h, a, b[..|b| - 1]);
    }
  }

  /** An unfinished frame can be finished. */
  lemma PartialExtends(tx: Tx) returns (p: Packet, rest: seq<bool>)
    requires TxOk(tx)
    ensures p != [] && Partial(tx) + rest == Frame(RequiredPreambles(tx.isMainTrack), p)
  {
    var n := RequiredPreambles(tx.isMainTrack);
    hide ByteBits, RequiredPreambles;
    if tx.remainingPreambles > 0 {
      p, rest := [0], Ones(tx.remainingPreambles) + Body([0]);
      hide Body;
      assert Ones(n - tx.remainingPreambles) + Ones(tx.remainingPreambles) == Ones(n);
      assert Partial(tx) + rest == Ones(n) + Body([0]);
    } else {
      p := tx.transmitPacket[..tx.bytesSent + 1];
      rest := ByteBits(tx.transmitPacket[tx.bytesSent])[tx.bitsSent..];
      PartialInByte(tx, p, rest);
    }
  }

  lemma PartialInByte(tx: Tx, p: Packet, rest: seq<bool>)
    requires TxOk(tx) && tx.remainingPreambles == 0
    requires p == tx.transmitPacket[..tx.bytesSent + 1] && rest == ByteBits(tx.transmitPacket[tx.bytesSent])[tx.bitsSent..]
    ensures Partial(tx) + rest == Frame(RequiredPreambles(tx.isMainTrack), p)
  {
    var n, b := RequiredPreambles(tx.isMainTrack), tx.transmitPacket[tx.bytesSent];
    assert p[..|p| - 1] == tx.transmitPacket[..tx.bytesSent];
    assert Body(p) == Body(p[..|p| - 1]) + ByteBits(b);
    hide ByteBits, RequiredPreambles, Body;
    assert ByteBits(b)[..tx.bitsSent] + rest == ByteBits(b);
    assert Partial(tx) + rest == Ones(n) + (Body(p[..|p| - 1]) + ByteBits(b));
  }

  lemma PartialEmpty(tx: Tx)
    requires TxOk(tx)
    ensures Partial(tx) == [] <==> tx.remainingPreambles == RequiredPreambles(tx.isMainTrack)
    ensures Partial(tx) != [] ==> Partial(tx)[0]
  {
  }

  /** An unfinished frame delivers what was held before it, by its first bit, and nothing else. */
  lemma HearPartial(h: Heard, tx: Tx, held: Packet)
    requires TxOk(tx) && Holding(h.state, held) && Partial(tx) != []
    ensures Hear(h, Partial(tx)).packets == h.packets + [held]
  {
    hide Partial, Frame;
    var n := RequiredPreambles(tx.isMainTrack);
    var p, rest := PartialExtends(tx);
    HearNextFrame(h, n, p, held);
    DeliveriesGrow(h, Partial(tx), rest);
    PartialEmpty(tx);
    var tail := Partial(tx)[1..];
    assert [true] + tail == Partial(tx);
    DeliveriesGrow(h, [true], tail);
    assert Hear(h, [true]) == RxStep(Hear(h, []), true);
  }

  lemma HearPartialHunting(h: Heard, tx: Tx)
    requires TxOk(tx) && h.state.Hunt?
    ensures Hear(h, Partial(tx)).packets == h.packets
  {
    hide Partial, Frame;
    var p, rest := PartialExtends(tx);
    HearFirstFrame(h, RequiredPreambles(tx.isMainTrack), p);
    DeliveriesGrow(h, Partial(tx), rest);
    DeliveriesGrow(h, [], Partial(tx));
    assert [] + Partial(tx) == Partial(tx);
  }

  /** Leaves out the last finished frame if its end bit is not out yet. */
  function WithoutHeld(done: seq<Packet>, tx: Tx): seq<Packet>
    requires TxOk(tx)
  {
    if Partial(tx) == [] && done != [] then done[..|done| - 1] else done
  }

  /** The frames whose end bit is on the track. */
  function Ended(w: World): seq<Packet>
    requires WorldOk(w)
  {
    WithoutHeld(Finished(w.tx, w.log.aired), w.tx)
  }

  lemma {:induction false} OnTrackNonEmpty(aired: seq<Airing>, isMainTrack: bool)
    requires forall i :: 0 <= i < |aired| ==> AiringOk(aired[i], isMainTrack)
    ensures NonEmpty(OnTrack(aired))
    decreases |aired|
  {
    if aired != [] {
      OnTrackNonEmpty(aired[..|aired| - 1], isMainTrack);
    }
  }

  lemma FinishedNonEmpty(w: World)
    requires Inv(w)
    ensures NonEmpty(Finished(w.tx, w.log.aired))
  {
    hide BitsOk, MailOk;
    OnTrackNonEmpty(w.log.aired, w.tx.isMainTrack);
    hide AiredOk, OnTrack;
  }

  /** The framing round trip.  From the first preamble on, a receiver decodes the bits chosen by
      the interrupt to exactly the packets put on the track, in order: each airing's packet as
      often as it was sent, up to the last frame whose end bit is out. */
  lemma FramingRoundTrip(isMainTrack: bool, es: seq<Event>)
    requires Run(Start(isMainTrack), es).log.started
    ensures var w := Run(Start(isMainTrack), es);
            Listen(w.log.bits).packets == Ended(w)
  {
    var w := Run(Start(isMainTrack), es);
    RunInv(isMainTrack, es);
    FinishedNonEmpty(w);
    hide Run, AiredOk, MailOk, Conserved, OnTrack, Partial, Finished;
    var h := Heard(Hunt(0), []);
    var n, done := RequiredPreambles(w.tx.isMainTrack), Finished(w.tx, w.log.aired);
    HearConcat(h, Frames(n, done), Partial(w.tx));
    DecodeStream(n, done, w.tx);
  }

  lemma HearNothing(h: Heard)
    requires RxOk(h.state)
    ensures Hear(h, []) == h
  {
  }

  lemma DecodeStream(n: nat, done: seq<Packet>, tx: Tx)
    requires TxOk(tx) && n == RequiredPreambles(tx.isMainTrack) && NonEmpty(done)
    ensures Hear(Listen(Frames(n, done)), Partial(tx)).packets ==
            WithoutHeld(done, tx)
  {
    hide Partial, RxStep, Hear, Frames;
    var h := Heard(Hunt(0), []);
    if done == [] {
      FramesOfNone(n);
      HearNothing(h);
      HearPartialHunting(h, tx);
    } else {
      HearFrames(h, n, done);
      HearNothing(Listen(Frames(n, done)));
      if Partial(tx) != [] {
        HearPartial(Listen(Frames(n, done)), tx, done[|done| - 1]);
        assert done[..|done| - 1] + [done[|done| - 1]] == done;
      }
    }
  }

  /** Joining mid-stream.  A receiver switched on at any bit delivers, from some frame k on, every
      packet up to the last ended one, and nothing else: it always locks on a true boundary, and
      misses at most the frame it was switched on in. */
  lemma JoinAnywhere(isMainTrack: bool, es: seq<Event>, i: nat) returns (k: nat)
    requires Run(Start(isMainTrack), es).log.started
    requires i <= |Run(Start(isMainTrack), es).log.bits|
    ensures var w := Run(Start(isMainTrack), es);
            && k <= |Ended(w)|
            && Listen(w.log.bits[i..]).packets == Ended(w)[k..]
            && (k > 0 ==> FrameStart(RequiredPreambles(isMainTrack), Ended(w), k - 1) <= i)
  {
    var w := Run(Start(isMainTrack), es);
    RunInv(isMainTrack, es);
    TrackIsFixed(isMainTrack, es);
    FinishedNonEmpty(w);
    hide Run, AiredOk, MailOk, Conserved, OnTrack, Partial, Finished;
    var n, done := RequiredPreambles(w.tx.isMainTrack), Finished(w.tx, w.log.aired);
    k := JoinStream(n, done, w.tx, i);
  }

  lemma JoinStream(n: nat, done: seq<Packet>, tx: Tx, i: nat) returns (k: nat)
    requires TxOk(tx) && n == RequiredPreambles(tx.isMainTrack) && NonEmpty(done)
    requires i <= |Frames(n, done) + Partial(tx)|
    ensures var ended := WithoutHeld(done, tx);
            && k <= |ended|
            && Listen((Frames(n, done) + Partial(tx))[i..]).packets == ended[k..]
            && (k > 0 ==> FrameStart(n, ended, k - 1) <= i)
  {
    hide Partial, Frames;
    var h := Heard(Hunt(0), []);
    var f := Frames(n, done);
    if i <= |f| {
      assert (f + Partial(tx))[i..] == f[i..] + Partial(tx);
      HearConcat(h, f[i..], Partial(tx));
      var k0 := Resynchronises(n, done, i);
      k := FinishJoin(Listen(f[i..]), done, tx, k0);
      if k > 0 {
        StartOrder(n, done, WithoutHeld(done, tx), k - 1, k0 - 1);
      }
    } else {
      assert (f + Partial(tx))[i..] == Partial(tx)[i - |f|..];
      JoinInPartial(tx, i - |f|);
      k := |WithoutHeld(done, tx)|;
      if k > 0 {
        StartOrder(n, done, WithoutHeld(done, tx), k - 1, |done|);
        assert done[..|done|] == done;
      }
    }
  }

  lemma StartOrder(n: nat, done: seq<Packet>, ended: seq<Packet>, a: nat, b: nat)
    requires ended <= done && a <= |ended| && a <= b <= |done|
    ensures FrameStart(n, ended, a) <= FrameStart(n, done, b)
  {
    assert ended[..a] == done[..a] && done[..b] == done[..a] + done[a..b];
    FramesConcat(n, done[..a], done[a..b]);
  }

  lemma FinishJoin(r: Heard, done: seq<Packet>, tx: Tx, k: nat) returns (k': nat)
    requires TxOk(tx) && CaughtFrom(r, done, k)
    ensures var ended := WithoutHeld(done, tx);
            k' <= |ended| && k' <= k && Hear(r, Partial(tx)).packets == ended[k'..]
  {
    hide Partial;
    if k == |done| {
      HearPartialHunting(r, tx);
      k' := |WithoutHeld(done, tx)|;
    } else {
      k' := k;
      if Partial(tx) != [] {
        HearPartial(r, tx, done[|done| - 1]);
        assert done[k..|done| - 1] + [done[|done| - 1]] == done[k..];
      } else {
        assert done[..|done| - 1][k..] == done[k..|done| - 1];
      }
    }
  }

  lemma JoinInPartial(tx: Tx, j: nat)
    requires TxOk(tx) && j <= |Partial(tx)|
    ensures Listen(Partial(tx)[j..]).packets == []
  {
    hide Partial, Frame;
    var n := RequiredPreambles(tx.isMainTrack);
    var p, rest := PartialExtends(tx);
    assert Frame(n, p)[j..] == Partial(tx)[j..] + rest;
    JoinInFrame(n, p, j);
    DeliveriesGrow(Heard(Hunt(0), []), Partial(tx)[j..], rest);
  }
}
