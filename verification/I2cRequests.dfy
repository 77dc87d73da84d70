/** The non-blocking I2C manager: requests queue up, and interrupts, timeouts and further requests drive
    the one at the head through its bus transfers, including those that select a multiplexer channel.

    The main results are about every run: requests are served in order and exactly once, each is
    started a bounded number of times, a payload follows its own channel selection, and buffer
    indices stay inside the buffers. */
module I2cRequests {

  const MAX_I2C_RETRIES: nat := 2

  datatype Status = OK | NEGATIVE_ACKNOWLEDGE | TRANSMIT_ERROR | TIMEOUT | PENDING

  datatype Bus = FREE | ACTIVE | COMPLETED

  datatype Phase = OFF | PROLOG | PAYLOAD | EPILOG

  /** A request block.  With `muxed`, a multiplexer is addressed first; device 0 means only that. */
  datatype Rb = Rb(id: nat, muxed: bool, device: nat, writeLen: nat, readLen: nat, readOnly: bool, noRetry: bool)

  /** Counters of the transfer under way: what is left, what has been done since the last start
      condition, the sizes of the buffers, and what arbitration losses have undone. */
  datatype Transfer = Transfer(toSend: nat, toReceive: nat, tx: nat, rx: nat, sendLen: nat, receiveLen: nat, lostTx: nat, lostRx: nat)

  /** What happens on the bus: a transfer begins or ends, and a request leaves the queue. */
  datatype Event =
    | Began(rb: Rb, phase: Phase)
    | Ended(id: nat, status: Status)
    | Left(id: nat, status: Status)

  datatype Log = Log(accepted: seq<nat>, done: seq<nat>, bus: seq<Event>)

  /** `starts` counts startTransaction for the request at the head, and `first` is the retry counter it
      found the first time. */
  datatype Manager = Manager(
    queue: seq<Rb>, current: bool, bus: Bus, completion: Status, overall: Status, phase: Phase, retry: nat,
    transfer: Transfer, muxCount: nat, status: map<nat, Status>, starts: nat, first: nat, log: Log)

  function Initial(muxCount: nat): Manager {
    Manager([], false, FREE, OK, OK, OFF, 0, Transfer(0, 0, 0, 0, 0, 0, 0, 0), muxCount, map[], 0, 0, Log([], [], []))
  }

  // ---------------------------------------------------------------- steps

  function Fresh(sendLen: nat, receiveLen: nat): Transfer {
    Transfer(sendLen, receiveLen, 0, 0, sendLen, receiveLen, 0, 0)
  }

  predicate OnMux(phase: Phase) {
    phase == PROLOG || phase == EPILOG
  }

  /** A transfer to the multiplexer or to the device of the request at the head. */
  function Begin(m: Manager, phase: Phase): Manager
    requires m.queue != []
  {
    var rb := m.queue[0];
    m.(phase := phase, bus := ACTIVE, transfer := if OnMux(phase) then Fresh(1, 0) else Fresh(rb.writeLen, rb.readLen),
       log := m.log.(bus := m.log.bus + [Began(rb, phase)]))
  }

  function StartTransaction(m: Manager): Manager {
    if m.bus == FREE && m.queue != [] then
      var m1 := m.(completion := OK, current := true, starts := m.starts + 1, first := if m.starts == 0 then m.retry else m.first);
      Begin(m1, if m.queue[0].muxed then PROLOG else OFF)
    else
      m
  }

  function QueueRequest(m: Manager, rb: Rb): Manager {
    if rb.readOnly && rb.readLen == 0 then m
    else
      StartTransaction(m.(queue := m.queue + [rb], status := m.status[rb.id := PENDING],
                          log := m.log.(accepted := m.log.accepted + [rb.id])))
  }

  /** What the bus hardware reports. */
  datatype Twi = SentAck | ReceivedAck | AddressAckR | ReceivedNack | StartSent | Nack | ArbitrationLost | BusError | Nothing

  function SendNext(t: Transfer): Transfer
    requires t.toSend > 0
  {
    t.(toSend := t.toSend - 1, tx := t.tx + 1)
  }

  function ReceiveNext(t: Transfer): Transfer {
    if t.toReceive > 0 then t.(toReceive := t.toReceive - 1, rx := t.rx + 1) else t
  }

  /** The part of the manager that the bus hardware drives. */
  datatype Engine = Engine(bus: Bus, completion: Status, transfer: Transfer)

  /** The byte-level state machine. */
  function EngineStep(e: Engine, twi: Twi): Engine {
    var t := e.transfer;
    match twi
    case SentAck =>
      if t.toSend > 0 then e.(transfer := SendNext(t))
      else if t.toReceive > 0 then e
      else e.(bus := COMPLETED)
    case ReceivedAck => e.(transfer := ReceiveNext(t))
    case AddressAckR => e
    case ReceivedNack => e.(transfer := ReceiveNext(t), bus := COMPLETED)
    case StartSent => e
    case Nack => e.(completion := NEGATIVE_ACKNOWLEDGE, bus := COMPLETED)
    case ArbitrationLost => e.(transfer := t.(tx := 0, rx := 0, lostTx := t.lostTx + t.tx, lostRx := t.lostRx + t.rx))
    case BusError => e.(completion := TRANSMIT_ERROR, bus := COMPLETED)
    case Nothing => e
  }

  function HandleByte(m: Manager, twi: Twi): Manager {
    var e := EngineStep(Engine(m.bus, m.completion, m.transfer), twi);
    m.(bus := e.bus, completion := e.completion, transfer := e.transfer)
  }

  function Booked(log: Log, id: nat, status: Status): Log {
    log.(done := log.done + [id], bus := log.bus + [Left(id, status)])
  }

  /** The request at the head leaves the queue with a status. */
  function Dequeue(m: Manager, status: Status): Manager
    requires m.queue != []
  {
    var id := m.queue[0].id;
    m.(queue := m.queue[1..], status := m.status[id := status], current := false, bus := FREE, starts := 0,
       log := Booked(m.log, id, status))
  }

  /** A transfer has succeeded, or failed for good. */
  function Finish(m: Manager): Manager
    requires m.queue != []
  {
    match m.phase
    case PROLOG =>
      var m1 := m.(overall := m.completion);
      if m.completion == OK && m.queue[0].device != 0 then Begin(m1, PAYLOAD)
      else Dequeue(m1.(retry := 0), m1.overall)
    case PAYLOAD =>
      var m1 := m.(overall := m.completion);
      if m.muxCount == 1 then Dequeue(m1.(phase := OFF, retry := 0), m1.overall) else Begin(m1, EPILOG)
    case EPILOG => Dequeue(m.(phase := OFF, retry := 0), m.overall)
    case OFF => Dequeue(m.(overall := m.completion, retry := 0), m.completion)
  }

  /** The retry counter is a byte. */
  function CountRetry(m: Manager): nat {
    if m.completion == OK then m.retry else (m.retry + 1) % 256
  }

  predicate Final(m: Manager, retry: nat)
    requires m.queue != []
  {
    m.completion == OK || retry > MAX_I2C_RETRIES || m.queue[0].noRetry
  }

  function Complete(m: Manager): Manager {
    if m.bus == COMPLETED && m.current && m.queue != [] then
      var r := CountRetry(m);
      var m1 := m.(retry := r, log := m.log.(bus := m.log.bus + [Ended(m.queue[0].id, m.completion)]));
      if Final(m, r) then Finish(m1) else m1.(bus := FREE)
    else
      m
  }

  function HandleInterrupt(m: Manager, twi: Twi): Manager {
    StartTransaction(Complete(HandleByte(m, twi)))
  }

  /** The request at the head has taken too long. */
  function CheckForTimeout(m: Manager): Manager {
    if m.bus == ACTIVE && m.queue != [] && m.current then
      StartTransaction(Dequeue(m.(transfer := m.transfer.(toSend := 0, toReceive := 0)), TIMEOUT))
    else
      m
  }

  datatype Op = Enqueue(rb: Rb) | Interrupt(twi: Twi) | Overdue

  function Step(m: Manager, op: Op): Manager {
    match op
    case Enqueue(rb) => QueueRequest(m, rb)
    case Interrupt(twi) => HandleInterrupt(m, twi)
    case Overdue => CheckForTimeout(m)
  }

  function Run(m: Manager, ops: seq<Op>): Manager {
    if ops == [] then m else Step(Run(m, ops[..|ops| - 1]), ops[|ops| - 1])
  }

  predicate Pending(m: Manager, id: nat) {
    IsPending(m.status, id)
  }

  predicate IsPending(status: map<nat, Status>, id: nat) {
    id in status && status[id] == PENDING
  }

  ghost predicate PendingAre(status: map<nat, Status>, ids: seq<nat>) {
    forall id :: IsPending(status, id) <==> id in ids
  }

  /** Callers wait for a request block before they use it again. */
  predicate OpOk(m: Manager, op: Op) {
    op.Enqueue? ==> !Pending(m, op.rb.id)
  }

  ghost predicate RunOk(m: Manager, ops: seq<Op>) {
    ops == [] || (RunOk(m, ops[..|ops| - 1]) && OpOk(Run(m, ops[..|ops| - 1]), ops[|ops| - 1]))
  }

  // ---------------------------------------------------------------- first come, first served

  function Ids(q: seq<Rb>): (r: seq<nat>)
    ensures |r| == |q| && forall i :: 0 <= i < |q| ==> r[i] == q[i].id
  {
    seq(|q|, i requires 0 <= i < |q| => q[i].id)
  }

  ghost predicate Distinct(ids: seq<nat>) {
    forall i, j :: 0 <= i < j < |ids| ==> ids[i] != ids[j]
  }

  /** A request is pending exactly while it is queued, and what was accepted is what is done and then
      what is queued, in that order. */
  ghost predicate Served(m: Manager) {
    && Distinct(Ids(m.queue))
    && PendingAre(m.status, Ids(m.queue))
    && m.log.accepted == m.log.done + Ids(m.queue)
    && m.completion != PENDING && m.overall != PENDING
  }

  lemma IdsTail(q: seq<Rb>)
    requires q != [] && Distinct(Ids(q))
    ensures Ids(q) == [q[0].id] + Ids(q[1..])
    ensures Distinct(Ids(q[1..])) && q[0].id !in Ids(q[1..])
    ensures forall id :: id in Ids(q) <==> id == q[0].id || id in Ids(q[1..])
  {
    var h, t := [q[0].id], Ids(q[1..]);
    assert Ids(q) == h + t;
    assert forall i :: 0 <= i < |t| ==> t[i] == Ids(q)[i + 1];
    assert Ids(q)[0] == q[0].id;
  }

  lemma PendingTail(status: map<nat, Status>, h: nat, t: seq<nat>, st: Status)
    requires PendingAre(status, [h] + t) && h !in t && st != PENDING
    ensures PendingAre(status[h := st], t)
  {
    forall id ensures IsPending(status[h := st], id) <==> id in t {
      assert id in [h] + t <==> id == h || id in t;
      assert IsPending(status, id) <==> id in [h] + t;
    }
  }

  lemma DequeueServes(m: Manager, status: Status)
    requires m.queue != [] && Served(m) && status != PENDING
    ensures Served(Dequeue(m, status))
  {
    IdsTail(m.queue);
    var h, t := m.queue[0].id, Ids(m.queue[1..]);
    PendingTail(m.status, h, t, status);
    hide Ids, Distinct, PendingAre;
    assert m.log.done + ([h] + t) == (m.log.done + [h]) + t;
  }

  lemma StartServes(m: Manager)
    requires Served(m)
    ensures Served(StartTransaction(m))
  {
    hide Ids;
  }

  lemma CompleteServes(m: Manager)
    requires Served(m)
    ensures Served(Complete(m))
  {
    if m.bus == COMPLETED && m.current && m.queue != [] {
      var r := CountRetry(m);
      var m1 := m.(retry := r, log := m.log.(bus := m.log.bus + [Ended(m.queue[0].id, m.completion)]));
      if Final(m, r) {
        FinishServes(m1);
      }
    }
    hide Ids, Finish;
  }

  lemma FinishServes(m: Manager)
    requires Served(m) && m.queue != []
    ensures Served(Finish(m))
  {
    DequeueServes(m.(overall := m.completion, retry := 0), m.completion);
    DequeueServes(m.(overall := m.completion, phase := OFF, retry := 0), m.completion);
    DequeueServes(m.(phase := OFF, retry := 0), m.overall);
    hide Ids, Dequeue;
  }

  lemma QueueServes(m: Manager, rb: Rb)
    requires Served(m) && !Pending(m, rb.id)
    ensures Served(QueueRequest(m, rb))
  {
    if !(rb.readOnly && rb.readLen == 0) {
      var m1 := m.(queue := m.queue + [rb], status := m.status[rb.id := PENDING],
                   log := m.log.(accepted := m.log.accepted + [rb.id]));
      assert Ids(m1.queue) == Ids(m.queue) + [rb.id];
      assert Served(m1);
      StartServes(m1);
    }
  }

  lemma StepServes(m: Manager, op: Op)
    requires Served(m) && OpOk(m, op)
    ensures Served(Step(m, op))
  {
    match op
    case Enqueue(rb) =>
      QueueServes(m, rb);
    case Interrupt(twi) =>
      hide Complete, StartTransaction;
      CompleteServes(HandleByte(m, twi));
      StartServes(Complete(HandleByte(m, twi)));
    case Overdue =>
      if m.bus == ACTIVE && m.queue != [] && m.current {
        hide StartTransaction;
        var m1 := m.(transfer := m.transfer.(toSend := 0, toReceive := 0));
        DequeueServes(m1, TIMEOUT);
        StartServes(Dequeue(m1, TIMEOUT));
      }
  }

  /** In every run, a request is pending if and only if it is in the queue, and requests complete
      exactly once each, in the order in which they were accepted. */
  lemma {:induction false} FirstComeFirstServed(muxCount: nat, ops: seq<Op>)
    requires RunOk(Initial(muxCount), ops)
    ensures Served(Run(Initial(muxCount), ops))
  {
    if ops != [] {
      var n := |ops| - 1;
      hide Step, Served, OpOk;
      FirstComeFirstServed(muxCount, ops[..n]);
      StepServes(Run(Initial(muxCount), ops[..n]), ops[n]);
    }
  }

  // ---------------------------------------------------------------- buffers

  /** Nothing is sent or received beyond the buffers, and every byte is accounted for: left, done, or
      undone by lost arbitration. */
  predicate Bounded(t: Transfer) {
    t.tx + t.toSend + t.lostTx <= t.sendLen && t.rx + t.toReceive + t.lostRx <= t.receiveLen
  }

  predicate Exact(t: Transfer) {
    t.tx + t.toSend + t.lostTx == t.sendLen && t.rx + t.toReceive + t.lostRx == t.receiveLen
  }

  predicate TransferOk(m: Manager) {
    && Bounded(m.transfer)
    && (m.current && m.bus != FREE ==> Exact(m.transfer))
    && (m.current ==> m.queue != [] && m.bus != FREE)
    && (m.current ==> if m.phase == PROLOG || m.phase == EPILOG then m.transfer.sendLen == 1 && m.transfer.receiveLen == 0
                      else m.transfer.sendLen == m.queue[0].writeLen && m.transfer.receiveLen == m.queue[0].readLen)
  }

  lemma HandleKeepsTransfer(m: Manager, twi: Twi)
    requires TransferOk(m)
    ensures TransferOk(HandleByte(m, twi))
  {
  }

  lemma StepKeepsTransfer(m: Manager, op: Op)
    requires TransferOk(m)
    ensures TransferOk(Step(m, op))
  {
    match op
    case Enqueue(rb) =>
      var m1 := m.(queue := m.queue + [rb], status := m.status[rb.id := PENDING],
                   log := m.log.(accepted := m.log.accepted + [rb.id]));
      assert TransferOk(m1);
    case Interrupt(twi) =>
      HandleKeepsTransfer(m, twi);
      CompleteKeepsTransfer(HandleByte(m, twi));
      hide HandleByte, Complete;
    case Overdue =>
  }

  lemma CompleteKeepsTransfer(m: Manager)
    requires TransferOk(m)
    ensures TransferOk(StartTransaction(Complete(m)))
  {
  }

  /** In every run the indices into the send and receive buffers are inside them whenever a byte is
      sent or received, even after arbitration was lost. */
  lemma {:induction false} IndicesStayInside(muxCount: nat, ops: seq<Op>)
    ensures var m := Run(Initial(muxCount), ops);
            && TransferOk(m)
            && (m.transfer.toSend > 0 ==> m.transfer.tx < m.transfer.sendLen)
            && (m.transfer.toReceive > 0 ==> m.transfer.rx < m.transfer.receiveLen)
  {
    if ops != [] {
      var n := |ops| - 1;
      hide Step;
      IndicesStayInside(muxCount, ops[..n]);
      StepKeepsTransfer(Run(Initial(muxCount), ops[..n]), ops[n]);
    }
  }

  /** When a write completes, the bytes sent since the last start condition are the whole buffer if and
      only if arbitration was not lost with bytes already sent. */
  lemma WholeUnlessArbitrationLost(muxCount: nat, ops: seq<Op>)
    ensures var m := Run(Initial(muxCount), ops);
            m.current && m.bus == ACTIVE && HandleByte(m, SentAck).bus == COMPLETED ==>
              (m.transfer.tx == m.transfer.sendLen <==> m.transfer.lostTx == 0)
  {
    IndicesStayInside(muxCount, ops);
    hide Run;
  }

  // ---------------------------------------------------------------- retries

  /** Failing attempts are counted, and the count is at most two while there is to be another. */
  predicate Trying(m: Manager)
    requires m.queue != []
  {
    m.retry == m.first + m.starts - 1 && (m.starts > 1 ==> m.retry <= MAX_I2C_RETRIES)
  }

  /** The payload has failed for good, and the multiplexer is being deselected. */
  predicate GivingUp(m: Manager)
    requires m.queue != []
  {
    && m.phase == EPILOG && m.completion != OK && (m.retry > MAX_I2C_RETRIES || m.queue[0].noRetry)
    && m.retry == m.first + m.starts && (m.starts > 1 ==> m.retry <= MAX_I2C_RETRIES + 1)
  }

  /** The same for a counter that starts high enough to wrap. */
  predicate Wrapping(m: Manager)
    requires m.queue != []
  {
    || (m.starts == 1 && (m.retry >= m.first || m.queue[0].noRetry))
    || (m.starts >= 2 && m.retry == m.starts - 2 && m.retry <= MAX_I2C_RETRIES)
    || (m.starts >= 2 && m.phase == EPILOG && m.completion != OK && m.retry == m.starts - 1 && m.retry <= MAX_I2C_RETRIES + 1
        && (m.retry > MAX_I2C_RETRIES || m.queue[0].noRetry))
  }

  predicate RetriesOk(m: Manager) {
    && m.retry < 256 && m.first < 256
    && (m.current ==> m.queue != [] && m.starts >= 1 && if m.first <= 253 then Trying(m) || GivingUp(m) else Wrapping(m))
    && (!m.current ==> m.starts == 0)
    && (m.bus == FREE ==> !m.current)
  }

  lemma HandleKeepsRetries(m: Manager, twi: Twi)
    requires RetriesOk(m)
    ensures RetriesOk(HandleByte(m, twi))
  {
  }

  lemma StartKeepsRetries(m: Manager)
    requires m.retry < 256 && m.first < 256 && m.starts == 0 && !m.current
    ensures RetriesOk(StartTransaction(m))
  {
  }

  lemma CompleteKeepsRetries(m: Manager)
    requires RetriesOk(m)
    ensures RetriesOk(StartTransaction(Complete(m)))
  {
    if m.bus == COMPLETED && m.current && m.queue != [] {
      CountIs(m);
      var r := CountRetry(m);
      var m1 := m.(retry := r, log := m.log.(bus := m.log.bus + [Ended(m.queue[0].id, m.completion)]));
      hide CountRetry;
      if Final(m, r) {
        FinishKeepsRetries(m, m1);
        hide Finish;
      }
    }
  }

  lemma FinishKeepsRetries(m: Manager, m1: Manager)
    requires RetriesOk(m) && m.bus == COMPLETED && m.current
    requires m1 == m.(retry := m1.retry, log := m1.log) && m1.retry < 256
    requires m1.retry == if m.completion == OK then m.retry else if m.retry == 255 then 0 else m.retry + 1
    requires Final(m, m1.retry)
    ensures RetriesOk(StartTransaction(Finish(m1)))
  {
  }

  lemma CountIs(m: Manager)
    requires m.retry < 256
    ensures CountRetry(m) == if m.completion == OK then m.retry else if m.retry == 255 then 0 else m.retry + 1
  {
  }

  lemma StepKeepsRetries(m: Manager, op: Op)
    requires RetriesOk(m)
    ensures RetriesOk(Step(m, op))
  {
    match op
    case Enqueue(rb) =>
    case Interrupt(twi) =>
      HandleKeepsRetries(m, twi);
      hide HandleByte, Complete, StartTransaction;
      CompleteKeepsRetries(HandleByte(m, twi));
    case Overdue =>
      if m.bus == ACTIVE && m.queue != [] && m.current {
        hide StartTransaction;
        StartKeepsRetries(Dequeue(m.(transfer := m.transfer.(toSend := 0, toReceive := 0)), TIMEOUT));
      }
  }

  lemma {:induction false} RunKeepsRetries(muxCount: nat, ops: seq<Op>)
    ensures RetriesOk(Run(Initial(muxCount), ops))
  {
    if ops != [] {
      var n := |ops| - 1;
      hide Step, RetriesOk;
      RunKeepsRetries(muxCount, ops[..n]);
      StepKeepsRetries(Run(Initial(muxCount), ops[..n]), ops[n]);
    }
  }

  /** In every run the request at the head has been started at most MAX_I2C_RETRIES + 1 times, if the
      retry counter was at most 253 when it was first started; and never more than one time more. */
  lemma StartsAreBounded(muxCount: nat, ops: seq<Op>)
    ensures var m := Run(Initial(muxCount), ops);
            && m.starts <= MAX_I2C_RETRIES + 2
            && (m.first <= 253 ==> m.starts <= MAX_I2C_RETRIES + 1)
  {
    RunKeepsRetries(muxCount, ops);
    hide Run;
  }

  // ---------------------------------------------------------------- channels

  /** Every payload to a device behind a multiplexer follows directly on the successful selection of its
      channel for the same request. */
  ghost predicate Selected(bus: seq<Event>) {
    forall i :: 0 <= i < |bus| && bus[i].Began? && bus[i].rb.muxed && !OnMux(bus[i].phase) ==>
      i >= 2 && bus[i - 1] == Ended(bus[i].rb.id, OK) && bus[i - 2] == Began(bus[i].rb, PROLOG)
  }

  ghost predicate ChannelsOk(m: Manager) {
    && Selected(m.log.bus)
    && (m.bus == FREE ==> !m.current)
    && (m.current ==>
          && m.queue != [] && (m.queue[0].muxed <==> m.phase != OFF)
          && (m.phase == PROLOG ==> m.log.bus != [] && m.log.bus[|m.log.bus| - 1] == Began(m.queue[0], PROLOG)))
  }

  lemma SelectedMore(bus: seq<Event>, e: Event)
    requires Selected(bus)
    requires e.Began? && e.rb.muxed && !OnMux(e.phase) ==>
               |bus| >= 2 && bus[|bus| - 1] == Ended(e.rb.id, OK) && bus[|bus| - 2] == Began(e.rb, PROLOG)
    ensures Selected(bus + [e])
  {
    var r := bus + [e];
    forall i | 0 <= i < |r| && r[i].Began? && r[i].rb.muxed && !OnMux(r[i].phase)
      ensures i >= 2 && r[i - 1] == Ended(r[i].rb.id, OK) && r[i - 2] == Began(r[i].rb, PROLOG)
    {
      if i < |bus| {
        assert r[i] == bus[i] && r[i - 1] == bus[i - 1] && r[i - 2] == bus[i - 2];
      }
    }
  }

  lemma StartKeepsChannels(m: Manager)
    requires Selected(m.log.bus) && (m.bus == FREE || ChannelsOk(m)) && (m.bus == FREE && m.queue == [] ==> !m.current)
    ensures ChannelsOk(StartTransaction(m))
  {
    if m.bus == FREE && m.queue != [] {
      SelectedMore(m.log.bus, Began(m.queue[0], if m.queue[0].muxed then PROLOG else OFF));
    }
    hide Selected;
  }

  lemma FinishKeepsChannels(m: Manager, before: seq<Event>)
    requires m.queue != [] && m.current && (m.queue[0].muxed <==> m.phase != OFF) && m.bus != FREE
    requires Selected(before) && m.log.bus == before + [Ended(m.queue[0].id, m.completion)]
    requires m.phase == PROLOG ==> before != [] && before[|before| - 1] == Began(m.queue[0], PROLOG)
    ensures ChannelsOk(Finish(m))
  {
    var rb := m.queue[0];
    SelectedMore(before, Ended(rb.id, m.completion));
    if m.phase == PROLOG && m.completion == OK && rb.device != 0 {
      SelectedMore(m.log.bus, Began(rb, PAYLOAD));
    }
    if m.phase == PAYLOAD {
      SelectedMore(m.log.bus, Began(rb, EPILOG));
    }
    SelectedMore(m.log.bus, Left(rb.id, m.completion));
    SelectedMore(m.log.bus, Left(rb.id, m.overall));
    hide Selected;
  }

  lemma CompleteKeepsChannels(m: Manager)
    requires ChannelsOk(m)
    ensures ChannelsOk(StartTransaction(Complete(m)))
  {
    if m.bus == COMPLETED && m.current && m.queue != [] {
      var r := CountRetry(m);
      var e := Ended(m.queue[0].id, m.completion);
      var m1 := m.(retry := r, log := m.log.(bus := m.log.bus + [e]));
      SelectedMore(m.log.bus, e);
      hide Selected, Finish, StartTransaction;
      if Final(m, r) {
        FinishKeepsChannels(m1, m.log.bus);
        StartKeepsChannels(Finish(m1));
      } else {
        StartKeepsChannels(m1.(bus := FREE));
      }
    } else {
      hide Selected, StartTransaction;
      StartKeepsChannels(m);
    }
  }

  lemma StepKeepsChannels(m: Manager, op: Op)
    requires ChannelsOk(m)
    ensures ChannelsOk(Step(m, op))
  {
    hide Selected, StartTransaction, Complete;
    match op
    case Enqueue(rb) =>
      StartKeepsChannels(m.(queue := m.queue + [rb], status := m.status[rb.id := PENDING],
                            log := m.log.(accepted := m.log.accepted + [rb.id])));
    case Interrupt(twi) =>
      assert ChannelsOk(HandleByte(m, twi));
      CompleteKeepsChannels(HandleByte(m, twi));
    case Overdue =>
      if m.bus == ACTIVE && m.queue != [] && m.current {
        SelectedMore(m.log.bus, Left(m.queue[0].id, TIMEOUT));
        StartKeepsChannels(Dequeue(m.(transfer := m.transfer.(toSend := 0, toReceive := 0)), TIMEOUT));
      }
  }

  /** In every run, the payload of a request behind a multiplexer starts only directly after its own
      channel selection has succeeded. */
  lemma {:induction false} PayloadFollowsItsProlog(muxCount: nat, ops: seq<Op>)
    ensures ChannelsOk(Run(Initial(muxCount), ops))
  {
    if ops != [] {
      var n := |ops| - 1;
      hide Step, ChannelsOk;
      PayloadFollowsItsProlog(muxCount, ops[..n]);
      StepKeepsChannels(Run(Initial(muxCount), ops[..n]), ops[n]);
    }
  }
}
