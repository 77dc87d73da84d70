/** The I2C manager's objects: request blocks linked into a queue, the byte engine of the AVR interface
    with its buffers, and the manager that drives both.  Each method does what I2cRequests says. */
module I2cManager {
  import opened I2cRequests

  class RequestBlock {
    var status: Status
    var nextRequest: RequestBlock?
    const id: nat
    const muxed: bool
    const device: nat
    const readOnly: bool
    const noRetry: bool
    const writeBuffer: seq<bv8>
    const readBuffer: array<bv8>

    constructor (id: nat, muxed: bool, device: nat, readOnly: bool, noRetry: bool, writeBuffer: seq<bv8>, readBuffer: array<bv8>)
      ensures Value() == Rb(id, muxed, device, |writeBuffer|, readBuffer.Length, readOnly, noRetry)
      ensures this.readBuffer == readBuffer && status == OK
    {
      status, nextRequest := OK, null;
      this.id, this.muxed, this.device, this.readOnly, this.noRetry := id, muxed, device, readOnly, noRetry;
      this.writeBuffer, this.readBuffer := writeBuffer, readBuffer;
    }

    function Value(): Rb {
      Rb(id, muxed, device, |writeBuffer|, readBuffer.Length, readOnly, noRetry)
    }
  }

  // ---------------------------------------------------------------- the byte engine

  class ByteEngine {
    var state: Bus
    var completionStatus: Status
    var sendBuffer: seq<bv8>
    var receiveBuffer: array<bv8>
    var bytesToSend: nat
    var bytesToReceive: nat
    var txCount: nat
    var rxCount: nat
    ghost var receiveLen: nat
    ghost var lostTx: nat
    ghost var lostRx: nat
    ghost var line: seq<bv8>  // data bytes put on the bus since the last start condition

    constructor (spare: array<bv8>)
      ensures View() == Engine(FREE, OK, Transfer(0, 0, 0, 0, 0, 0, 0, 0)) && Valid()
    {
      state, completionStatus := FREE, OK;
      sendBuffer, receiveBuffer := [], spare;
      bytesToSend, bytesToReceive, txCount, rxCount := 0, 0, 0, 0;
      receiveLen, lostTx, lostRx, line := 0, 0, 0, [];
    }

    ghost function Counters(): Transfer
      reads this
    {
      Transfer(bytesToSend, bytesToReceive, txCount, rxCount, |sendBuffer|, receiveLen, lostTx, lostRx)
    }

    ghost function View(): Engine
      reads this
    {
      Engine(state, completionStatus, Counters())
    }

    /** Counters within the buffers; what is on the line is the front of the send buffer. */
    ghost predicate Valid()
      reads this
    {
      && Bounded(Counters()) && receiveLen <= receiveBuffer.Length
      && line == sendBuffer[..txCount]
    }

    method SendStart()
      requires Valid()
      modifies this`txCount, this`rxCount, this`lostTx, this`lostRx, this`line
      ensures Valid()
      ensures View() == old(View()).(transfer := old(Counters()).(tx := 0, rx := 0, lostTx := lostTx, lostRx := lostRx))
      ensures lostTx == old(lostTx + txCount) && lostRx == old(lostRx + rxCount) && line == []
    {
      lostTx, lostRx := lostTx + txCount, lostRx + rxCount;
      rxCount := 0;
      txCount := 0;
      line := [];
    }

    /** Set up a transfer and start it. */
    method Start(send: seq<bv8>, receive: array<bv8>, length: nat)
      requires length <= receive.Length
      modifies this
      ensures Valid() && View() == Engine(ACTIVE, old(completionStatus), Fresh(|send|, length))
      ensures sendBuffer == send && receiveBuffer == receive
    {
      state := ACTIVE;
      sendBuffer, receiveBuffer := send, receive;
      bytesToSend, bytesToReceive := |send|, length;
      receiveLen, lostTx, lostRx := length, 0, 0;
      txCount, rxCount, line := 0, 0, [];
    }

    /** A byte has been received. */
    method Store(data: bv8)
      requires Valid()
      modifies this`rxCount, this`bytesToReceive, receiveBuffer
      ensures Valid() && Counters() == ReceiveNext(old(Counters()))
      ensures old(bytesToReceive) > 0 ==> receiveBuffer[..] == old(receiveBuffer[..])[old(rxCount) := data]
      ensures old(bytesToReceive) == 0 ==> receiveBuffer[..] == old(receiveBuffer[..])
    {
      if bytesToReceive > 0 {
        receiveBuffer[rxCount] := data;
        rxCount := rxCount + 1;
        bytesToReceive := bytesToReceive - 1;
      }
    }

    /** The next byte goes out. */
    method Put()
      requires Valid() && bytesToSend > 0
      modifies this`txCount, this`bytesToSend, this`line
      ensures Valid() && Counters() == SendNext(old(Counters()))
      ensures line == old(line) + [sendBuffer[old(txCount)]]
    {
      line := line + [sendBuffer[txCount]];
      txCount := txCount + 1;
      bytesToSend := bytesToSend - 1;
    }

    /** The interrupt of the bus hardware; `data` is its data register. */
    method HandleByte(twi: Twi, data: bv8)
      requires Valid()
      modifies this, receiveBuffer
      ensures Valid() && View() == EngineStep(old(View()), twi)
      ensures receiveBuffer == old(receiveBuffer) && sendBuffer == old(sendBuffer)
      ensures (twi == ReceivedAck || twi == ReceivedNack) && old(bytesToReceive) > 0 ==>
                receiveBuffer[..] == old(receiveBuffer[..])[old(rxCount) := data]
      ensures !((twi == ReceivedAck || twi == ReceivedNack) && old(bytesToReceive) > 0) ==>
                receiveBuffer[..] == old(receiveBuffer[..])
    {
      match twi {
        case SentAck =>
          if bytesToSend > 0 {
            Put();
          } else if bytesToReceive == 0 {
            state := COMPLETED;
          }
        case ReceivedAck =>
          Store(data);
        case ReceivedNack =>
          Store(data);
          state := COMPLETED;
        case Nack =>
          completionStatus := NEGATIVE_ACKNOWLEDGE;
          state := COMPLETED;
        case ArbitrationLost =>
          SendStart();
        case BusError =>
          completionStatus := TRANSMIT_ERROR;
          state := COMPLETED;
        case AddressAckR =>
        case StartSent =>
        case Nothing =>
      }
    }
  }

  // ---------------------------------------------------------------- the queue

  ghost function BlockAt(r: seq<RequestBlock>, i: nat): RequestBlock? {
    if i < |r| then r[i] else null
  }

  ghost predicate Chain(r: seq<RequestBlock>)
    reads r`nextRequest
  {
    && (forall i, j :: 0 <= i < j < |r| ==> r[i] != r[j])
    && forall i :: 0 <= i < |r| ==> r[i].nextRequest == BlockAt(r, i + 1)
  }

  ghost function Values(r: seq<RequestBlock>): (v: seq<Rb>)
    ensures |v| == |r| && forall i :: 0 <= i < |r| ==> v[i] == r[i].Value()
  {
    seq(|r|, i requires 0 <= i < |r| => r[i].Value())
  }

  lemma ValuesMore(r: seq<RequestBlock>, rb: RequestBlock)
    ensures Values(r + [rb]) == Values(r) + [rb.Value()]
  {
  }

  lemma ValuesTail(r: seq<RequestBlock>)
    requires r != []
    ensures Values(r[1..]) == Values(r)[1..]
  {
  }

  class RequestQueue {
    var queueHead: RequestBlock?
    var queueTail: RequestBlock?
    ghost var blocks: seq<RequestBlock>

    ghost predicate Valid()
      reads this, blocks`nextRequest
    {
      && Chain(blocks)
      && queueHead == BlockAt(blocks, 0)
      && queueTail == (if blocks == [] then null else blocks[|blocks| - 1])
    }

    constructor ()
      ensures Valid() && blocks == []
    {
      queueHead, queueTail, blocks := null, null, [];
    }

    method Append(rb: RequestBlock)
      requires Valid() && rb !in blocks
      modifies this, rb`nextRequest, blocks`nextRequest
      ensures Valid() && blocks == old(blocks) + [rb]
    {
      rb.nextRequest := null;
      if queueTail == null {
        queueHead, queueTail := rb, rb;
      } else {
        queueTail.nextRequest := rb;
        queueTail := rb;
      }
      blocks := blocks + [rb];
    }

    method RemoveHead()
      requires Valid() && blocks != []
      modifies this
      ensures Valid() && blocks == old(blocks)[1..]
    {
      queueHead := queueHead.nextRequest;
      if queueHead == null {
        queueTail := null;
      }
      blocks := blocks[1..];
      assert forall i :: 0 <= i < |blocks| ==> blocks[i] == old(blocks)[i + 1];
    }
  }

  // ---------------------------------------------------------------- the manager

  class I2CManager {
    const engine: ByteEngine
    const queue: RequestQueue
    const muxCount: nat
    var currentRequest: RequestBlock?
    var muxPhase: Phase
    var retryCounter: nat
    var overallStatus: Status
    ghost var known: set<RequestBlock>  // request blocks ever queued
    ghost var status: map<nat, Status>
    ghost var starts: nat
    ghost var first: nat
    ghost var log: Log

    constructor (muxCount: nat, spare: array<bv8>)
      ensures Valid() && View() == Initial(muxCount) && known == {} && fresh(engine) && fresh(queue)
    {
      engine := new ByteEngine(spare);
      queue := new RequestQueue();
      this.muxCount := muxCount;
      currentRequest, muxPhase, retryCounter, overallStatus := null, OFF, 0, OK;
      known, status, starts, first, log := {}, map[], 0, 0, Log([], [], []);
    }

    /** The ghost status map says what the blocks say. */
    ghost predicate StatusOk()
      reads this`known, this`status, known`status
    {
      && (forall a :: a in known ==> a.id in status && status[a.id] == a.status)
      && (forall a, b :: a in known && b in known && a.id == b.id ==> a == b)
    }

    ghost predicate Valid()
      reads this, engine, queue, queue.blocks`nextRequest, known
    {
      && engine.Valid() && queue.Valid() && StatusOk()
      && (forall i :: 0 <= i < |queue.blocks| ==> queue.blocks[i] in known)
      && (currentRequest != null ==> queue.blocks != [] && currentRequest == queue.blocks[0])
    }

    ghost function View(): Manager
      reads this, engine, queue
    {
      Manager(Values(queue.blocks), currentRequest != null, engine.state, engine.completionStatus, overallStatus, muxPhase,
              retryCounter, engine.Counters(), muxCount, status, starts, first, log)
    }

    /** Start a transfer to the multiplexer, with a byte for it, or to the device. */
    method Begin(phase: Phase, channel: bv8)
      requires Valid() && queue.blocks != []
      modifies this`muxPhase, this`log, engine
      ensures Valid() && View() == I2cRequests.Begin(old(View()), phase)
      ensures engine.sendBuffer == (if phase == PROLOG || phase == EPILOG then [channel] else queue.blocks[0].writeBuffer)
      ensures !(phase == PROLOG || phase == EPILOG) ==> engine.receiveBuffer == queue.blocks[0].readBuffer
    {
      hide Chain;
      var rb := queue.queueHead;
      assert rb == queue.blocks[0] && rb.Value() == Values(queue.blocks)[0];
      hide RequestQueue.Valid, ByteEngine.Valid, StatusOk, Values;
      muxPhase := phase;
      if phase == PROLOG || phase == EPILOG {
        engine.Start([channel], engine.receiveBuffer, 0);
      } else {
        engine.Start(rb.writeBuffer, rb.readBuffer, rb.readBuffer.Length);
      }
      log := log.(bus := log.bus + [Began(rb.Value(), phase)]);
    }

    /** Serve the request at the head, if the bus is free. */
    method StartTransaction(channel: bv8)
      requires Valid()
      modifies this`currentRequest, this`muxPhase, this`starts, this`first, this`log, engine
      ensures Valid() && View() == I2cRequests.StartTransaction(old(View()))
    {
      if engine.state != FREE || queue.queueHead == null {
        return;
      }
      assert queue.queueHead == queue.blocks[0] && queue.blocks[0].Value() == Values(queue.blocks)[0];
      currentRequest := queue.queueHead;
      Prepare();
      hide Chain, RequestQueue.Valid, Values, I2cRequests.Begin;
      Begin(if currentRequest.muxed then PROLOG else OFF, channel);
    }

    method Prepare()
      requires Valid()
      modifies this`starts, this`first, engine`completionStatus
      ensures Valid() && View() == old(View()).(completion := OK, starts := old(starts) + 1, first := if old(starts) == 0 then retryCounter else old(first))
    {
      hide Chain, Values, RequestQueue.Valid, StatusOk;
      engine.completionStatus := OK;
      first := if starts == 0 then retryCounter else first;
      starts := starts + 1;
    }

    /** A block that has not been queued before may not have the id of another. */
    ghost predicate Known(rb: RequestBlock)
      reads this
    {
      rb in known || forall a :: a in known ==> a.id != rb.id
    }

    /** Give a block a status. */
    method Post(rb: RequestBlock, result: Status)
      requires Valid() && Known(rb)
      modifies this`known, this`status, rb`status
      ensures Valid() && known == old(known) + {rb}
      ensures View() == old(View()).(status := old(status)[rb.id := result])
    {
      hide Chain, RequestQueue.Valid, ByteEngine.Valid, Values;
      rb.status := result;
      known := known + {rb};
      status := status[rb.id := result];
    }

    /** The block joins the queue. */
    method Link(rb: RequestBlock)
      requires Valid() && rb in known && rb !in queue.blocks
      modifies this`log, queue, known`nextRequest
      ensures Valid()
      ensures View() == old(View()).(queue := old(View()).queue + [rb.Value()], log := old(log).(accepted := old(log).accepted + [rb.id]))
    {
      hide Chain, RequestQueue.Valid, ByteEngine.Valid, Values, StatusOk;
      ValuesMore(queue.blocks, rb);
      queue.Append(rb);
      log := log.(accepted := log.accepted + [rb.id]);
    }

    /** The block joins the queue as pending. */
    method Enlist(rb: RequestBlock)
      requires Valid() && Known(rb) && rb !in queue.blocks
      modifies this`known, this`status, this`log, queue, rb, known`nextRequest
      ensures Valid() && rb in known
      ensures View() == old(View()).(queue := old(View()).queue + [rb.Value()], status := old(status)[rb.id := PENDING],
                                     log := old(log).(accepted := old(log).accepted + [rb.id]))
    {
      hide Valid, Values, StatusOk;
      Post(rb, PENDING);
      Link(rb);
    }

    /** Callers wait until the block is no longer pending before they queue it again. */
    method QueueRequest(rb: RequestBlock, channel: bv8)
      requires Valid() && Known(rb) && rb !in queue.blocks
      modifies this, engine, queue, rb, known`nextRequest
      ensures Valid() && View() == I2cRequests.QueueRequest(old(View()), rb.Value())
    {
      if rb.readOnly && rb.readBuffer.Length == 0 {
        return;
      }
      hide Valid, View, I2cRequests.StartTransaction;
      Enlist(rb);
      StartTransaction(channel);
    }

    /** The block at the head leaves the queue. */
    method Dequeue(result: Status)
      requires Valid() && queue.blocks != []
      modifies this`currentRequest, this`known, this`status, this`starts, this`log, queue, engine`state, queue.blocks`status
      ensures Valid() && View() == I2cRequests.Dequeue(old(View()), result)
    {
      var t := Head();
      assert known + {t} == known;
      hide Valid, Values;
      Post(t, result);
      Unlink(result);
    }

    method Head() returns (t: RequestBlock)
      requires Valid() && queue.blocks != []
      ensures t == queue.blocks[0] && t in known && Known(t) && View().queue != [] && View().queue[0] == t.Value()
    {
      t := queue.queueHead;
    }

    method Unlink(ghost result: Status)
      requires Valid() && queue.blocks != []
      modifies this`currentRequest, this`starts, this`log, queue, engine`state
      ensures Valid() && |old(View()).queue| > 0
      ensures View() == old(View()).(queue := old(View()).queue[1..], current := false, bus := FREE, starts := 0,
                                     log := Booked(old(View()).log, old(View()).queue[0].id, result))
    {
      var t := Head();
      hide Valid, View;
      Pop();
      Release();
      Book(t.id, result);
    }

    method Book(id: nat, ghost result: Status)
      requires Valid()
      modifies this`starts, this`log
      ensures Valid() && View() == old(View()).(starts := 0, log := Booked(old(View()).log, id, result))
    {
      hide Chain, RequestQueue.Valid, Values, StatusOk, ByteEngine.Valid;
      starts := 0;
      log := Booked(log, id, result);
    }

    method Pop()
      requires Valid() && queue.blocks != []
      modifies this`currentRequest, queue
      ensures Valid() && queue.blocks == old(queue.blocks)[1..] && currentRequest == null
      ensures View() == old(View()).(queue := old(View()).queue[1..], current := false)
    {
      hide Chain, RequestQueue.Valid, Values, StatusOk, ByteEngine.Valid;
      ValuesTail(queue.blocks);
      queue.RemoveHead();
      currentRequest := null;
    }

    method SetRegisters(overall: Status, phase: Phase, retry: nat)
      requires Valid()
      modifies this`overallStatus, this`muxPhase, this`retryCounter
      ensures Valid() && View() == old(View()).(overall := overall, phase := phase, retry := retry)
    {
      hide Chain, RequestQueue.Valid, Values, StatusOk, ByteEngine.Valid;
      overallStatus, muxPhase, retryCounter := overall, phase, retry;
    }

    /** Take the result of the request, and let it go. */
    method Conclude(overall: Status, phase: Phase, result: Status)
      requires Valid() && queue.blocks != []
      modifies this`overallStatus, this`muxPhase, this`retryCounter, this`currentRequest, this`known, this`status, this`starts, this`log
      modifies queue, engine`state, queue.blocks`status
      ensures Valid() && old(View()).queue != []
      ensures View() == I2cRequests.Dequeue(old(View()).(overall := overall, phase := phase, retry := 0), result)
    {
      var _ := Head();
      hide Valid, View, I2cRequests.Dequeue;
      SetRegisters(overall, phase, 0);
      Dequeue(result);
    }

    /** A transfer has succeeded, or failed for good. */
    method Finish()
      requires Valid() && queue.blocks != []
      modifies this`overallStatus, this`muxPhase, this`retryCounter, this`currentRequest, this`known, this`status, this`starts, this`log
      modifies queue, engine, queue.blocks`status
      ensures Valid() && old(View()).queue != [] && View() == I2cRequests.Finish(old(View()))
    {
      hide Valid, Values, I2cRequests.Dequeue, I2cRequests.Begin;
      var completion, overall, phase := engine.completionStatus, overallStatus, muxPhase;
      var t := Head();
      assert View().completion == completion && View().overall == overall && View().phase == phase && View().muxCount == muxCount;
      hide View;
      if phase == PROLOG {
        if completion == OK && t.device != 0 {
          Continue(completion, PAYLOAD);
        } else {
          Conclude(completion, phase, completion);
        }
      } else if phase == PAYLOAD {
        if muxCount == 1 {
          Conclude(completion, OFF, completion);
        } else {
          Continue(completion, EPILOG);
        }
      } else if phase == EPILOG {
        Conclude(overall, OFF, overall);
      } else {
        Conclude(completion, phase, completion);
      }
    }

    /** On to the next transfer of the same request. */
    method Continue(overall: Status, phase: Phase)
      requires Valid() && queue.blocks != []
      modifies this`overallStatus, this`muxPhase, this`retryCounter, this`log, engine
      ensures Valid() && old(View()).queue != []
      ensures View() == I2cRequests.Begin(old(View()).(overall := overall), phase)
    {
      var _ := Head();
      ghost var was := View();
      assert was == was.(phase := muxPhase, retry := retryCounter);
      hide Valid, View, I2cRequests.Begin;
      SetRegisters(overall, muxPhase, retryCounter);
      assert View() == was.(overall := overall);
      Begin(phase, 0);
    }

    /** Look whether the transfer is over. */
    method Complete()
      requires Valid()
      modifies this`overallStatus, this`muxPhase, this`retryCounter, this`currentRequest, this`known, this`status, this`starts, this`log
      modifies queue, engine, queue.blocks`status
      ensures Valid() && View() == I2cRequests.Complete(old(View()))
    {
      if engine.state != COMPLETED || currentRequest == null {
        return;
      }
      var t := Head();
      var retry, final := Judge(t);
      hide Valid, View, I2cRequests.Finish, Final, CountRetry;
      Note(t, retry);
      if final {
        Finish();
      } else {
        Release();
      }
    }

    /** Whether the outcome is to be taken as it is, and the retry counter. */
    method Judge(t: RequestBlock) returns (retry: nat, final: bool)
      requires View().queue != [] && View().queue[0] == t.Value()
      ensures retry == CountRetry(View()) && final == Final(View(), retry)
    {
      hide Values;
      retry, final := retryCounter, true;
      if engine.completionStatus != OK {
        retry := (retry + 1) % 256;
        final := retry > MAX_I2C_RETRIES || t.noRetry;
      }
    }

    /** The transfer is over, and counted. */
    method Note(t: RequestBlock, retry: nat)
      requires Valid()
      modifies this`retryCounter, this`log
      ensures Valid()
      ensures View() == old(View()).(retry := retry, log := old(log).(bus := old(log).bus + [Ended(t.id, engine.completionStatus)]))
    {
      hide Chain, RequestQueue.Valid, Values, StatusOk, ByteEngine.Valid;
      retryCounter := retry;
      log := log.(bus := log.bus + [Ended(t.id, engine.completionStatus)]);
    }

    method Release()
      requires Valid()
      modifies engine`state
      ensures Valid() && View() == old(View()).(bus := FREE)
    {
      hide Chain, RequestQueue.Valid, Values, StatusOk;
      engine.state := FREE;
    }

    /** An interrupt of the bus hardware. */
    method HandleInterrupt(twi: Twi, data: bv8, channel: bv8)
      requires Valid()
      modifies this, queue, engine, engine.receiveBuffer, queue.blocks`status
      ensures Valid() && View() == I2cRequests.HandleInterrupt(old(View()), twi)
    {
      Receive(twi, data);
      hide Valid, View, I2cRequests.HandleByte, I2cRequests.Complete, I2cRequests.StartTransaction;
      Complete();
      StartTransaction(channel);
    }

    method Receive(twi: Twi, data: bv8)
      requires Valid()
      modifies engine, engine.receiveBuffer
      ensures Valid() && View() == I2cRequests.HandleByte(old(View()), twi)
    {
      hide Chain, RequestQueue.Valid, Values, StatusOk, EngineStep;
      engine.HandleByte(twi, data);
    }

    /** The request at the head may have taken too long. */
    method CheckForTimeout(elapsed: nat, timeout: nat, channel: bv8)
      requires Valid()
      modifies this, queue, engine, queue.blocks`status
      ensures Valid()
      ensures View() == if timeout > 0 && elapsed > timeout then I2cRequests.CheckForTimeout(old(View())) else old(View())
    {
      if engine.state != ACTIVE || queue.queueHead == null || currentRequest == null || timeout == 0 || elapsed <= timeout {
        return;
      }
      var _ := Head();
      Stop();
      hide Valid, View, I2cRequests.Dequeue, I2cRequests.StartTransaction;
      Dequeue(TIMEOUT);
      StartTransaction(channel);
    }

    method Stop()
      requires Valid()
      modifies engine`bytesToSend, engine`bytesToReceive
      ensures Valid() && View() == old(View()).(transfer := old(engine.Counters()).(toSend := 0, toReceive := 0))
    {
      hide Chain, RequestQueue.Valid, Values, StatusOk;
      engine.bytesToReceive, engine.bytesToSend := 0, 0;
    }
  }
}
