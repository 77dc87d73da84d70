/** The ack manager itself: the registers of the interpreter, and the track it borrows, updated in place. */
module AckManager {
  import opened AckPrograms
  import opened AckMachine
  import opened AckWindDown

  class Manager {
    var active: bool          // ackManagerProg is not null
    var prog: Code            // the program from ackManagerProg on
    var progStart: Code
    var cv: int
    var byteValue: nat
    var byteVerify: nat
    var bitNum: nat
    var stash: nat
    var word: nat
    var retry: nat
    var ackRetry: nat
    var ackReceived: bool
    var rejoin: bool
    var autoPowerOff: bool
    var callbackState: Wind
    var callbackStart: nat
    var power: bool
    var joined: bool
    ghost var firstCv: int
    ghost var sent: seq<Packet>
    ghost var passStart: nat
    ghost var writes: seq<nat>
    ghost var events: seq<Event>

    constructor (power: bool, joined: bool)
      ensures !active && this.power == power && this.joined == joined && callbackState == READY && ackRetry == 2
    {
      active, prog, progStart, cv, byteValue, byteVerify, bitNum := false, End, End, 0, 0, 0, 0;
      stash, word, retry, ackRetry, ackReceived, rejoin, autoPowerOff := 0, 0, 0, 2, false, false, false;
      callbackState, callbackStart := READY, 0;
      this.power, this.joined := power, joined;
      firstCv, sent, passStart, writes, events := 0, [], 0, [], [];
    }

    ghost function Registers(): Vm
      reads this
    {
      Vm(prog, cv, byteValue, bitNum, stash, ackReceived, retry, sent, passStart)
    }

    ghost function View(): Machine
      reads this
    {
      Machine(Registers(), active, callbackState, callbackStart, power, joined, autoPowerOff, rejoin, writes, events)
    }

    ghost function TheJob(): Job
      reads this
    {
      Job(progStart, firstCv, byteVerify, word)
    }

    /** A value to call back with at once means that there is nothing to run the program on. */
    method Setup(job: Job, track: Track) returns (value: int)
      requires track.Track? ==> track.power == power
      modifies this
      ensures var s := AckWindDown.Setup(job, track, old(joined), ackRetry, old(callbackState), old(ackReceived), old(stash));
              && (s.Refused? ==> value == s.value && joined == s.joined && active == old(active))
              && (s.Running? ==> value == 0 && TheJob() == job && View() == s.m.(callbackStart := old(callbackStart)))
      ensures ackRetry == old(ackRetry)
    {
      rejoin := joined;
      if rejoin {
        joined := false;
      }
      if track.NoTrack? {
        joined := false;
        return -3;
      }
      if !track.canMeasure {
        joined := rejoin;
        return -2;
      }
      hide TheJob, View;
      Launch(job);
      return 0;
    }

    method Launch(job: Job)
      modifies this
      ensures TheJob() == job && ackRetry == old(ackRetry)
      ensures View() == Machine(Begin(job, old(ackReceived), old(stash), old(ackRetry)), true, old(callbackState), old(callbackStart),
                                true, old(joined), !old(power), old(rejoin), [], [])
    {
      hide Registers, TheJob;
      PowerUp();
      Load(job);
    }

    method PowerUp()
      modifies this`power, this`autoPowerOff
      ensures power && autoPowerOff == !old(power)
    {
      autoPowerOff := false;
      if !power {
        autoPowerOff := true;
        power := true;
      }
    }

    method Load(job: Job)
      modifies this`active, this`prog, this`progStart, this`cv, this`byteValue, this`byteVerify, this`bitNum, this`word, this`retry
      modifies this`firstCv, this`sent, this`passStart, this`writes, this`events
      ensures active && Registers() == Begin(job, ackReceived, stash, ackRetry) && TheJob() == job && writes == [] && events == []
    {
      firstCv, sent, passStart, writes, events := job.cv, [], 0, [], [];
      LoadProgram(job);
    }

    method LoadProgram(job: Job)
      modifies this`active, this`prog, this`progStart, this`cv, this`byteValue, this`byteVerify, this`bitNum, this`word, this`retry
      ensures active && prog == job.start && progStart == job.start && cv == job.cv && word == job.word && retry == ackRetry
      ensures byteValue == byteVerify == bitNum == job.value
    {
      cv := job.cv;
      prog := job.start;
      progStart := job.start;
      retry := ackRetry;
      byteValue := job.value;
      byteVerify := job.value;
      bitNum := job.value;
      word := job.word;
      active := true;
    }

    /** Look for the target; without one the position is left where it is. */
    method SkipToTarget() returns (found: bool)
      requires prog.Op?
      modifies this`prog
      ensures found <==> Target(old(prog).rest).At?
      ensures prog == if found then Target(old(prog).rest).code else old(prog)
    {
      var p := prog.rest;
      while p.Op? && !IsTarget(p.cell)
        invariant Target(p) == Target(old(prog).rest)
        decreases Length(p)
      {
        p := p.rest;
      }
      found := p.Op?;
      if found {
        prog := p.rest;
      }
    }

    method Skip(c: Cell)
      requires prog.Op? && c == prog.cell && Skips(c)
      modifies this`prog
      ensures Registers() == Moved(old(Registers()), Step(old(Registers()), old(TheJob()), _ => false))
    {
      hide Target;
      if (c == ITSKIP && ackReceived) || (c == NAKSKIP && !ackReceived) || (c == BAD20SKIP && byteValue > 120) {
        var _ := SkipToTarget();
      } else {
        prog := prog.rest;
      }
    }

    method SetFromOperand(c: Cell)
      requires prog.Op? && c == prog.cell && Sets(c)
      modifies this`prog, this`cv, this`bitNum, this`byteValue
      ensures Registers() == Moved(old(Registers()), Step(old(Registers()), old(TheJob()), _ => false))
    {
      if prog.rest.Op? && prog.rest.cell.Num? {
        var n := prog.rest.cell.n;
        if c == SETBIT {
          bitNum := n;
        } else if c == SETCV {
          cv := n;
        } else {
          byteValue := n;
        }
        prog := prog.rest.rest;
      }
    }

    /** Schedule a packet, and watch for its acknowledgement. */
    method Issue(c: Cell, now: nat)
      requires prog.Op? && c == prog.cell && Sends(c)
      modifies this`prog, this`sent, this`writes, this`callbackState
      ensures Registers() == Moved(old(Registers()), Step(old(Registers()), old(TheJob()), _ => false))
      ensures callbackState == NextWind(c, old(callbackState))
      ensures writes == if Writes(c) then old(writes) + [now] else old(writes)
    {
      ghost var message :=
        if c == W0 || c == W1 then WriteBit(cv, bitNum, c == W1)
        else if c == V0 || c == V1 then VerifyBit(cv, bitNum, c == V1)
        else if c == WB then WriteByte(cv, byteValue)
        else VerifyByte(cv, byteValue);
      sent := sent + [message];
      if c == W0 || c == W1 || c == WB {
        callbackState := AFTER_WRITE;
        writes := writes + [now];
      }
      prog := prog.rest;
    }

    method ChangeRegisters(c: Cell, acked: bool, ghost oracle: Oracle)
      requires prog.Op? && c == prog.cell && !c.Num? && !Sends(c) && !Calls(c) && !Skips(c) && !Sets(c) && acked == oracle(sent)
      modifies this`prog, this`ackReceived, this`byteValue, this`bitNum, this`stash, this`callbackState
      ensures Registers() == Plain(c, Advance(old(Registers())), old(TheJob()), oracle)
      ensures callbackState == NextWind(c, old(callbackState))
    {
      if c == BASELINE {
        callbackState := AFTER_READ;
      } else if c == WACK {
        ackReceived := acked;
      } else if c == BIV {
        byteValue := byteVerify;
      } else if c == STARTMERGE {
        bitNum, byteValue := 7, 0;
      } else if c == MERGE {
        byteValue := byteValue * 2 % 256;
        if !ackReceived {
          byteValue := byteValue + 1;
        }
        bitNum := (bitNum + 255) % 256;
      } else if c == SETBYTEH {
        byteValue := word / 256 % 256;
      } else if c == SETBYTEL {
        byteValue := word % 256;
      } else if c == STASHLOCOID {
        stash := byteValue;
      }
      prog := prog.rest;
    }

    /** Call back, by way of the retries and the winding down. */
    method Callback(value: int, now: nat)
      modifies this
      ensures TheJob() == old(TheJob()) && ackRetry == old(ackRetry)
      ensures View() == Finished(old(View()), old(TheJob()), value, now)
    {
      if value == -1 && retry > 0 {
        retry := retry - 1;
        prog := progStart;
        passStart := |sent|;
        return;
      }
      hide WindDown;
      OneStepDown(value, now);
    }

    method OneStepDown(value: int, now: nat)
      modifies this`power, this`joined, this`active, this`callbackStart, this`callbackState, this`events
      ensures View() == WindDown(old(View()), value, now)
    {
      hide Farewell;
      match callbackState {
        case AFTER_READ =>
          if rejoin && !autoPowerOff {
            CutPower(now);
          } else {
            callbackState := READY;
          }
        case AFTER_WRITE =>
          if !rejoin && !autoPowerOff {
            callbackState := READY;
            return;
          }
          callbackStart := now;
          callbackState := WAITING_100;
        case WAITING_100 =>
          if now - callbackStart < 100 {
            return;
          }
          if autoPowerOff {
            callbackState := READY;
          } else {
            CutPower(now);
          }
        case WAITING_30 =>
          if now - callbackStart < 30 {
            return;
          }
          power := true;
          events := events + [PowerOn(now)];
          callbackState := READY;
        case READY =>
          Finish(value, now);
      }
    }

    method CutPower(now: nat)
      modifies this`power, this`callbackStart, this`callbackState, this`events
      ensures !power && callbackStart == now && callbackState == WAITING_30 && events == old(events) + [PowerOff(now)]
    {
      power := false;
      events := events + [PowerOff(now)];
      callbackStart := now;
      callbackState := WAITING_30;
    }

    method Finish(value: int, now: nat)
      modifies this`power, this`joined, this`active, this`events
      ensures power == (old(power) && !autoPowerOff) && joined == (old(joined) || rejoin) && !active
      ensures events == old(events) + Farewell(old(View()), value, now)
    {
      ghost var e := events;
      if autoPowerOff {
        power := false;
        events := events + [PowerOff(now)];
      }
      if rejoin {
        joined := true;
        events := events + [Rejoined(now)];
      }
      active := false;
      events := events + [Called(now, value)];
      assert events == e + Farewell(old(View()), value, now);
    }

    /** Operations that may call back. */
    method MayCall(c: Cell, now: nat)
      requires active && prog.Op? && c == prog.cell && Calls(c)
      modifies this
      ensures TheJob() == old(TheJob()) && ackRetry == old(ackRetry)
      ensures CallTaken(c, old(Registers())) ==>
                View() == Finished(old(View()).(vm := CallLeaves(c, old(Registers()))), old(TheJob()), CallValue(c, old(Registers())), now)
      ensures !CallTaken(c, old(Registers())) ==> View() == old(View()).(vm := Advance(old(Registers())))
    {
      hide Finished;
      if c == COMBINE1920 {
        byteValue := byteValue % 128;
        byteValue := byteValue % 100;
        Callback(stash * 100 + byteValue, now);
      } else if c == COMBINELOCOID {
        Callback(LongId(stash, byteValue), now);
      } else if c == CALLFAIL {
        Callback(-1, now);
      } else if c == NAKFAIL {
        if !ackReceived {
          Callback(-1, now);
          return;
        }
        prog := prog.rest;
      } else if c == FAIL_IF_NONZERO_NAK {
        if byteValue != 0 {
          Callback(-4, now);
          return;
        }
        prog := prog.rest;
      } else {
        if ackReceived {
          Callback(if c == ITC0 then 0 else if c == ITC1 then 1 else if c == ITCB7 then byteValue % 128 else byteValue, now);
          return;
        }
        prog := prog.rest;
      }
    }

    method ProceedSending(c: Cell, now: nat, acked: bool, ghost oracle: Oracle)
      requires prog.Op? && c == prog.cell && !c.Num? && Sends(c) && acked == oracle(sent)
      modifies this`prog, this`callbackState, this`sent, this`writes
      ensures View() == Operated(old(View()), old(TheJob()), oracle, now)
    {
      WritesSend(c);
      OperatedIs(View(), TheJob(), oracle, now);
      hide Registers, Plain, Step, CallTaken, CallValue, Operated, Finished, Writes, NextWind, Sends, Calls, Skips, Sets;
      Issue(c, now);
    }

    method ProceedSkipping(c: Cell, now: nat, acked: bool, ghost oracle: Oracle)
      requires prog.Op? && c == prog.cell && !c.Num? && Skips(c) && acked == oracle(sent)
      modifies this`prog
      ensures View() == Operated(old(View()), old(TheJob()), oracle, now)
    {
      WritesSend(c);
      OperatedIs(View(), TheJob(), oracle, now);
      hide Registers, Plain, Step, CallTaken, CallValue, Operated, Finished, Writes, NextWind, Sends, Calls, Skips, Sets;
      Skip(c);
    }

    method ProceedSetting(c: Cell, now: nat, acked: bool, ghost oracle: Oracle)
      requires prog.Op? && c == prog.cell && !c.Num? && Sets(c) && acked == oracle(sent)
      modifies this`prog, this`cv, this`byteValue, this`bitNum
      ensures View() == Operated(old(View()), old(TheJob()), oracle, now)
    {
      WritesSend(c);
      OperatedIs(View(), TheJob(), oracle, now);
      hide Registers, Plain, Step, CallTaken, CallValue, Operated, Finished, Writes, NextWind, Sends, Calls, Skips, Sets;
      SetFromOperand(c);
    }

    method ProceedPlainly(c: Cell, now: nat, acked: bool, ghost oracle: Oracle)
      requires prog.Op? && c == prog.cell && !c.Num? && !Sends(c) && !Calls(c) && !Skips(c) && !Sets(c) && acked == oracle(sent)
      modifies this`prog, this`byteValue, this`bitNum, this`stash, this`ackReceived, this`callbackState
      ensures View() == Operated(old(View()), old(TheJob()), oracle, now)
    {
      WritesSend(c);
      OperatedIs(View(), TheJob(), oracle, now);
      hide Registers, Plain, Step, CallTaken, CallValue, Operated, Finished, Writes, NextWind, Sends, Calls, Skips, Sets;
      ChangeRegisters(c, acked, oracle);
    }

    /** An operation that does not call back. */
    method Proceed(c: Cell, now: nat, acked: bool, ghost oracle: Oracle)
      requires prog.Op? && c == prog.cell && !c.Num? && !Calls(c) && acked == oracle(sent)
      modifies this`prog, this`cv, this`byteValue, this`bitNum, this`stash, this`ackReceived, this`callbackState, this`sent, this`writes
      ensures View() == Operated(old(View()), old(TheJob()), oracle, now)
    {
      hide View, Operated, Sends, Calls, Skips, Sets;
      if Sends(c) {
        ProceedSending(c, now, acked, oracle);
      } else if Skips(c) {
        ProceedSkipping(c, now, acked, oracle);
      } else if Sets(c) {
        ProceedSetting(c, now, acked, oracle);
      } else {
        ProceedPlainly(c, now, acked, oracle);
      }
    }

    /** One operation, whatever it is. */
    method Operate(c: Cell, now: nat, acked: bool, ghost oracle: Oracle)
      requires active && prog.Op? && c == prog.cell && !c.Num? && acked == oracle(sent)
      modifies this
      ensures TheJob() == old(TheJob()) && ackRetry == old(ackRetry)
      ensures View() == Operated(old(View()), old(TheJob()), oracle, now)
    {
      if Calls(c) {
        OperatedIs(View(), TheJob(), oracle, now);
        hide Registers, Plain, Step, CallTaken, CallValue, Operated, Finished;
        MayCall(c, now);
      } else {
        hide View, Operated;
        Proceed(c, now, acked, oracle);
      }
    }

    /** One turn of the interpreter's loop; `acked` is what the detector says of the packets sent. */
    method OneOp(i: Input, acked: bool, ghost oracle: Oracle)
      requires acked == oracle(sent)
      modifies this
      ensures TheJob() == old(TheJob()) && ackRetry == old(ackRetry)
      ensures View() == Poll(old(View()), old(TheJob()), oracle, i)
    {
      if !active || prog == End || prog.cell.Num? {
        return;
      }
      var c := prog.cell;
      if ((c == BASELINE || Sends(c)) && !i.resets) || (c == WACK && !i.answered) {
        return;
      }
      hide Step, Finished, NextWind, Writes;
      Operate(c, i.now, acked, oracle);
    }
  }

  /** An operation that need not wait. */
  function Operated(m: Machine, job: Job, oracle: Oracle, now: nat): Machine
    requires m.vm.rest.Op?
  {
    var c := m.vm.rest.cell;
    match Step(m.vm, job, oracle)
    case Lost => m
    case Next(vm') =>
      m.(vm := vm', wind := NextWind(c, m.wind), writes := if Writes(c) then m.writes + [now] else m.writes)
    case Callback(vm', value) => Finished(m.(vm := vm'), job, value, now)
  }

  /** What a callback leads to. */
  function Finished(m: Machine, job: Job, value: int, now: nat): Machine {
    if value == -1 && m.vm.retry > 0 then m.(vm := Again(m.vm, job)) else WindDown(m, value, now)
  }

  lemma StepKinds(vm: Vm, job: Job, oracle: Oracle)
    requires vm.rest.Op? && !vm.rest.cell.Num?
    ensures var c, o := vm.rest.cell, Step(vm, job, oracle);
            && (Calls(c) ==> o == if CallTaken(c, vm) then Outcome.Callback(CallLeaves(c, vm), CallValue(c, vm)) else Next(Advance(vm)))
            && (!Sends(c) && !Calls(c) && !Skips(c) && !Sets(c) ==> o == Next(Plain(c, Advance(vm), job, oracle)))
            && (Sends(c) || Skips(c) || Sets(c) ==> o == Step(vm, job, _ => false) && !o.Callback?)
  {
    KindsApart(vm.rest.cell);
    hide Plain, CallTaken, CallValue, PacketFor, SkipTaken, Target, Sends, Calls, Skips, Sets;
  }

  /** The same, kind by kind. */
  lemma OperatedIs(m: Machine, job: Job, oracle: Oracle, now: nat)
    requires m.vm.rest.Op? && !m.vm.rest.cell.Num?
    ensures var c, r := m.vm.rest.cell, Operated(m, job, oracle, now);
            var quiet := Moved(m.vm, Step(m.vm, job, _ => false));
            && (Sends(c) ==> r == m.(vm := quiet, wind := NextWind(c, m.wind), writes := if Writes(c) then m.writes + [now] else m.writes))
            && (Skips(c) || Sets(c) ==> r == m.(vm := quiet))
            && (Calls(c) && CallTaken(c, m.vm) ==> r == Finished(m.(vm := CallLeaves(c, m.vm)), job, CallValue(c, m.vm), now))
            && (Calls(c) && !CallTaken(c, m.vm) ==> r == m.(vm := Advance(m.vm)))
            && (!Sends(c) && !Calls(c) && !Skips(c) && !Sets(c) ==> r == m.(vm := Plain(c, Advance(m.vm), job, oracle), wind := NextWind(c, m.wind)))
  {
    var c := m.vm.rest.cell;
    StepKinds(m.vm, job, oracle);
    KindsApart(c);
    WritesSend(c);
    if Sends(c) {
      SendsMoves(m.vm, job, oracle);
    }
    hide Step, Plain, CallTaken, CallValue, Finished, Sends, Calls, Skips, Sets, Writes;
  }

  lemma SendsMoves(vm: Vm, job: Job, oracle: Oracle)
    requires vm.rest.Op? && Sends(vm.rest.cell)
    ensures Step(vm, job, oracle).Next?
  {
  }

  /** The state an operation other than a callback leaves. */
  function Moved(vm: Vm, o: Outcome): Vm {
    if o.Next? then o.vm else vm
  }
}
