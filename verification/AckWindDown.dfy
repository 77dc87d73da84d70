/** The interpreter as it is polled: it waits for resets and acknowledgements, retries, and on a
    result winds down, keeping power up after a write and off before the tracks are joined again,
    before it calls back. */
module AckWindDown {
  import opened AckPrograms
  import opened AckMachine

  datatype Wind = AFTER_READ | AFTER_WRITE | WAITING_100 | WAITING_30 | READY

  datatype Event = PowerOff(at: nat) | PowerOn(at: nat) | Rejoined(at: nat) | Called(at: nat, value: int)

  /** `power` and `joined` are those of the programming track; `writes` are the times of the write
      packets since Setup, `events` what winding down has done. */
  datatype Machine = Machine(
    vm: Vm, active: bool, wind: Wind, callbackStart: nat,
    power: bool, joined: bool, autoPowerOff: bool, rejoin: bool,
    writes: seq<nat>, events: seq<Event>)

  /** What a poll finds: the time, whether enough resets have been sent (and there is no overload),
      and whether the acknowledgement window is over. */
  datatype Input = Input(now: nat, resets: bool, answered: bool)

  // ---------------------------------------------------------------- setup

  datatype Track = NoTrack | Track(canMeasure: bool, power: bool)

  datatype Setting = Refused(value: int, joined: bool) | Running(m: Machine)

  /** `wind`, `ack` and `stash` are left over from the last job. */
  function Setup(job: Job, track: Track, joined: bool, retries: nat, wind: Wind, ack: bool, stash: nat): Setting {
    if track.NoTrack? then Refused(-3, false)
    else if !track.canMeasure then Refused(-2, joined)
    else Running(Machine(Begin(job, ack, stash, retries), true, wind, 0, true, false, !track.power, joined, [], []))
  }

  // ---------------------------------------------------------------- polls

  predicate Writes(c: Cell) {
    c == W0 || c == W1 || c == WB
  }

  predicate Waits(c: Cell, i: Input) {
    ((c == BASELINE || Sends(c)) && !i.resets) || (c == WACK && !i.answered)
  }

  function NextWind(c: Cell, w: Wind): Wind {
    if c == BASELINE then AFTER_READ else if Writes(c) then AFTER_WRITE else w
  }

  /** One step towards the callback. */
  function WindDown(m: Machine, value: int, now: nat): Machine {
    match m.wind
    case AFTER_READ =>
      if m.rejoin && !m.autoPowerOff then
        m.(power := false, callbackStart := now, wind := WAITING_30, events := m.events + [PowerOff(now)])
      else
        m.(wind := READY)
    case AFTER_WRITE =>
      if !m.rejoin && !m.autoPowerOff then m.(wind := READY) else m.(callbackStart := now, wind := WAITING_100)
    case WAITING_100 =>
      if now - m.callbackStart < 100 then m
      else if m.autoPowerOff then m.(wind := READY)
      else m.(power := false, callbackStart := now, wind := WAITING_30, events := m.events + [PowerOff(now)])
    case WAITING_30 =>
      if now - m.callbackStart < 30 then m
      else m.(power := true, wind := READY, events := m.events + [PowerOn(now)])
    case READY =>
      m.(power := m.power && !m.autoPowerOff, joined := m.joined || m.rejoin, active := false,
         events := m.events + Farewell(m, value, now))
  }

  function Farewell(m: Machine, value: int, now: nat): seq<Event> {
    (if m.autoPowerOff then [PowerOff(now)] else []) + (if m.rejoin then [Rejoined(now)] else []) + [Called(now, value)]
  }

  function Poll(m: Machine, job: Job, oracle: Oracle, i: Input): Machine {
    if !m.active || m.vm.rest == End || Waits(m.vm.rest.cell, i) then m
    else
      var c := m.vm.rest.cell;
      match Step(m.vm, job, oracle)
      case Lost => m
      case Next(vm') =>
        m.(vm := vm', wind := NextWind(c, m.wind), writes := if Writes(c) then m.writes + [i.now] else m.writes)
      case Callback(vm', value) =>
        if value == -1 && vm'.retry > 0 then m.(vm := Again(vm', job)) else WindDown(m.(vm := vm'), value, i.now)
  }

  function Polls(m: Machine, job: Job, oracle: Oracle, inputs: seq<Input>): Machine {
    if inputs == [] then m
    else Poll(Polls(m, job, oracle, inputs[..|inputs| - 1]), job, oracle, inputs[|inputs| - 1])
  }

  // ---------------------------------------------------------------- the value does not depend on polling

  lemma CallRepeats(vm: Vm, job: Job, oracle: Oracle)
    ensures var o := Step(vm, job, oracle);
            o.Callback? ==> Step(o.vm, job, oracle) == o && Execute(vm, job, oracle) == Execute(o.vm, job, oracle)
  {
    if vm.rest.Op? && Calls(vm.rest.cell) {
      TwoDigits(vm.byte);
      CallsAgain(vm.rest.cell, vm);
    }
    hide CallValue, CallTaken, LastTwo, Plain, PacketFor, SkipTaken, Target, Calls, Sends, Skips, Sets;
  }

  lemma TwoDigits(b: nat)
    ensures LastTwo(LastTwo(b)) == LastTwo(b)
  {
  }

  lemma CallsAgain(c: Cell, vm: Vm)
    requires Calls(c)
    ensures var vm' := CallLeaves(c, vm);
            CallTaken(c, vm') == CallTaken(c, vm) && CallValue(c, vm') == CallValue(c, vm) && CallLeaves(c, vm') == vm'
  {
    TwoDigits(vm.byte);
  }

  ghost predicate Quiet(events: seq<Event>) {
    forall i :: 0 <= i < |events| ==> !events[i].Called?
  }

  /** The job will end as it would if it were never kept waiting. */
  ghost predicate OnCourse(m: Machine, vm0: Vm, job: Job, oracle: Oracle) {
    && Execute(m.vm, job, oracle) == Execute(vm0, job, oracle)
    && (m.active ==> Quiet(m.events))
    && (!m.active ==>
          && m.events != []
          && m.events[|m.events| - 1].Called?
          && Execute(vm0, job, oracle).Done?
          && m.events[|m.events| - 1].value == Execute(vm0, job, oracle).value
          && Quiet(m.events[..|m.events| - 1]))
  }

  lemma PollKeepsCourse(m: Machine, vm0: Vm, job: Job, oracle: Oracle, i: Input)
    requires OnCourse(m, vm0, job, oracle)
    ensures OnCourse(Poll(m, job, oracle, i), vm0, job, oracle)
  {
    var o := Step(m.vm, job, oracle);
    CallRepeats(m.vm, job, oracle);
    ExecuteStep(m.vm, job, oracle);
    hide Step, Execute, Waits;
    if m.active && o.Callback? && !(o.value == -1 && o.vm.retry > 0) {
      WindDownCalls(m.(vm := o.vm), o.value, i.now);
    }
    hide WindDown;
  }

  lemma ExecuteStep(vm: Vm, job: Job, oracle: Oracle)
    ensures var o := Step(vm, job, oracle);
            && (o.Next? ==> Execute(vm, job, oracle) == Execute(o.vm, job, oracle))
            && (o.Callback? ==>
                  if o.value == -1 && o.vm.retry > 0 then Execute(vm, job, oracle) == Execute(Again(o.vm, job), job, oracle)
                  else Execute(vm, job, oracle) == Done(o.value, o.vm))
  {
    hide Step;
  }

  /** Winding down calls back only as its last act. */
  lemma WindDownCalls(m: Machine, value: int, now: nat)
    requires m.active && Quiet(m.events)
    ensures var m' := WindDown(m, value, now);
            && m'.vm == m.vm
            && (m'.active ==> Quiet(m'.events))
            && (!m'.active ==>
                  && m'.events != [] && m'.events[|m'.events| - 1] == Called(now, value)
                  && Quiet(m'.events[..|m'.events| - 1]))
  {
    if m.wind == READY {
      LastActIsTheCall(m, value, now);
      hide Farewell, Quiet;
    } else {
      QuietMore(m.events, PowerOff(now));
      QuietMore(m.events, PowerOn(now));
      hide Farewell, Quiet;
    }
  }

  lemma QuietMore(events: seq<Event>, e: Event)
    requires Quiet(events) && !e.Called?
    ensures Quiet(events + [e])
  {
  }

  lemma LastActIsTheCall(m: Machine, value: int, now: nat)
    requires Quiet(m.events)
    ensures var r := m.events + Farewell(m, value, now);
            r != [] && r[|r| - 1] == Called(now, value) && Quiet(r[..|r| - 1])
  {
    var f := Farewell(m, value, now);
    var r := m.events + f;
    assert r[..|r| - 1] == m.events + f[..|f| - 1];
  }

  /** However and whenever it is polled, a job calls back at most once, and with the value that the
      uninterrupted run computes. */
  lemma {:induction false} CalledOnceWithTheValue(m0: Machine, job: Job, oracle: Oracle, inputs: seq<Input>)
    requires m0.active && m0.events == []
    ensures OnCourse(Polls(m0, job, oracle, inputs), m0.vm, job, oracle)
  {
    hide Poll, Execute;
    if inputs != [] {
      CalledOnceWithTheValue(m0, job, oracle, inputs[..|inputs| - 1]);
      PollKeepsCourse(Polls(m0, job, oracle, inputs[..|inputs| - 1]), m0.vm, job, oracle, inputs[|inputs| - 1]);
      hide OnCourse;
    }
  }

  // ---------------------------------------------------------------- power and time

  /** Operations that only lead on. */
  predicate Straight(c: Cell) {
    !c.Num? && !Calls(c) && !Skips(c) && !Sends(c)
  }

  /** Nothing is decided before something is written. */
  predicate WriteAhead(c: Code) {
    c.Op? && (Writes(c.cell) || (Straight(c.cell) && (if Sets(c.cell) then c.rest.Op? && WriteAhead(c.rest.rest) else WriteAhead(c.rest))))
  }

  predicate WritesNothing(c: Code) {
    c == End || (!Writes(c.cell) && WritesNothing(c.rest))
  }

  predicate NoBaseline(c: Code) {
    c == End || (c.cell != BASELINE && NoBaseline(c.rest))
  }

  /** A program that takes a baseline first and only then, and on every pass writes before it decides anything, or
      never writes. */
  predicate Orderly(c: Code) {
    c.Op? && c.cell == BASELINE && NoBaseline(c.rest) && (WriteAhead(c.rest) || WritesNothing(c))
  }

  /** The next operation calls back for good. */
  predicate Calling(vm: Vm, job: Job, oracle: Oracle) {
    var o := Step(vm, job, oracle);
    o.Callback? && !(o.value == -1 && o.vm.retry > 0)
  }

  /** All writes were at least 100 ms before t. */
  ghost predicate Settled(writes: seq<nat>, t: nat) {
    forall i :: 0 <= i < |writes| ==> writes[i] + 100 <= t
  }

  ghost predicate Past(writes: seq<nat>, t: nat) {
    forall i :: 0 <= i < |writes| ==> writes[i] <= t
  }

  /** Rules on how a job may have wound down so far, at time t. */
  ghost predicate Winding(m: Machine, t: nat) {
    match m.wind
    case AFTER_READ => m.events == [] && m.power
    case AFTER_WRITE => m.events == [] && m.power
    case WAITING_100 =>
      m.events == [] && m.power && (m.autoPowerOff || m.rejoin) && Past(m.writes, m.callbackStart) && m.callbackStart <= t
    case WAITING_30 =>
      && m.events == [PowerOff(m.callbackStart)] && !m.power && m.rejoin && !m.autoPowerOff
      && Settled(m.writes, m.callbackStart) && m.callbackStart <= t
    case READY =>
      && m.power
      && if m.rejoin && !m.autoPowerOff then Cycled(m.events, m.writes, t)
         else m.events == [] && (m.autoPowerOff ==> Settled(m.writes, t))
  }

  /** Power was off for 30 ms, and not before the writes had settled. */
  ghost predicate Cycled(events: seq<Event>, writes: seq<nat>, t: nat) {
    && |events| == 2 && events[0].PowerOff? && events[1].PowerOn?
    && Settled(writes, events[0].at) && events[0].at + 30 <= events[1].at <= t
  }

  /** How a job has ended: the track is as it was, after the delays that decoders need. */
  ghost predicate Ended(m: Machine, power0: bool, joined0: bool) {
    && m.power == power0 && m.joined == joined0 && m.events != []
    && var e := m.events[..|m.events| - 1];
       && (power0 && !joined0 ==> e == [])
       && (power0 && joined0 ==> |e| == 3 && e[2].Rejoined? && Cycled(e[..2], m.writes, e[2].at))
       && (!power0 && !joined0 ==> |e| == 1 && e[0].PowerOff? && Settled(m.writes, e[0].at))
       && (!power0 && joined0 ==> |e| == 2 && e[0].PowerOff? && e[1] == Rejoined(e[0].at) && Settled(m.writes, e[0].at))
  }

  ghost predicate Inv(m: Machine, job: Job, oracle: Oracle, power0: bool, joined0: bool, t: nat) {
    && m.autoPowerOff == !power0 && m.rejoin == joined0
    && Past(m.writes, t)
    && (WritesNothing(job.start) ==> m.writes == [] && WritesNothing(m.vm.rest))
    && (m.active ==> !m.joined)
    && (m.active ==> Phase(m, job, oracle, t))
    && (!m.active ==> Ended(m, power0, joined0))
  }

  /** Where a running job is. */
  ghost predicate Phase(m: Machine, job: Job, oracle: Oracle, t: nat) {
    if m.vm.rest == job.start then m.events == [] && m.power
    else
      && Winding(m, t) && NoBaseline(m.vm.rest)
      && (m.wind == AFTER_READ && !WritesNothing(job.start) ==> WriteAhead(m.vm.rest))
      && (m.wind != AFTER_READ && m.wind != AFTER_WRITE ==> Calling(m.vm, job, oracle))
  }

  // Parts of programs keep their shape.

  /** Where an operation may lead. */
  predicate Onward(c: Code, c': Code) {
    c.Op? &&
    if Sets(c.cell) then c.rest.Op? && c' == c.rest.rest
    else c' == c.rest || (Skips(c.cell) && Target(c.rest) == At(c'))
  }

  lemma StepOnward(vm: Vm, job: Job, oracle: Oracle)
    ensures var o := Step(vm, job, oracle);
            && (o.Next? ==> Onward(vm.rest, o.vm.rest))
            && (o.Callback? ==> vm.rest.Op? && Calls(vm.rest.cell) && o.vm.rest == vm.rest)
  {
    if vm.rest.Op? {
      var c := vm.rest.cell;
      PlainKeeps(c, Advance(vm), job, oracle);
      KindsApart(c);
      hide Plain, PacketFor, CallValue, CallTaken, SkipTaken, Sends, Calls, Skips, SendsBit, AlwaysCalls, LastTwo, Sets, Target;
    }
  }

  lemma OnwardShape(c: Code, c': Code)
    requires Onward(c, c')
    ensures NoBaseline(c.rest) ==> NoBaseline(c')
    ensures WritesNothing(c) ==> WritesNothing(c') && !Writes(c.cell)
    ensures WriteAhead(c) && !Writes(c.cell) ==> WriteAhead(c')
  {
    TargetShape(c.rest);
    hide Skips, Sets, Writes, Target, Calls, Sends;
  }

  lemma StepShape(vm: Vm, job: Job, oracle: Oracle)
    requires vm.rest.Op?
    ensures var o := Step(vm, job, oracle);
            && (o.Next? && NoBaseline(vm.rest.rest) ==> NoBaseline(o.vm.rest))
            && (o.Next? && WritesNothing(vm.rest) ==> WritesNothing(o.vm.rest) && !Writes(vm.rest.cell))
            && (o.Next? && WriteAhead(vm.rest) && !Writes(vm.rest.cell) ==> WriteAhead(o.vm.rest))
            && (WriteAhead(vm.rest) ==> !o.Callback?)
            && (o.Callback? ==> o.vm.rest == vm.rest)
  {
    StepOnward(vm, job, oracle);
    WritesSend(vm.rest.cell);
    var o := Step(vm, job, oracle);
    hide Step, Writes, Calls, Sends, Skips, Sets, Onward;
    if o.Next? {
      OnwardShape(vm.rest, o.vm.rest);
    }
  }

  lemma WritesSend(c: Cell)
    ensures Writes(c) ==> Sends(c) && c != BASELINE && !Calls(c)
    ensures Calls(c) ==> !Sends(c) && c != BASELINE
    ensures c == BASELINE ==> !Sends(c) && !Calls(c) && !Skips(c) && !Sets(c)
  {
  }

  lemma {:induction false} TargetShape(c: Code)
    ensures Target(c).At? && NoBaseline(c) ==> NoBaseline(Target(c).code)
    ensures Target(c).At? && WritesNothing(c) ==> WritesNothing(Target(c).code)
  {
    if c.Op? && !IsTarget(c.cell) {
      TargetShape(c.rest);
    }
  }

  lemma PastLater(writes: seq<nat>, t: nat, t': nat)
    requires Past(writes, t) && t <= t'
    ensures Past(writes, t') && Past(writes + [t'], t')
    ensures forall s: nat :: s + 100 <= t' && Past(writes, s) ==> Settled(writes, t')
    ensures Settled(writes, t) ==> Settled(writes, t')
  {
  }

  /** Going on with the program. */
  lemma NextKeeps(m: Machine, job: Job, oracle: Oracle, power0: bool, joined0: bool, t: nat, i: Input)
    requires Inv(m, job, oracle, power0, joined0, t) && Orderly(job.start) && t <= i.now
    requires m.active && m.vm.rest.Op? && Step(m.vm, job, oracle).Next? && !Waits(m.vm.rest.cell, i)
    ensures Inv(Poll(m, job, oracle, i), job, oracle, power0, joined0, i.now)
  {
    StepShape(m.vm, job, oracle);
    WritesSend(m.vm.rest.cell);
    PastLater(m.writes, t, i.now);
    hide Step, WritesNothing, WriteAhead, NoBaseline, Past, Settled, Writes, Ended, Waits;
  }

  /** Trying again. */
  lemma AgainKeeps(m: Machine, job: Job, oracle: Oracle, power0: bool, joined0: bool, t: nat, i: Input)
    requires Inv(m, job, oracle, power0, joined0, t) && Orderly(job.start) && t <= i.now
    requires m.active && m.vm.rest.Op? && !Waits(m.vm.rest.cell, i)
    requires var o := Step(m.vm, job, oracle); o.Callback? && o.value == -1 && o.vm.retry > 0
    ensures Inv(Poll(m, job, oracle, i), job, oracle, power0, joined0, i.now)
  {
    StepShape(m.vm, job, oracle);
    WritesSend(m.vm.rest.cell);
    PastLater(m.writes, t, i.now);
    StepCalls(m.vm, job, oracle);
    hide Step, WritesNothing, WriteAhead, NoBaseline, Past, Settled, Ended, Waits;
  }

  lemma StepCalls(vm: Vm, job: Job, oracle: Oracle)
    ensures Step(vm, job, oracle).Callback? ==> vm.rest.Op? && vm.rest.cell != BASELINE
  {
    hide Plain, PacketFor, CallValue, CallTaken, SkipTaken, Target;
  }

  /** Winding down. */
  lemma WindDownKeeps(m: Machine, job: Job, oracle: Oracle, power0: bool, joined0: bool, t: nat, i: Input)
    requires Inv(m, job, oracle, power0, joined0, t) && Orderly(job.start) && t <= i.now
    requires m.active && m.vm.rest.Op? && !Waits(m.vm.rest.cell, i) && Calling(m.vm, job, oracle)
    ensures Inv(Poll(m, job, oracle, i), job, oracle, power0, joined0, i.now)
  {
    var o := Step(m.vm, job, oracle);
    StepShape(m.vm, job, oracle);
    StepCalls(m.vm, job, oracle);
    CallRepeats(m.vm, job, oracle);
    PastLater(m.writes, t, i.now);
    var m1 := m.(vm := o.vm);
    assert m1.wind == AFTER_READ ==> m.writes == [];
    assert Calling(m1.vm, job, oracle);
    WindDownSound(m1, o.value, t, i.now, power0, joined0);
    hide Step, WritesNothing, WriteAhead, NoBaseline, Past, Settled, Waits, WindDown, Winding, Ended, Execute;
  }

  lemma WindDownSound(m: Machine, value: int, t: nat, now: nat, power0: bool, joined0: bool)
    requires m.active && !m.joined && m.autoPowerOff == !power0 && m.rejoin == joined0 && t <= now && Past(m.writes, t)
    requires Winding(m, t) && (m.wind == AFTER_READ ==> m.writes == [])
    ensures var m' := WindDown(m, value, now);
            && m' == m.(power := m'.power, joined := m'.joined, active := m'.active, wind := m'.wind, callbackStart := m'.callbackStart, events := m'.events)
            && (m'.active ==> !m'.joined && Winding(m', now) && m'.wind != AFTER_READ && m'.wind != AFTER_WRITE)
            && (!m'.active ==> Ended(m', power0, joined0))
  {
    PastLater(m.writes, t, now);
    if m.wind == READY {
      EndedWell(m, value, t, now, power0, joined0);
    }
    hide Ended, Farewell;
  }

  lemma EndedWell(m: Machine, value: int, t: nat, now: nat, power0: bool, joined0: bool)
    requires m.active && !m.joined && m.autoPowerOff == !power0 && m.rejoin == joined0 && t <= now
    requires m.wind == READY && Winding(m, t)
    ensures Ended(WindDown(m, value, now), power0, joined0)
  {
    var m' := WindDown(m, value, now);
    var e := m'.events[..|m'.events| - 1];
    assert m'.events == m.events + Farewell(m, value, now);
    if power0 && joined0 {
      assert e == m.events + [Rejoined(now)];
      assert e[..2] == m.events;
    }
  }

  lemma PollKeepsInv(m: Machine, job: Job, oracle: Oracle, power0: bool, joined0: bool, t: nat, i: Input)
    requires Inv(m, job, oracle, power0, joined0, t) && Orderly(job.start) && t <= i.now
    ensures Inv(Poll(m, job, oracle, i), job, oracle, power0, joined0, i.now)
  {
    if m.active && m.vm.rest.Op? && !Waits(m.vm.rest.cell, i) && !Step(m.vm, job, oracle).Lost? {
      if Step(m.vm, job, oracle).Next? {
        NextKeeps(m, job, oracle, power0, joined0, t, i);
      } else if Calling(m.vm, job, oracle) {
        WindDownKeeps(m, job, oracle, power0, joined0, t, i);
      } else {
        AgainKeeps(m, job, oracle, power0, joined0, t, i);
      }
      hide Step, Poll, Inv;
    } else {
      PastLater(m.writes, t, i.now);
      WindingLater(m, t, i.now);
      hide Step, WindDown, Winding, Past, Ended, WriteAhead, WritesNothing, NoBaseline;
    }
  }

  lemma WindingLater(m: Machine, t: nat, t': nat)
    requires Past(m.writes, t) && t <= t'
    ensures Winding(m, t) ==> Winding(m, t')
  {
    PastLater(m.writes, t, t');
    hide Past, Settled;
  }

  /** Times do not run backwards. */
  predicate InOrder(inputs: seq<Input>) {
    forall i :: 0 < i < |inputs| ==> inputs[i - 1].now <= inputs[i].now
  }

  lemma {:induction false} PollsKeepInv(m0: Machine, job: Job, oracle: Oracle, power0: bool, joined0: bool, inputs: seq<Input>)
    requires Inv(m0, job, oracle, power0, joined0, 0) && Orderly(job.start) && InOrder(inputs)
    ensures Inv(Polls(m0, job, oracle, inputs), job, oracle, power0, joined0, if inputs == [] then 0 else inputs[|inputs| - 1].now)
  {
    hide Poll, Inv, Orderly;
    if inputs != [] {
      var n := |inputs| - 1;
      PollsKeepInv(m0, job, oracle, power0, joined0, inputs[..n]);
      var t := if n == 0 then 0 else inputs[n - 1].now;
      PollKeepsInv(Polls(m0, job, oracle, inputs[..n]), job, oracle, power0, joined0, t, inputs[n]);
    }
  }

  /** For every decoder and every way of polling: if the callback comes, it comes once, with the value
      of the uninterrupted run, and the track's power and join are as before Setup; power stayed on
      for 100 ms after every write before it was taken away or the tracks were joined, and if it had
      been on it was off for 30 ms before they were joined. */
  lemma WindsDownProperly(job: Job, power0: bool, joined0: bool, retries: nat, wind: Wind, ack: bool, stash: nat,
                          oracle: Oracle, inputs: seq<Input>)
    requires Orderly(job.start) && InOrder(inputs)
    ensures var s := Setup(job, Track(true, power0), joined0, retries, wind, ack, stash);
            && s.Running?
            && var m := Polls(s.m, job, oracle, inputs);
               && OnCourse(m, Begin(job, ack, stash, retries), job, oracle)
               && (!m.active ==> Ended(m, power0, joined0))
  {
    var m0 := Setup(job, Track(true, power0), joined0, retries, wind, ack, stash).m;
    CalledOnceWithTheValue(m0, job, oracle, inputs);
    assert Inv(m0, job, oracle, power0, joined0, 0);
    PollsKeepInv(m0, job, oracle, power0, joined0, inputs);
    hide Polls, OnCourse, Orderly, Ended, Phase, WritesNothing;
  }

  // ---------------------------------------------------------------- what the requester sees

  /** The values of the callbacks. */
  function Answers(events: seq<Event>): seq<int> {
    if events == [] then []
    else
      var n := |events| - 1;
      Answers(events[..n]) + if events[n].Called? then [events[n].value] else []
  }

  lemma {:induction false} QuietAnswers(events: seq<Event>)
    requires Quiet(events)
    ensures Answers(events) == []
  {
    if events != [] {
      QuietAnswers(events[..|events| - 1]);
    }
  }

  /** A request as the requester sees it: the callbacks so far, and whether the tracks are joined. */
  datatype Seen = Seen(answers: seq<int>, joined: bool)

  function Requested(s: Setting, job: Job, oracle: Oracle, inputs: seq<Input>): Seen {
    match s
    case Refused(value, joined) => Seen([value], joined)
    case Running(m) => var m' := Polls(m, job, oracle, inputs); Seen(Answers(m'.events), m'.joined)
  }

  /** The tracks are apart until the callback, and then as they were. */
  predicate Apart(m: Machine, joined0: bool) {
    m.rejoin == joined0 && m.joined == (joined0 && !m.active)
  }

  lemma {:induction false} StaysApart(m0: Machine, job: Job, oracle: Oracle, inputs: seq<Input>, joined0: bool)
    requires Apart(m0, joined0)
    ensures Apart(Polls(m0, job, oracle, inputs), joined0)
  {
    hide AckMachine.Step, Waits, Writes, Farewell;
    if inputs != [] {
      StaysApart(m0, job, oracle, inputs[..|inputs| - 1], joined0);
    }
  }

  lemma RunningAnswers(m0: Machine, job: Job, oracle: Oracle, inputs: seq<Input>, joined0: bool)
    requires m0.active && m0.events == [] && Apart(m0, joined0)
    ensures var m := Polls(m0, job, oracle, inputs);
            var whole := Execute(m0.vm, job, oracle);
            if m.active then Answers(m.events) == [] && !m.joined
            else whole.Done? && Answers(m.events) == [whole.value] && m.joined == joined0
  {
    var m := Polls(m0, job, oracle, inputs);
    CalledOnceWithTheValue(m0, job, oracle, inputs);
    StaysApart(m0, job, oracle, inputs, joined0);
    hide Polls, Execute, Quiet;
    if m.active {
      QuietAnswers(m.events);
    } else {
      QuietAnswers(m.events[..|m.events| - 1]);
    }
  }

  /** Whatever the track, the decoder, what the last job left behind and the polling, a request is
      answered at most once, and at once if there is no track that can measure; the answer of a job
      that runs is that of the uninterrupted run.  Once it is answered the tracks are joined exactly
      if they were before, unless there is no programming track at all: then they are left apart. */
  lemma AnsweredOnce(job: Job, track: Track, joined0: bool, retries: nat, wind: Wind, ack: bool, stash: nat,
                     oracle: Oracle, inputs: seq<Input>)
    ensures var seen := Requested(Setup(job, track, joined0, retries, wind, ack, stash), job, oracle, inputs);
            var whole := Execute(Begin(job, ack, stash, retries), job, oracle);
            && |seen.answers| <= 1
            && (track.NoTrack? || !track.canMeasure ==> seen.answers == [if track.NoTrack? then -3 else -2])
            && (track.Track? && track.canMeasure && seen.answers != [] ==> whole.Done? && seen.answers == [whole.value])
            && (seen.answers == [] ==> !seen.joined)
            && (seen.answers != [] ==> (seen.joined == joined0 <==> !(track.NoTrack? && joined0)))
  {
    if track.Track? && track.canMeasure {
      RunningAnswers(Setup(job, track, joined0, retries, wind, ack, stash).m, job, oracle, inputs, joined0);
    }
    hide Polls, Execute, Answers;
  }
}
