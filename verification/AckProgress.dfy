/** The programming track gets on: nothing is sent or judged before its time, and a job that is polled often
    enough is answered. */
module AckProgress {
  import opened AckPrograms
  import opened AckMachine
  import opened AckLibrary
  import opened AckWindDown

  // ---------------------------------------------------------------- nothing before its time

  /** However it is polled: a packet goes out, or a baseline is taken, only when enough resets have been sent,
      and an answer is taken only when its window is over. */
  lemma NothingBeforeItsTime(m: Machine, job: Job, oracle: Oracle, i: Input)
    requires m.vm.rest.Op?
    ensures var m' := Poll(m, job, oracle, i);
            && (m'.vm.sent != m.vm.sent ==> i.resets)
            && (m.vm.rest.cell == BASELINE && m' != m ==> i.resets)
            && (m.vm.rest.cell == WACK && m' != m ==> i.answered)
  {
    StepSends(m.vm, job, oracle);
    hide Step, WindDown;
    if m.active && !Waits(m.vm.rest.cell, i) && Step(m.vm, job, oracle).Callback? {
      WindDownKeepsVm(m.(vm := Step(m.vm, job, oracle).vm), Step(m.vm, job, oracle).value, i.now);
    }
  }

  lemma StepSends(vm: Vm, job: Job, oracle: Oracle)
    requires vm.rest.Op?
    ensures var o := Step(vm, job, oracle); !Sends(vm.rest.cell) && (o.Next? || o.Callback?) ==> o.vm.sent == vm.sent
  {
    PlainKeeps(vm.rest.cell, Advance(vm), job, oracle);
    hide Plain, PacketFor, CallValue, CallTaken, SkipTaken, Target;
  }

  lemma WindDownKeepsVm(m: Machine, value: int, now: nat)
    ensures var m' := WindDown(m, value, now);
            && m'.vm == m.vm
            && (m'.active && m' != m ==> m.active)
  {
    hide Farewell;
  }

  // ---------------------------------------------------------------- how much is left

  function Stage(w: Wind): nat {
    match w
    case AFTER_WRITE => 4
    case AFTER_READ => 3
    case WAITING_100 => 3
    case WAITING_30 => 2
    case READY => 1
  }

  /** Operations left, all passes included. */
  function Rank(vm: Vm, job: Job): nat {
    vm.retry * (Length(job.start) + 1) + Length(vm.rest)
  }

  /** What is left of a job: operations, and for each the steps of winding down. */
  function Left(m: Machine, job: Job): nat {
    if m.active then 5 * Rank(m.vm, job) + Stage(m.wind) else 0
  }

  /** Nothing keeps it waiting. */
  predicate Ready(i: Input) {
    i.resets && i.answered
  }

  ghost predicate Going(m: Machine, job: Job, oracle: Oracle) {
    Length(m.vm.rest) <= Length(job.start) && !Step(m.vm, job, oracle).Lost?
  }

  lemma WindsOn(m: Machine, value: int, now: nat)
    requires m.active && m.callbackStart <= now
    ensures var m' := WindDown(m, value, now);
            && m'.vm == m.vm && (m'.callbackStart == m.callbackStart || m'.callbackStart == now)
            && (m'.active ==> Stage(m'.wind) <= Stage(m.wind) && (m'.callbackStart != m.callbackStart ==> Stage(m'.wind) < Stage(m.wind)))
            && (m'.active && now >= m.callbackStart + 100 ==> Stage(m'.wind) < Stage(m.wind))
  {
    hide Farewell;
  }

  /** A poll leaves no more than before, and less if nothing keeps the job waiting for 100 ms at a time. */
  lemma PollGoesOn(m: Machine, job: Job, oracle: Oracle, i: Input)
    requires m.active && Going(m, job, oracle) && m.callbackStart <= i.now
    ensures var m' := Poll(m, job, oracle, i);
            && Length(m'.vm.rest) <= Length(job.start)
            && (m'.callbackStart == m.callbackStart || m'.callbackStart == i.now)
            && (m'.active ==> Left(m', job) <= Left(m, job) && (m'.callbackStart != m.callbackStart ==> Left(m', job) < Left(m, job)))
            && (m'.active && Ready(i) && i.now >= m.callbackStart + 100 ==> Left(m', job) < Left(m, job))
  {
    var o := Step(m.vm, job, oracle);
    StepRanks(m.vm, job, oracle);
    hide Step, Rank, WindDown, Length;
    if o.Callback? && !(o.value == -1 && o.vm.retry > 0) {
      WindsOn(m.(vm := o.vm), o.value, i.now);
    }
  }

  lemma StepRanks(vm: Vm, job: Job, oracle: Oracle)
    requires Length(vm.rest) <= Length(job.start)
    ensures var o := Step(vm, job, oracle);
            && (vm.rest == End ==> o.Lost?)
            && (o.Next? ==> Rank(o.vm, job) < Rank(vm, job) && Length(o.vm.rest) <= Length(job.start))
            && (o.Callback? ==> Rank(o.vm, job) == Rank(vm, job) && Length(o.vm.rest) <= Length(job.start))
            && (o.Callback? && o.vm.retry > 0 ==> Rank(Again(o.vm, job), job) < Rank(vm, job))
  {
    StepShrinks(vm, job, oracle);
    StepEnds(vm, job, oracle);
    hide Step;
    if vm.retry > 0 {
      FewerPasses(vm.retry, Length(job.start) + 1);
    }
    hide Length;
  }

  lemma StepEnds(vm: Vm, job: Job, oracle: Oracle)
    ensures vm.rest == End ==> Step(vm, job, oracle).Lost?
  {
  }

  lemma FewerPasses(n: nat, k: nat)
    requires n > 0
    ensures n * k == (n - 1) * k + k
  {
  }

  // ---------------------------------------------------------------- how long it takes

  /** Polls with nothing to wait for, each at least 100 ms after the one before, and when the last was. */
  function Chances(inputs: seq<Input>): (nat, nat) {
    if inputs == [] then (0, 0)
    else
      var (n, t) := Chances(inputs[..|inputs| - 1]);
      var i := inputs[|inputs| - 1];
      if Ready(i) && i.now >= t + 100 then (n + 1, i.now) else (n, t)
  }

  function LastTime(inputs: seq<Input>): nat {
    if inputs == [] then 0 else inputs[|inputs| - 1].now
  }

  /** While the job is unanswered every chance has been used. */
  ghost predicate UsesChances(m0: Machine, m: Machine, job: Job, inputs: seq<Input>) {
    var (n, t) := Chances(inputs);
    && Length(m.vm.rest) <= Length(job.start)
    && m.callbackStart <= LastTime(inputs) && t <= LastTime(inputs)
    && (m.active ==> Left(m, job) + n + (if m.callbackStart > t then 1 else 0) <= Left(m0, job))
  }

  lemma {:induction false} EveryChanceCounts(m0: Machine, job: Job, oracle: Oracle, inputs: seq<Input>)
    requires m0.active && m0.events == [] && m0.callbackStart == 0 && Length(m0.vm.rest) <= Length(job.start)
    requires InOrder(inputs) && Execute(m0.vm, job, oracle).Done?
    ensures UsesChances(m0, Polls(m0, job, oracle, inputs), job, inputs)
  {
    if inputs != [] {
      var n := |inputs| - 1;
      var front, i := inputs[..n], inputs[n];
      EveryChanceCounts(m0, job, oracle, front);
      CalledOnceWithTheValue(m0, job, oracle, front);
      var m := Polls(m0, job, oracle, front);
      assert LastTime(front) <= i.now;
      if m.active {
        NeverLost(m.vm, job, oracle);
        PollGoesOn(m, job, oracle, i);
        ChanceUsed(m0, m, Poll(m, job, oracle, i), job, inputs);
      } else {
        assert Poll(m, job, oracle, i) == m;
      }
    }
  }

  lemma ChanceUsed(m0: Machine, m: Machine, m': Machine, job: Job, inputs: seq<Input>)
    requires inputs != [] && InOrder(inputs)
    requires var i := inputs[|inputs| - 1]; UsesChances(m0, m, job, inputs[..|inputs| - 1]) && m.active && LastTime(inputs[..|inputs| - 1]) <= i.now
    requires var i := inputs[|inputs| - 1];
             && Length(m'.vm.rest) <= Length(job.start)
             && (m'.callbackStart == m.callbackStart || m'.callbackStart == i.now)
             && (m'.active ==> Left(m', job) <= Left(m, job) && (m'.callbackStart != m.callbackStart ==> Left(m', job) < Left(m, job)))
             && (m'.active && Ready(i) && i.now >= m.callbackStart + 100 ==> Left(m', job) < Left(m, job))
    ensures UsesChances(m0, m', job, inputs)
  {
    hide Left, Length, InOrder, Ready;
  }

  lemma NeverLost(vm: Vm, job: Job, oracle: Oracle)
    requires Execute(vm, job, oracle).Done?
    ensures !Step(vm, job, oracle).Lost?
  {
    hide Step;
  }

  /** Chances enough for every operation of every pass, five for each. */
  function Enough(job: Job, retries: nat): nat {
    5 * (retries + 1) * (Length(job.start) + 1)
  }

  /** Every request of the programming track is answered, with the value of the uninterrupted run: whatever
      the decoder says, however often it is polled in vain, once it has been polled so often with nothing
      to wait for. */
  lemma EveryRequestIsAnswered(r: Request, power0: bool, joined0: bool, retries: nat, wind: Wind, ack: bool, stash: nat,
                               oracle: Oracle, inputs: seq<Input>)
    requires RequestOk(r) && Accept(r).Started? && InOrder(inputs)
    requires Chances(inputs).0 >= Enough(Accept(r).job, retries)
    ensures var job := Accept(r).job;
            var seen := Requested(Setup(job, Track(true, power0), joined0, retries, wind, ack, stash), job, oracle, inputs);
            var whole := Execute(Begin(job, ack, stash, retries), job, oracle);
            whole.Done? && seen == Seen([whole.value], joined0)
  {
    var job := Accept(r).job;
    var m0 := Setup(job, Track(true, power0), joined0, retries, wind, ack, stash).m;
    EveryRequestEnds(r, ack, stash, retries, oracle);
    AnsweredOnce(job, Track(true, power0), joined0, retries, wind, ack, stash, oracle, inputs);
    EveryChanceCounts(m0, job, oracle, inputs);
    EnoughIs(m0, job, retries);
    RunningAnswers(m0, job, oracle, inputs, joined0);
    hide Accept, Execute, Polls, Answers, Enough, Left, SentOk, Passes;
  }

  lemma EnoughIs(m0: Machine, job: Job, retries: nat)
    requires m0.active && m0.vm.retry == retries && m0.vm.rest == job.start
    ensures Left(m0, job) < Enough(job, retries)
  {
    FewerPasses(retries + 1, Length(job.start) + 1);
    assert Enough(job, retries) == 5 * ((retries + 1) * (Length(job.start) + 1));
    hide Length;
  }
}
