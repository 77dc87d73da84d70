/** The interpreter of programming-track programs, against any decoder.

    A decoder is an oracle: whether the packets sent so far leave it acknowledging the last one.
    Waiting for resets and for the end of the acknowledgement window is left to AckWindDown. */
module AckMachine {
  import opened AckPrograms

  /** Bit 14. */
  const LONG_ADDR_MARKER: nat := 0x4000

  /** Direct mode packets (NMRA S-9.2.3). */
  datatype Packet =
    | WriteByte(cv: int, value: nat)
    | VerifyByte(cv: int, value: nat)
    | WriteBit(cv: int, bit: nat, on: bool)
    | VerifyBit(cv: int, bit: nat, on: bool)

  type Oracle = seq<Packet> -> bool

  /** What Setup is given. */
  datatype Job = Job(start: Code, cv: int, value: nat, word: nat)

  /** The interpreter's registers, the packets sent since Setup, and how many of them came before the
      current pass. */
  datatype Vm = Vm(rest: Code, cv: int, byte: nat, bit: nat, stash: nat, ack: bool, retry: nat,
                   sent: seq<Packet>, passStart: nat)

  function Begin(job: Job, ack: bool, stash: nat, retries: nat): Vm {
    Vm(job.start, job.cv, job.value, job.value, stash, ack, retries, [], 0)
  }

  datatype Outcome =
    | Next(vm: Vm)
    | Callback(vm: Vm, value: int)
    | Lost  // ran off the program, or into an operand

  function Advance(vm: Vm): Vm
    requires vm.rest.Op?
  {
    vm.(rest := vm.rest.rest)
  }

  function Skip(vm: Vm, taken: bool): Outcome
    requires vm.rest.Op?
  {
    if !taken then Next(Advance(vm))
    else match Target(vm.rest.rest)
         case Nowhere => Lost
         case At(code) => Next(vm.(rest := code))
  }

  predicate HasOperand(vm: Vm) {
    vm.rest.Op? && vm.rest.rest.Op? && vm.rest.rest.cell.Num?
  }

  /** The marker or-ed to CV 18 and the excess of CV 17 over 192, as a signed word of 16 bits. */
  function LongId(stash: nat, byte: nat): int {
    var word := (stash + 64) % 256 * 256 + byte;
    var marked := if word / LONG_ADDR_MARKER % 2 == 1 then word else word + LONG_ADDR_MARKER;
    if marked < 0x8000 then marked else marked - 0x10000
  }

  /** What comes of it: CV 17 counts from 192 or from 0, and anything else is negative. */
  lemma LongIdIs(stash: nat, byte: nat)
    requires stash < 256 && byte < 256
    ensures LongId(stash, byte) ==
            if stash >= 192 then LONG_ADDR_MARKER + (stash - 192) * 256 + byte
            else if stash < 64 then LONG_ADDR_MARKER + stash * 256 + byte
            else ((if stash < 128 then stash else stash - 64) - 128) * 256 + byte
    ensures LongId(stash, byte) == -1 <==> (stash == 127 || stash == 191) && byte == 255
  {
  }

  predicate SendsBit(c: Cell) {
    c == W0 || c == W1 || c == V0 || c == V1
  }

  predicate Sends(c: Cell) {
    SendsBit(c) || c == WB || c == VB
  }

  function PacketFor(c: Cell, vm: Vm): Packet
    requires Sends(c)
  {
    match c
    case W0 => WriteBit(vm.cv, vm.bit, false)
    case W1 => WriteBit(vm.cv, vm.bit, true)
    case V0 => VerifyBit(vm.cv, vm.bit, false)
    case V1 => VerifyBit(vm.cv, vm.bit, true)
    case WB => WriteByte(vm.cv, vm.byte)
    case VB => VerifyByte(vm.cv, vm.byte)
  }

  predicate AlwaysCalls(c: Cell) {
    c == CALLFAIL || c == COMBINELOCOID || c == COMBINE1920
  }

  predicate Calls(c: Cell) {
    AlwaysCalls(c) || c == ITC0 || c == ITC1 || c == ITCB || c == ITCBV || c == ITCB7 || c == NAKFAIL || c == FAIL_IF_NONZERO_NAK
  }

  predicate CallTaken(c: Cell, vm: Vm) {
    if AlwaysCalls(c) then true
    else if c == NAKFAIL then !vm.ack
    else if c == FAIL_IF_NONZERO_NAK then vm.byte != 0
    else vm.ack
  }

  function CallValue(c: Cell, vm: Vm): int
    requires Calls(c)
  {
    match c
    case ITC0 => 0
    case ITC1 => 1
    case ITCB => vm.byte
    case ITCBV => vm.byte
    case ITCB7 => vm.byte % 128
    case NAKFAIL => -1
    case CALLFAIL => -1
    case COMBINELOCOID => LongId(vm.stash, vm.byte)
    case COMBINE1920 => vm.stash * 100 + LastTwo(vm.byte)
    case FAIL_IF_NONZERO_NAK => -4
  }

  /** CV 19 without its direction, as two decimal digits. */
  function LastTwo(byte: nat): nat {
    byte % 128 % 100
  }

  /** COMBINE1920 leaves what it computes in the byte register. */
  function CallLeaves(c: Cell, vm: Vm): Vm {
    if c == COMBINE1920 then vm.(byte := LastTwo(vm.byte)) else vm
  }

  predicate Skips(c: Cell) {
    c == ITSKIP || c == NAKSKIP || c == BAD20SKIP
  }

  predicate SkipTaken(c: Cell, vm: Vm) {
    if c == ITSKIP then vm.ack else if c == NAKSKIP then !vm.ack else vm.byte > 120
  }

  predicate Sets(c: Cell) {
    c == SETBIT || c == SETCV || c == SETBYTE
  }

  function SetRegister(c: Cell, vm: Vm, n: nat): Vm {
    if c == SETBIT then vm.(bit := n) else if c == SETCV then vm.(cv := n) else vm.(byte := n)
  }

  /** Operations that only change registers. */
  function Plain(c: Cell, vm: Vm, job: Job, oracle: Oracle): Vm {
    match c
    case WACK => vm.(ack := oracle(vm.sent))
    case BIV => vm.(byte := job.value)
    case STARTMERGE => vm.(bit := 7, byte := 0)
    case MERGE => vm.(byte := vm.byte * 2 % 256 + (if vm.ack then 0 else 1), bit := (vm.bit + 255) % 256)
    case SETBYTEH => vm.(byte := job.word / 256 % 256)
    case SETBYTEL => vm.(byte := job.word % 256)
    case STASHLOCOID => vm.(stash := vm.byte)
    case _ => vm
  }

  /** One operation. */
  function Step(vm: Vm, job: Job, oracle: Oracle): Outcome {
    if vm.rest == End || vm.rest.cell.Num? then Lost
    else
      var c := vm.rest.cell;
      if Sends(c) then Next(Advance(vm).(sent := vm.sent + [PacketFor(c, vm)]))
      else if Calls(c) then (if CallTaken(c, vm) then Callback(CallLeaves(c, vm), CallValue(c, vm)) else Next(Advance(vm)))
      else if Skips(c) then Skip(vm, SkipTaken(c, vm))
      else if Sets(c) then
        (if HasOperand(vm) then Next(SetRegister(c, vm, vm.rest.rest.cell.n).(rest := vm.rest.rest.rest)) else Lost)
      else Next(Plain(c, Advance(vm), job, oracle))
  }

  lemma StepShrinks(vm: Vm, job: Job, oracle: Oracle)
    ensures var o := Step(vm, job, oracle);
            o.Next? ==> Length(o.vm.rest) < Length(vm.rest) && o.vm.retry == vm.retry && o.vm.passStart == vm.passStart
    ensures var o := Step(vm, job, oracle);
            o.Callback? ==> o.vm == vm.(byte := o.vm.byte)
  {
    if vm.rest.Op? {
      var c := vm.rest.cell;
      PlainKeeps(c, Advance(vm), job, oracle);
      hide Plain, PacketFor, CallValue, LastTwo, Sends, Calls, Skips, Sets, CallTaken, SkipTaken;
      if HasOperand(vm) {
        assert Length(vm.rest.rest) == 1 + Length(vm.rest.rest.rest);
      }
    }
  }

  lemma PlainKeeps(c: Cell, vm: Vm, job: Job, oracle: Oracle)
    ensures var vm' := Plain(c, vm, job, oracle);
            && vm'.rest == vm.rest && vm'.retry == vm.retry && vm'.passStart == vm.passStart && vm'.sent == vm.sent
            && (vm.byte < 256 && job.value < 256 ==> vm'.byte < 256)
            && (c != STARTMERGE && c != MERGE ==> vm'.bit == vm.bit)
            && (c == STARTMERGE ==> vm'.bit == 7) && (c == MERGE ==> vm'.bit == (vm.bit + 255) % 256)
  {
  }

  /** A failed pass with retries left starts again; registers keep their values. */
  function Again(vm: Vm, job: Job): Vm
    requires vm.retry > 0
  {
    vm.(retry := vm.retry - 1, rest := job.start, passStart := |vm.sent|)
  }

  predicate Retries(o: Outcome) {
    o.Callback? && o.value == -1 && o.vm.retry > 0
  }

  datatype Result = Done(value: int, vm: Vm) | Strayed

  /** Run to the end. */
  function Execute(vm: Vm, job: Job, oracle: Oracle): Result
    decreases vm.retry, Length(vm.rest)
  {
    StepShrinks(vm, job, oracle);
    var o := Step(vm, job, oracle);
    match o
    case Next(vm') => Execute(vm', job, oracle)
    case Callback(vm', value) => if Retries(o) then Execute(Again(vm', job), job, oracle) else Done(value, vm')
    case Lost => Strayed
  }

  // What each kind of operation does to a run.

  lemma ExecSend(vm: Vm, job: Job, oracle: Oracle)
    requires vm.rest.Op? && Sends(vm.rest.cell)
    ensures Execute(vm, job, oracle)
         == Execute(Advance(vm).(sent := vm.sent + [PacketFor(vm.rest.cell, vm)]), job, oracle)
  {
    hide PacketFor, Plain;
  }

  lemma ExecPlain(vm: Vm, job: Job, oracle: Oracle)
    requires vm.rest.Op? && !vm.rest.cell.Num?
    requires var c := vm.rest.cell; !Sends(c) && !Calls(c) && !Skips(c) && !Sets(c)
    ensures Execute(vm, job, oracle) == Execute(Plain(vm.rest.cell, Advance(vm), job, oracle), job, oracle)
  {
    hide Plain, Sends, Calls, Skips, Sets;
  }

  lemma ExecSet(vm: Vm, job: Job, oracle: Oracle)
    requires vm.rest.Op? && Sets(vm.rest.cell) && HasOperand(vm)
    ensures var vm' := SetRegister(vm.rest.cell, vm, vm.rest.rest.cell.n).(rest := vm.rest.rest.rest);
            Execute(vm, job, oracle) == Execute(vm', job, oracle)
  {
    hide SetRegister;
  }

  lemma ExecSkip(vm: Vm, job: Job, oracle: Oracle)
    requires vm.rest.Op? && Skips(vm.rest.cell) && Target(vm.rest.rest).At?
    ensures var to := if SkipTaken(vm.rest.cell, vm) then Target(vm.rest.rest).code else vm.rest.rest;
            Execute(vm, job, oracle) == Execute(vm.(rest := to), job, oracle)
  {
    hide SkipTaken, Target;
  }

  lemma ExecCall(vm: Vm, job: Job, oracle: Oracle)
    requires vm.rest.Op? && Calls(vm.rest.cell)
    ensures !CallTaken(vm.rest.cell, vm) ==> Execute(vm, job, oracle) == Execute(Advance(vm), job, oracle)
    ensures CallTaken(vm.rest.cell, vm) && CallValue(vm.rest.cell, vm) != -1 ==>
              Execute(vm, job, oracle) == Done(CallValue(vm.rest.cell, vm), CallLeaves(vm.rest.cell, vm))
  {
    hide CallTaken, CallValue;
  }

  lemma ExecFails(vm: Vm, job: Job, oracle: Oracle)
    requires vm.rest.Op? && Calls(vm.rest.cell) && CallTaken(vm.rest.cell, vm) && CallValue(vm.rest.cell, vm) == -1
    ensures Execute(vm, job, oracle) == if vm.retry > 0 then Execute(Again(vm, job), job, oracle) else Done(-1, vm)
  {
    hide CallTaken;
  }

  // ---------------------------------------------------------------- packets as bytes

  /** The ten address bits of a CV number. */
  function Address(cv: int): nat {
    (cv - 1) % 1024
  }

  predicate PacketOk(p: Packet) {
    match p
    case WriteByte(_, value) => value < 256
    case VerifyByte(_, value) => value < 256
    case WriteBit(_, bit, _) => bit < 8
    case VerifyBit(_, bit, _) => bit < 8
  }

  function Instruction(p: Packet): nat {
    match p
    case WriteByte(_, _) => 0x7C
    case VerifyByte(_, _) => 0x74
    case WriteBit(_, _, _) => 0x78
    case VerifyBit(_, _, _) => 0x78
  }

  /** Operand bits do not overlap, so bitwise or is addition. */
  function Data(p: Packet): nat
    requires PacketOk(p)
  {
    match p
    case WriteByte(_, value) => value
    case VerifyByte(_, value) => value
    case WriteBit(_, bit, on) => 0xF0 + (if on then 8 else 0) + bit
    case VerifyBit(_, bit, on) => 0xE0 + (if on then 8 else 0) + bit
  }

  function Bytes(p: Packet): (r: seq<nat>)
    requires PacketOk(p)
    ensures |r| == 3 && forall i :: 0 <= i < 3 ==> r[i] < 256
  {
    [Instruction(p) + Address(p.cv) / 256, Address(p.cv) % 256, Data(p)]
  }

  /** What a decoder reads in a service mode packet. */
  function Understood(r: seq<nat>): (p: seq<Packet>)
    ensures |p| <= 1
  {
    if |r| != 3 then []
    else
      var cv := r[0] % 4 * 256 + r[1] + 1;
      if r[0] / 4 == 0x7C / 4 then [WriteByte(cv, r[2])]
      else if r[0] / 4 == 0x74 / 4 then [VerifyByte(cv, r[2])]
      else if r[0] / 4 == 0x78 / 4 && r[2] / 16 == 0xF then [WriteBit(cv, r[2] % 8, r[2] / 8 % 2 == 1)]
      else if r[0] / 4 == 0x78 / 4 && r[2] / 16 == 0xE then [VerifyBit(cv, r[2] % 8, r[2] / 8 % 2 == 1)]
      else []
  }

  /** Every packet in range is understood as meant, its CV number taken modulo 1024. */
  lemma PacketsAreUnderstood(p: Packet)
    requires PacketOk(p)
    ensures Understood(Bytes(p)) == [p.(cv := Address(p.cv) + 1)]
    ensures 1 <= p.cv <= 1024 ==> Understood(Bytes(p)) == [p]
  {
    var a := Address(p.cv);
    assert a / 256 * 256 + a % 256 == a && a / 256 < 4;
  }

  // ---------------------------------------------------------------- programs that fit

  datatype Known = Any | Exactly(bit: nat)

  /** Whatever the decoder answers, this code ends in a callback without leaving the program, and
      sends bit packets only for bits 0 to 7; `k` is what is known of the bit number. */
  predicate Fit(c: Code, k: Known)
    decreases Length(c)
  {
    && c.Op? && !c.cell.Num?
    && (SendsBit(c.cell) ==> k.Exactly? && k.bit < 8)
    && if AlwaysCalls(c.cell) then true
       else if Skips(c.cell) then Fit(c.rest, k) && Target(c.rest).At? && Fit(Target(c.rest).code, k)
       else if Sets(c.cell) then
         && c.rest.Op? && c.rest.cell.Num? && c.rest.cell.n < 256
         && (assert Length(c.rest) == 1 + Length(c.rest.rest); Fit(c.rest.rest, After(c, k)))
       else Fit(c.rest, After(c, k))
  }

  /** What is known of the bit number after the operation. */
  function After(c: Code, k: Known): Known
    requires c.Op?
  {
    if c.cell == STARTMERGE then Exactly(7)
    else if c.cell == MERGE then (if k.Exactly? then Exactly((k.bit + 255) % 256) else Any)
    else if c.cell == SETBIT then (if c.rest.Op? && c.rest.cell.Num? then Exactly(c.rest.cell.n) else Any)
    else k
  }

  /** Code that leaves the bit number alone. */
  predicate Steady(c: Code) {
    c == End || (c.cell != SETBIT && c.cell != MERGE && c.cell != STARTMERGE && Steady(c.rest))
  }

  predicate Matches(k: Known, bit: nat) {
    k.Exactly? ==> bit == k.bit
  }

  /** A job whose program fits, on every pass: either it sets the bit number itself, or it keeps the one given. */
  predicate JobOk(job: Job) {
    && job.value < 256
    && (Fit(job.start, Any) || (Steady(job.start) && Fit(job.start, Exactly(job.value))))
  }

  /** What is known of the bit number whenever a pass starts. */
  function AtStart(job: Job): Known {
    if Fit(job.start, Any) then Any else Exactly(job.value)
  }

  predicate Following(vm: Vm, job: Job, k: Known) {
    && Fit(vm.rest, k) && Matches(k, vm.bit) && vm.byte < 256
    && (Fit(job.start, Any) || (Steady(vm.rest) && vm.bit == job.value))
  }

  ghost predicate SentOk(sent: seq<Packet>) {
    forall i :: 0 <= i < |sent| ==> PacketOk(sent[i])
  }

  lemma TargetSteady(c: Code)
    requires Steady(c)
    ensures Target(c).At? ==> Steady(Target(c).code)
  {
  }

  /** One operation of a fitting program. */
  lemma StepFits(vm: Vm, job: Job, oracle: Oracle, k: Known)
    requires JobOk(job) && Following(vm, job, k) && SentOk(vm.sent)
    ensures var o := Step(vm, job, oracle);
            && !o.Lost?
            && (o.Next? ==> Following(o.vm, job, After(vm.rest, k)) && SentOk(o.vm.sent) && vm.sent <= o.vm.sent)
            && (o.Callback? ==> o.vm.byte < 256 && o.vm == vm.(byte := o.vm.byte))
  {
    var c := vm.rest.cell;
    PlainKeeps(c, Advance(vm), job, oracle);
    PacketFits(c, vm);
    SteadyParts(vm.rest);
    KindsApart(c);
    hide Plain, PacketFor, CallValue, Calls, CallTaken, SkipTaken, PacketOk, Steady, Sends, Skips, SendsBit, AlwaysCalls;
  }

  lemma PacketFits(c: Cell, vm: Vm)
    ensures Sends(c) && vm.byte < 256 && (SendsBit(c) ==> vm.bit < 8) ==> PacketOk(PacketFor(c, vm))
  {
  }

  lemma SteadyParts(c: Code)
    ensures c.Op? && Steady(c) ==>
              && Steady(c.rest) && c.cell != SETBIT && c.cell != MERGE && c.cell != STARTMERGE
              && (Target(c.rest).At? ==> Steady(Target(c.rest).code))
              && (c.rest.Op? ==> Steady(c.rest.rest))
  {
    if c.Op? && Steady(c) {
      TargetSteady(c.rest);
    }
  }

  lemma KindsApart(c: Cell)
    ensures Skips(c) ==> !AlwaysCalls(c) && !Sets(c) && !Calls(c) && !Sends(c)
    ensures Sets(c) ==> !Sends(c) && !Calls(c) && !AlwaysCalls(c)
    ensures AlwaysCalls(c) ==> Calls(c) && CallTakenAlways(c)
    ensures SendsBit(c) ==> Sends(c)
    ensures (c == MERGE || c == STARTMERGE) ==> !Sends(c) && !Calls(c) && !Skips(c) && !Sets(c)
    ensures Sends(c) || Calls(c) || Skips(c) ==> c != SETBIT && c != MERGE && c != STARTMERGE && !(Sends(c) && Calls(c))
  {
  }

  ghost predicate CallTakenAlways(c: Cell) {
    forall vm :: CallTaken(c, vm)
  }

  // ---------------------------------------------------------------- every run of a fitting program

  /** The number of passes a run makes. */
  function Passes(vm: Vm, job: Job, oracle: Oracle): nat
    decreases vm.retry, Length(vm.rest)
  {
    StepShrinks(vm, job, oracle);
    var o := Step(vm, job, oracle);
    if o.Next? then Passes(o.vm, job, oracle)
    else if Retries(o) then 1 + Passes(Again(o.vm, job), job, oracle)
    else 1
  }

  /** Against any decoder, a job whose program fits ends in a callback after at most one pass more than
      there are retries, never leaves the program, and sends only packets in range; it fails only when
      the retries are used up. */
  lemma {:induction false} RunsEnd(vm: Vm, job: Job, oracle: Oracle, k: Known)
    requires JobOk(job) && Following(vm, job, k) && SentOk(vm.sent)
    ensures var r := Execute(vm, job, oracle);
            && r.Done? && SentOk(r.vm.sent) && vm.sent <= r.vm.sent
            && (r.value == -1 ==> r.vm.retry == 0)
            && r.vm.retry <= vm.retry && Passes(vm, job, oracle) == vm.retry - r.vm.retry + 1
    decreases vm.retry, Length(vm.rest)
  {
    StepShrinks(vm, job, oracle);
    StepFits(vm, job, oracle, k);
    var o := Step(vm, job, oracle);
    if o.Next? {
      hide Step, Fit, JobOk, PacketOk;
      RunsEnd(o.vm, job, oracle, After(vm.rest, k));
    } else if Retries(o) {
      var vm' := Again(o.vm, job);
      StartFollows(vm', job, vm, k);
      hide Step, Fit, JobOk, PacketOk, Following;
      RunsEnd(vm', job, oracle, AtStart(job));
    }
  }

  lemma StartFollows(vm': Vm, job: Job, vm: Vm, k: Known)
    requires JobOk(job) && Following(vm, job, k) && vm'.byte < 256 && vm'.bit == vm.bit && vm'.rest == job.start
    ensures Following(vm', job, AtStart(job))
  {
    hide Fit;
  }

  lemma BeginFollows(job: Job, ack: bool, stash: nat, retries: nat)
    requires JobOk(job)
    ensures Following(Begin(job, ack, stash, retries), job, AtStart(job))
  {
    hide Fit;
  }

  /** The same, from Setup on: at most retries + 1 passes. */
  lemma EveryJobEnds(job: Job, ack: bool, stash: nat, retries: nat, oracle: Oracle)
    requires JobOk(job)
    ensures var vm := Begin(job, ack, stash, retries);
            var r := Execute(vm, job, oracle);
            r.Done? && SentOk(r.vm.sent) && Passes(vm, job, oracle) <= retries + 1
  {
    BeginFollows(job, ack, stash, retries);
    RunsEnd(Begin(job, ack, stash, retries), job, oracle, AtStart(job));
  }

  // ---------------------------------------------------------------- values that were confirmed

  datatype Stage = Unasked | Asked | Answered

  function NextStage(c: Cell, st: Stage): Stage {
    if c == VB then Asked else if c == WACK && st == Asked then Answered else Unasked
  }

  predicate Failing(c: Cell) {
    c == NAKFAIL || c == CALLFAIL
  }

  /** Code that reports only bytes it has just had verified, all of one CV. */
  predicate Confirming(c: Code, st: Stage)
    decreases Length(c)
  {
    c.Op? ==>
      && c.cell != SETCV
      && (Calls(c.cell) ==> Failing(c.cell) || ((c.cell == ITCB || c.cell == ITCBV) && st == Answered))
      && (if Skips(c.cell) then Confirming(c.rest, Unasked) && (Target(c.rest).At? ==> Confirming(Target(c.rest).code, Unasked))
          else if Sets(c.cell) then
            (c.rest.Op? ==> assert Length(c.rest) == 1 + Length(c.rest.rest); Confirming(c.rest.rest, Unasked))
          else Confirming(c.rest, NextStage(c.cell, st)))
  }

  /** The last packet of this pass asked whether the CV holds the byte. */
  predicate AskedFor(vm: Vm, value: int) {
    && |vm.sent| > vm.passStart && value >= 0
    && vm.sent[|vm.sent| - 1] == VerifyByte(vm.cv, value)
  }

  predicate Holds(vm: Vm, oracle: Oracle, st: Stage) {
    && (st != Unasked ==> AskedFor(vm, vm.byte))
    && (st == Answered ==> vm.ack == oracle(vm.sent))
    && vm.passStart <= |vm.sent|
  }

  lemma StepConfirms(vm: Vm, job: Job, oracle: Oracle, st: Stage)
    requires Confirming(vm.rest, st) && Holds(vm, oracle, st)
    ensures var o := Step(vm, job, oracle);
            && (o.Next? ==> o.vm.cv == vm.cv && Confirming(o.vm.rest, NextStage(vm.rest.cell, st)) && Holds(o.vm, oracle, NextStage(vm.rest.cell, st)))
            && (o.Callback? ==> o.vm == vm && (o.value != -1 ==> AskedFor(vm, o.value) && oracle(vm.sent)))
  {
    if vm.rest.Op? {
      var c := vm.rest.cell;
      PlainKeeps(c, Advance(vm), job, oracle);
      KindsApart(c);
      KindsAsk(c, vm);
      PlainWaits(Advance(vm), job, oracle, c);
      hide Plain, PacketFor, CallValue, Calls, CallTaken, SkipTaken, Sends, Skips, SendsBit, AlwaysCalls, LastTwo;
    }
  }

  lemma KindsAsk(c: Cell, vm: Vm)
    ensures Skips(c) || Sets(c) || Calls(c) ==> NextStage(c, Answered) == Unasked && NextStage(c, Asked) == Unasked && NextStage(c, Unasked) == Unasked
    ensures Failing(c) ==> Calls(c) && CallValue(c, vm) == -1
    ensures c == ITCB || c == ITCBV ==> Calls(c) && CallValue(c, vm) == vm.byte && (CallTaken(c, vm) <==> vm.ack)
    ensures Sends(c) && c != VB ==> NextStage(c, Answered) == Unasked && NextStage(c, Asked) == Unasked && NextStage(c, Unasked) == Unasked
    ensures c == VB ==> Sends(c) && PacketFor(c, vm) == VerifyByte(vm.cv, vm.byte)
    ensures c == WACK ==> !Sends(c) && !Calls(c) && !Skips(c) && !Sets(c)
  {
  }

  lemma PlainWaits(vm: Vm, job: Job, oracle: Oracle, c: Cell)
    ensures var vm' := Plain(c, vm, job, oracle); vm'.cv == vm.cv && (c == WACK ==> vm' == vm.(ack := oracle(vm.sent)))
  {
  }

  /** Whatever the decoder answers, noise included: a value that is returned was acknowledged by a
      verify-byte packet carrying that value, the last packet of the final pass. */
  lemma {:induction false} ReturnedMeansVerified(vm: Vm, job: Job, oracle: Oracle, st: Stage)
    requires Confirming(job.start, Unasked) && Confirming(vm.rest, st) && Holds(vm, oracle, st)
    ensures var r := Execute(vm, job, oracle);
            r.Done? ==> r.vm.cv == vm.cv && (r.value != -1 ==> AskedFor(r.vm, r.value) && oracle(r.vm.sent))
    decreases vm.retry, Length(vm.rest)
  {
    StepShrinks(vm, job, oracle);
    StepConfirms(vm, job, oracle, st);
    var o := Step(vm, job, oracle);
    if o.Next? {
      hide Step, Confirming, Holds, AskedFor;
      ReturnedMeansVerified(o.vm, job, oracle, NextStage(vm.rest.cell, st));
    } else if Retries(o) {
      hide Step, Confirming, AskedFor;
      ReturnedMeansVerified(Again(o.vm, job), job, oracle, Unasked);
    }
  }
}
