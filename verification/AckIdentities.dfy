/** Loco and consist identities written to an ideal decoder by one program and read back by another. */
module AckIdentities {
  import opened AckPrograms
  import opened AckMachine
  import opened AckLibrary
  import opened AckIdeal

  // ---------------------------------------------------------------- registers, with the memory unchanged

  /** One state leads to the other, with the decoder as it was. */
  ghost predicate Moves(vm: Vm, r: Vm, job: Job, d: Decoder) {
    Mem(d, r) == Mem(d, vm) && Leads(vm, r, job, d)
  }

  lemma Choosing(vm: Vm, cv: nat, rest: Code, job: Job, d: Decoder) returns (r: Vm)
    requires vm.rest == SetCv(cv, rest)
    ensures r == vm.(rest := rest, cv := cv) && Moves(vm, r, job, d)
  {
    hide Execute, MemOf, Leads;
    Setting(vm, SETCV, cv, rest, job, d);
    r := vm.(rest := rest, cv := cv);
  }

  lemma Loading(vm: Vm, value: nat, rest: Code, job: Job, d: Decoder) returns (r: Vm)
    requires vm.rest == SetByte(value, rest)
    ensures r == vm.(rest := rest, byte := value) && Moves(vm, r, job, d)
  {
    hide Execute, MemOf, Leads;
    Setting(vm, SETBYTE, value, rest, job, d);
    r := vm.(rest := rest, byte := value);
  }

  lemma Pointing(vm: Vm, bit: nat, rest: Code, job: Job, d: Decoder) returns (r: Vm)
    requires vm.rest == SetBit(bit, rest)
    ensures r == vm.(rest := rest, bit := bit) && Moves(vm, r, job, d)
  {
    hide Execute, MemOf, Leads;
    Setting(vm, SETBIT, bit, rest, job, d);
    r := vm.(rest := rest, bit := bit);
  }

  predicate Registers(cell: Cell) {
    cell == BASELINE || cell == STARTMERGE || cell == STASHLOCOID || cell == SETBYTEH || cell == SETBYTEL || cell == SKIPTARGET
  }

  lemma Going(vm: Vm, cell: Cell, rest: Code, job: Job, d: Decoder) returns (r: Vm)
    requires vm.rest == Op(cell, rest) && Registers(cell)
    ensures r == Plain(cell, vm.(rest := rest), job, Ideal(d)) && Moves(vm, r, job, d)
  {
    hide Execute, MemOf, Leads, Plain;
    Doing(vm, cell, rest, job, d);
    PlainKeeps(cell, vm.(rest := rest), job, Ideal(d));
    r := Plain(cell, vm.(rest := rest), job, Ideal(d));
  }

  /** A callback that is not taken. */
  lemma Ignoring(vm: Vm, cell: Cell, rest: Code, job: Job, d: Decoder) returns (r: Vm)
    requires vm.rest == Op(cell, rest) && Calls(cell) && !CallTaken(cell, vm)
    ensures r == vm.(rest := rest) && Moves(vm, r, job, d)
  {
    hide Execute, MemOf, Leads, Calls, CallTaken;
    Passing(vm, cell, rest, job, d);
    r := vm.(rest := rest);
  }

  lemma Jumping(vm: Vm, cell: Cell, rest: Code, t: Code, job: Job, d: Decoder) returns (r: Vm)
    requires vm.rest == Op(cell, rest) && Skips(cell) && Target(rest) == At(t)
    ensures r == vm.(rest := if SkipTaken(cell, vm) then t else rest) && Moves(vm, r, job, d)
  {
    hide Execute, MemOf, Leads, Skips, SkipTaken, Target;
    Skipping(vm, cell, rest, t, job, d);
    r := vm.(rest := if SkipTaken(cell, vm) then t else rest);
  }

  /** Run a request on a decoder. */
  function Ran(r: Request, d: Decoder, ack: bool, stash: nat, retries: nat): Result {
    match Accept(r)
    case Refused => Strayed
    case Started(job) => Execute(Begin(job, ack, stash, retries), job, Ideal(d))
  }

  // ---------------------------------------------------------------- answers

  /** One state leads to another that calls back with the value, with the decoder as it was. */
  ghost predicate Answering(vm: Vm, r: Vm, value: int, job: Job, d: Decoder) {
    && Moves(vm, r, job, d) && r.retry == vm.retry
    && r.rest.Op? && Calls(r.rest.cell) && CallTaken(r.rest.cell, r) && CallValue(r.rest.cell, r) == value
  }

  lemma AnsweringAfter(vm: Vm, vm': Vm, r: Vm, value: int, job: Job, d: Decoder)
    requires Moves(vm, vm', job, d) && vm'.retry == vm.retry && Answering(vm', r, value, job, d)
    ensures Answering(vm, r, value, job, d)
  {
    hide Calls, CallTaken, CallValue, Mem, Execute;
  }

  /** The value is taken, or the program starts again if it is -1 and retries are left. */
  lemma Concluding(vm: Vm, r: Vm, value: int, job: Job, d: Decoder) returns (r': Vm)
    requires Answering(vm, r, value, job, d)
    ensures if value == -1 && vm.retry > 0 then r'.retry == vm.retry - 1 && r'.rest == job.start && Moves(vm, r', job, d)
            else Execute(vm, job, Ideal(d)) == Done(value, r')
  {
    hide Calls, CallTaken, CallValue, Execute, CallLeaves;
    ExecCall(r, job, Ideal(d));
    r' := CallLeaves(r.rest.cell, r);
    if value == -1 {
      ExecFails(r, job, Ideal(d));
      r' := if vm.retry > 0 then Again(r, job) else r;
    }
  }

  // ---------------------------------------------------------------- reading an address

  /** The short address: seven bits are read, so a CV from 128 up is not confirmed. */
  lemma ReadingShort(vm: Vm, job: Job, d: Decoder) returns (r: Vm)
    requires vm.rest == ReadShort() && Get(Mem(d, vm), 1) < 256
    ensures Answering(vm, r, ShortIn(Mem(d, vm)), job, d)
  {
    var v := Get(Mem(d, vm), 1);
    var u := if v < 128 then v else v - 128;
    hide Execute, Mem, Get, Read, Length, Upper, Ideal, SameBits;
    Beginning(u);
    LowBits(v);
    var c := Read(7, Ask(VB, Op(ITCB, FAIL)));
    var vm3 := BeginningShort(vm, c, job, d);
    var vm4 := ReadingBits(vm3, u, 7, Ask(VB, Op(ITCB, FAIL)), job, d);
    var vm5 := Verifying(vm4, Op(ITCB, FAIL), job, d);
    hide CallTaken, CallValue, Calls, Answering;
    r := Reporting(vm5, job, d);
    AnsweringAfter(vm, vm5, r, ShortIn(Mem(d, vm)), job, d);
  }

  lemma BeginningShort(vm: Vm, rest: Code, job: Job, d: Decoder) returns (r: Vm)
    requires vm.rest == SetCv(1, Op(STARTMERGE, SetBit(6, rest)))
    ensures r == vm.(rest := rest, cv := 1, byte := 0, bit := 6) && Moves(vm, r, job, d)
  {
    hide Execute, Mem, Length, Ideal;
    var vm1 := Choosing(vm, 1, Op(STARTMERGE, SetBit(6, rest)), job, d);
    var vm2 := Going(vm1, STARTMERGE, SetBit(6, rest), job, d);
    r := Pointing(vm2, 6, rest, job, d);
  }

  /** The byte if the decoder has confirmed it, or else a failure. */
  lemma Reporting(vm: Vm, job: Job, d: Decoder) returns (r: Vm)
    requires vm.rest == Op(ITCB, FAIL)
    ensures Answering(vm, r, if vm.ack then vm.byte else -1, job, d)
  {
    hide Execute, Mem, Length, Ideal;
    if vm.ack {
      r := vm;
    } else {
      r := Ignoring(vm, ITCB, FAIL, job, d);
    }
  }

  lemma LowBits(v: nat)
    requires v < 256
    ensures SameBits(if v < 128 then v else v - 128, v, 7)
  {
    if v >= 128 {
      hide Upper, Pow2;
      forall k | 0 <= k < 7 ensures BitOf(v - 128, k) == BitOf(v, k) {
        UpperLess(v, k);
      }
    }
  }

  lemma {:induction false} UpperLess(v: nat, k: nat)
    requires v >= 128 && k <= 7
    ensures Upper(v, k) == Upper(v - 128, k) + Pow2(7 - k)
    ensures k < 7 ==> Pow2(7 - k) % 2 == 0
  {
    if k > 0 {
      UpperLess(v, k - 1);
    }
  }

  /** The long address, with its marker. */
  lemma ReadingLong(vm: Vm, rest: Code, job: Job, d: Decoder) returns (r: Vm)
    requires vm.rest == ReadLong(rest)
    requires Get(Mem(d, vm), 17) < 256 && Get(Mem(d, vm), 18) < 256
    ensures Answering(vm, r, LongId(Get(Mem(d, vm), 17), Get(Mem(d, vm), 18)), job, d)
  {
    hide Execute, Mem, Get, ReadAll, Length, Ideal, LongId;
    var last := Op(COMBINELOCOID, rest);
    var c2 := SetCv(18, ReadAll(Op(NAKFAIL, last)));
    var vm1 := Choosing(vm, 17, ReadAll(Op(NAKFAIL, Op(STASHLOCOID, c2))), job, d);
    var vm2 := ReadingAll(vm1, Op(NAKFAIL, Op(STASHLOCOID, c2)), job, d);
    var vm3 := Ignoring(vm2, NAKFAIL, Op(STASHLOCOID, c2), job, d);
    var vm4 := Going(vm3, STASHLOCOID, c2, job, d);
    var vm5 := Choosing(vm4, 18, ReadAll(Op(NAKFAIL, last)), job, d);
    var vm6 := ReadingAll(vm5, Op(NAKFAIL, last), job, d);
    r := Ignoring(vm6, NAKFAIL, last, job, d);
  }

  /** The short address a decoder is taken to have. */
  function ShortIn(m: Cvs): int {
    if Get(m, 1) < 128 then Get(m, 1) else -1
  }

  /** What the address CVs of a decoder say. */
  function AddressIn(m: Cvs): int {
    if BitOf(Get(m, 29), 5) then LongId(Get(m, 17), Get(m, 18)) else ShortIn(m)
  }

  /** CVs are bytes. */
  predicate AddressOk(m: Cvs) {
    if BitOf(Get(m, 29), 5) then Get(m, 17) < 256 && Get(m, 18) < 256 else Get(m, 1) < 256
  }

  lemma ReadingAddress(vm: Vm, job: Job, d: Decoder) returns (r: Vm)
    requires vm.rest == ReadAddress() && AddressOk(Mem(d, vm))
    ensures Answering(vm, r, AddressIn(Mem(d, vm)), job, d)
  {
    hide Execute, Mem, Get, ReadLong, ReadShort, Length, Ideal, BitOf, LongId, Target, Answering, ShortIn;
    var t := ReadShort();
    var long := ReadLong(Op(SKIPTARGET, t));
    FitReadLong(Op(SKIPTARGET, t), Any);
    TargetPast(SKIPTARGET, t);
    var vm1 := Choosing(vm, 29, SetBit(5, Ask(V0, Op(ITSKIP, long))), job, d);
    var vm2 := Pointing(vm1, 5, Ask(V0, Op(ITSKIP, long)), job, d);
    var vm3 := Testing(vm2, false, Op(ITSKIP, long), job, d);
    var vm4 := Jumping(vm3, ITSKIP, long, t, job, d);
    if vm3.ack {
      r := ReadingShort(vm4, job, d);
    } else {
      r := ReadingLong(vm4, Op(SKIPTARGET, t), job, d);
    }
    AnsweringAfter(vm, vm4, r, AddressIn(Mem(d, vm)), job, d);
  }

  /** From the start of a pass, however many retries are left. */
  lemma {:induction false} LocoIdFrom(vm: Vm, job: Job, d: Decoder) returns (r: Vm)
    requires vm.rest == job.start == ReadIdProg() && AddressOk(Mem(d, vm))
    ensures Execute(vm, job, Ideal(d)) == Done(AddressIn(Mem(d, vm)), r)
    decreases vm.retry
  {
    hide Execute, ReadAddress, Length, Ideal, AddressIn, AddressOk, Mem, Answering;
    var value := AddressIn(Mem(d, vm));
    var vm1 := Going(vm, BASELINE, ReadAddress(), job, d);
    r := ReadingAddress(vm1, job, d);
    AnsweringAfter(vm, vm1, r, value, job, d);
    r := Concluding(vm, r, value, job, d);
    if value == -1 && vm.retry > 0 {
      r := LocoIdFrom(r, job, d);
    }
  }

  /** getLocoId reads the address of any ideal decoder. */
  lemma LocoIdIsRead(d: Decoder, ack: bool, stash: nat, retries: nat) returns (r: Vm)
    requires AddressOk(d.cvs)
    ensures Ran(GetLocoId, d, ack, stash, retries) == Done(AddressIn(d.cvs), r)
  {
    hide Execute, Length, Ideal, AddressIn, AddressOk;
    var job := Accept(GetLocoId).job;
    var vm := Begin(job, ack, stash, retries);
    assert Mem(d, vm) == d.cvs;
    r := LocoIdFrom(vm, job, d);
  }

  // ---------------------------------------------------------------- reading a consist

  /** CV 20 is in use. */
  predicate Extended(m: Cvs) {
    0 < Get(m, 20) <= 120
  }

  function ExtendedIn(m: Cvs): nat {
    Get(m, 20) * 100 + LastTwo(Get(m, 19))
  }

  predicate ConsistOk(m: Cvs) {
    Get(m, 19) < 256 && Get(m, 20) < 256
  }

  lemma ReadingBoth(vm: Vm, rest: Code, job: Job, d: Decoder) returns (r: Vm)
    requires vm.rest == ReadBoth(rest) && ConsistOk(Mem(d, vm))
    ensures Answering(vm, r, vm.byte * 100 + LastTwo(Get(Mem(d, vm), 19)), job, d)
  {
    hide Execute, Mem, Get, ReadAll, Length, Ideal, LastTwo;
    var last := Op(COMBINE1920, Op(SKIPTARGET, rest));
    var c := SetCv(19, ReadAll(Op(NAKFAIL, last)));
    var vm1 := Going(vm, STASHLOCOID, c, job, d);
    var vm2 := Choosing(vm1, 19, ReadAll(Op(NAKFAIL, last)), job, d);
    var vm3 := ReadingAll(vm2, Op(NAKFAIL, last), job, d);
    r := Ignoring(vm3, NAKFAIL, last, job, d);
  }

  /** Either the extended consist is reported, or the program goes on behind the target. */
  lemma ReadingExtended(vm: Vm, rest: Code, job: Job, d: Decoder) returns (r: Vm)
    requires vm.rest == ReadExtended(rest) && ConsistOk(Mem(d, vm))
    ensures var m := Mem(d, vm);
            if Extended(m) then Answering(vm, r, ExtendedIn(m), job, d)
            else r.rest == rest && r.retry == vm.retry && Moves(vm, r, job, d)
  {
    hide Execute, Mem, Get, ReadAll, ReadBoth, Length, Ideal, LastTwo, Target;
    var m := Mem(d, vm);
    var c1 := Op(BAD20SKIP, ReadBoth(rest));
    var c2 := ReadAll(Op(NAKSKIP, c1));
    FitReadBoth(rest);
    TargetPast(BAD20SKIP, ReadBoth(rest));
    TargetPast(NAKSKIP, c1);
    TargetReadAll(Op(NAKSKIP, c1));
    var vm1 := Choosing(vm, 20, SetByte(0, Ask(VB, Op(ITSKIP, c2))), job, d);
    var vm2 := Loading(vm1, 0, Ask(VB, Op(ITSKIP, c2)), job, d);
    var vm3 := Verifying(vm2, Op(ITSKIP, c2), job, d);
    var vm4 := Jumping(vm3, ITSKIP, c2, rest, job, d);
    r := vm4;
    if Get(m, 20) != 0 {
      r := ReadingCv20(vm4, rest, job, d);
      hide Answering;
      if Extended(m) {
        AnsweringAfter(vm, vm4, r, ExtendedIn(m), job, d);
      }
    }
  }

  /** CV 20 is not zero: read it, and give up on it if it is above 120. */
  lemma ReadingCv20(vm: Vm, rest: Code, job: Job, d: Decoder) returns (r: Vm)
    requires vm.rest == ReadAll(Op(NAKSKIP, Op(BAD20SKIP, ReadBoth(rest)))) && vm.cv == 20
    requires ConsistOk(Mem(d, vm)) && Get(Mem(d, vm), 20) != 0
    ensures var m := Mem(d, vm);
            if Extended(m) then Answering(vm, r, ExtendedIn(m), job, d)
            else r.rest == rest && r.retry == vm.retry && Moves(vm, r, job, d)
  {
    hide Execute, Mem, Get, ReadAll, ReadBoth, Length, Ideal, LastTwo, Target;
    var c1 := Op(BAD20SKIP, ReadBoth(rest));
    FitReadBoth(rest);
    TargetPast(BAD20SKIP, ReadBoth(rest));
    var vm5 := ReadingAll(vm, Op(NAKSKIP, c1), job, d);
    var vm6 := Jumping(vm5, NAKSKIP, c1, rest, job, d);
    var vm7 := Jumping(vm6, BAD20SKIP, ReadBoth(rest), rest, job, d);
    r := vm7;
    if Extended(Mem(d, vm)) {
      hide Answering;
      r := ReadingBoth(vm7, rest, job, d);
      AnsweringAfter(vm, vm7, r, ExtendedIn(Mem(d, vm)), job, d);
    }
  }

  /** The consist a decoder is in, as far as it can be told; 0 if none. */
  function ConsistIn(m: Cvs): int {
    if Extended(m) then ExtendedIn(m) else Get(m, 19) % 128
  }

  /** Ask whether the CV holds a value. */
  lemma AskingFor(vm: Vm, value: nat, rest: Code, job: Job, d: Decoder) returns (r: Vm)
    requires vm.rest == SetByte(value, Ask(VB, rest))
    ensures r.rest == rest && r.cv == vm.cv && r.retry == vm.retry && r.ack == (Get(Mem(d, vm), vm.cv) == value) && Moves(vm, r, job, d)
  {
    hide Execute, Mem, Get, Length, Ideal;
    var vm1 := Loading(vm, value, Ask(VB, rest), job, d);
    r := Verifying(vm1, rest, job, d);
  }

  /** The rest of the consist program: CV 19 alone. */
  lemma ReadingCv19(vm: Vm, job: Job, d: Decoder) returns (r: Vm)
    requires ConsistOk(Mem(d, vm)) && vm.cv == 19
    requires vm.rest == SetByte(0, Ask(VB, Op(ITC0, SetByte(128, Ask(VB, Op(ITC0, ReadAll(Op(ITCB7, FAIL))))))))
    ensures Answering(vm, r, Get(Mem(d, vm), 19) % 128, job, d)
  {
    hide Execute, Mem, Get, ReadAll, Length, Ideal;
    var v := Get(Mem(d, vm), 19);
    var c := ReadAll(Op(ITCB7, FAIL));
    var b := SetByte(128, Ask(VB, Op(ITC0, c)));
    r := AskingFor(vm, 0, Op(ITC0, b), job, d);
    if !r.ack {
      var vm1 := Ignoring(r, ITC0, b, job, d);
      r := AskingFor(vm1, 128, Op(ITC0, c), job, d);
      if !r.ack {
        var vm2 := Ignoring(r, ITC0, c, job, d);
        r := ReadingAll(vm2, Op(ITCB7, FAIL), job, d);
      }
    }
  }

  /** getConsistId reads the consist of any ideal decoder. */
  lemma ConsistIdIsRead(d: Decoder, ack: bool, stash: nat, retries: nat) returns (r: Vm)
    requires ConsistOk(d.cvs)
    ensures Ran(GetConsistId, d, ack, stash, retries) == Done(ConsistIn(d.cvs), r)
  {
    hide Execute, Get, ReadAll, ReadExtended, Length, Ideal, LastTwo, Answering;
    var job := Accept(GetConsistId).job;
    var vm := Begin(job, ack, stash, retries);
    assert Mem(d, vm) == d.cvs;
    var c := SetByte(0, Ask(VB, Op(ITC0, SetByte(128, Ask(VB, Op(ITC0, ReadAll(Op(ITCB7, FAIL))))))));
    var vm1 := Going(vm, BASELINE, ReadExtended(SetCv(19, c)), job, d);
    r := ReadingExtended(vm1, SetCv(19, c), job, d);
    if Extended(d.cvs) {
      AnsweringAfter(vm, vm1, r, ConsistIn(d.cvs), job, d);
    } else {
      var vm2 := Choosing(r, 19, c, job, d);
      r := ReadingCv19(vm2, job, d);
      AnsweringAfter(vm, vm2, r, ConsistIn(d.cvs), job, d);
    }
    r := Concluding(vm, r, ConsistIn(d.cvs), job, d);
  }

  /** What a loco drives away as: its consist if it is in one, else its address. */
  function DriveawayIn(m: Cvs): int {
    if ConsistIn(m) != 0 then ConsistIn(m) else AddressIn(m)
  }

  /** CV 19 alone, or else the address. */
  lemma DrivingAway(vm: Vm, job: Job, d: Decoder) returns (r: Vm)
    requires ConsistOk(Mem(d, vm)) && AddressOk(Mem(d, vm)) && vm.cv == 19
    requires vm.rest == SetByte(0, Ask(VB, Op(ITSKIP, ReadConsist(Op(SKIPTARGET, ReadAddress())))))
    ensures var v := Get(Mem(d, vm), 19) % 128;
            Answering(vm, r, if v != 0 then v else AddressIn(Mem(d, vm)), job, d)
  {
    hide Execute, Mem, Get, ReadAll, ReadAddress, Length, Ideal, Target, Fit, AddressIn, AddressOk, Answering;
    FitReadAddress(Any);
    FitReadConsist(ReadAddress());
    var t := Op(SKIPTARGET, ReadAddress());
    var c1 := ReadAll(Op(ITCB7, t));
    var c := ReadConsist(t);
    var value := if Get(Mem(d, vm), 19) % 128 != 0 then Get(Mem(d, vm), 19) % 128 else AddressIn(Mem(d, vm));
    TargetPast(SKIPTARGET, ReadAddress());
    TargetPast(ITCB7, t);
    TargetReadAll(Op(ITCB7, t));
    var vm1 := AskingFor(vm, 0, Op(ITSKIP, c), job, d);
    var vm2 := Jumping(vm1, ITSKIP, c, ReadAddress(), job, d);
    if vm1.ack {
      r := ReadingAddress(vm2, job, d);
      AnsweringAfter(vm, vm2, r, value, job, d);
    } else {
      var vm3 := AskingFor(vm2, 128, Op(ITSKIP, c1), job, d);
      var vm4 := Jumping(vm3, ITSKIP, c1, ReadAddress(), job, d);
      if vm3.ack {
        r := ReadingAddress(vm4, job, d);
      } else {
        r := ReadingConsist(vm4, t, job, d);
      }
      AnsweringAfter(vm, vm4, r, value, job, d);
    }
  }

  lemma ReadingConsist(vm: Vm, rest: Code, job: Job, d: Decoder) returns (r: Vm)
    requires vm.rest == ReadAll(Op(ITCB7, rest)) && Get(Mem(d, vm), vm.cv) < 256
    ensures Answering(vm, r, Get(Mem(d, vm), vm.cv) % 128, job, d)
  {
    hide Execute, Mem, Get, ReadAll, Length, Ideal;
    r := ReadingAll(vm, Op(ITCB7, rest), job, d);
  }

  /** From the start of a pass, however many retries are left. */
  lemma {:induction false} DriveawayFrom(vm: Vm, job: Job, d: Decoder) returns (r: Vm)
    requires vm.rest == job.start == DriveawayProg() && ConsistOk(Mem(d, vm)) && AddressOk(Mem(d, vm))
    ensures Execute(vm, job, Ideal(d)) == Done(DriveawayIn(Mem(d, vm)), r)
    decreases vm.retry
  {
    hide Execute, Get, ReadConsist, ReadAddress, ReadExtended, Length, Ideal, LastTwo, AddressIn, AddressOk, Mem, Answering;
    var m, value := Mem(d, vm), DriveawayIn(Mem(d, vm));
    var c := SetByte(0, Ask(VB, Op(ITSKIP, ReadConsist(Op(SKIPTARGET, ReadAddress())))));
    var vm1 := Going(vm, BASELINE, ReadExtended(SetCv(19, c)), job, d);
    r := ReadingExtended(vm1, SetCv(19, c), job, d);
    if Extended(m) {
      AnsweringAfter(vm, vm1, r, value, job, d);
    } else {
      var vm2 := Choosing(r, 19, c, job, d);
      r := DrivingAway(vm2, job, d);
      AnsweringAfter(vm, vm2, r, value, job, d);
    }
    r := Concluding(vm, r, value, job, d);
    if value == -1 && vm.retry > 0 {
      r := DriveawayFrom(r, job, d);
    }
  }

  /** getDriveawayLocoId, on any ideal decoder. */
  lemma DriveawayIsRead(d: Decoder, ack: bool, stash: nat, retries: nat) returns (r: Vm)
    requires ConsistOk(d.cvs) && AddressOk(d.cvs)
    ensures Ran(GetDriveawayLocoId, d, ack, stash, retries) == Done(DriveawayIn(d.cvs), r)
  {
    hide Execute, Length, Ideal, AddressIn, AddressOk, DriveawayIn, ConsistOk;
    var job := Accept(GetDriveawayLocoId).job;
    var vm := Begin(job, ack, stash, retries);
    assert Mem(d, vm) == d.cvs;
    r := DriveawayFrom(vm, job, d);
  }

  // ---------------------------------------------------------------- writing

  /** Writing the last CV succeeds whether or not the decoder acknowledges writes. */
  lemma WritingLast(vm: Vm, job: Job, d: Decoder) returns (r: Vm)
    requires vm.rest == WriteLast()
    ensures Execute(vm, job, Ideal(d)) == Done(1, r) && Mem(d, r) == Mem(d, vm)[vm.cv := vm.byte]
  {
    hide Execute, Mem, Length, Ideal;
    var c := Ask(VB, Op(ITC1, FAIL));
    r := Writing(vm, Op(ITC1, c), job, d);
    if d.ackWrites {
      Calling(r, ITC1, c, job, d);
    } else {
      var vm1 := Ignoring(r, ITC1, c, job, d);
      r := Verifying(vm1, Op(ITC1, FAIL), job, d);
      Calling(r, ITC1, FAIL, job, d);
    }
  }

  lemma Clearing(vm: Vm, rest: Code, job: Job, d: Decoder) returns (r: Vm)
    requires vm.rest == ClearConsist(rest)
    ensures r.rest == rest && Mem(d, r) == Mem(d, vm)[20 := 0][19 := 0] && Leads(vm, r, job, d)
  {
    hide Execute, Mem, Length, Ideal;
    var c2 := SetByte(0, Ask(WB, rest));
    var c1 := SetByte(0, Ask(WB, SetCv(19, c2)));
    var vm1 := Choosing(vm, 20, c1, job, d);
    var vm2 := Loading(vm1, 0, Ask(WB, SetCv(19, c2)), job, d);
    var vm3 := Writing(vm2, SetCv(19, c2), job, d);
    var vm4 := Choosing(vm3, 19, c2, job, d);
    var vm5 := Loading(vm4, 0, Ask(WB, rest), job, d);
    r := Writing(vm5, rest, job, d);
  }

  lemma BitIsSet(v: nat, on: bool)
    requires v < 256
    ensures 0 <= WithBit(v, 5, on) < 256 && BitOf(WithBit(v, 5, on), 5) == on
  {
    UpperFive(v);
    if WithBit(v, 5, on) >= 0 {
      UpperFive(WithBit(v, 5, on));
    }
    hide Upper;
  }

  lemma UpperFive(v: nat)
    ensures Upper(v, 5) == v / 32
  {
    assert Upper(v, 1) == v / 2;
    assert Upper(v, 2) == v / 4;
    assert Upper(v, 3) == v / 8;
    assert Upper(v, 4) == v / 16;
  }

  /** The long address flag. */
  lemma Flagging(vm: Vm, on: bool, rest: Code, job: Job, d: Decoder) returns (r: Vm)
    requires Get(Mem(d, vm), 29) < 256
    requires vm.rest == SetCv(29, SetBit(5, Ask(if on then W1 else W0, Ask(if on then V1 else V0, Op(NAKFAIL, rest)))))
    ensures r.rest == rest && Leads(vm, r, job, d)
    ensures WithBit(Get(Mem(d, vm), 29), 5, on) >= 0
    ensures Mem(d, r) == Mem(d, vm)[29 := WithBit(Get(Mem(d, vm), 29), 5, on)]
  {
    hide Execute, Mem, Length, Ideal, WithBit, BitOf;
    var v := Get(Mem(d, vm), 29);
    BitIsSet(v, on);
    var c2 := Ask(if on then V1 else V0, Op(NAKFAIL, rest));
    var c1 := Ask(if on then W1 else W0, c2);
    var vm1 := Choosing(vm, 29, SetBit(5, c1), job, d);
    var vm2 := Pointing(vm1, 5, c1, job, d);
    var vm3 := WritingBit(vm2, on, c2, job, d);
    var vm4 := Testing(vm3, on, Op(NAKFAIL, rest), job, d);
    r := Ignoring(vm4, NAKFAIL, rest, job, d);
  }

  /** Write a byte, verify it if the write is not acknowledged, and go on. */
  lemma WritingEither(vm: Vm, rest: Code, job: Job, d: Decoder) returns (r: Vm)
    requires vm.rest == WriteEither(rest)
    ensures r.rest == rest && Leads(vm, r, job, d) && Mem(d, r) == Mem(d, vm)[vm.cv := vm.byte]
  {
    hide Execute, Mem, Length, Ideal, Target;
    var f := Op(CALLFAIL, Op(SKIPTARGET, rest));
    var c := Ask(VB, Op(ITSKIP, f));
    TargetPast(SKIPTARGET, rest);
    TargetPast(CALLFAIL, Op(SKIPTARGET, rest));
    TargetPast(ITSKIP, f);
    TargetAsk(VB, Op(ITSKIP, f));
    var vm1 := Writing(vm, Op(ITSKIP, c), job, d);
    r := Jumping(vm1, ITSKIP, c, rest, job, d);
    if !d.ackWrites {
      var vm2 := Verifying(r, Op(ITSKIP, f), job, d);
      r := Jumping(vm2, ITSKIP, f, rest, job, d);
    }
  }

  /** The low byte of the word goes to the last CV. */
  lemma StoringLow(vm: Vm, cv: nat, job: Job, d: Decoder) returns (r: Vm)
    requires vm.rest == SetCv(cv, Op(SETBYTEL, WriteLast()))
    ensures Execute(vm, job, Ideal(d)) == Done(1, r) && Mem(d, r) == Mem(d, vm)[cv := job.word % 256]
  {
    hide Execute, Mem, WriteLast, Length, Ideal;
    var vm1 := Choosing(vm, cv, Op(SETBYTEL, WriteLast()), job, d);
    var vm2 := Going(vm1, SETBYTEL, WriteLast(), job, d);
    r := WritingLast(vm2, job, d);
  }

  /** Out of any consist, and the address flag set or cleared. */
  lemma Preparing(vm: Vm, on: bool, rest: Code, job: Job, d: Decoder) returns (r: Vm)
    requires Get(Mem(d, vm), 29) < 256
    requires vm.rest == Op(BASELINE, ClearConsist(SetCv(29, SetBit(5,
               Ask(if on then W1 else W0, Ask(if on then V1 else V0, Op(NAKFAIL, rest)))))))
    ensures r.rest == rest && Leads(vm, r, job, d)
    ensures Get(Mem(d, r), 19) == 0 && Get(Mem(d, r), 20) == 0 && BitOf(Get(Mem(d, r), 29), 5) == on
  {
    hide Execute, Mem, ClearConsist, Length, Ideal, WithBit, BitOf;
    var c := SetCv(29, SetBit(5, Ask(if on then W1 else W0, Ask(if on then V1 else V0, Op(NAKFAIL, rest)))));
    BitIsSet(Get(Mem(d, vm), 29), on);
    var vm1 := Going(vm, BASELINE, ClearConsist(c), job, d);
    var vm2 := Clearing(vm1, c, job, d);
    r := Flagging(vm2, on, rest, job, d);
  }

  /** setLocoId with a short address: what it leaves in the decoder. */
  lemma ShortIdIsWritten(id: nat, h: nat, d: Decoder, ack: bool, stash: nat, retries: nat) returns (r: Vm)
    requires 1 <= id <= h <= 127 && Get(d.cvs, 29) < 256
    ensures Ran(SetLocoId(id, h), d, ack, stash, retries) == Done(1, r)
    ensures && Get(Mem(d, r), 19) == 0 && Get(Mem(d, r), 20) == 0
            && !BitOf(Get(Mem(d, r), 29), 5) && Get(Mem(d, r), 1) == id
  {
    hide Execute, ClearConsist, WriteLast, Length, Ideal, BitOf;
    var job := Accept(SetLocoId(id, h)).job;
    var vm := Begin(job, ack, stash, retries);
    assert Mem(d, vm) == d.cvs;
    hide Mem;
    var vm1 := Preparing(vm, false, SetCv(1, Op(SETBYTEL, WriteLast())), job, d);
    r := StoringLow(vm1, 1, job, d);
  }

  /** With a long address. */
  lemma LongIdIsWritten(id: nat, h: nat, d: Decoder, ack: bool, stash: nat, retries: nat) returns (r: Vm)
    requires h < id <= 10239 && Get(d.cvs, 29) < 256
    ensures Ran(SetLocoId(id, h), d, ack, stash, retries) == Done(1, r)
    ensures && Get(Mem(d, r), 19) == 0 && Get(Mem(d, r), 20) == 0
            && BitOf(Get(Mem(d, r), 29), 5) && Get(Mem(d, r), 17) == 192 + id / 256 && Get(Mem(d, r), 18) == id % 256
  {
    hide Execute, ClearConsist, WriteLast, WriteEither, Length, Ideal, BitOf;
    var job := Accept(SetLocoId(id, h)).job;
    var vm := Begin(job, ack, stash, retries);
    assert Mem(d, vm) == d.cvs;
    hide Mem;
    var c3 := SetCv(18, Op(SETBYTEL, WriteLast()));
    var c2 := SetCv(17, Op(SETBYTEH, WriteEither(c3)));
    var vm1 := Preparing(vm, true, c2, job, d);
    var vm2 := StoringHigh(vm1, c3, job, d);
    r := StoringLow(vm2, 18, job, d);
  }

  lemma StoringHigh(vm: Vm, rest: Code, job: Job, d: Decoder) returns (r: Vm)
    requires vm.rest == SetCv(17, Op(SETBYTEH, WriteEither(rest)))
    ensures r.rest == rest && Leads(vm, r, job, d) && Mem(d, r) == Mem(d, vm)[17 := job.word / 256 % 256]
  {
    hide Execute, Mem, WriteEither, Length, Ideal;
    var vm1 := Choosing(vm, 17, Op(SETBYTEH, WriteEither(rest)), job, d);
    var vm2 := Going(vm1, SETBYTEH, WriteEither(rest), job, d);
    r := WritingEither(vm2, rest, job, d);
  }

  /** CV 20 of a consist: a decoder that does not acknowledge writes is taken not to support it. */
  lemma WritingCv20(vm: Vm, rest: Code, job: Job, d: Decoder) returns (r: Vm)
    requires vm.rest == SetCv(20, Op(SETBYTEH, Ask(WB, Op(ITSKIP, Op(FAIL_IF_NONZERO_NAK, Op(SKIPTARGET, rest))))))
    ensures var cv20 := job.word / 256 % 256;
            && (d.ackWrites || cv20 == 0 ==> r.rest == rest && Leads(vm, r, job, d) && Mem(d, r) == Mem(d, vm)[20 := cv20])
            && (!d.ackWrites && cv20 != 0 ==> Execute(vm, job, Ideal(d)) == Done(-4, r))
  {
    hide Execute, Mem, Length, Ideal, Target;
    var c2 := Op(FAIL_IF_NONZERO_NAK, Op(SKIPTARGET, rest));
    TargetPast(SKIPTARGET, rest);
    TargetPast(FAIL_IF_NONZERO_NAK, Op(SKIPTARGET, rest));
    var c1 := Ask(WB, Op(ITSKIP, c2));
    var vm2 := Choosing(vm, 20, Op(SETBYTEH, c1), job, d);
    var vm3 := Going(vm2, SETBYTEH, c1, job, d);
    var vm4 := Writing(vm3, Op(ITSKIP, c2), job, d);
    r := Jumping(vm4, ITSKIP, c2, rest, job, d);
    if !d.ackWrites {
      if r.byte != 0 {
        Calling(r, FAIL_IF_NONZERO_NAK, Op(SKIPTARGET, rest), job, d);
      } else {
        var vm6 := Ignoring(r, FAIL_IF_NONZERO_NAK, Op(SKIPTARGET, rest), job, d);
        r := Going(vm6, SKIPTARGET, rest, job, d);
      }
    }
  }

  /** setConsistId: what it leaves in the decoder. */
  lemma ConsistIdIsWritten(id: nat, reverse: bool, h: nat, d: Decoder, ack: bool, stash: nat, retries: nat) returns (r: Vm)
    requires id <= 10239
    ensures var word, result := ConsistWord(id, reverse, h), Ran(SetConsistId(id, reverse, h), d, ack, stash, retries);
            var cv20 := word / 256 % 256;
            && (d.ackWrites || cv20 == 0 ==> result == Done(1, r) && Get(Mem(d, r), 20) == cv20 && Get(Mem(d, r), 19) == word % 256)
            && (!d.ackWrites && cv20 != 0 ==> result == Done(-4, r))
  {
    hide Execute, WriteLast, Length, Ideal, ConsistWord;
    var job := Accept(SetConsistId(id, reverse, h)).job;
    var vm := Begin(job, ack, stash, retries);
    hide Mem;
    var c3 := SetCv(19, Op(SETBYTEL, WriteLast()));
    var c1 := SetCv(20, Op(SETBYTEH, Ask(WB, Op(ITSKIP, Op(FAIL_IF_NONZERO_NAK, Op(SKIPTARGET, c3))))));
    var vm1 := Going(vm, BASELINE, c1, job, d);
    r := WritingCv20(vm1, c3, job, d);
    if d.ackWrites || job.word / 256 % 256 == 0 {
      r := StoringLow(r, 19, job, d);
    }
  }

  // ---------------------------------------------------------------- round trips

  /** The decoder as a run leaves it. */
  function Left(d: Decoder, r: Vm): Decoder {
    d.(cvs := Mem(d, r))
  }

  /** Without the marker of long addresses. */
  function Stripped(value: int): int {
    if value >= LONG_ADDR_MARKER then value - LONG_ADDR_MARKER else value
  }

  /** What the two ways of asking for the id answer on a decoder. */
  predicate Answers(id: int, h: nat, d: Decoder, ack: bool, stash: nat, retries: nat) {
    var a, b := Ran(GetLocoId, d, ack, stash, retries), Ran(GetDriveawayLocoId, d, ack, stash, retries);
    a.Done? && b.Done? && a.value == b.value && Stripped(a.value) == id && (a.value != id <==> id > h)
  }

  /** setLocoId(id) succeeds on any ideal decoder, and getLocoId and getDriveawayLocoId then both
      return id, with the marker exactly if it is a long address; ids from 1 to 10239. */
  lemma LocoIdRoundTrip(id: int, h: nat, d: Decoder, ack: bool, stash: nat, retries: nat, ack': bool, stash': nat, retries': nat)
    requires h <= 127 && Get(d.cvs, 29) < 256
    ensures Accept(SetLocoId(id, h)).Started? <==> 1 <= id <= 10239
    ensures 1 <= id <= 10239 ==>
              var w := Ran(SetLocoId(id, h), d, ack, stash, retries);
              w.Done? && w.value == 1 && Answers(id, h, Left(d, w.vm), ack', stash', retries')
  {
    if 1 <= id <= 10239 {
      hide Execute, Length, Ideal, BitOf, Answers, Mem, Ran, ShortIdProg, LongIdProg, Get;
      if id <= h {
        var r := ShortIdIsWritten(id, h, d, ack, stash, retries);
        AddressAnswers(id, h, Left(d, r), ack', stash', retries');
      } else {
        var r := LongIdIsWritten(id, h, d, ack, stash, retries);
        AddressAnswers(id, h, Left(d, r), ack', stash', retries');
      }
    }
  }

  /** A decoder that holds an address and is in no consist. */
  lemma AddressAnswers(id: nat, h: nat, d: Decoder, ack: bool, stash: nat, retries: nat)
    requires 1 <= id <= 10239 && h <= 127 && Get(d.cvs, 19) == 0 && Get(d.cvs, 20) == 0
    requires BitOf(Get(d.cvs, 29), 5) == (id > h)
    requires if id > h then Get(d.cvs, 17) == 192 + id / 256 && Get(d.cvs, 18) == id % 256 else Get(d.cvs, 1) == id
    ensures Answers(id, h, d, ack, stash, retries)
  {
    AddressIs(id, h, d.cvs);
    hide Execute, Length, Ideal, BitOf, Get, Ran, AddressIn, AddressOk, LastTwo;
    var r1 := LocoIdIsRead(d, ack, stash, retries);
    var r2 := DriveawayIsRead(d, ack, stash, retries);
  }

  lemma AddressIs(id: nat, h: nat, m: Cvs)
    requires 1 <= id <= 10239 && h <= 127
    requires BitOf(Get(m, 29), 5) == (id > h)
    requires if id > h then Get(m, 17) == 192 + id / 256 && Get(m, 18) == id % 256 else Get(m, 1) == id
    ensures AddressOk(m) && AddressIn(m) == if id > h then LONG_ADDR_MARKER + id else id
  {
    if id > h {
      LongIdIs(192 + id / 256, id % 256);
    }
    hide BitOf, Get, LongId;
  }

  lemma ConsistWordIs(id: nat, reverse: bool, h: nat)
    requires id <= 10239 && h <= 127
    ensures var w := ConsistWord(id, reverse, h);
            && w / 256 % 256 == (if id <= h then 0 else id / 100)
            && w % 256 == (if id <= h then id else id % 100) + (if reverse then 128 else 0)
  {
  }

  lemma ConsistReads(id: nat, reverse: bool, h: nat, m: Cvs)
    requires id <= 10239 && h <= 127
    requires Get(m, 20) == if id <= h then 0 else id / 100
    requires Get(m, 19) == (if id <= h then id else id % 100) + (if reverse then 128 else 0)
    ensures ConsistOk(m) && ConsistIn(m) == id
  {
    hide Get;
  }

  /** setConsistId(id, reverse) and then getConsistId return id, in both directions, for ids from 0 to
      10239; except that it fails with -4 on a decoder that does not acknowledge writes if and only if
      the id needs CV 20. */
  lemma ConsistIdRoundTrip(id: int, reverse: bool, h: nat, d: Decoder, ack: bool, stash: nat, retries: nat, ack': bool, stash': nat, retries': nat)
    requires h <= 127
    ensures Accept(SetConsistId(id, reverse, h)).Started? <==> 0 <= id <= 10239
    ensures 0 <= id <= 10239 ==>
              var w := Ran(SetConsistId(id, reverse, h), d, ack, stash, retries);
              && w.Done?
              && (w.value == -4 <==> !d.ackWrites && id > h && id >= 100)
              && (w.value != -4 ==>
                    var c := Ran(GetConsistId, Left(d, w.vm), ack', stash', retries');
                    w.value == 1 && c.Done? && c.value == id)
  {
    if 0 <= id <= 10239 {
      hide Execute, Length, Ideal, ConsistWord, ConsistIn, Ran, Mem, Get;
      ConsistWordIs(id, reverse, h);
      var r := ConsistIdIsWritten(id, reverse, h, d, ack, stash, retries);
      if d.ackWrites || id <= h || id < 100 {
        ConsistReads(id, reverse, h, Left(d, r).cvs);
        var r1 := ConsistIdIsRead(Left(d, r), ack', stash', retries');
      }
    }
  }
}
