/** An ideal decoder: its CVs are a memory, and it acknowledges exactly what is true of them.  What
    one program writes into it, another reads back. */
module AckIdeal {
  import opened AckPrograms
  import opened AckMachine
  import opened AckLibrary

  type Cvs = map<int, nat>

  function Get(m: Cvs, cv: int): nat {
    if cv in m then m[cv] else 0
  }

  /** Powers of two up to 256; CVs are bytes. */
  function Pow2(n: nat): (p: nat)
    ensures p >= 1
  {
    if n == 0 then 1 else if n == 1 then 2 else if n == 2 then 4 else if n == 3 then 8
    else if n == 4 then 16 else if n == 5 then 32 else if n == 6 then 64 else if n == 7 then 128 else 256
  }

  /** The bits of v from n up. */
  function Upper(v: nat, n: nat): nat {
    if n == 0 then v else Upper(v, n - 1) / 2
  }

  predicate BitOf(v: nat, bit: nat) {
    Upper(v, bit) % 2 == 1
  }

  function WithBit(v: nat, bit: nat, on: bool): int {
    if BitOf(v, bit) == on then v else if on then v + Pow2(bit) else v - Pow2(bit)
  }

  /** The memory after a packet. */
  function Applied(m: Cvs, p: Packet): Cvs {
    match p
    case WriteByte(cv, value) => m[cv := value]
    case WriteBit(cv, bit, on) => var v := WithBit(Get(m, cv), bit, on); if v >= 0 then m[cv := v] else m
    case VerifyByte(_, _) => m
    case VerifyBit(_, _, _) => m
  }

  /** Some decoders do not acknowledge writes. */
  predicate Acks(m: Cvs, p: Packet, ackWrites: bool) {
    match p
    case WriteByte(_, _) => ackWrites
    case WriteBit(_, _, _) => ackWrites
    case VerifyByte(cv, value) => Get(m, cv) == value
    case VerifyBit(cv, bit, on) => BitOf(Get(m, cv), bit) == on
  }

  function MemOf(m: Cvs, sent: seq<Packet>): Cvs {
    if sent == [] then m else Applied(MemOf(m, sent[..|sent| - 1]), sent[|sent| - 1])
  }

  datatype Decoder = Decoder(cvs: Cvs, ackWrites: bool)

  function Ideal(d: Decoder): Oracle {
    sent => sent != [] && Acks(MemOf(d.cvs, sent[..|sent| - 1]), sent[|sent| - 1], d.ackWrites)
  }

  /** The decoder's memory as the interpreter stands. */
  function Mem(d: Decoder, vm: Vm): Cvs {
    MemOf(d.cvs, vm.sent)
  }

  // ---------------------------------------------------------------- steps

  /** Both states lead to the same end. */
  ghost predicate Leads(vm: Vm, vm': Vm, job: Job, d: Decoder) {
    Execute(vm, job, Ideal(d)) == Execute(vm', job, Ideal(d))
  }

  lemma Sending(vm: Vm, cell: Cell, rest: Code, job: Job, d: Decoder)
    requires Sends(cell) && vm.rest == Ask(cell, rest)
    ensures Leads(vm, Told(vm, cell, rest, d), job, d)
    ensures Mem(d, Told(vm, cell, rest, d)) == Applied(Mem(d, vm), PacketFor(cell, vm))
  {
    var p := PacketFor(cell, vm);
    var vm1 := vm.(rest := Op(WACK, rest), sent := vm.sent + [p]);
    assert vm1.sent[..|vm1.sent| - 1] == vm.sent;
    SendStep(vm, cell, rest, job, d);
    hide Execute, MemOf, PacketFor, Acks, Applied;
    WackStep(vm1, rest, job, d);
  }

  /** After asking: the answer is in. */
  function Told(vm: Vm, cell: Cell, rest: Code, d: Decoder): Vm
    requires Sends(cell)
  {
    var p := PacketFor(cell, vm);
    vm.(rest := rest, sent := vm.sent + [p], ack := Acks(Mem(d, vm), p, d.ackWrites))
  }

  lemma SendStep(vm: Vm, cell: Cell, rest: Code, job: Job, d: Decoder)
    requires Sends(cell) && vm.rest == Ask(cell, rest)
    ensures Leads(vm, vm.(rest := Op(WACK, rest), sent := vm.sent + [PacketFor(cell, vm)]), job, d)
  {
    hide Execute, PacketFor, Sends, MemOf, Acks;
    ExecSend(vm, job, Ideal(d));
  }

  lemma WackStep(vm: Vm, rest: Code, job: Job, d: Decoder)
    requires vm.rest == Op(WACK, rest) && vm.sent != []
    ensures Leads(vm, vm.(rest := rest, ack := Acks(MemOf(d.cvs, vm.sent[..|vm.sent| - 1]), vm.sent[|vm.sent| - 1], d.ackWrites)), job, d)
  {
    hide Execute, MemOf, Acks;
    ExecPlain(vm, job, Ideal(d));
  }

  lemma Setting(vm: Vm, cell: Cell, n: nat, rest: Code, job: Job, d: Decoder)
    requires Sets(cell) && vm.rest == Op(cell, Op(Num(n), rest))
    ensures Leads(vm, SetRegister(cell, vm, n).(rest := rest), job, d)
  {
    hide Execute, MemOf, Acks, Sets, SetRegister;
    ExecSet(vm, job, Ideal(d));
  }

  lemma Doing(vm: Vm, cell: Cell, rest: Code, job: Job, d: Decoder)
    requires vm.rest == Op(cell, rest) && !cell.Num? && !Sends(cell) && !Calls(cell) && !Skips(cell) && !Sets(cell)
    ensures Leads(vm, Plain(cell, vm.(rest := rest), job, Ideal(d)), job, d)
  {
    hide Execute, MemOf, Acks, Sends, Calls, Skips, Sets, Plain;
    ExecPlain(vm, job, Ideal(d));
  }

  lemma Passing(vm: Vm, cell: Cell, rest: Code, job: Job, d: Decoder)
    requires vm.rest == Op(cell, rest) && Calls(cell) && !CallTaken(cell, vm)
    ensures Leads(vm, vm.(rest := rest), job, d)
  {
    hide Execute, MemOf, Acks, Calls, CallTaken;
    ExecCall(vm, job, Ideal(d));
  }

  lemma Skipping(vm: Vm, cell: Cell, rest: Code, t: Code, job: Job, d: Decoder)
    requires vm.rest == Op(cell, rest) && Skips(cell) && Target(rest) == At(t)
    ensures Leads(vm, vm.(rest := if SkipTaken(cell, vm) then t else rest), job, d)
  {
    hide Execute, MemOf, Acks, Skips, SkipTaken, Target;
    ExecSkip(vm, job, Ideal(d));
  }

  lemma Calling(vm: Vm, cell: Cell, rest: Code, job: Job, d: Decoder)
    requires vm.rest == Op(cell, rest) && Calls(cell) && CallTaken(cell, vm) && CallValue(cell, vm) != -1
    ensures Execute(vm, job, Ideal(d)) == Done(CallValue(cell, vm), CallLeaves(cell, vm))
  {
    hide Execute, MemOf, Acks, Calls, CallTaken;
    ExecCall(vm, job, Ideal(d));
  }

  // ---------------------------------------------------------------- reading a CV bit by bit

  lemma HalfDown(v: nat, n: nat)
    requires 1 <= n <= 8 && v < 256
    ensures Upper(v, n - 1) == Upper(v, n) * 2 + (if BitOf(v, n - 1) then 1 else 0)
    ensures Upper(v, n) * 2 < 256
  {
    UpperBelow(v, n - 1);
  }

  lemma {:induction false} UpperBelow(v: nat, n: nat)
    ensures Upper(v, n) <= v
  {
    if n > 0 {
      UpperBelow(v, n - 1);
    }
  }

  /** The lowest bits agree. */
  ghost predicate SameBits(u: nat, v: nat, n: nat) {
    forall k :: 0 <= k < n ==> BitOf(u, k) == BitOf(v, k)
  }

  lemma ReadingOne(vm: Vm, u: nat, n: nat, rest: Code, job: Job, d: Decoder) returns (r: Vm)
    requires vm.rest == Ask(V0, Op(MERGE, rest)) && 1 <= n <= 8 && u < 256
    requires BitOf(u, n - 1) == BitOf(Get(Mem(d, vm), vm.cv), n - 1)
    requires vm.byte == Upper(u, n) && vm.bit == n - 1
    ensures r == vm.(rest := rest, byte := Upper(u, n - 1), bit := (if n == 1 then 255 else n - 2), ack := r.ack, sent := r.sent)
    ensures Mem(d, r) == Mem(d, vm) && Leads(vm, r, job, d)
    ensures r.ack == !BitOf(u, n - 1)
  {
    hide Execute, MemOf, Upper, Get, BitOf, Plain, Length;
    Sending(vm, V0, Op(MERGE, rest), job, d);
    var vm1 := Told(vm, V0, Op(MERGE, rest), d);
    Doing(vm1, MERGE, rest, job, d);
    Merged(vm1.(rest := rest), u, n, job, d);
    r := Plain(MERGE, vm1.(rest := rest), job, Ideal(d));
  }

  /** With the bits of u from n up already in the byte register, n more reads leave u in it, if the CV
      has the same bits below. */
  lemma {:induction false} ReadingBits(vm: Vm, u: nat, n: nat, rest: Code, job: Job, d: Decoder) returns (r: Vm)
    requires vm.rest == Read(n, rest) && n <= 8 && u < 256
    requires SameBits(u, Get(Mem(d, vm), vm.cv), n)
    requires vm.byte == Upper(u, n)
    requires n == 0 || vm.bit == n - 1
    ensures r == vm.(rest := rest, byte := u, bit := r.bit, ack := r.ack, sent := r.sent)
    ensures Mem(d, r) == Mem(d, vm) && Leads(vm, r, job, d)
    decreases n
  {
    hide Upper, Execute, Mem, Get, Length, Ideal, BitOf;
    Beginning(u);
    if n == 0 {
      r := vm;
    } else {
      var vm2 := ReadingOne(vm, u, n, Read(n - 1, rest), job, d);
      r := ReadingBits(vm2, u, n - 1, rest, job, d);
    }
  }

  lemma Merged(vm: Vm, v: nat, n: nat, job: Job, d: Decoder)
    requires 1 <= n <= 8 && v < 256 && vm.byte == Upper(v, n) && vm.bit == n - 1 && vm.ack == !BitOf(v, n - 1)
    ensures Plain(MERGE, vm, job, Ideal(d)) == vm.(byte := Upper(v, n - 1), bit := if n == 1 then 255 else n - 2)
  {
    HalfDown(v, n);
    hide Upper, BitOf;
  }

  lemma Beginning(v: nat)
    requires v < 256
    ensures Upper(v, 8) == 0 && (v < 128 ==> Upper(v, 7) == 0) && Upper(v, 0) == v
  {
    assert Upper(v, 1) < 128 && (v < 128 ==> Upper(v, 1) < 64);
    assert Upper(v, 2) < 64 && (v < 128 ==> Upper(v, 2) < 32);
    assert Upper(v, 3) < 32 && (v < 128 ==> Upper(v, 3) < 16);
    assert Upper(v, 4) < 16 && (v < 128 ==> Upper(v, 4) < 8);
    assert Upper(v, 5) < 8 && (v < 128 ==> Upper(v, 5) < 4);
    assert Upper(v, 6) < 4 && (v < 128 ==> Upper(v, 6) < 2);
    assert Upper(v, 7) < 2 && (v < 128 ==> Upper(v, 7) < 1);
  }

  /** Reading a whole CV: the byte register holds it, and the decoder confirms it. */
  lemma ReadingAll(vm: Vm, rest: Code, job: Job, d: Decoder) returns (r: Vm)
    requires vm.rest == ReadAll(rest) && Get(Mem(d, vm), vm.cv) < 256
    ensures r == vm.(rest := rest, byte := Get(Mem(d, vm), vm.cv), bit := r.bit, ack := true, sent := r.sent)
    ensures Mem(d, r) == Mem(d, vm) && Leads(vm, r, job, d)
  {
    hide Execute, Upper, Mem, Read, Length, Get;
    var v := Get(Mem(d, vm), vm.cv);
    Beginning(v);
    var c := Read(8, Ask(VB, rest));
    Doing(vm, STARTMERGE, c, job, d);
    var vm1 := vm.(rest := c, bit := 7, byte := 0);
    SameMem(vm, vm1, d);
    var vm2 := ReadingBits(vm1, v, 8, Ask(VB, rest), job, d);
    r := Verifying(vm2, rest, job, d);
  }

  lemma SameMem(vm: Vm, vm': Vm, d: Decoder)
    requires vm.sent == vm'.sent
    ensures Mem(d, vm) == Mem(d, vm')
  {
  }

  /** Asking whether the CV holds the byte. */
  lemma Verifying(vm: Vm, rest: Code, job: Job, d: Decoder) returns (r: Vm)
    requires vm.rest == Ask(VB, rest)
    ensures r == vm.(rest := rest, ack := (Get(Mem(d, vm), vm.cv) == vm.byte), sent := r.sent)
    ensures Mem(d, r) == Mem(d, vm) && Leads(vm, r, job, d)
  {
    hide Execute, MemOf, Get;
    Sending(vm, VB, rest, job, d);
    r := Told(vm, VB, rest, d);
  }

  /** Asking whether a bit of the CV is as given. */
  lemma Testing(vm: Vm, on: bool, rest: Code, job: Job, d: Decoder) returns (r: Vm)
    requires vm.rest == Ask(if on then V1 else V0, rest)
    ensures r == vm.(rest := rest, ack := (BitOf(Get(Mem(d, vm), vm.cv), vm.bit) == on), sent := r.sent)
    ensures Mem(d, r) == Mem(d, vm) && Leads(vm, r, job, d)
  {
    hide Execute, MemOf, Get, BitOf;
    Sending(vm, if on then V1 else V0, rest, job, d);
    r := Told(vm, if on then V1 else V0, rest, d);
  }

  lemma Writing(vm: Vm, rest: Code, job: Job, d: Decoder) returns (r: Vm)
    requires vm.rest == Ask(WB, rest)
    ensures r == vm.(rest := rest, ack := d.ackWrites, sent := r.sent)
    ensures Mem(d, r) == Mem(d, vm)[vm.cv := vm.byte] && Leads(vm, r, job, d)
  {
    hide Execute, MemOf, Get;
    Sending(vm, WB, rest, job, d);
    r := Told(vm, WB, rest, d);
  }

  lemma WritingBit(vm: Vm, on: bool, rest: Code, job: Job, d: Decoder) returns (r: Vm)
    requires vm.rest == Ask(if on then W1 else W0, rest)
    requires WithBit(Get(Mem(d, vm), vm.cv), vm.bit, on) >= 0
    ensures r == vm.(rest := rest, ack := d.ackWrites, sent := r.sent)
    ensures Mem(d, r) == Mem(d, vm)[vm.cv := WithBit(Get(Mem(d, vm), vm.cv), vm.bit, on)] && Leads(vm, r, job, d)
  {
    hide Execute, MemOf, Get, WithBit;
    Sending(vm, if on then W1 else W0, rest, job, d);
    r := Told(vm, if on then W1 else W0, rest, d);
  }
}
