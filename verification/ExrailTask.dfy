/** A running EXRAIL task: program counter, four-deep call stack and route lookup.  The main
    results are program counter integrity in every reachable state, and that a RETURN resumes
    behind the CALL it matches. */
module ExrailTask {
  import opened ExrailCode

  const MAX_STACK_DEPTH: nat := 4

  /** The 16-bit signed reading of a value, as stored in a LookList. */
  function ToInt16(x: nat): (r: int)
    ensures -32768 <= r < 32768
    ensures x < 32768 ==> r == x
    ensures 32768 <= x < 65536 ==> r < 0
  {
    var y := x % 65536;
    if y < 32768 then y else y - 65536
  }

  // ---------------------------------------------------------------- lookup lists

  datatype Entry = Entry(key: int, result: int)

  /** `LookListLoader`: every instruction with one of these opcodes, in order of position. */
  function Entries(code: seq<Byte>, pc: nat, ops: set<Byte>): seq<Entry>
    decreases |code| - pc
  {
    if pc + 3 > |code| || code[pc] == OPCODE_ENDEXRAIL then []
    else
      (if code[pc] in ops then [Entry(ToInt16(WordAt(code, pc)), ToInt16(pc))] else []) +
      Entries(code, pc + 3, ops)
  }

  /** `LookList::find` without its chain: the first match. */
  function FindIn(es: seq<Entry>, key: int): Option<int> {
    if es == [] then None
    else if es[0].key == key then Some(es[0].result)
    else FindIn(es[1..], key)
  }

  /** The route table: routes and automations first, sequences chained behind; -1 if absent. */
  function FindRoute(code: seq<Byte>, id: int): int {
    match FindIn(Entries(code, 0, {OPCODE_ROUTE, OPCODE_AUTOMATION}), id)
    case Some(pc) => pc
    case None =>
      match FindIn(Entries(code, 0, {OPCODE_SEQUENCE}), id)
      case Some(pc) => pc
      case None => -1
  }

  // ---------------------------------------------------------------- one step of a task

  datatype Task = Task(pc: nat, stack: seq<nat>, alive: bool)

  /** What the outside world contributes to one step. */
  datatype Input = Input(answer: Answer, millis: nat)

  /** An instruction boundary inside the table. */
  predicate PcOk(code: seq<Byte>, pc: nat) {
    pc % 3 == 0 && pc + 3 <= |code|
  }

  predicate IsRandom(op: Byte) {
    op == OPCODE_RANDOM_CALL || op == OPCODE_RANDOM_FOLLOW
  }

  /** How many routes a RANDOM_CALL or RANDOM_FOLLOW chooses from. */
  function Choices(code: seq<Byte>, pc: nat): int
    requires pc + 3 <= |code|
  {
    ToInt16(WordAt(code, pc))
  }

  /** The choices of every random instruction between lo and hi stand behind it, before hi. */
  ghost predicate RandomsFit(code: seq<Byte>, lo: nat, hi: nat)
    requires hi <= |code|
  {
    forall pc :: lo <= pc && pc + 3 <= hi && pc % 3 == 0 && IsRandom(code[pc]) ==>
      1 <= Choices(code, pc) && pc + 3 * Choices(code, pc) + 3 <= hi
  }

  /** What the macros guarantee of a table; the bound is what 16-bit positions can tell apart. */
  ghost predicate CodeOk(code: seq<Byte>) {
    && 3 <= |code| <= 65536 && |code| % 3 == 0
    && code[|code| - 3] == OPCODE_ENDEXRAIL
    && RandomsFit(code, 0, |code| - 3)
  }

  ghost predicate TaskOk(code: seq<Byte>, t: Task) {
    t.alive ==>
      && PcOk(code, t.pc)
      && |t.stack| <= MAX_STACK_DEPTH
      && forall i :: 0 <= i < |t.stack| ==> PcOk(code, t.stack[i])
  }

  function Kill(t: Task): Task {
    t.(alive := false)
  }

  function Jump(code: seq<Byte>, t: Task, route: Word): Task {
    var pc := FindRoute(code, ToInt16(route));
    if pc < 0 then Kill(t) else t.(pc := pc)
  }

  /** Pushes a return address and goes to the route, or dies if the stack is full. */
  function Call(code: seq<Byte>, t: Task, route: Word, back: nat): Task {
    if |t.stack| == MAX_STACK_DEPTH then Kill(t) else Jump(code, t.(stack := t.stack + [back]), route)
  }

  /** The route a random instruction chooses. */
  function Chosen(code: seq<Byte>, pc: nat, millis: nat): Word
    requires CodeOk(code) && PcOk(code, pc) && IsRandom(code[pc])
  {
    WordAt(code, pc + 3 + 3 * (millis % Choices(code, pc)))
  }

  function SkipOn(code: seq<Byte>, t: Task): Task
    requires PcOk(code, t.pc)
  {
    match SkipIf(code, t.pc, 1)
    case None => Kill(t)
    case Some(p) => t.(pc := p + 3)
  }

  /** `loop2`, as far as control flow goes. */
  function StepTask(code: seq<Byte>, t: Task, input: Input): Task
    requires CodeOk(code) && TaskOk(code, t)
  {
    if !t.alive then t
    else
      var op := code[t.pc];
      if op == OPCODE_FOLLOW then Jump(code, t, WordAt(code, t.pc))
      else if op == OPCODE_CALL then Call(code, t, WordAt(code, t.pc), t.pc + 3)
      else if op == OPCODE_RANDOM_FOLLOW then Jump(code, t, Chosen(code, t.pc, input.millis))
      else if op == OPCODE_RANDOM_CALL then
        Call(code, t, Chosen(code, t.pc, input.millis), t.pc + 3 * (Choices(code, t.pc) + 1))
      else if op == OPCODE_RETURN then
        if t.stack == [] then Kill(t)
        else t.(pc := t.stack[|t.stack| - 1], stack := t.stack[..|t.stack| - 1])
      else if op in {OPCODE_ENDTASK, OPCODE_ENDEXRAIL, OPCODE_KILLALL} || IsUnknown(op) then Kill(t)
      else if op == OPCODE_ELSE || (IsIf(op) && input.answer != Yes) then SkipOn(code, t)
      else if IsAction(op) && input.answer == NotYet then t
      else t.(pc := t.pc + 3)
  }

  function RunTask(code: seq<Byte>, t: Task, inputs: seq<Input>): Task
    requires CodeOk(code) && TaskOk(code, t)
    decreases |inputs|
  {
    if inputs == [] then t
    else
      StepKeepsTask(code, t, inputs[0]);
      RunTask(code, StepTask(code, t, inputs[0]), inputs[1..])
  }

  // ---------------------------------------------------------------- program counter integrity

  lemma {:induction false} SkipLandsInside(code: seq<Byte>, pc: nat, nest: nat)
    requires nest > 0 && SkipIf(code, pc, nest).Some?
    ensures var p := SkipIf(code, pc, nest).value;
            && p % 3 == pc % 3 && p + 3 <= |code| && code[p] in {OPCODE_ELSE, OPCODE_ENDIF}
    decreases |code| - pc
  {
    var op := code[pc + 3];
    if op > IF_TYPE_OPCODES {
      SkipLandsInside(code, pc + 3, nest + 1);
    } else if op == OPCODE_ENDIF {
      if nest > 1 {
        SkipLandsInside(code, pc + 3, nest - 1);
      } else {
        assert SkipIf(code, pc + 3, 0) == Some(pc + 3);
      }
    } else if !(op == OPCODE_ELSE && nest == 1) {
      SkipLandsInside(code, pc + 3, nest);
    }
  }

  /** Positions found in a list are instruction boundaries, or negative beyond the 16-bit range. */
  lemma {:induction false} FoundInside(code: seq<Byte>, pc: nat, ops: set<Byte>, key: int)
    requires |code| <= 65536 && pc % 3 == 0
    ensures var r := FindIn(Entries(code, pc, ops), key);
            r.Some? && r.value >= 0 ==> PcOk(code, r.value) && code[r.value] in ops
    decreases |code| - pc
  {
    if pc + 3 <= |code| && code[pc] != OPCODE_ENDEXRAIL {
      FoundInside(code, pc + 3, ops, key);
      var rest := Entries(code, pc + 3, ops);
      if code[pc] in ops {
        var e := Entry(ToInt16(WordAt(code, pc)), ToInt16(pc));
        assert ([e] + rest)[1..] == rest;
      } else {
        assert [] + rest == rest;
      }
    }
  }

  lemma JumpInside(code: seq<Byte>, t: Task, route: Word)
    requires CodeOk(code) && TaskOk(code, t)
    ensures TaskOk(code, Jump(code, t, route))
  {
    hide Entries, FindIn;
    FoundInside(code, 0, {OPCODE_ROUTE, OPCODE_AUTOMATION}, ToInt16(route));
    FoundInside(code, 0, {OPCODE_SEQUENCE}, ToInt16(route));
  }

  lemma CallInside(code: seq<Byte>, t: Task, route: Word, back: nat)
    requires CodeOk(code) && TaskOk(code, t) && t.alive && PcOk(code, back)
    ensures TaskOk(code, Call(code, t, route, back))
  {
    hide Jump;
    if |t.stack| < MAX_STACK_DEPTH {
      JumpInside(code, t.(stack := t.stack + [back]), route);
    }
  }

  /** The last instruction is the end marker, so every other one has a successor. */
  lemma NextInside(code: seq<Byte>, pc: nat)
    requires CodeOk(code) && PcOk(code, pc) && code[pc] != OPCODE_ENDEXRAIL
    ensures PcOk(code, pc + 3)
  {
  }

  lemma StepSkipsInside(code: seq<Byte>, t: Task, input: Input)
    requires CodeOk(code) && TaskOk(code, t) && t.alive
    requires code[t.pc] == OPCODE_ELSE || (IsIf(code[t.pc]) && input.answer != Yes)
    ensures TaskOk(code, StepTask(code, t, input))
  {
    hide SkipIf, Entries, FindRoute;
    if SkipIf(code, t.pc, 1).Some? {
      SkipLandsInside(code, t.pc, 1);
      NextInside(code, SkipIf(code, t.pc, 1).value);
    }
  }

  lemma StepJumpsInside(code: seq<Byte>, t: Task, input: Input)
    requires CodeOk(code) && TaskOk(code, t) && t.alive
    requires code[t.pc] in {OPCODE_FOLLOW, OPCODE_RANDOM_FOLLOW}
    ensures TaskOk(code, StepTask(code, t, input))
  {
    hide SkipIf, Entries, FindRoute;
    JumpInside(code, t, if code[t.pc] == OPCODE_FOLLOW then WordAt(code, t.pc) else Chosen(code, t.pc, input.millis));
  }

  lemma StepCallsInside(code: seq<Byte>, t: Task, input: Input)
    requires CodeOk(code) && TaskOk(code, t) && t.alive && code[t.pc] == OPCODE_CALL
    ensures TaskOk(code, StepTask(code, t, input))
  {
    hide SkipIf, Entries, FindRoute;
    NextInside(code, t.pc);
    CallInside(code, t, WordAt(code, t.pc), t.pc + 3);
  }

  lemma StepCallsAtRandomInside(code: seq<Byte>, t: Task, input: Input)
    requires CodeOk(code) && TaskOk(code, t) && t.alive && code[t.pc] == OPCODE_RANDOM_CALL
    ensures TaskOk(code, StepTask(code, t, input))
  {
    BackInside(code, t.pc);
    hide SkipIf, Entries, FindRoute, Choices, Chosen, Call, RandomsFit, PcOk;
    CallInside(code, t, Chosen(code, t.pc, input.millis), t.pc + 3 * (Choices(code, t.pc) + 1));
  }

  /** Behind a random instruction and its choices there is another. */
  lemma BackInside(code: seq<Byte>, pc: nat)
    requires CodeOk(code) && PcOk(code, pc) && IsRandom(code[pc])
    ensures Choices(code, pc) >= 1 && PcOk(code, pc + 3 * (Choices(code, pc) + 1))
  {
    hide Choices;
  }

  lemma StepGoesOn(code: seq<Byte>, t: Task, input: Input)
    requires CodeOk(code) && TaskOk(code, t) && t.alive
    requires code[t.pc] !in {OPCODE_FOLLOW, OPCODE_RANDOM_FOLLOW, OPCODE_CALL, OPCODE_RANDOM_CALL, OPCODE_ELSE}
    requires IsIf(code[t.pc]) ==> input.answer == Yes
    ensures TaskOk(code, StepTask(code, t, input))
  {
    hide SkipIf, Entries, FindRoute;
    if code[t.pc] != OPCODE_ENDEXRAIL {
      NextInside(code, t.pc);
    }
  }

  lemma StepKeepsTask(code: seq<Byte>, t: Task, input: Input)
    requires CodeOk(code) && TaskOk(code, t)
    ensures TaskOk(code, StepTask(code, t, input))
  {
    if t.alive {
      hide StepTask;
      var op := code[t.pc];
      if op == OPCODE_FOLLOW || op == OPCODE_RANDOM_FOLLOW {
        StepJumpsInside(code, t, input);
      } else if op == OPCODE_CALL {
        StepCallsInside(code, t, input);
      } else if op == OPCODE_RANDOM_CALL {
        StepCallsAtRandomInside(code, t, input);
      } else if op == OPCODE_ELSE || (IsIf(op) && input.answer != Yes) {
        StepSkipsInside(code, t, input);
      } else {
        StepGoesOn(code, t, input);
      }
    }
  }

  /** In every reachable state of a task its program counter and all saved return addresses are
      instruction boundaries inside the table, and the stack is at most four deep. */
  lemma {:induction false} ProgramCounterIntegrity(code: seq<Byte>, start: nat, inputs: seq<Input>)
    requires CodeOk(code) && PcOk(code, start)
    ensures TaskOk(code, RunTask(code, Task(start, [], true), inputs))
  {
    RunKeepsTask(code, Task(start, [], true), inputs);
  }

  lemma {:induction false} RunKeepsTask(code: seq<Byte>, t: Task, inputs: seq<Input>)
    requires CodeOk(code) && TaskOk(code, t)
    ensures TaskOk(code, RunTask(code, t, inputs))
    decreases |inputs|
  {
    if inputs != [] {
      StepKeepsTask(code, t, inputs[0]);
      hide TaskOk, StepTask, CodeOk;
      RunKeepsTask(code, StepTask(code, t, inputs[0]), inputs[1..]);
    }
  }

  // ---------------------------------------------------------------- calls return

  /** The task is still inside the call that made the stack d deep, at every step of the run. */
  ghost predicate StaysInside(code: seq<Byte>, t: Task, inputs: seq<Input>, d: nat)
    requires CodeOk(code) && TaskOk(code, t)
    decreases |inputs|
  {
    && t.alive && |t.stack| >= d
    && if inputs == [] then true
       else
         StepKeepsTask(code, t, inputs[0]);
         StaysInside(code, StepTask(code, t, inputs[0]), inputs[1..], d)
  }

  lemma StepKeepsStack(code: seq<Byte>, t: Task, input: Input, d: nat)
    requires CodeOk(code) && TaskOk(code, t) && t.alive && d <= |t.stack|
    requires StepTask(code, t, input).alive && d <= |StepTask(code, t, input).stack|
    ensures StepTask(code, t, input).stack[..d] == t.stack[..d]
  {
    hide SkipIf, FindRoute, RandomsFit;
  }

  lemma {:induction false} RunKeepsStack(code: seq<Byte>, t: Task, inputs: seq<Input>, d: nat)
    requires CodeOk(code) && TaskOk(code, t) && StaysInside(code, t, inputs, d)
    ensures var u := RunTask(code, t, inputs);
            u.alive && d <= |u.stack| && u.stack[..d] == t.stack[..d]
    decreases |inputs|
  {
    if inputs != [] {
      StepKeepsTask(code, t, inputs[0]);
      hide StepTask, TaskOk, CodeOk;
      RunKeepsStack(code, StepTask(code, t, inputs[0]), inputs[1..], d);
      StepKeepsStack(code, t, inputs[0], d);
    }
  }

  /** Where a CALL or RANDOM_CALL wants to come back to. */
  function BackFrom(code: seq<Byte>, pc: nat): int
    requires PcOk(code, pc)
  {
    if code[pc] == OPCODE_CALL then pc + 3 else pc + 3 * (Choices(code, pc) + 1)
  }

  /** The task is at a call, which succeeds. */
  ghost predicate Enters(code: seq<Byte>, t: Task, input: Input) {
    && CodeOk(code) && TaskOk(code, t) && t.alive
    && code[t.pc] in {OPCODE_CALL, OPCODE_RANDOM_CALL}
    && StepTask(code, t, input).alive && TaskOk(code, StepTask(code, t, input))
  }

  /** The task after a call and what follows it. */
  ghost function Within(code: seq<Byte>, t: Task, first: Input, inputs: seq<Input>): Task
    requires Enters(code, t, first)
  {
    RunTask(code, StepTask(code, t, first), inputs)
  }

  /** A call that succeeds, any run that stays inside it, and the RETURN that ends it: the task is
      back behind the call (behind all operands of a RANDOM_CALL) with the stack it had before. */
  lemma {:induction false} ReturnMatchesCall(code: seq<Byte>, t: Task, first: Input, inputs: seq<Input>, last: Input)
    requires Enters(code, t, first) && StaysInside(code, StepTask(code, t, first), inputs, |t.stack| + 1)
    requires var u := Within(code, t, first, inputs);
             TaskOk(code, u) && u.alive && |u.stack| == |t.stack| + 1 && code[u.pc] == OPCODE_RETURN
    ensures var r := StepTask(code, Within(code, t, first, inputs), last);
            r.alive && r.pc == BackFrom(code, t.pc) && r.stack == t.stack
  {
    var d := |t.stack| + 1;
    var v := StepTask(code, t, first);
    CallPushes(code, t, first);
    var u := RunTask(code, v, inputs);
    RunKeepsStack(code, v, inputs, d);
    hide RunTask, StaysInside, RandomsFit;
    assert u.stack == u.stack[..d] == v.stack[..d] == v.stack;
    assert u.stack[..d - 1] == t.stack;
  }

  lemma CallPushes(code: seq<Byte>, t: Task, input: Input)
    requires CodeOk(code) && TaskOk(code, t) && t.alive
    requires code[t.pc] in {OPCODE_CALL, OPCODE_RANDOM_CALL}
    requires StepTask(code, t, input).alive
    ensures BackFrom(code, t.pc) >= 0
    ensures StepTask(code, t, input).stack == t.stack + [BackFrom(code, t.pc)]
  {
    hide FindRoute, SkipIf;
  }

  // ---------------------------------------------------------------- what the macros generate

  /** RANDOM_CALL and RANDOM_FOLLOW count their routes and carry them as further operands. */
  predicate CountsOk(s: Script) {
    match s
    case Nothing => true
    case Act(op, args, next) => CountOk(op, args) && CountsOk(next)
    case Leave(op, args, next) => CountOk(op, args) && CountsOk(next)
    case IfThen(_, _, thn, next) => CountsOk(thn) && CountsOk(next)
    case IfElse(_, _, thn, els, next) => CountsOk(thn) && CountsOk(els) && CountsOk(next)
  }

  predicate CountOk(op: Byte, args: seq<Word>) {
    IsRandom(op) && args != [] ==> 1 <= args[0] < 32768 && args[0] == |args| - 1
  }

  lemma {:induction false} PadsAreNotRandom(code: seq<Byte>, pc: nat, args: seq<Word>)
    requires At(code, pc, Pads(args)) && pc % 3 == 0
    ensures forall q :: pc <= q && q + 3 <= pc + 3 * |args| && q % 3 == 0 ==> q < |code| && code[q] == OPCODE_PAD
    decreases |args|
  {
    if args != [] {
      PadsAt(code, pc, args);
      PadsAreNotRandom(code, pc + 3, args[1..]);
      assert forall q :: pc <= q && q % 3 == 0 && q != pc ==> pc + 3 <= q;
    }
  }

  predicate Boundary(pc: nat) {
    pc % 3 == 0
  }

  lemma InstrFits(code: seq<Byte>, pc: nat, op: Byte, args: seq<Word>)
    requires args != [] && At(code, pc, Instr(op, args)) && Boundary(pc) && CountOk(op, args)
    ensures Boundary(pc + |Instr(op, args)|) && RandomsFit(code, pc, pc + |Instr(op, args)|)
  {
    InstrLength(op, args);
    InstrAt(code, pc, op, args);
    hide Instr, Pads, At;
    PadsAreNotRandom(code, pc + 3, args[1..]);
    assert forall q :: pc <= q && q % 3 == 0 && q != pc ==> pc + 3 <= q;
  }

  lemma FitsJoin(code: seq<Byte>, a: nat, b: nat, c: nat)
    requires a <= b <= c <= |code| && Boundary(a) && Boundary(b)
    requires RandomsFit(code, a, b) && RandomsFit(code, b, c)
    ensures RandomsFit(code, a, c)
  {
    assert forall q :: q % 3 == 0 && q < b ==> q + 3 <= b;
  }

  /** A branch and its closing instruction. */
  lemma {:induction false} BranchFits(parent: Script, code: seq<Byte>, pc: nat, branch: Script, closer: Byte, rest: seq<Byte>)
    requires branch < parent && ScriptOk(branch) && CountsOk(branch) && closer in {OPCODE_ELSE, OPCODE_ENDIF}
    requires Boundary(pc) && At(code, pc, Compile(branch) + (Instr(closer, [0]) + rest))
    ensures var end := pc + |Compile(branch)| + 3;
            Boundary(end) && At(code, end, rest) && RandomsFit(code, pc, end)
    decreases parent, 0
  {
    hide Instr, Compile, At, RandomsFit, Boundary;
    AtSplit(code, pc, Compile(branch), Instr(closer, [0]) + rest);
    ScriptFits(code, pc, branch);
    var q := pc + |Compile(branch)|;
    AtSplit(code, q, Instr(closer, [0]), rest);
    InstrFits(code, q, closer, [0]);
    InstrLength(closer, [0]);
    AtBounds(code, q, Instr(closer, [0]));
    FitsJoin(code, pc, q, q + 3);
  }

  lemma AtBounds(code: seq<Byte>, pc: nat, bytes: seq<Byte>)
    requires At(code, pc, bytes)
    ensures pc + |bytes| <= |code|
  {
  }

  lemma {:induction false} ScriptFits(code: seq<Byte>, pc: nat, s: Script)
    requires ScriptOk(s) && CountsOk(s) && Boundary(pc) && At(code, pc, Compile(s))
    ensures pc + |Compile(s)| <= |code|
    ensures Boundary(pc + |Compile(s)|) && RandomsFit(code, pc, pc + |Compile(s)|)
    decreases s, 2
  {
    AtBounds(code, pc, Compile(s));
    hide Instr, At, RandomsFit, Boundary;
    match s
    case Nothing => NothingFits(code, pc);
    case Act(op, args, next) => InstrThenFits(s, code, pc, op, args, next);
    case Leave(op, args, next) => InstrThenFits(s, code, pc, op, args, next);
    case IfThen(_, _, _, _) => IfThenFits(code, pc, s);
    case IfElse(_, _, _, _, _) => IfElseFits(code, pc, s);
  }

  lemma NothingFits(code: seq<Byte>, pc: nat)
    requires pc <= |code|
    ensures RandomsFit(code, pc, pc)
  {
  }

  lemma {:induction false} InstrThenFits(parent: Script, code: seq<Byte>, pc: nat, op: Byte, args: seq<Word>, next: Script)
    requires next < parent && ScriptOk(next) && CountsOk(next) && args != [] && CountOk(op, args)
    requires Boundary(pc) && At(code, pc, Instr(op, args) + Compile(next))
    ensures var n := |Instr(op, args) + Compile(next)|;
            Boundary(pc + n) && pc + n <= |code| && RandomsFit(code, pc, pc + n)
    decreases parent, 1
  {
    hide Instr, At, RandomsFit, Compile, Boundary;
    AtSplit(code, pc, Instr(op, args), Compile(next));
    InstrFits(code, pc, op, args);
    ScriptFits(code, pc + |Instr(op, args)|, next);
    FitsJoin(code, pc, pc + |Instr(op, args)|, pc + |Instr(op, args) + Compile(next)|);
  }

  lemma {:induction false} IfThenFits(code: seq<Byte>, pc: nat, s: Script)
    requires s.IfThen? && ScriptOk(s) && CountsOk(s) && Boundary(pc) && At(code, pc, Compile(s))
    requires pc + |Compile(s)| <= |code|
    ensures Boundary(pc + |Compile(s)|) && RandomsFit(code, pc, pc + |Compile(s)|)
    decreases s, 1
  {
    hide Instr, At, RandomsFit, Boundary;
    var endif := Instr(OPCODE_ENDIF, [0]) + Compile(s.next);
    InstrLength(OPCODE_ENDIF, [0]);
    AtSplit(code, pc, Instr(s.op, s.args), Compile(s.thn) + endif);
    InstrFits(code, pc, s.op, s.args);
    var p1 := pc + |Instr(s.op, s.args)|;
    BranchFits(s, code, p1, s.thn, OPCODE_ENDIF, Compile(s.next));
    var p2 := p1 + |Compile(s.thn)| + 3;
    ScriptFits(code, p2, s.next);
    FitsJoin(code, pc, p1, p2);
    FitsJoin(code, pc, p2, pc + |Compile(s)|);
  }

  lemma {:induction false} IfElseFits(code: seq<Byte>, pc: nat, s: Script)
    requires s.IfElse? && ScriptOk(s) && CountsOk(s) && Boundary(pc) && At(code, pc, Compile(s))
    requires pc + |Compile(s)| <= |code|
    ensures Boundary(pc + |Compile(s)|) && RandomsFit(code, pc, pc + |Compile(s)|)
    decreases s, 1
  {
    hide Instr, At, RandomsFit, Boundary;
    var endif := Instr(OPCODE_ENDIF, [0]) + Compile(s.next);
    var other := Instr(OPCODE_ELSE, [0]) + (Compile(s.els) + endif);
    InstrLength(OPCODE_ENDIF, [0]);
    InstrLength(OPCODE_ELSE, [0]);
    AtSplit(code, pc, Instr(s.op, s.args), Compile(s.thn) + other);
    InstrFits(code, pc, s.op, s.args);
    var p1 := pc + |Instr(s.op, s.args)|;
    BranchFits(s, code, p1, s.thn, OPCODE_ELSE, Compile(s.els) + endif);
    var p2 := p1 + |Compile(s.thn)| + 3;
    BranchFits(s, code, p2, s.els, OPCODE_ENDIF, Compile(s.next));
    var p3 := p2 + |Compile(s.els)| + 3;
    ScriptFits(code, p3, s.next);
    FitsJoin(code, pc, p1, p2);
    FitsJoin(code, pc, p2, p3);
    FitsJoin(code, pc, p3, pc + |Compile(s)|);
  }

  /** Every table the macros generate from a well-nested script is one the results above hold for. */
  lemma GeneratedCodeOk(s: Script)
    requires ScriptOk(s) && CountsOk(s) && |RouteCode(s)| <= 65536
    ensures CodeOk(RouteCode(s))
  {
    hide Compile, Instr, RouteCode, At, RandomsFit;
    var code, n := RouteCode(s), |Compile(s)|;
    TableLayout(s);
    ScriptFits(code, 0, s);
    EndFits(code, n);
    FitsJoin(code, 0, n, n + 3);
  }

  lemma EndFits(code: seq<Byte>, n: nat)
    requires n + 3 <= |code| && Boundary(n) && code[n] == OPCODE_ENDTASK
    ensures RandomsFit(code, n, n + 3)
  {
  }
}
