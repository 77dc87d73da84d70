/** Where a running task goes: to the route it asked for, and through its instructions as the machine of
    ExrailCode does. */
module ExrailRoutes {
  import opened ExrailCode
  import opened ExrailTask

  // ---------------------------------------------------------------- lookup

  /** Entry i is the first with its key. */
  ghost predicate IsFirst(es: seq<Entry>, i: nat, key: int, result: int) {
    i < |es| && es[i] == Entry(key, result) && forall k :: 0 <= k < i ==> es[k].key != key
  }

  /** What is found is the result of the first entry with the key looked for, and nothing is found if
      there is none. */
  lemma {:induction false} FindIsFirst(es: seq<Entry>, key: int)
    ensures forall r :: FindIn(es, key) == Some(r) <==> exists i: nat :: IsFirst(es, i, key, r)
    ensures FindIn(es, key) == None <==> forall k :: 0 <= k < |es| ==> es[k].key != key
    decreases |es|
  {
    if es != [] {
      var rest := es[1..];
      assert es == [es[0]] + rest;
      if es[0].key == key {
        assert IsFirst(es, 0, key, es[0].result);
      } else {
        FindIsFirst(rest, key);
        forall i: nat, r | IsFirst(rest, i, key, r) ensures IsFirst(es, i + 1, key, r) {
        }
        forall i: nat, r | IsFirst(es, i, key, r) ensures i > 0 && IsFirst(rest, i - 1, key, r) {
        }
      }
    }
  }

  /** An instruction boundary at or behind pc, with no end marker from pc up to it. */
  ghost predicate Reached(code: seq<Byte>, from: nat, pc: nat) {
    && from <= pc && pc + 3 <= |code| && (pc - from) % 3 == 0
    && forall q :: from <= q <= pc && (q - from) % 3 == 0 ==> code[q] != OPCODE_ENDEXRAIL
  }

  /** The instruction at pc is of this kind and has this operand. */
  predicate Declares(code: seq<Byte>, pc: nat, ops: set<Byte>, id: Word) {
    pc + 3 <= |code| && code[pc] in ops && WordAt(code, pc) == id
  }

  /** The first of its kind from `from` on. */
  ghost predicate Declared(code: seq<Byte>, from: nat, pc: nat, ops: set<Byte>, id: Word) {
    && Reached(code, from, pc) && Declares(code, pc, ops, id)
    && forall q :: from <= q < pc && (q - from) % 3 == 0 ==> !Declares(code, q, ops, id)
  }

  lemma SameWord(a: Word, b: Word)
    ensures ToInt16(a) == ToInt16(b) <==> a == b
  {
  }

  /** There is none of its kind. */
  ghost predicate Undeclared(code: seq<Byte>, from: nat, ops: set<Byte>, id: Word) {
    forall pc: nat :: !Declared(code, from, pc, ops, id)
  }

  /** The list that the loader makes, one instruction on. */
  lemma EntriesOn(code: seq<Byte>, from: nat, ops: set<Byte>, id: Word)
    requires from + 3 <= |code| && code[from] != OPCODE_ENDEXRAIL
    ensures FindIn(Entries(code, from, ops), ToInt16(id))
         == if Declares(code, from, ops, id) then Some(ToInt16(from)) else FindIn(Entries(code, from + 3, ops), ToInt16(id))
  {
    var rest := Entries(code, from + 3, ops);
    if code[from] in ops {
      var e := Entry(ToInt16(WordAt(code, from)), ToInt16(from));
      assert ([e] + rest)[1..] == rest;
      SameWord(WordAt(code, from), id);
    } else {
      assert [] + rest == rest;
    }
    hide ToInt16, WordAt;
  }

  /** The first declaration is found. */
  lemma {:induction false} FoundAt(code: seq<Byte>, from: nat, pc: nat, ops: set<Byte>, id: Word)
    requires Declared(code, from, pc, ops, id)
    ensures FindIn(Entries(code, from, ops), ToInt16(id)) == Some(ToInt16(pc))
    decreases |code| - from
  {
    assert (from - from) % 3 == 0;
    EntriesOn(code, from, ops, id);
    if !Declares(code, from, ops, id) {
      hide ToInt16, Entries, FindIn;
      DeclaredLater(code, from, pc, ops, id);
      FoundAt(code, from + 3, pc, ops, id);
    }
  }

  /** And if there is none, nothing. */
  lemma {:induction false} NotFound(code: seq<Byte>, from: nat, ops: set<Byte>, id: Word)
    requires Undeclared(code, from, ops, id)
    ensures FindIn(Entries(code, from, ops), ToInt16(id)) == None
    decreases |code| - from
  {
    if from + 3 <= |code| && code[from] != OPCODE_ENDEXRAIL {
      EntriesOn(code, from, ops, id);
      hide ToInt16, Entries, FindIn;
      assert (from - from) % 3 == 0;
      assert Declares(code, from, ops, id) ==> Declared(code, from, from, ops, id);
      var next := from + 3;
      forall pc: nat | Declared(code, next, pc, ops, id) ensures Declared(code, from, pc, ops, id) {
        DeclaredLater(code, from, pc, ops, id);
      }
      hide Declared;
      NotFound(code, next, ops, id);
    }
  }

  lemma DeclaredLater(code: seq<Byte>, from: nat, pc: nat, ops: set<Byte>, id: Word)
    requires from + 3 <= |code| && code[from] != OPCODE_ENDEXRAIL && !Declares(code, from, ops, id)
    ensures Declared(code, from, pc, ops, id) <==> Declared(code, from + 3, pc, ops, id)
  {
    hide Declares;
    if pc > from {
      Thirds(code, from, pc);
      if Declared(code, from + 3, pc, ops, id) {
        forall q | from <= q < pc && (q - from) % 3 == 0 ensures !Declares(code, q, ops, id) {
          assert q != from ==> q >= from + 3 && (q - (from + 3)) % 3 == 0;
        }
      }
      if Declared(code, from, pc, ops, id) {
        forall q | from + 3 <= q < pc && (q - (from + 3)) % 3 == 0 ensures !Declares(code, q, ops, id) {
          assert (q - from) % 3 == 0;
        }
      }
    }
  }

  lemma Thirds(code: seq<Byte>, from: nat, pc: nat)
    requires from + 3 <= |code| && code[from] != OPCODE_ENDEXRAIL && pc > from
    ensures Reached(code, from, pc) <==> Reached(code, from + 3, pc)
  {
    if Reached(code, from + 3, pc) {
      forall q | from <= q <= pc && (q - from) % 3 == 0 ensures code[q] != OPCODE_ENDEXRAIL {
        assert q != from ==> q >= from + 3 && (q - (from + 3)) % 3 == 0;
      }
    }
    if Reached(code, from, pc) {
      forall q | from + 3 <= q <= pc && (q - (from + 3)) % 3 == 0 ensures code[q] != OPCODE_ENDEXRAIL {
        assert (q - from) % 3 == 0;
      }
    }
  }

  // ---------------------------------------------------------------- jumps

  const ROUTES: set<Byte> := {OPCODE_ROUTE, OPCODE_AUTOMATION}
  const SEQUENCES: set<Byte> := {OPCODE_SEQUENCE}

  /** Where a route with this id is: the first route or automation with it, or else the first sequence. */
  ghost predicate IsRouteOf(code: seq<Byte>, pc: nat, id: Word) {
    || Declared(code, 0, pc, ROUTES, id)
    || (Undeclared(code, 0, ROUTES, id) && Declared(code, 0, pc, SEQUENCES, id))
  }

  lemma RouteIsFound(code: seq<Byte>, id: Word)
    ensures forall pc: nat :: IsRouteOf(code, pc, id) ==> FindRoute(code, ToInt16(id)) == ToInt16(pc)
    ensures (forall pc: nat :: !IsRouteOf(code, pc, id)) ==> FindRoute(code, ToInt16(id)) == -1
  {
    hide ToInt16, Declared, Entries, FindIn, Undeclared;
    forall pc: nat | Declared(code, 0, pc, ROUTES, id) ensures FindIn(Entries(code, 0, ROUTES), ToInt16(id)) == Some(ToInt16(pc)) {
      FoundAt(code, 0, pc, ROUTES, id);
    }
    forall pc: nat | Declared(code, 0, pc, SEQUENCES, id) ensures FindIn(Entries(code, 0, SEQUENCES), ToInt16(id)) == Some(ToInt16(pc)) {
      FoundAt(code, 0, pc, SEQUENCES, id);
    }
    DeclaredOrNot(code, 0, ROUTES, id);
    DeclaredOrNot(code, 0, SEQUENCES, id);
    if Undeclared(code, 0, ROUTES, id) {
      NotFound(code, 0, ROUTES, id);
      if Undeclared(code, 0, SEQUENCES, id) {
        NotFound(code, 0, SEQUENCES, id);
      } else {
        var pc: nat :| Declared(code, 0, pc, SEQUENCES, id);
        assert IsRouteOf(code, pc, id);
      }
    } else {
      var pc: nat :| Declared(code, 0, pc, ROUTES, id);
      assert IsRouteOf(code, pc, id);
    }
  }

  lemma DeclaredOrNot(code: seq<Byte>, from: nat, ops: set<Byte>, id: Word)
    ensures Undeclared(code, from, ops, id) || exists pc: nat :: Declared(code, from, pc, ops, id)
  {
    hide Declared;
  }

  /** The route an instruction asks for: its operand, or one of those that follow a random one, the
      one that the clock picks. */
  ghost predicate AsksFor(code: seq<Byte>, pc: nat, millis: nat, id: Word)
    requires CodeOk(code) && PcOk(code, pc)
  {
    if IsRandom(code[pc]) then
      var n := WordAt(code, pc);
      exists k: nat :: k < n && millis % n == k && pc + 3 * k + 6 <= |code| && id == WordAt(code, pc + 3 + 3 * k)
    else id == WordAt(code, pc)
  }

  /** What is left to do there: nothing for a FOLLOW, and behind a call and its operands to go on. */
  function Pushed(code: seq<Byte>, pc: nat): seq<int>
    requires PcOk(code, pc)
  {
    if code[pc] == OPCODE_CALL then [pc + 3]
    else if code[pc] == OPCODE_RANDOM_CALL then [pc + 3 + 3 * WordAt(code, pc)]
    else []
  }

  ghost predicate Jumps(op: Byte) {
    op in {OPCODE_FOLLOW, OPCODE_CALL, OPCODE_RANDOM_FOLLOW, OPCODE_RANDOM_CALL}
  }

  /** A task that jumps lives exactly if there is a route with the id asked for, within the reach of
      16-bit positions, and room on the stack if it is a call; it is then at that route. */
  ghost predicate LandsOn(code: seq<Byte>, t: Task, t': Task, id: Word)
    requires PcOk(code, t.pc)
  {
    var room := Pushed(code, t.pc) == [] || |t.stack| < 4;
    && (t'.alive <==> room && exists pc: nat :: pc < 32768 && IsRouteOf(code, pc, id))
    && (t'.alive ==> IsRouteOf(code, t'.pc, id) && t'.stack == t.stack + Pushed(code, t.pc))
  }

  lemma JumpLands(code: seq<Byte>, t: Task, id: Word)
    requires t.alive && |code| <= 65536
    ensures var t' := Jump(code, t, id);
            && (t'.alive <==> exists pc: nat :: pc < 32768 && IsRouteOf(code, pc, id))
            && (t'.alive ==> IsRouteOf(code, t'.pc, id) && t'.stack == t.stack)
  {
    RouteIsFound(code, id);
    RouteIsNear(code, id);
    hide IsRouteOf, FindRoute;
    if pc: nat :| IsRouteOf(code, pc, id) {
      assert pc < 65536;
    }
  }

  lemma RouteIsNear(code: seq<Byte>, id: Word)
    ensures forall pc: nat :: IsRouteOf(code, pc, id) ==> pc + 3 <= |code|
  {
  }

  /** How many routes there are to choose from, as written. */
  lemma ChoicesAre(code: seq<Byte>, pc: nat)
    requires CodeOk(code) && PcOk(code, pc) && IsRandom(code[pc])
    ensures Choices(code, pc) == WordAt(code, pc) >= 1 && pc + 3 * WordAt(code, pc) + 6 <= |code|
  {
    BackInside(code, pc);
  }

  /** Something is asked for, and one thing only. */
  lemma AskedIs(code: seq<Byte>, pc: nat, millis: nat) returns (id: Word)
    requires CodeOk(code) && PcOk(code, pc)
    ensures forall x: Word :: AsksFor(code, pc, millis, x) <==> x == id
    ensures id == if IsRandom(code[pc]) then Chosen(code, pc, millis) else WordAt(code, pc)
  {
    if IsRandom(code[pc]) {
      ChoicesAre(code, pc);
      id := Chosen(code, pc, millis);
      var k := millis % WordAt(code, pc);
      hide RandomsFit, WordAt;
      assert pc + 3 * k + 6 <= |code|;
      assert AsksFor(code, pc, millis, id);
    } else {
      id := WordAt(code, pc);
    }
  }

  lemma FollowLands(code: seq<Byte>, t: Task, input: Input, id: Word)
    requires CodeOk(code) && TaskOk(code, t) && t.alive && code[t.pc] in {OPCODE_FOLLOW, OPCODE_RANDOM_FOLLOW}
    requires id == if IsRandom(code[t.pc]) then Chosen(code, t.pc, input.millis) else WordAt(code, t.pc)
    ensures LandsOn(code, t, StepTask(code, t, input), id)
  {
    JumpLands(code, t, id);
    hide Jump, IsRouteOf, RandomsFit, WordAt;
  }

  lemma CallLands(code: seq<Byte>, t: Task, input: Input, id: Word)
    requires CodeOk(code) && TaskOk(code, t) && t.alive && code[t.pc] in {OPCODE_CALL, OPCODE_RANDOM_CALL}
    requires id == if IsRandom(code[t.pc]) then Chosen(code, t.pc, input.millis) else WordAt(code, t.pc)
    ensures LandsOn(code, t, StepTask(code, t, input), id)
  {
    if code[t.pc] == OPCODE_RANDOM_CALL {
      ChoicesAre(code, t.pc);
    }
    var back := if code[t.pc] == OPCODE_CALL then t.pc + 3 else t.pc + 3 * (WordAt(code, t.pc) + 1);
    JumpLands(code, t.(stack := t.stack + [back]), id);
    hide Jump, IsRouteOf, RandomsFit, WordAt, Choices;
  }

  /** A FOLLOW, a CALL or a random choice goes to the first route or automation that declares the id asked
      for, or else to the first such sequence; it dies exactly if there is none or the stack is full. */
  lemma StepLands(code: seq<Byte>, t: Task, input: Input)
    requires CodeOk(code) && TaskOk(code, t) && t.alive && Jumps(code[t.pc])
    ensures exists id :: AsksFor(code, t.pc, input.millis, id)
    ensures forall id :: AsksFor(code, t.pc, input.millis, id) ==> LandsOn(code, t, StepTask(code, t, input), id)
  {
    var id := AskedIs(code, t.pc, input.millis);
    hide StepTask, AsksFor, RandomsFit, LandsOn;
    assert AsksFor(code, t.pc, input.millis, id);
    if code[t.pc] in {OPCODE_FOLLOW, OPCODE_RANDOM_FOLLOW} {
      FollowLands(code, t, input, id);
    } else {
      CallLands(code, t, input, id);
    }
  }

  /** Instructions that do not jump: a task that comes to one ends there exactly if it is the end of a task
      or of the table, one the interpreter does not know, a RETURN from nowhere, or a block without end. */
  lemma EndsExactly(code: seq<Byte>, t: Task, input: Input)
    requires CodeOk(code) && TaskOk(code, t) && t.alive && !Jumps(code[t.pc])
    ensures !StepTask(code, t, input).alive <==>
            var op := code[t.pc];
            || op in {OPCODE_ENDTASK, OPCODE_ENDEXRAIL, OPCODE_KILLALL} || IsUnknown(op)
            || (op == OPCODE_RETURN && t.stack == [])
            || ((op == OPCODE_ELSE || (IsIf(op) && input.answer != Yes)) && SkipIf(code, t.pc, 1).None?)
  {
    hide RandomsFit, FindRoute, SkipIf;
  }

  // ---------------------------------------------------------------- as the machine does

  /** No calls: what a call does is left open by the machine of ExrailCode. */
  ghost predicate NoCalls(code: seq<Byte>) {
    forall pc :: 0 <= pc < |code| && pc % 3 == 0 ==> code[pc] != OPCODE_CALL && code[pc] != OPCODE_RANDOM_CALL
  }

  /** Instructions that ask the layout something. */
  predicate Asks(op: Byte) {
    IsIf(op) || IsAction(op)
  }

  lemma KindsOf(op: Byte)
    ensures Asks(op) || IsExit(op) || IsUnknown(op) || op in {OPCODE_PAD, OPCODE_ENDIF, OPCODE_ELSE, OPCODE_ENDEXRAIL}
  {
  }

  /** What a task is seen to do, step by step, until it leaves the table's straight course, dies, or
      waits for an answer that does not come. */
  ghost function Performed(code: seq<Byte>, t: Task, answers: seq<Answer>, millis: nat): Outcome
    requires CodeOk(code) && TaskOk(code, t) && NoCalls(code)
    decreases |answers|, if t.alive then 1 + |code| - t.pc else 0
  {
    if !t.alive then Outcome([], Killed)
    else
      var op, args := code[t.pc], OperandsAt(code, t.pc);
      if op == OPCODE_ENDEXRAIL || IsExit(op) then Outcome([], Left(op, args))
      else if !Asks(op) then
        var t' := StepTask(code, t, Input(NotYet, millis));
        StepKeepsTask(code, t, Input(NotYet, millis));
        QuietGoesOn(code, t, Input(NotYet, millis));
        Performed(code, t', answers, millis)
      else if answers == [] then Outcome([], Blocked)
      else
        var t' := StepTask(code, t, Input(answers[0], millis));
        StepKeepsTask(code, t, Input(answers[0], millis));
        var rest := Performed(code, t', answers[1..], millis);
        if IsIf(op) then Before(Tested(op, args, answers[0] == Yes), rest)
        else if answers[0] == NotYet then rest
        else Before(Did(op, args), rest)
  }

  lemma QuietGoesOn(code: seq<Byte>, t: Task, input: Input)
    requires CodeOk(code) && TaskOk(code, t) && t.alive && !Asks(code[t.pc]) && !IsExit(code[t.pc]) && code[t.pc] != OPCODE_ENDEXRAIL
    ensures var t' := StepTask(code, t, input); t'.alive ==> t.pc < t'.pc
  {
    hide RandomsFit, FindRoute;
    if SkipIf(code, t.pc, 1).Some? {
      SkipMovesOn(code, t.pc, 1);
    }
  }

  /** One step that asks nothing. */
  lemma QuietStep(code: seq<Byte>, t: Task, answers: seq<Answer>, input: Input)
    requires CodeOk(code) && TaskOk(code, t) && t.alive && !Asks(code[t.pc]) && !IsExit(code[t.pc]) && code[t.pc] != OPCODE_ENDEXRAIL
    ensures var t' := StepTask(code, t, input);
            Machine(code, t.pc, answers) == if t'.alive then Machine(code, t'.pc, answers) else Outcome([], Killed)
  {
    KindsOf(code[t.pc]);
    hide RandomsFit, FindRoute, SkipIf, OperandsAt;
    if SkipIf(code, t.pc, 1).Some? {
      SkipMovesOn(code, t.pc, 1);
    }
  }

  /** One that asks whether a condition holds. */
  lemma TestStep(code: seq<Byte>, t: Task, answers: seq<Answer>, millis: nat)
    requires CodeOk(code) && TaskOk(code, t) && t.alive && IsIf(code[t.pc]) && answers != []
    ensures var t' := StepTask(code, t, Input(answers[0], millis));
            Machine(code, t.pc, answers) ==
            Before(Tested(code[t.pc], OperandsAt(code, t.pc), answers[0] == Yes),
                   if t'.alive then Machine(code, t'.pc, answers[1..]) else Outcome([], Killed))
  {
    hide RandomsFit, FindRoute, SkipIf, OperandsAt;
    if SkipIf(code, t.pc, 1).Some? {
      SkipMovesOn(code, t.pc, 1);
    }
  }

  /** One that does something, or waits. */
  lemma ActStep(code: seq<Byte>, t: Task, answers: seq<Answer>, millis: nat)
    requires CodeOk(code) && TaskOk(code, t) && NoCalls(code) && t.alive && IsAction(code[t.pc]) && answers != []
    ensures var t' := StepTask(code, t, Input(answers[0], millis));
            && t'.alive
            && Machine(code, t.pc, answers) ==
                 var rest := Machine(code, t'.pc, answers[1..]);
                 if answers[0] == NotYet then rest else Before(Did(code[t.pc], OperandsAt(code, t.pc)), rest)
  {
    hide RandomsFit, FindRoute, SkipIf, OperandsAt;
  }

  /** Any task on any table without calls performs what the machine of ExrailCode does from there. */
  lemma {:induction false} TasksRunAsTheMachine(code: seq<Byte>, t: Task, answers: seq<Answer>, millis: nat)
    requires CodeOk(code) && TaskOk(code, t) && NoCalls(code) && t.alive
    ensures Performed(code, t, answers, millis) == Machine(code, t.pc, answers)
    decreases |answers|, |code| - t.pc
  {
    var op := code[t.pc];
    if op == OPCODE_ENDEXRAIL || IsExit(op) || (Asks(op) && answers == []) {
    } else {
      var input := Input(if Asks(op) then answers[0] else NotYet, millis);
      var t' := StepTask(code, t, input);
      StepKeepsTask(code, t, input);
      if !Asks(op) {
        QuietGoesOn(code, t, input);
        QuietStep(code, t, answers, input);
        hide Machine, StepTask, CodeOk, NoCalls;
        if t'.alive {
          TasksRunAsTheMachine(code, t', answers, millis);
        }
      } else {
        if IsIf(op) {
          TestStep(code, t, answers, millis);
        } else {
          ActStep(code, t, answers, millis);
        }
        hide Machine, StepTask, CodeOk, NoCalls;
        if t'.alive {
          TasksRunAsTheMachine(code, t', answers[1..], millis);
        }
      }
    }
  }

  /** So a task that starts a script's table performs the script's structured meaning. */
  lemma ScriptIsPerformed(s: Script, answers: seq<Answer>, millis: nat)
    requires ScriptOk(s) && CountsOk(s) && |RouteCode(s)| <= 65536 && NoCalls(RouteCode(s))
    ensures CodeOk(RouteCode(s))
    ensures var o := Exec(s, answers);
            Performed(RouteCode(s), Task(0, [], true), answers, millis)
            == if o.ending.Ran? then Outcome(o.trace, Left(OPCODE_ENDTASK, [0])) else o
  {
    GeneratedCodeOk(s);
    RouteCodePreservesMeaning(s, answers);
    hide RouteCode, NoCalls, Exec, Machine, Performed;
    TasksRunAsTheMachine(RouteCode(s), Task(0, [], true), answers, millis);
  }
}
