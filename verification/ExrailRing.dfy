/** The ring of EXRAIL tasks: every task points to the next, `loopTask` is one of them, and each
    holds an id from the shared flag array.  Creation, destruction, round robin and KILLALL keep
    the tasks one circle, and keep ids apart as long as they do not run out. */
module ExrailRing {
  import opened ExrailFlags

  class TaskNode {
    var next: TaskNode
    const taskId: nat

    constructor (id: nat)
      ensures next == this && taskId == id
    {
      taskId := id;
      next := this;
    }
  }

  ghost predicate Distinct(r: seq<TaskNode>) {
    forall i, j :: 0 <= i < j < |r| ==> r[i] != r[j]
  }

  /** Following `next` from the first task visits the others in order and comes back. */
  ghost predicate Circle(r: seq<TaskNode>)
    reads r
  {
    && Distinct(r)
    && forall i :: 0 <= i < |r| ==> r[i].next == r[Succ(i, |r|)]
  }

  /** The index behind i, going round. */
  function Succ(i: nat, n: nat): (j: nat)
    requires i < n
    ensures j < n
  {
    if i + 1 == n then 0 else i + 1
  }

  function Ids(r: seq<TaskNode>): (ids: seq<nat>)
    ensures |ids| == |r| && forall i :: 0 <= i < |r| ==> ids[i] == r[i].taskId
  {
    seq(|r|, i requires 0 <= i < |r| => r[i].taskId)
  }

  /** Ids are valid and distinct, and the task flag is set exactly for the ids in use. */
  ghost predicate IdsOk(ids: seq<nat>, f: Flags) {
    && (forall i :: 0 <= i < |ids| ==> ids[i] < MAX_FLAGS && GetFlag(f, ids[i], TASK_FLAG))
    && (forall i, j :: 0 <= i < j < |ids| ==> ids[i] != ids[j])
    && (forall id :: 0 <= id < MAX_FLAGS && GetFlag(f, id, TASK_FLAG) ==> id in ids)
  }

  /** The ids of the tasks in ring order, and the flags. */
  datatype Tasks = Tasks(ids: seq<nat>, flags: Flags)

  /** The first id from i on whose task flag is clear; 256 if there is none. */
  function FirstFree(f: Flags, i: nat): (id: nat)
    requires i <= MAX_FLAGS
    ensures i <= id <= MAX_FLAGS
    ensures id < MAX_FLAGS ==> !GetFlag(f, id, TASK_FLAG)
    ensures forall k :: i <= k < id ==> GetFlag(f, k, TASK_FLAG)
    decreases MAX_FLAGS - i
  {
    if i == MAX_FLAGS || !GetFlag(f, i, TASK_FLAG) then i else FirstFree(f, i + 1)
  }

  /** A new task takes the first free id, or shares 255, and joins behind the first task. */
  function Created(t: Tasks): Tasks {
    var free, k := FirstFree(t.flags, 0), if t.ids == [] then 0 else 1;
    if free < MAX_FLAGS then Tasks(t.ids[..k] + [free] + t.ids[k..], Apply(t.flags, TakeTask(free)))
    else Tasks(t.ids[..k] + [255] + t.ids[k..], t.flags)
  }

  /** Task k ends, and the one behind it comes first. */
  function Destroyed(t: Tasks, k: nat): Tasks
    requires k < |t.ids|
  {
    Tasks(t.ids[k + 1..] + t.ids[..k], Apply(t.flags, DropTask(t.ids[k])))
  }

  /** A circle has no first task. */
  lemma CircleTurned(r: seq<TaskNode>, k: nat)
    requires Circle(r) && k < |r|
    ensures Circle(r[k..] + r[..k])
  {
    var t, m := r[k..] + r[..k], |r| - k;
    forall i | 0 <= i < |t| ensures t[i].next == t[Succ(i, |t|)] {
      var j := if i < m then i + k else i - m;
      assert t[i] == r[j] && r[j].next == r[Succ(j, |r|)];
    }
  }

  lemma Turned(r: seq<TaskNode>, k: nat)
    requires k < |r|
    ensures var t := r[k..] + r[..k];
            |t| == |r| && t[0] == r[k] && t[1..] == r[k + 1..] + r[..k] && forall x :: x in t ==> x in r
  {
  }

  /** A task that points to itself is the only one. */
  lemma Alone(r: seq<TaskNode>)
    requires Circle(r) && r != []
    ensures (r[0].next == r[0] <==> |r| == 1) && (|r| > 1 ==> r[0].next == r[1])
    ensures |r| == 1 ==> Circle(r[1..])
  {
    assert r[0].next == r[Succ(0, |r|)];
  }

  /** A circle without its first task. */
  lemma Closed(r: seq<TaskNode>)
    requires |r| > 1 && Distinct(r) && r[|r| - 1].next == r[1]
    requires forall i :: 1 <= i < |r| - 1 ==> r[i].next == r[i + 1]
    ensures Circle(r[1..])
  {
    var t := r[1..];
    forall i | 0 <= i < |t| ensures t[i].next == t[Succ(i, |t|)] {
      assert t[i] == r[i + 1];
    }
  }

  // ---------------------------------------------------------------- ids come and go

  /** With fewer than n ids in use, one of the first n is free. */
  lemma {:induction false} CoverNeeds(ids: seq<nat>, n: nat)
    requires forall id :: 0 <= id < n ==> id in ids
    ensures |ids| >= n
    decreases n
  {
    if n > 0 {
      assert n - 1 in ids;
      var j :| 0 <= j < |ids| && ids[j] == n - 1;
      var rest := ids[..j] + ids[j + 1..];
      forall id | 0 <= id < n - 1 ensures id in rest {
        assert id in ids;
        var k :| 0 <= k < |ids| && ids[k] == id;
        assert rest[if k < j then k else k - 1] == id;
      }
      CoverNeeds(rest, n - 1);
    }
  }

  /** If no id is free, there are 256 tasks already. */
  lemma OutOfIds(ids: seq<nat>, f: Flags)
    requires IdsOk(ids, f) && FirstFree(f, 0) == MAX_FLAGS
    ensures |ids| >= MAX_FLAGS
  {
    CoverNeeds(ids, MAX_FLAGS);
  }

  lemma TaskFlagTaken(f: Flags, id: nat)
    requires id < MAX_FLAGS
    ensures var f' := Apply(f, TakeTask(id));
            forall k :: 0 <= k < MAX_FLAGS ==> (GetFlag(f', k, TASK_FLAG) <==> k == id || GetFlag(f, k, TASK_FLAG))
  {
    var b := f[id];
    assert ((b & !0) | TASK_FLAG) & TASK_FLAG != 0;
  }

  lemma TaskFlagDropped(f: Flags, id: nat)
    requires id < MAX_FLAGS
    ensures var f' := Apply(f, DropTask(id));
            forall k :: 0 <= k < MAX_FLAGS ==> (GetFlag(f', k, TASK_FLAG) <==> k != id && GetFlag(f, k, TASK_FLAG))
  {
    var b := f[id];
    assert ((b & !TASK_FLAG) | 0) & TASK_FLAG == 0;
  }

  /** One more task, with an id whose flag was clear. */
  lemma IdsAfterCreate(ids: seq<nat>, ids': seq<nat>, k: nat, id: nat, f: Flags)
    requires IdsOk(ids, f) && id < MAX_FLAGS && !GetFlag(f, id, TASK_FLAG)
    requires k <= |ids| && ids' == ids[..k] + [id] + ids[k..]
    ensures IdsOk(ids', Apply(f, TakeTask(id)))
  {
    TaskFlagTaken(f, id);
    Inserted(ids, ids', k, id);
    hide GetFlag, Apply;
    var f' := Apply(f, TakeTask(id));
    forall i | 0 <= i < |ids'| ensures ids'[i] < MAX_FLAGS && GetFlag(f', ids'[i], TASK_FLAG) {
      assert ids'[i] == id || ids'[i] in ids;
    }
  }

  lemma Inserted(ids: seq<nat>, ids': seq<nat>, k: nat, id: nat)
    requires k <= |ids| && ids' == ids[..k] + [id] + ids[k..] && id !in ids
    requires forall i, j :: 0 <= i < j < |ids| ==> ids[i] != ids[j]
    ensures forall i, j :: 0 <= i < j < |ids'| ==> ids'[i] != ids'[j]
    ensures forall x :: x in ids' <==> x == id || x in ids
  {
    assert ids'[k] == id;
    forall x | x in ids ensures x in ids' {
      var i :| 0 <= i < |ids| && ids[i] == x;
      assert ids'[if i < k then i else i + 1] == x;
    }
  }

  /** One task fewer: the others, seen from the one behind it. */
  lemma IdsAfterDestroy(ids: seq<nat>, ids': seq<nat>, k: nat, f: Flags)
    requires IdsOk(ids, f) && k < |ids| && ids' == ids[k + 1..] + ids[..k]
    ensures IdsOk(ids', Apply(f, DropTask(ids[k])))
  {
    var f' := Apply(f, DropTask(ids[k]));
    TaskFlagDropped(f, ids[k]);
    hide GetFlag, Apply;
    var n := |ids| - k - 1;
    forall x | x in ids && x != ids[k] ensures x in ids' {
      var i :| 0 <= i < |ids| && ids[i] == x;
      assert ids'[if i > k then i - k - 1 else i + n] == x;
    }
  }

  /** Turning the ring renames nothing. */
  lemma IdsAfterTurn(ids: seq<nat>, ids': seq<nat>, f: Flags)
    requires IdsOk(ids, f) && ids != [] && ids' == ids[1..] + [ids[0]]
    ensures IdsOk(ids', f)
  {
    hide GetFlag;
    forall x | x in ids ensures x in ids' {
      var i :| 0 <= i < |ids| && ids[i] == x;
      assert ids'[if i > 0 then i - 1 else |ids| - 1] == x;
    }
  }

  lemma IdsTurned(r: seq<TaskNode>, k: nat)
    requires k < |r|
    ensures Ids(r[k + 1..] + r[..k]) == Ids(r)[k + 1..] + Ids(r)[..k]
  {
  }

  class TaskRing {
    var loopTask: TaskNode?
    const flags: array<bv8>

    /** The tasks in ring order, `loopTask` first. */
    ghost var ring: seq<TaskNode>

    /** There has been a moment with more tasks than ids. */
    ghost var crowded: bool

    ghost predicate Valid()
      reads this, flags, ring
    {
      && flags.Length == MAX_FLAGS
      && (loopTask == null <==> ring == [])
      && (ring != [] ==> ring[0] == loopTask)
      && Circle(ring)
      && (!crowded ==> IdsOk(Ids(ring), flags[..]))
    }

    ghost function View(): Tasks
      requires flags.Length == MAX_FLAGS
      reads this, flags, ring
    {
      Tasks(Ids(ring), flags[..])
    }

    constructor ()
      ensures Valid() && ring == [] && !crowded && fresh(flags)
    {
      loopTask, ring, crowded := null, [], false;
      flags := new bv8[MAX_FLAGS](_ => 0);
      new;
      assert forall id :: 0 <= id < MAX_FLAGS ==> !GetFlag(flags[..], id, TASK_FLAG);
    }

    method SetFlag(id: nat, onMask: bv8, offMask: bv8)
      requires flags.Length == MAX_FLAGS
      modifies flags
      ensures flags[..] == ExrailFlags.SetFlag(old(flags[..]), id, onMask, offMask)
    {
      if id >= MAX_FLAGS {
        return;
      }
      flags[id] := (flags[id] & !offMask) | onMask;
    }

    /** The first id whose task flag is clear, which is then set; 255 if there is none. */
    method TakeId() returns (id: nat, found: bool)
      requires flags.Length == MAX_FLAGS
      modifies flags
      ensures id < MAX_FLAGS
      ensures found ==> id == FirstFree(old(flags[..]), 0)
      ensures found ==> flags[..] == Apply(old(flags[..]), TakeTask(id))
      ensures !found ==> id == 255 && flags[..] == old(flags[..])
      ensures !found ==> FirstFree(old(flags[..]), 0) == MAX_FLAGS
    {
      id, found := 255, false;
      var f := 0;
      while f < MAX_FLAGS
        invariant f <= MAX_FLAGS && flags[..] == old(flags[..])
        invariant FirstFree(old(flags[..]), 0) == FirstFree(old(flags[..]), f)
      {
        if flags[f] & TASK_FLAG == 0 {
          SetFlag(f, TASK_FLAG, 0);
          return f, true;
        }
        f := f + 1;
      }
    }

    /** The pointers of a creation: behind `loopTask`. */
    method Link(t: TaskNode)
      requires Circle(ring) && t !in ring
      requires (loopTask == null <==> ring == []) && (ring != [] ==> ring[0] == loopTask)
      modifies this`loopTask, this`ring, t`next, ring`next
      ensures Circle(ring) && ring != [] && ring[0] == loopTask
      ensures ring == if old(ring) == [] then [t] else [old(ring)[0], t] + old(ring)[1..]
    {
      if loopTask == null {
        loopTask := t;
        t.next := t;
        ring := [t];
      } else {
        t.next := loopTask.next;
        loopTask.next := t;
        ring := [ring[0], t] + ring[1..];
        forall i | 0 <= i < |ring| ensures ring[i].next == ring[Succ(i, |ring|)] {
          if i >= 2 {
            assert ring[i] == old(ring)[i - 1];
          }
        }
      }
    }

    /** A new task takes a free id, or shares 255 if there is none, and joins the ring. */
    method Create() returns (t: TaskNode)
      requires Valid()
      modifies this, flags, ring
      ensures Valid() && fresh(t)
      ensures ring == if old(ring) == [] then [t] else [old(ring)[0], t] + old(ring)[1..]
      ensures View() == Created(old(View()))
      ensures !old(crowded) && |old(ring)| < MAX_FLAGS ==> !crowded
    {
      hide GetFlag, Apply, Circle, IdsOk, FirstFree;
      ghost var ids, k := Ids(ring), if ring == [] then 0 else 1;
      var id, found;
      t, id, found := Join();
      if !crowded {
        if found {
          IdsAfterCreate(ids, Ids(ring), k, id, old(flags[..]));
        } else {
          OutOfIds(ids, old(flags[..]));
          crowded := true;
        }
      }
    }

    method Join() returns (t: TaskNode, id: nat, found: bool)
      requires Valid()
      modifies this`loopTask, this`ring, flags, ring`next
      ensures (loopTask == null <==> ring == []) && (ring != [] ==> ring[0] == loopTask) && Circle(ring) && fresh(t)
      ensures ring == if old(ring) == [] then [t] else [old(ring)[0], t] + old(ring)[1..]
      ensures var ids, k := old(Ids(ring)), if old(ring) == [] then 0 else 1; Ids(ring) == ids[..k] + [id] + ids[k..]
      ensures var f := old(flags[..]);
              if found then id < MAX_FLAGS && id == FirstFree(f, 0) && flags[..] == Apply(f, TakeTask(id))
              else id == 255 && flags[..] == f && FirstFree(f, 0) == MAX_FLAGS
    {
      hide GetFlag, Apply, Circle, IdsOk, FirstFree;
      id, found := TakeId();
      t := new TaskNode(id);
      Link(t);
    }

    /** The task in front of t, found by going round. */
    method Predecessor(t: TaskNode, ghost r: seq<TaskNode>) returns (p: TaskNode)
      requires Circle(r) && |r| > 1 && r[0] == t
      ensures p == r[|r| - 1]
    {
      p := t.next;
      ghost var i := 1;
      assert p == r[Succ(0, |r|)];
      while p.next != t
        invariant 1 <= i < |r| && p == r[i]
        decreases |r| - i
      {
        assert p.next == r[Succ(i, |r|)];
        p := p.next;
        i := i + 1;
      }
      assert p.next == r[Succ(i, |r|)];
    }

    /** The pointers of a destruction. */
    method Unlink(t: TaskNode, ghost k: nat)
      requires Circle(ring) && k < |ring| && ring[k] == t
      modifies this`loopTask, this`ring, ring`next
      ensures Circle(ring) && ring == old(ring)[k + 1..] + old(ring)[..k]
      ensures (loopTask == null <==> ring == []) && (ring != [] ==> ring[0] == loopTask)
    {
      ghost var r, others := ring[k..] + ring[..k], ring[k + 1..] + ring[..k];
      hide Circle, Distinct;
      CircleTurned(ring, k);
      Alone(r);
      Turned(ring, k);
      assert |others| == |r| - 1 && (|others| > 0 ==> others[0] == r[1]);
      if t.next == t {
        loopTask := null;
      } else {
        Close(t, r);
        loopTask := t.next;
      }
      ring := others;
    }

    /** The task in front points to the one behind. */
    method Close(t: TaskNode, ghost r: seq<TaskNode>)
      requires Circle(r) && |r| > 1 && r[0] == t
      modifies r`next
      ensures Circle(r[1..]) && t.next == r[1]
    {
      var p := Predecessor(t, r);
      p.next := t.next;
      Closed(r);
    }

    /** The task leaves the ring; the one behind it becomes `loopTask`. */
    method Destroy(t: TaskNode, ghost k: nat)
      requires Valid() && k < |ring| && ring[k] == t
      modifies this`loopTask, this`ring, flags, ring`next
      ensures Valid() && ring == old(ring)[k + 1..] + old(ring)[..k]
      ensures |Ids(old(ring))| == |old(ring)| && View() == Destroyed(old(View()), k)
    {
      hide GetFlag, Apply, Circle, IdsOk;
      ghost var ids := Ids(ring);
      Leave(t, k);
      if !crowded {
        IdsAfterDestroy(ids, Ids(ring), k, old(flags[..]));
      }
    }

    method Leave(t: TaskNode, ghost k: nat)
      requires Valid() && k < |ring| && ring[k] == t
      modifies this`loopTask, this`ring, flags, ring`next
      ensures (loopTask == null <==> ring == []) && (ring != [] ==> ring[0] == loopTask) && Circle(ring)
      ensures ring == old(ring)[k + 1..] + old(ring)[..k]
      ensures var ids := old(Ids(ring)); Ids(ring) == ids[k + 1..] + ids[..k] && flags[..] == Apply(old(flags[..]), DropTask(ids[k]))
    {
      hide GetFlag, Apply, Circle, IdsOk, ExrailFlags.SetFlag;
      ghost var was := ring;
      SetFlag(t.taskId, 0, TASK_FLAG);
      DropIs(old(flags[..]), t.taskId);
      Unlink(t, k);
      IdsTurned(was, k);
    }

    /** Round robin: the next task gets its turn. */
    method Advance()
      requires Valid()
      modifies this
      ensures Valid() && crowded == old(crowded)
      ensures ring == if old(ring) == [] then [] else old(ring)[1..] + [old(ring)[0]]
    {
      if loopTask == null {
        return;
      }
      ghost var ids := Ids(ring);
      loopTask := loopTask.next;
      ring := ring[1..] + [ring[0]];
      assert Ids(ring) == ids[1..] + [ids[0]];
      if !crowded {
        IdsAfterTurn(ids, Ids(ring), flags[..]);
      }
    }

    /** KILLALL: terminates and leaves no task. */
    method KillAll()
      requires Valid()
      modifies this`loopTask, this`ring, flags, ring`next
      ensures Valid() && ring == [] && loopTask == null
    {
      while loopTask != null
        invariant Valid()
        invariant forall i :: 0 <= i < |ring| ==> ring[i] in old(ring)
        decreases |ring|
      {
        Destroy(loopTask, 0);
      }
    }
  }

  lemma DropIs(f: Flags, id: nat)
    ensures ExrailFlags.SetFlag(f, id, 0, TASK_FLAG) == Apply(f, DropTask(id))
  {
  }
}
