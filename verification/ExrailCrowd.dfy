/** What becomes of task ids when there are more tasks than ids: the bound of 256 is exact, and beyond
    it a living task can find its id given away. */
module ExrailCrowd {
  import opened ExrailFlags
  import opened ExrailRing

  /** Different ids below n are at most n. */
  lemma {:induction false} AtMost(ids: seq<nat>, n: nat)
    requires forall i :: 0 <= i < |ids| ==> ids[i] < n
    requires forall i, j :: 0 <= i < j < |ids| ==> ids[i] != ids[j]
    ensures |ids| <= n
    decreases n
  {
    if ids != [] {
      assert ids[0] < n;
      if n - 1 in ids {
        var j :| 0 <= j < |ids| && ids[j] == n - 1;
        AtMost(ids[..j] + ids[j + 1..], n - 1);
      } else {
        forall i | 0 <= i < |ids| ensures ids[i] < n - 1 {
          assert ids[i] in ids;
        }
        AtMost(ids, n - 1);
      }
    }
  }

  /** If there are as many as that, there is none left. */
  lemma AllTaken(ids: seq<nat>, f: Flags)
    requires IdsOk(ids, f) && |ids| >= MAX_FLAGS
    ensures FirstFree(f, 0) == MAX_FLAGS && 255 in ids
  {
    var id := FirstFree(f, 0);
    hide GetFlag, FirstFree;
    if id < MAX_FLAGS {
      AtMost(ids + [id], MAX_FLAGS);
    }
    assert GetFlag(f, 255, TASK_FLAG);
  }

  /** One more task keeps ids apart and the flags exact if and only if there are fewer than 256. */
  lemma CreateKeepsIds(t: Tasks)
    requires IdsOk(t.ids, t.flags)
    ensures IdsOk(Created(t).ids, Created(t).flags) <==> |t.ids| < MAX_FLAGS
  {
    var k := if t.ids == [] then 0 else 1;
    var t' := Created(t);
    hide GetFlag, Apply;
    if |t.ids| < MAX_FLAGS {
      if FirstFree(t.flags, 0) == MAX_FLAGS {
        CoverNeeds(t.ids, MAX_FLAGS);
      }
      IdsAfterCreate(t.ids, t'.ids, k, FirstFree(t.flags, 0), t.flags);
    } else {
      AllTaken(t.ids, t.flags);
      var j :| 0 <= j < |t.ids| && t.ids[j] == 255;
      assert t'.ids[k] == 255 && t'.ids[if j < k then j else j + 1] == 255;
    }
  }

  // ---------------------------------------------------------------- runs

  datatype Event = Create | Destroy(k: nat)

  function After(events: seq<Event>): Tasks {
    if events == [] then Tasks([], seq(MAX_FLAGS, _ => 0))
    else
      var t, e := After(events[..|events| - 1]), events[|events| - 1];
      match e
      case Create => Created(t)
      case Destroy(k) => if k < |t.ids| then Destroyed(t, k) else t
  }

  /** There were never more tasks than ids. */
  ghost predicate Uncrowded(events: seq<Event>) {
    forall n :: 0 <= n <= |events| ==> |After(events[..n]).ids| <= MAX_FLAGS
  }

  /** In every run in which there are never more than 256 tasks at a time, every task has its own id and
      the task flags are exactly the ids in use. */
  lemma {:induction false} IdsAreApart(events: seq<Event>)
    requires Uncrowded(events)
    ensures var t := After(events); IdsOk(t.ids, t.flags)
  {
    if events != [] {
      var n := |events| - 1;
      var front := events[..n];
      assert events[..n + 1] == events;
      forall m | 0 <= m <= n ensures |After(front[..m]).ids| <= MAX_FLAGS {
        assert front[..m] == events[..m];
      }
      IdsAreApart(front);
      var t := After(front);
      match events[n]
      case Create =>
        CreatedOneMore(t);
        CreateKeepsIds(t);
      case Destroy(k) =>
        if k < |t.ids| {
          IdsAfterDestroy(t.ids, Destroyed(t, k).ids, k, t.flags);
        }
    }
  }

  lemma CreatedOneMore(t: Tasks)
    ensures |Created(t).ids| == |t.ids| + 1
  {
    hide FirstFree, Apply;
  }

  /** n tasks, one after the other. */
  function Starts(n: nat): seq<Event> {
    seq(n, _ => Create)
  }

  predicate Growing(t: Tasks, n: nat) {
    && |t.ids| == n && (n > 0 ==> t.ids[0] == 0) && (n > 1 ==> t.ids[1] == n - 1)
    && (forall i :: 0 <= i < MAX_FLAGS ==> (GetFlag(t.flags, i, TASK_FLAG) <==> i < n))
  }

  lemma FreeIs(f: Flags, n: nat)
    requires n <= MAX_FLAGS
    requires forall i :: 0 <= i < MAX_FLAGS ==> (GetFlag(f, i, TASK_FLAG) <==> i < n)
    ensures FirstFree(f, 0) == n
  {
    var id := FirstFree(f, 0);
    hide GetFlag, FirstFree;
    assert id < MAX_FLAGS ==> !GetFlag(f, id, TASK_FLAG);
    assert n < id ==> GetFlag(f, n, TASK_FLAG);
  }

  lemma {:induction false} IdsGrow(n: nat)
    requires n <= MAX_FLAGS
    ensures Growing(After(Starts(n)), n)
  {
    if n > 0 {
      assert Starts(n)[..n - 1] == Starts(n - 1);
      IdsGrow(n - 1);
      var t := After(Starts(n - 1));
      FreeIs(t.flags, n - 1);
      TaskFlagTaken(t.flags, n - 1);
      hide GetFlag, Apply, FirstFree;
    }
  }

  /** With 257 tasks two have id 255; when one of them ends, the other lives on with its flag clear, and
      the next task takes the same id again. */
  lemma CrowdLosesAnId()
    ensures var t := After(Starts(257) + [Destroy(1)]);
            && 255 in t.ids && !GetFlag(t.flags, 255, TASK_FLAG)
            && var t' := Created(t); |t'.ids| > 1 && t'.ids[0] == 255 && t'.ids[1] == 255
  {
    IdsGrow(256);
    var t0 := After(Starts(256));
    assert Starts(257)[..256] == Starts(256);
    var t1 := Created(t0);
    assert After(Starts(257)) == t1;
    FreeIs(t0.flags, 256);
    assert t1.ids[1] == 255 && t1.ids[2] == 255 && t1.flags == t0.flags;
    var es := Starts(257) + [Destroy(1)];
    assert es[..257] == Starts(257);
    var t2 := Destroyed(t1, 1);
    assert After(es) == t2;
    TaskFlagDropped(t1.flags, 255);
    hide GetFlag, Apply, After;
    assert t2.ids[0] == 255;
    FreeIs(t2.flags, 255);
  }
}
