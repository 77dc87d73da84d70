/** The packet scheduler always catches up: without new requests the work queued never grows, and once
    the coil-offs queued are due every pass of the main loop, or the one after it, does some of it,
    until both queues are empty. */
module PacketDrain {
  import opened PacketQueue

  /** Transmissions a slot stands for; a coil-on also stands for its coil-off. */
  function Weight(s: Slot): nat {
    if s.kind == AccOn then 2 * (s.repeats + 1) else s.repeats + 1
  }

  function Work(q: seq<Slot>): nat {
    if q == [] then 0 else Work(q[..|q| - 1]) + Weight(q[|q| - 1])
  }

  function Measure(q: Queues): nat {
    Work(q.high) + Work(q.low)
  }

  lemma {:induction false} WorkConcat(a: seq<Slot>, b: seq<Slot>)
    ensures Work(a + b) == Work(a) + Work(b)
    decreases |b|
  {
    if b == [] {
      assert a + b == a;
    } else {
      var b0 := b[..|b| - 1];
      assert (a + b)[..|a + b| - 1] == a + b0;
      WorkConcat(a, b0);
    }
  }

  lemma WorkOne(s: Slot)
    ensures Work([s]) == Weight(s)
  {
    assert [s][..0] == [];
  }

  /** A slot's share of the work. */
  lemma WorkSplit(q: seq<Slot>, i: nat)
    requires i < |q|
    ensures Work(q) == Work(Without(q, i)) + Weight(q[i])
    ensures forall s :: Work(q[i := s]) == Work(Without(q, i)) + Weight(s)
  {
    hide Work, Weight;
    WorkConcat(q[..i], q[i + 1..]);
    forall s ensures Work(q[i := s]) == Work(Without(q, i)) + Weight(s) {
      WorkParts(q[..i], s, q[i + 1..]);
      assert q[i := s] == q[..i] + [s] + q[i + 1..];
    }
    assert q[i := q[i]] == q;
  }

  lemma WorkParts(a: seq<Slot>, s: Slot, b: seq<Slot>)
    ensures Work(a + [s] + b) == Work(a) + Weight(s) + Work(b)
  {
    WorkConcat(a + [s], b);
    WorkConcat(a, [s]);
    WorkOne(s);
    hide Work, Weight;
  }

  /** Sending from a queue does at least one transmission's work. */
  lemma TakingWorks(q: Queues, i: nat, now: nat)
    ensures i < |q.high| ==> Measure(TakeHigh(q, i, now)) < Measure(q)
    ensures i < |q.low| ==> Measure(TakeLow(q, i, now)) < Measure(q)
  {
    if i < |q.high| {
      var s := q.high[i];
      WorkSplit(q.high, i);
      TurnedOffWeighsLess(s, now);
      WorkConcat([TurnedOff(s, now)], Without(q.high, i));
      hide Work, Weight, TurnedOff;
    }
    if i < |q.low| {
      var s := q.low[i];
      WorkSplit(q.low, i);
      TurnedOffWeighsLess(s, now);
      WorkConcat([TurnedOff(s, now)], q.high);
      hide Work, Weight, TurnedOff;
    }
  }

  lemma TurnedOffWeighsLess(s: Slot, now: nat)
    ensures Weight(s) > 0
    ensures Stays(s) ==> Weight(OneLess(s)) < Weight(s)
    ensures s.kind == AccOn ==> Work([TurnedOff(s, now)]) < Weight(s)
  {
    WorkOne(TurnedOff(s, now));
  }

  predicate Expired(q: seq<Slot>, now: nat) {
    forall s :: s in q ==> !s.Delayed(now)
  }

  predicate Empty(q: Queues) {
    q.high == [] && q.low == []
  }

  /** A forced call either works, or sends an idle packet and leaves only the spacing rule cleared. */
  lemma ForcedCall(q: Queues, now: nat)
    ensures var (q', e) := Next(q, true, now);
            || Measure(q') < Measure(q)
            || (q' == q.(lastSent := 0) && e == Some(Idle))
    ensures q.lastSent == 0 && Expired(q.high, now) && Expired(q.low, now) && !Empty(q) ==>
              Measure(Next(q, true, now).0) < Measure(q)
  {
    var i, j := FirstReady(q.high, q.lastSent, now), FirstReady(q.low, q.lastSent, now);
    TakingWorks(q, i, now);
    TakingWorks(q, j, now);
    hide Measure, TakeHigh, TakeLow, FirstReady;
    if q.lastSent == 0 && Expired(q.high, now) && Expired(q.low, now) && !Empty(q) {
      if q.high != [] {
        assert q.high[0] in q.high && !Waits(q.high[0], 0, now);
      } else {
        assert q.low[0] in q.low && !Waits(q.low[0], 0, now);
      }
    }
  }

  /** A pass of the main loop without reminders: it asks for a packet, and if there is none demands one. */
  function Pass(q: Queues, now: nat): (Queues, Option<Emission>) {
    var (q', e) := Next(q, false, now);
    if e.None? then Next(q', true, now) else (q', e)
  }

  lemma PassIsForced(q: Queues, now: nat)
    ensures Pass(q, now) == Next(q, true, now)
  {
    hide TakeHigh, TakeLow, FirstReady;
  }

  // ---------------------------------------------------------------- whole runs of the main loop

  /** The queues after the main loop has run at these times, with no requests. */
  function After(q: Queues, times: seq<nat>): Queues {
    if times == [] then q else Pass(After(q, times[..|times| - 1]), times[|times| - 1]).0
  }

  /** Every coil-off is due by t, and every coil-on asks for a delay of at most d. */
  predicate DueBy(q: seq<Slot>, d: nat, t: nat) {
    forall s :: s in q ==> (s.kind == AccOff ==> s.word <= t) && (s.kind == AccOn ==> s.Tag() <= d)
  }

  predicate Due(q: Queues, d: nat, t: nat) {
    DueBy(q.high, d, t) && DueBy(q.low, d, t)
  }

  lemma DueLater(q: seq<Slot>, d: nat, t: nat, t': nat)
    requires DueBy(q, d, t) && t <= t'
    ensures DueBy(q, d, t') && Expired(q, t')
  {
  }

  lemma StaysDue(q: seq<Slot>, d: nat, t: nat, i: nat)
    requires DueBy(q, d, t) && i < |q|
    ensures DueBy(Without(q, i), d, t)
    ensures Stays(q[i]) ==> DueBy(q[i := OneLess(q[i])], d, t)
  {
    assert q[i] in q;
    if Stays(q[i]) {
      var s' := OneLess(q[i]);
      forall s | s in q[i := s'] ensures (s.kind == AccOff ==> s.word <= t) && (s.kind == AccOn ==> s.Tag() <= d) {
        assert s == s' || s in q;
      }
    }
  }

  lemma TurnedOffIsDue(s: Slot, q: seq<Slot>, d: nat, now: nat, t: nat)
    requires DueBy(q, d, t) && s.Tag() <= d && now + d <= t && now + d < WORD
    ensures DueBy([TurnedOff(s, now)] + q, d, t)
  {
    var w := now + s.Tag();
    assert w % WORD == w;
    hide TurnedOff;
    assert TurnedOff(s, now).kind == AccOff && TurnedOff(s, now).word == w by { TurnedOffIs(s, now); }
  }

  lemma TurnedOffIs(s: Slot, now: nat)
    ensures TurnedOff(s, now).kind == AccOff && TurnedOff(s, now).word == (now + s.Tag()) % WORD
  {
  }

  /** A pass adds a coil-off that is due d later at the latest. */
  lemma PassStaysDue(q: Queues, d: nat, now: nat, t: nat)
    requires Due(q, d, t) && now + d <= t && now + d < WORD
    ensures Due(Pass(q, now).0, d, t)
  {
    PassIsForced(q, now);
    var i, j := FirstReady(q.high, q.lastSent, now), FirstReady(q.low, q.lastSent, now);
    hide FirstReady, DueBy, TurnedOff, Pass;
    if i < |q.high| {
      StaysDue(q.high, d, t, i);
      CoilOnIsBrief(q.high, d, t, i);
      if q.high[i].kind == AccOn {
        TurnedOffIsDue(q.high[i], Without(q.high, i), d, now, t);
      }
    } else if j < |q.low| {
      StaysDue(q.low, d, t, j);
      CoilOnIsBrief(q.low, d, t, j);
      if q.low[j].kind == AccOn {
        TurnedOffIsDue(q.low[j], q.high, d, now, t);
      }
    }
  }

  lemma CoilOnIsBrief(q: seq<Slot>, d: nat, t: nat, i: nat)
    requires DueBy(q, d, t) && i < |q|
    ensures q[i].kind == AccOn ==> q[i].Tag() <= d
  {
    assert q[i] in q;
  }

  /** Times that do not run backwards, and stay clear of the end of the clock. */
  predicate Ordered(times: seq<nat>, d: nat) {
    && (forall i, j :: 0 <= i <= j < |times| ==> times[i] <= times[j])
    && (forall i :: 0 <= i < |times| ==> times[i] + d < WORD)
  }

  /** Without requests the work never grows, whenever the main loop runs. */
  lemma {:induction false} NeverRises(q: Queues, times: seq<nat>)
    ensures Measure(After(q, times)) <= Measure(q)
  {
    if times != [] {
      var n := |times| - 1;
      NeverRises(q, times[..n]);
      var q' := After(q, times[..n]);
      PassIsForced(q', times[n]);
      ForcedCall(q', times[n]);
      hide Next, Pass, Work;
    }
  }

  lemma {:induction false} StaysDueThrough(q: Queues, d: nat, times: seq<nat>, t: nat)
    requires Due(q, d, t) && Ordered(times, d) && (times != [] ==> times[|times| - 1] + d <= t)
    ensures Due(After(q, times), d, t)
  {
    hide Due, Pass;
    if times != [] {
      var n := |times| - 1;
      StaysDueThrough(q, d, times[..n], t);
      PassStaysDue(After(q, times[..n]), d, times[n], t);
    }
  }

  /** Once every coil-off queued is due, one of the next two passes works. */
  lemma EverySecondCallWorks(q: Queues, d: nat, now: nat, later: nat)
    requires Due(q, d, now) && now <= later && !Empty(q)
    ensures Measure(After(q, [now, later])) < Measure(q)
  {
    var q1 := Next(q, true, now).0;
    assert [now, later][..1] == [now] && [now][..0] == [];
    PassIsForced(q, now);
    PassIsForced(q1, later);
    hide Pass;
    assert After(q, [now]) == q1;
    ForcedCall(q, now);
    ForcedCall(q1, later);
    DueLater(q.high, d, now, later);
    DueLater(q.low, d, now, later);
    hide Next, Measure, DueBy, Expired;
  }

  lemma {:induction false} AfterConcat(q: Queues, a: seq<nat>, b: seq<nat>)
    ensures After(q, a + b) == After(After(q, a), b)
    decreases |b|
  {
    hide Pass;
    if b == [] {
      assert a + b == a;
    } else {
      assert (a + b)[..|a + b| - 1] == a + b[..|b| - 1];
      AfterConcat(q, a, b[..|b| - 1]);
    }
  }

  lemma {:induction false} StaysEmpty(q: Queues, times: seq<nat>)
    requires Empty(q)
    ensures Empty(After(q, times))
  {
    if times != [] {
      StaysEmpty(q, times[..|times| - 1]);
    }
  }

  // ---------------------------------------------------------------- how long it takes

  /** Passes at most g apart. */
  predicate Frequent(times: seq<nat>, g: nat) {
    forall i :: 0 < i < |times| ==> times[i] <= times[i - 1] + g
  }

  /** The first pass that is not before t. */
  function FirstFrom(times: seq<nat>, t: nat): (k: nat)
    ensures k <= |times|
    ensures k < |times| ==> times[k] >= t
    ensures forall i :: 0 <= i < k ==> times[i] < t
  {
    if times == [] || times[0] >= t then 0
    else
      assert forall i :: 1 <= i < |times| ==> times[i] == times[1..][i - 1];
      1 + FirstFrom(times[1..], t)
  }

  /** The two passes that do some of the work come at most two gaps after everything is due. */
  lemma TwoPasses(times: seq<nat>, d: nat, t: nat, g: nat) returns (k: nat)
    requires Ordered(times, d) && Frequent(times, g) && g > 0 && times != []
    requires times[0] <= t + g && times[|times| - 1] >= t + 2 * g
    ensures k + 1 < |times| && t <= times[k] <= times[k + 1] <= t + 2 * g
  {
    k := FirstFrom(times, t);
    assert k > 0 ==> times[k - 1] < t;
    assert times[k] <= t + g;
  }

  lemma TimesTail(times: seq<nat>, k: nat, d: nat, g: nat)
    requires Ordered(times, d) && Frequent(times, g) && k <= |times|
    ensures Ordered(times[..k], d) && Ordered(times[k..], d) && Frequent(times[k..], g)
  {
    var rest := times[k..];
    forall i | 0 < i < |rest| ensures rest[i] <= rest[i - 1] + g {
      assert rest[i] == times[k + i] && rest[i - 1] == times[k + i - 1];
    }
  }

  /** Passes that do none of the work leave the queues as they are. */
  lemma {:induction false} NothingDone(q: Queues, times: seq<nat>)
    requires Measure(After(q, times)) == Measure(q)
    ensures After(q, times).high == q.high && After(q, times).low == q.low
  {
    if times != [] {
      var n := |times| - 1;
      var q' := After(q, times[..n]);
      NeverRises(q, times[..n]);
      PassIsForced(q', times[n]);
      ForcedCall(q', times[n]);
      hide Next, Pass, Work;
      NothingDone(q, times[..n]);
    }
  }

  /** Whatever the passes before them did, by the second pass from t on some of the work is done. */
  lemma WorkDone(q: Queues, d: nat, t: nat, times: seq<nat>, k: nat)
    requires Due(q, d, t) && Ordered(times, d) && k + 1 < |times| && t <= times[k] && !Empty(q)
    ensures Measure(After(q, times[..k + 2])) < Measure(q)
  {
    hide Measure, DueBy, After;
    var q1 := After(q, times[..k]);
    var two := [times[k], times[k + 1]];
    assert times[..k + 2] == times[..k] + two;
    AfterConcat(q, times[..k], two);
    NeverRises(q, times[..k]);
    if Measure(q1) == Measure(q) {
      NothingDone(q, times[..k]);
      DueLater(q.high, d, t, times[k]);
      DueLater(q.low, d, t, times[k]);
      EverySecondCallWorks(q1, d, times[k], times[k + 1]);
    } else {
      NeverRises(q1, two);
    }
  }

  lemma WorkLeft(q: Queues)
    requires !Empty(q)
    ensures Measure(q) >= 1
  {
  }

  lemma Less(n: nat, n': nat, x: nat)
    requires n' < n
    ensures (n' + 1) * x == n' * x + x && (n' + 1) * x <= n * x
  {
  }

  /** Whatever is queued and whenever the main loop runs, at least every g: both queues are empty when as
      many times the longest coil delay and two gaps have passed, after the last coil-off queued is
      due, as there is work. */
  lemma {:induction false} Drains(q: Queues, d: nat, t: nat, g: nat, times: seq<nat>)
    requires Due(q, d, t) && Ordered(times, d) && Frequent(times, g) && g > 0 && times != []
    requires times[0] <= t + g && times[|times| - 1] >= t + Measure(q) * (d + 2 * g)
    ensures Empty(After(q, times))
    decreases Measure(q)
  {
    hide Measure, DueBy, After, Ordered, Frequent;
    if Empty(q) {
      StaysEmpty(q, times);
    } else {
      var n, x := Measure(q), d + 2 * g;
      WorkLeft(q);
      Less(n, n - 1, x);
      var k := TwoPasses(times, d, t, g);
      var done, rest := times[..k + 2], times[k + 2..];
      assert times == done + rest;
      AfterConcat(q, done, rest);
      WorkDone(q, d, t, times, k);
      TimesTail(times, k + 2, d, g);
      var q2, t' := After(q, done), if times[k + 1] + d > t then times[k + 1] + d else t;
      StaysDueUntil(q, d, t, t', times, k + 2);
      Less(n, Measure(q2), x);
      if Empty(q2) {
        StaysEmpty(q2, rest);
      } else {
        WorkLeft(q2);
        Less(Measure(q2), 0, x);
        NextGap(times, k + 2, d, g);
        Drains(q2, d, t', g, rest);
      }
    }
  }

  lemma StaysDueUntil(q: Queues, d: nat, t: nat, t': nat, times: seq<nat>, k: nat)
    requires Due(q, d, t) && t <= t' && Ordered(times, d) && 0 < k <= |times| && times[k - 1] + d <= t'
    ensures Due(After(q, times[..k]), d, t')
  {
    DueLater(q.high, d, t, t');
    DueLater(q.low, d, t, t');
    hide DueBy, After;
    StaysDueThrough(q, d, times[..k], t');
  }

  lemma NextGap(times: seq<nat>, k: nat, d: nat, g: nat)
    requires Ordered(times, d) && Frequent(times, g) && 0 < k < |times|
    ensures times[k..][0] <= times[k - 1] + g
  {
  }
}
