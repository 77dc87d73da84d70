/** The acknowledgement detector: current samples taken at interrupt time, and what counts as a pulse. */
module AckPulse {

  /** A sample: its time in microseconds, whether the current is above the threshold, and whether more
      than six resets have been sent since the packet. */
  datatype Sample = Sample(at: nat, high: bool, late: bool)

  datatype Limits = Limits(min: nat, max: nat)

  predicate Within(duration: int, l: Limits) {
    duration >= l.min && (duration <= l.max || l.max == 0)
  }

  datatype Detector = Detector(pending: bool, detected: bool, pulseStart: nat, duration: int, trailing: nat)

  /** setAckPending: all but the trailing edge counter is reset. */
  function Reset(trailing: nat): Detector {
    Detector(true, false, 0, 0, trailing)
  }

  /** checkAck. */
  function Check(d: Detector, s: Sample, l: Limits): Detector {
    if !d.pending then d
    else if s.late then d.(pending := false)
    else if s.high then
      d.(trailing := 0, pulseStart := if d.pulseStart == 0 then s.at else d.pulseStart)
    else if d.pulseStart == 0 then d
    else
      var d1 := if d.trailing == 0 then d.(duration := s.at - d.pulseStart) else d;
      if d1.trailing < 2 then d1.(trailing := d1.trailing + 1)
      else if Within(d1.duration, l) then d1.(trailing := 0, detected := true, pending := false)
      else d1.(trailing := 0, pulseStart := 0)
  }

  function CheckAll(d: Detector, s: seq<Sample>, l: Limits): Detector {
    if s == [] then d else Check(CheckAll(d, s[..|s| - 1], l), s[|s| - 1], l)
  }

  // ---------------------------------------------------------------- what a pulse is

  /** Three consecutive low samples, the first at j. */
  predicate TripleLow(s: seq<Sample>, j: int) {
    0 <= j && j + 2 < |s| && !s[j].high && !s[j + 1].high && !s[j + 2].high
  }

  /** The first high sample, or the first after three low ones. */
  predicate Leading(s: seq<Sample>, i: int) {
    0 <= i < |s| && s[i].high && ((forall k :: 0 <= k < i ==> !s[k].high) || TripleLow(s, i - 3))
  }

  /** From a leading edge to the first of the first three low samples behind it. */
  predicate Pulse(s: seq<Sample>, i: int, j: int) {
    Leading(s, i) && i < j && TripleLow(s, j) && forall k :: i < k < j ==> !TripleLow(s, k)
  }

  /** A pulse whose length is within the limits. */
  ghost predicate Acknowledged(s: seq<Sample>, l: Limits) {
    exists i, j :: Pulse(s, i, j) && Within(s[j].at - s[i].at, l)
  }

  /** The samples before the window closed. */
  function InTime(s: seq<Sample>): seq<Sample> {
    if s == [] then []
    else
      var front := InTime(s[..|s| - 1]);
      if |front| == |s| - 1 && !s[|s| - 1].late then s else front
  }

  // ---------------------------------------------------------------- proof

  /** Low samples at the end. */
  function LowRun(s: seq<Sample>): (n: nat)
    ensures n <= |s|
  {
    if s == [] || s[|s| - 1].high then 0 else 1 + LowRun(s[..|s| - 1])
  }

  lemma LowRunIs(s: seq<Sample>)
    ensures var n := LowRun(s);
            (forall k :: |s| - n <= k < |s| ==> !s[k].high) && (n < |s| ==> s[|s| - n - 1].high)
  {
  }

  /** The leading edge of a pulse that has not ended; -1 if there is none. */
  function Open(s: seq<Sample>): (i: int)
    ensures -1 <= i < |s|
  {
    if s == [] then -1
    else
      var i := Open(s[..|s| - 1]);
      if s[|s| - 1].high then (if i == -1 then |s| - 1 else i)
      else if LowRun(s) >= 3 then -1
      else i
  }

  /** No three low samples between an open pulse's edge and the end. */
  ghost predicate Unbroken(s: seq<Sample>, i: int) {
    forall k :: i < k < |s| ==> !TripleLow(s, k)
  }

  lemma UnbrokenNext(t: seq<Sample>, x: Sample, i: int)
    requires 0 <= i && Unbroken(t, i) && (x.high || LowRun(t) < 2)
    ensures Unbroken(t + [x], i)
  {
    LowRunIs(t);
    var s := t + [x];
    forall k | i < k < |s| ensures !TripleLow(s, k) {
      assert TripleLow(s, k) && k + 2 < |t| ==> TripleLow(t, k);
    }
  }

  lemma {:induction false} OpenIs(s: seq<Sample>)
    ensures Open(s) >= 0 ==> Leading(s, Open(s)) && LowRun(s) < 3 && Unbroken(s, Open(s))
    ensures Open(s) == -1 ==> LowRun(s) >= 3 || LowRun(s) == |s|
    decreases |s|
  {
    if s != [] {
      var n := |s| - 1;
      var t := s[..n];
      assert s == t + [s[n]];
      OpenIs(t);
      OpenNext(t, s[n]);
      LowRunIs(t);
      var i := Open(s);
      if Open(t) == -1 && s[n].high {
        assert LowRun(t) < n ==> TripleLow(s, n - 3);
        assert Leading(s, n);
      } else if i >= 0 {
        hide Open, LowRun, TripleLow;
        LeadingKept(t, s[n], i);
        UnbrokenNext(t, s[n], i);
      }
    }
  }

  lemma LeadingKept(t: seq<Sample>, x: Sample, i: int)
    requires 0 <= i < |t|
    ensures Leading(t + [x], i) <==> Leading(t, i)
    ensures t + [x] == (t + [x])[..|t|] + [x] && (t + [x])[..|t|] == t
  {
    var s := t + [x];
    assert forall k :: 0 <= k < |t| ==> s[k] == t[k];
  }

  lemma PulseKept(t: seq<Sample>, x: Sample, i: int, j: int)
    ensures Pulse(t, i, j) ==> Pulse(t + [x], i, j)
    ensures Pulse(t + [x], i, j) && j + 2 < |t| ==> Pulse(t, i, j)
  {
    var s := t + [x];
    assert forall k :: 0 <= k < |t| ==> s[k] == t[k];
    assert forall k :: k + 2 < |t| ==> (TripleLow(s, k) <==> TripleLow(t, k));
    if 0 <= i < |t| {
      LeadingKept(t, x, i);
    }
    hide Leading, TripleLow;
  }

  /** A pulse that the last sample completes: it is the open one, and the third low sample. */
  lemma NewPulse(t: seq<Sample>, x: Sample, i: int, j: int)
    requires Pulse(t + [x], i, j) && j + 2 >= |t|
    ensures !x.high && LowRun(t) == 2 && i == Open(t) && j == |t| - 2
  {
    var s := t + [x];
    EndsInThree(t, x, i, j);
    OpenIs(t);
    hide Open, LowRun;
    var o := Open(t);
    assert s[i] == t[i];
    LeadingKept(t, x, o);
    UnbrokenBefore(t, x, o, j);
    SameEdge(s, i, o, j);
  }

  lemma EndsInThree(t: seq<Sample>, x: Sample, i: int, j: int)
    requires Pulse(t + [x], i, j) && j + 2 >= |t|
    ensures !x.high && LowRun(t) == 2 && j == |t| - 2 && 0 <= i < j && t[i].high && |t| > 2
  {
    var s := t + [x];
    assert forall k :: 0 <= k < |t| ==> s[k] == t[k];
    LowRunIs(t);
    assert LowRun(t) > 2 ==> TripleLow(s, j - 1);
  }

  lemma UnbrokenBefore(t: seq<Sample>, x: Sample, o: int, j: int)
    requires 0 <= o && Unbroken(t, o) && j == |t| - 2
    ensures forall k :: o < k < j ==> !TripleLow(t + [x], k)
  {
    var s := t + [x];
    forall k | o < k < j ensures !TripleLow(s, k) {
      assert TripleLow(s, k) ==> TripleLow(t, k);
    }
  }

  /** Behind a leading edge there is no other before three low samples. */
  lemma NoSecondEdge(s: seq<Sample>, i: int, o: int, j: int)
    requires Leading(s, i) && i < o < j && forall k :: i < k < j ==> !TripleLow(s, k)
    ensures !Leading(s, o)
  {
    assert TripleLow(s, o - 3) ==> o - 3 > i;
  }

  /** Two leading edges of which neither is separated from j by three low samples are one. */
  lemma SameEdge(s: seq<Sample>, i: int, o: int, j: int)
    requires Leading(s, i) && Leading(s, o) && i < j && o < j
    requires (forall k :: i < k < j ==> !TripleLow(s, k)) && (forall k :: o < k < j ==> !TripleLow(s, k))
    ensures i == o
  {
    if i < o {
      NoSecondEdge(s, i, o, j);
    } else if o < i {
      NoSecondEdge(s, o, i, j);
    }
  }

  /** Positive times, not running backwards. */
  predicate InOrder(s: seq<Sample>) {
    (forall i :: 0 <= i < |s| ==> s[i].at > 0) && forall i, j :: 0 <= i < j < |s| ==> s[i].at <= s[j].at
  }

  /** The detector's registers, in terms of the samples. */
  ghost predicate Tracks(d: Detector, s: seq<Sample>, l: Limits) {
    if Acknowledged(s, l) then d.detected && !d.pending
    else
      && d.pending && !d.detected
      && var i := Open(s);
         if i == -1 then d.pulseStart == 0
         else
           && d.pulseStart == s[i].at && d.trailing == LowRun(s)
           && (LowRun(s) > 0 ==> d.duration == s[|s| - LowRun(s)].at - s[i].at)
  }

  lemma CheckTracks(d: Detector, t: seq<Sample>, x: Sample, l: Limits)
    requires Tracks(d, t, l) && !x.late && x.at > 0 && InOrder(t)
    ensures Tracks(Check(d, x, l), t + [x], l)
  {
    var s := t + [x];
    assert s[..|t|] == t;
    if Acknowledged(t, l) {
      var i, j :| Pulse(t, i, j) && Within(t[j].at - t[i].at, l);
      PulseKept(t, x, i, j);
      assert Pulse(s, i, j) && Within(s[j].at - s[i].at, l);
    } else {
      CheckUnacknowledged(d, t, x, l);
    }
  }

  lemma Completes(t: seq<Sample>, x: Sample)
    requires !x.high && Open(t) >= 0 && LowRun(t) == 2
    ensures Pulse(t + [x], Open(t), |t| - 2)
  {
    var s, i := t + [x], Open(t);
    OpenIs(t);
    LowRunIs(t);
    LeadingKept(t, x, i);
    UnbrokenBefore(t, x, i, |t| - 2);
    assert TripleLow(s, |t| - 2);
    assert t[i].high && i < |t| - 2;
  }

  /** The sample that completes a pulse of the right length. */
  predicate Completing(t: seq<Sample>, x: Sample, l: Limits) {
    !x.high && LowRun(t) == 2 && Open(t) >= 0 && Within(t[|t| - 2].at - t[Open(t)].at, l)
  }

  lemma OldOrNew(t: seq<Sample>, x: Sample, i: int, j: int, l: Limits)
    requires !Acknowledged(t, l) && Pulse(t + [x], i, j) && Within((t + [x])[j].at - (t + [x])[i].at, l)
    ensures Completing(t, x, l)
  {
    var s := t + [x];
    PulseInside(s, i, j);
    hide Pulse, LowRun, Open, Within;
    assert s[j] == t[j] && s[i] == t[i];
    if j + 2 < |t| {
      PulseKept(t, x, i, j);
    } else {
      NewPulse(t, x, i, j);
    }
  }

  lemma NoOldPulse(t: seq<Sample>, x: Sample, l: Limits)
    requires !Acknowledged(t, l)
    ensures Acknowledged(t + [x], l) <==> Completing(t, x, l)
  {
    var s := t + [x];
    if Acknowledged(s, l) {
      hide Pulse, Completing, Within;
      var i, j :| Pulse(s, i, j) && Within(s[j].at - s[i].at, l);
      OldOrNew(t, x, i, j, l);
    }
    if Completing(t, x, l) {
      CompletesAck(t, x, l);
      hide Acknowledged, Completing;
    }
  }

  lemma CompletesAck(t: seq<Sample>, x: Sample, l: Limits)
    requires Completing(t, x, l)
    ensures Acknowledged(t + [x], l)
  {
    var s, i, j := t + [x], Open(t), |t| - 2;
    Completes(t, x);
    hide Pulse, LowRun, Open, Within;
    assert s[i] == t[i] && s[j] == t[j];
  }

  lemma PulseInside(s: seq<Sample>, i: int, j: int)
    requires Pulse(s, i, j)
    ensures 0 <= i < j && j + 2 < |s|
  {
  }

  lemma CheckUnacknowledged(d: Detector, t: seq<Sample>, x: Sample, l: Limits)
    requires !Acknowledged(t, l) && Tracks(d, t, l) && !x.late && x.at > 0 && InOrder(t)
    ensures Tracks(Check(d, x, l), t + [x], l)
  {
    hide Check, Tracks, Acknowledged;
    if x.high {
      CheckHigh(d, t, x, l);
    } else if Open(t) == -1 {
      CheckQuiet(d, t, x, l);
    } else {
      CheckTrailing(d, t, x, l);
    }
  }

  lemma CheckHigh(d: Detector, t: seq<Sample>, x: Sample, l: Limits)
    requires !Acknowledged(t, l) && Tracks(d, t, l) && !x.late && x.at > 0 && InOrder(t) && x.high
    ensures Tracks(Check(d, x, l), t + [x], l)
  {
    var s, i := t + [x], Open(t);
    NoOldPulse(t, x, l);
    OpenNext(t, x);
    hide Open, LowRun, Acknowledged, Within;
    if i >= 0 {
      assert s[i] == t[i] && t[i].at > 0;
    }
  }

  lemma CheckQuiet(d: Detector, t: seq<Sample>, x: Sample, l: Limits)
    requires !Acknowledged(t, l) && Tracks(d, t, l) && !x.late && !x.high && Open(t) == -1
    ensures Tracks(Check(d, x, l), t + [x], l)
  {
    NoOldPulse(t, x, l);
    OpenNext(t, x);
    hide Open, LowRun, Acknowledged, Within;
  }

  /** In an open pulse: where it began, and how many low samples it has ended in so far. */
  predicate Ending(d: Detector, s: seq<Sample>, i: int, n: nat)
    requires 0 <= i < |s| && n <= |s|
  {
    d.pulseStart == s[i].at && d.trailing == n && (n > 0 ==> d.duration == s[|s| - n].at - s[i].at)
  }

  lemma TracksOpen(d: Detector, s: seq<Sample>, l: Limits)
    requires !Acknowledged(s, l) && Open(s) >= 0
    ensures Tracks(d, s, l) <==> d.pending && !d.detected && Ending(d, s, Open(s), LowRun(s))
  {
    hide Acknowledged, Open, LowRun;
  }

  lemma TracksClosed(d: Detector, s: seq<Sample>, l: Limits)
    requires !Acknowledged(s, l) && Open(s) == -1
    ensures Tracks(d, s, l) <==> d.pending && !d.detected && d.pulseStart == 0
  {
    hide Acknowledged, Open, LowRun;
  }

  lemma TracksAcknowledged(d: Detector, s: seq<Sample>, l: Limits)
    requires Acknowledged(s, l)
    ensures Tracks(d, s, l) <==> d.detected && !d.pending
  {
    hide Acknowledged, Open, LowRun;
  }

  lemma CheckTrailing(d: Detector, t: seq<Sample>, x: Sample, l: Limits)
    requires !Acknowledged(t, l) && Tracks(d, t, l) && !x.late && InOrder(t) && !x.high && Open(t) >= 0
    ensures Tracks(Check(d, x, l), t + [x], l)
  {
    var s, i, n, d' := t + [x], Open(t), LowRun(t), Check(d, x, l);
    NoOldPulse(t, x, l);
    OpenIs(t);
    OpenNext(t, x);
    TracksOpen(d, t, l);
    assert t[i].at > 0;
    hide Tracks, Open, LowRun, Acknowledged, Unbroken, Leading, Check, Within, InOrder, Ending;
    if n < 2 {
      StillEnding(d, t, x, i, n, l);
      TracksOpen(d', s, l);
    } else {
      PulseOver(d, t, x, i, l);
      if Acknowledged(s, l) {
        TracksAcknowledged(d', s, l);
      } else {
        TracksClosed(d', s, l);
      }
    }
  }

  lemma StillEnding(d: Detector, t: seq<Sample>, x: Sample, i: int, n: nat, l: Limits)
    requires 0 <= i < |t| && n <= |t| && n < 2 && t[i].at > 0 && d.pending && Ending(d, t, i, n) && !x.late && !x.high
    ensures var d' := Check(d, x, l);
            Ending(d', t + [x], i, n + 1) && d' == d.(duration := d'.duration, trailing := n + 1)
  {
    assert (t + [x])[i] == t[i];
    assert n > 0 ==> (t + [x])[|t| - n] == t[|t| - n];
    hide Within;
  }

  lemma PulseOver(d: Detector, t: seq<Sample>, x: Sample, i: int, l: Limits)
    requires 0 <= i < |t| && |t| >= 2 && t[i].at > 0 && d.pending && Ending(d, t, i, 2) && !x.late && !x.high
    ensures Check(d, x, l) ==
              if Within(t[|t| - 2].at - t[i].at, l) then d.(trailing := 0, detected := true, pending := false)
              else d.(trailing := 0, pulseStart := 0)
  {
    hide Within;
  }

  lemma OpenNext(t: seq<Sample>, x: Sample)
    ensures var s := t + [x];
            && LowRun(s) == (if x.high then 0 else 1 + LowRun(t))
            && Open(s) == if x.high then (if Open(t) == -1 then |t| else Open(t)) else if LowRun(s) >= 3 then -1 else Open(t)
  {
    assert (t + [x])[..|t|] == t;
  }

  lemma InTimeIs(s: seq<Sample>)
    ensures |InTime(s)| <= |s| && InTime(s) == s[..|InTime(s)|]
    ensures forall i :: 0 <= i < |InTime(s)| ==> !s[i].late
    ensures |InTime(s)| < |s| ==> s[|InTime(s)|].late
  {
  }

  lemma {:induction false} Detects(trailing: nat, s: seq<Sample>, l: Limits)
    requires InOrder(s) && trailing <= 2
    ensures var d := CheckAll(Reset(trailing), s, l);
            && (d.detected <==> Acknowledged(InTime(s), l))
            && (|InTime(s)| == |s| ==> Tracks(d, s, l))
            && (|InTime(s)| < |s| ==> !d.pending)
    decreases |s|
  {
    if s == [] {
      assert !Acknowledged([], l);
    } else {
      var n := |s| - 1;
      var t, x := s[..n], s[n];
      assert s == t + [x];
      Detects(trailing, t, l);
      InTimeIs(t);
      if |InTime(t)| == n {
        assert InTime(t) == t;
        if !x.late {
          CheckTracks(CheckAll(Reset(trailing), t, l), t, x, l);
        }
      }
      hide Acknowledged, Open, LowRun;
    }
  }

  /** An acknowledgement is reported exactly if, before the window closed, there was a pulse within the
      limits, measured from its first high sample to the first of three low ones; whatever was left in
      the trailing edge counter. */
  lemma AckMeansPulse(trailing: nat, s: seq<Sample>, l: Limits)
    requires InOrder(s) && trailing <= 2
    ensures var d, t := CheckAll(Reset(trailing), s, l), InTime(s);
            && (d.detected <==> exists i, j :: Pulse(t, i, j) && l.min <= t[j].at - t[i].at && (l.max == 0 || t[j].at - t[i].at <= l.max))
            && (|t| < |s| ==> !d.pending)
  {
    Detects(trailing, s, l);
    hide CheckAll, InTime, Pulse;
  }

  // ---------------------------------------------------------------- the interrupt routine

  class AckDetector {
    var ackPending: bool
    var ackDetected: bool
    var ackPulseStart: nat
    var ackPulseDuration: int
    var trailingEdgeCounter: nat
    const limits: Limits

    constructor (limits: Limits)
      ensures View() == Detector(false, false, 0, 0, 0) && this.limits == limits
    {
      this.limits := limits;
      ackPending, ackDetected, ackPulseStart, ackPulseDuration, trailingEdgeCounter := false, false, 0, 0, 0;
    }

    function View(): Detector
      reads this
    {
      Detector(ackPending, ackDetected, ackPulseStart, ackPulseDuration, trailingEdgeCounter)
    }

    method SetAckPending()
      modifies this
      ensures View() == Reset(old(trailingEdgeCounter))
    {
      ackPulseStart := 0;
      ackPulseDuration := 0;
      ackDetected := false;
      ackPending := true;
    }

    method CheckAck(s: Sample)
      modifies this
      ensures View() == Check(old(View()), s, limits)
    {
      if !ackPending {
        return;
      }
      if s.late {
        ackPending := false;
        return;
      }
      if s.high {
        if trailingEdgeCounter > 0 {
          trailingEdgeCounter := 0;
        }
        if ackPulseStart == 0 {
          ackPulseStart := s.at;
        }
        return;
      }
      if ackPulseStart == 0 {
        return;
      }
      if trailingEdgeCounter == 0 {
        ackPulseDuration := s.at - ackPulseStart;
      }
      if trailingEdgeCounter < 2 {
        trailingEdgeCounter := trailingEdgeCounter + 1;
        return;
      }
      trailingEdgeCounter := 0;
      if ackPulseDuration >= limits.min && (ackPulseDuration <= limits.max || limits.max == 0) {
        ackDetected := true;
        ackPending := false;
        return;
      }
      ackPulseStart := 0;
    }
  }
}
