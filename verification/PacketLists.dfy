/** The packet scheduler's storage: two singly linked queues and a recycle list whose slots are
    relinked and overwritten in place.  Every operation does to the queues what PacketQueue says,
    and no slot is ever lost, shared or left on two lists. */
module PacketLists {
  import opened DccFraming
  import opened PacketQueue

  class PendingSlot {
    var next: PendingSlot?
    var kind: Kind
    var length: nat
    var repeats: nat
    var packet: Packet  // always MAX_PACKET_SIZE bytes
    var word: nat       // locoId, delayOff or startTime

    constructor ()
      ensures |packet| == MAX_PACKET_SIZE
    {
      next, kind, length, repeats, packet, word := null, Normal, 0, 0, [0, 0, 0, 0, 0], 0;
    }

    function Value(): Slot
      reads this`kind, this`length, this`repeats, this`packet, this`word
    {
      Slot(kind, length, repeats, if length <= |packet| then packet[..length] else packet, word)
    }

    /** Still delayed, or for the loco just sent to. */
    predicate MustWait(lastSent: nat, now: nat)
      reads this
      ensures MustWait(lastSent, now) == Waits(Value(), lastSent, now)
    {
      (kind == AccOff && now < word) || (word % HALF_WORD != 0 && word % HALF_WORD == lastSent)
    }

    /** memcpy to the front of the packet. */
    method Fill(bytes: Packet)
      requires |bytes| <= |packet|
      modifies this`packet
      ensures |packet| == old(|packet|) && packet[..|bytes|] == bytes
    {
      packet := bytes + packet[|bytes|..];
    }

    method Refill(bytes: Packet, repeats: nat)
      requires |bytes| <= |packet|
      modifies this`packet, this`length, this`repeats
      ensures Value() == Refilled(old(Value()), bytes, repeats) && |packet| == old(|packet|)
    {
      Fill(bytes);
      this.length := |bytes|;
      this.repeats := repeats;
    }

    /** A coil-on becomes its delayed coil-off. */
    method TurnOff(now: nat)
      requires |packet| == MAX_PACKET_SIZE
      modifies this
      ensures Value() == TurnedOff(old(Value()), now) && |packet| == MAX_PACKET_SIZE
    {
      kind := AccOff;
      packet := packet[1 := packet[1] & 0xF7];
      word := (now + word % HALF_WORD) % WORD;
    }

    method Prepare(kind: Kind, bytes: Packet, repeats: nat, loco: nat)
      requires |packet| == MAX_PACKET_SIZE
      modifies this
      ensures Value() == NewSlot(kind, bytes, repeats, loco) && |packet| == MAX_PACKET_SIZE
    {
      var length := |bytes|;
      next := null;
      this.kind, this.length, this.repeats := kind, length, repeats;
      if length > MAX_PACKET_SIZE {
        length := MAX_PACKET_SIZE;
      }
      word := 0;
      Fill(bytes[..length]);
      word := loco;
    }
  }

  // ---------------------------------------------------------------- chains

  ghost function NodeAt(r: seq<PendingSlot>, i: nat): PendingSlot? {
    if i < |r| then r[i] else null
  }

  ghost predicate NoRepeats(r: seq<PendingSlot>) {
    forall i, j :: 0 <= i < j < |r| ==> r[i] != r[j]
  }

  /** Following `next` visits these slots, each once, and ends. */
  ghost predicate Chain(r: seq<PendingSlot>)
    reads r`next
  {
    && NoRepeats(r)
    && forall i :: 0 <= i < |r| ==> r[i].next == NodeAt(r, i + 1)
  }

  ghost function Values(r: seq<PendingSlot>): (v: seq<Slot>)
    reads r
    ensures |v| == |r| && forall i :: 0 <= i < |r| ==> v[i] == r[i].Value()
  {
    seq(|r|, i requires 0 <= i < |r| reads r => r[i].Value())
  }

  lemma NoRepeatsWithout(r: seq<PendingSlot>, k: nat)
    requires NoRepeats(r) && k < |r|
    ensures NoRepeats(r[..k] + r[k + 1..])
    ensures forall j :: 0 <= j < |r| && j != k ==> r[j] != r[k]
    ensures k > 0 ==> forall j :: 0 <= j < |r| && j != k - 1 ==> r[j] != r[k - 1]
  {
    var t := r[..k] + r[k + 1..];
    forall a, b | 0 <= a < b < |t| ensures t[a] != t[b] {
      assert t[a] == r[if a < k then a else a + 1] && t[b] == r[if b < k then b else b + 1];
    }
  }

  /** A chain with one link past k. */
  lemma ChainWithout(r: seq<PendingSlot>, k: nat)
    requires k < |r| && NoRepeats(r[..k] + r[k + 1..])
    requires forall j :: 0 <= j < |r| && j + 1 != k ==> r[j].next == NodeAt(r, j + 1)
    requires k > 0 ==> r[k - 1].next == NodeAt(r, k + 1)
    ensures Chain(r[..k] + r[k + 1..])
  {
    hide NoRepeats;
    var t := r[..k] + r[k + 1..];
    forall j | 0 <= j < |t| ensures t[j].next == NodeAt(t, j + 1) {
      assert t[j] == r[if j < k then j else j + 1];
    }
  }

  lemma ValuesAdded(r: seq<PendingSlot>, v: seq<Slot>, p: PendingSlot, x: Slot)
    requires |v| == |r| && (forall i :: 0 <= i < |r| ==> r[i].Value() == v[i]) && p.Value() == x
    ensures Values(r + [p]) == v + [x]
  {
    hide PendingSlot.Value;
  }

  lemma ValuesJumped(r: seq<PendingSlot>, v: seq<Slot>, p: PendingSlot, x: Slot)
    requires |v| == |r| && (forall i :: 0 <= i < |r| ==> r[i].Value() == v[i]) && p.Value() == x
    ensures Values([p] + r) == [x] + v
  {
    hide PendingSlot.Value;
  }

  lemma ValuesWithout(r: seq<PendingSlot>, v: seq<Slot>, k: nat)
    requires |v| == |r| && k < |r| && forall i :: 0 <= i < |r| ==> r[i].Value() == v[i]
    ensures Values(r[..k] + r[k + 1..]) == Without(v, k)
  {
    hide PendingSlot.Value;
  }

  lemma ValuesUpdated(r: seq<PendingSlot>, v: seq<Slot>, k: nat)
    requires |v| == |r| && k < |r| && forall i :: 0 <= i < |r| && i != k ==> r[i].Value() == v[i]
    ensures Values(r) == v[k := r[k].Value()]
  {
    hide PendingSlot.Value;
  }

  class DccQueue {
    var head: PendingSlot?
    var tail: PendingSlot?
    ghost var nodes: seq<PendingSlot>

    ghost predicate Valid()
      reads this, nodes`next
    {
      && Chain(nodes)
      && head == NodeAt(nodes, 0)
      && tail == (if nodes == [] then null else nodes[|nodes| - 1])
    }

    constructor ()
      ensures Valid() && nodes == []
    {
      head, tail, nodes := null, null, [];
    }

    method AddQueue(p: PendingSlot)
      requires Valid() && p !in nodes
      modifies this, p`next, nodes`next
      ensures Valid() && nodes == old(nodes) + [p]
      ensures Values(nodes) == old(Values(nodes)) + [old(p.Value())]
    {
      ghost var r, v, x := nodes, Values(nodes), p.Value();
      LinkLast(p);
      hide Valid, Chain, PendingSlot.Value, Values;
      ValuesAdded(r, v, p, x);
    }

    method LinkLast(p: PendingSlot)
      requires Valid() && p !in nodes
      modifies this, p`next, nodes`next
      ensures Valid() && nodes == old(nodes) + [p]
    {
      if tail != null {
        tail.next := p;
      } else {
        head := p;
      }
      tail := p;
      p.next := null;
      nodes := nodes + [p];
    }

    method JumpQueue(p: PendingSlot)
      requires Valid() && p !in nodes
      modifies this, p`next
      ensures Valid() && nodes == [p] + old(nodes)
      ensures Values(nodes) == [old(p.Value())] + old(Values(nodes))
    {
      ghost var r, v, x := nodes, Values(nodes), p.Value();
      LinkFirst(p);
      hide Valid, Chain, PendingSlot.Value, Values;
      ValuesJumped(r, v, p, x);
    }

    method LinkFirst(p: PendingSlot)
      requires Valid() && p !in nodes
      modifies this, p`next
      ensures Valid() && nodes == [p] + old(nodes)
    {
      p.next := head;
      head := p;
      if tail == null {
        tail := p;
      }
      nodes := [p] + nodes;
    }

    /** Walk to a slot and the one in front of it. */
    method WalkTo(premove: PendingSlot) returns (previous: PendingSlot?, p: PendingSlot?, ghost i: nat)
      requires Valid()
      ensures i <= |nodes| && p == NodeAt(nodes, i) && previous == (if i == 0 then null else nodes[i - 1])
      ensures if p == null then premove !in nodes else p == premove
    {
      previous, p, i := null, head, 0;
      while p != null && p != premove
        invariant i <= |nodes| && p == NodeAt(nodes, i) && previous == (if i == 0 then null else nodes[i - 1])
        invariant forall k :: 0 <= k < i ==> nodes[k] != premove
        decreases |nodes| - i
      {
        previous, p := p, p.next;
        i := i + 1;
      }
    }

    /** A slot that is not there is left alone. */
    method Remove(premove: PendingSlot)
      requires Valid()
      modifies this, nodes`next
      ensures Valid()
      ensures premove !in old(nodes) ==> nodes == old(nodes)
      ensures forall k :: 0 <= k < |old(nodes)| && old(nodes)[k] == premove ==>
                nodes == old(nodes)[..k] + old(nodes)[k + 1..]
    {
      var previous, p, i := WalkTo(premove);
      assert forall k :: 0 <= k < |nodes| && k != i && i < |nodes| ==> nodes[k] != nodes[i];
      hide Valid, Chain;
      if p != null {
        UnlinkAt(previous, p, i);
      }
    }

    /** The pointers of a removal. */
    method UnlinkAt(previous: PendingSlot?, p: PendingSlot, ghost i: nat)
      requires Valid() && i < |nodes| && p == nodes[i] && previous == (if i == 0 then null else nodes[i - 1])
      modifies this, nodes`next
      ensures Valid() && nodes == old(nodes)[..i] + old(nodes)[i + 1..]
    {
      ghost var was := nodes;
      Bypass(previous, p, i);
      if p == tail {
        tail := previous;
      }
      nodes := was[..i] + was[i + 1..];
      hide NoRepeats;
      ChainWithout(was, i);
    }

    /** What pointed to the slot points behind it. */
    method Bypass(previous: PendingSlot?, p: PendingSlot, ghost i: nat)
      requires Valid() && i < |nodes| && p == nodes[i] && previous == (if i == 0 then null else nodes[i - 1])
      modifies this`head, nodes`next
      ensures NoRepeats(nodes[..i] + nodes[i + 1..]) && (p == tail <==> i == |nodes| - 1)
      ensures head == if i == 0 then NodeAt(nodes, 1) else NodeAt(nodes, 0)
      ensures forall j :: 0 <= j < |nodes| && j + 1 != i ==> nodes[j].next == NodeAt(nodes, j + 1)
      ensures i > 0 ==> nodes[i - 1].next == NodeAt(nodes, i + 1)
    {
      NoRepeatsWithout(nodes, i);
      if previous != null {
        previous.next := p.next;
      } else {
        head := p.next;
      }
    }

    /** Remove the slot at k. */
    method RemoveAt(p: PendingSlot, ghost k: nat)
      requires Valid() && k < |nodes| && nodes[k] == p
      modifies this, nodes`next
      ensures Valid() && nodes == old(nodes)[..k] + old(nodes)[k + 1..]
      ensures Values(nodes) == Without(old(Values(nodes)), k)
    {
      hide Valid, Chain, PendingSlot.Value;
      ghost var r, v := nodes, Values(nodes);
      Remove(p);
      assert nodes == r[..k] + r[k + 1..];
      assert forall i :: 0 <= i < |r| ==> r[i].Value() == v[i];
      ValuesWithout(r, v, k);
    }

    /** The first slot with this tag, and of this kind if one is given. */
    method FindSlot(loco: nat, kind: Option<Kind>) returns (p: PendingSlot?, ghost k: nat)
      requires Valid()
      ensures k == Find(Values(nodes), loco, kind) && p == NodeAt(nodes, k)
    {
      hide Find;
      p, k := head, 0;
      while p != null
        invariant k <= |nodes| && p == NodeAt(nodes, k)
        invariant forall i :: 0 <= i < k ==>
                    !(nodes[i].word % HALF_WORD == loco && (kind.Some? ==> nodes[i].kind == kind.value))
        decreases |nodes| - k
      {
        if p.word % HALF_WORD == loco && (kind.Some? ==> p.kind == kind.value) {
          break;
        }
        p := p.next;
        k := k + 1;
      }
      ghost var f, v := Find(Values(nodes), loco, kind), Values(nodes);
      assert k < |v| ==> v[k].Tag() == loco && (kind.Some? ==> v[k].kind == kind.value);
      assert f < |v| ==> v[f].Tag() == loco && (kind.Some? ==> v[f].kind == kind.value);
    }

    /** The first slot that need not wait. */
    method FirstSlot(lastSent: nat, now: nat) returns (p: PendingSlot?, ghost k: nat)
      requires Valid()
      ensures k == FirstReady(Values(nodes), lastSent, now) && p == NodeAt(nodes, k)
    {
      hide FirstReady, Waits, PendingSlot.MustWait, PendingSlot.Value;
      p, k := head, 0;
      while p != null
        invariant k <= |nodes| && p == NodeAt(nodes, k)
        invariant forall i :: 0 <= i < k ==> Waits(nodes[i].Value(), lastSent, now)
        decreases |nodes| - k
      {
        if !p.MustWait(lastSent, now) {
          break;
        }
        p := p.next;
        k := k + 1;
      }
      ghost var v := Values(nodes);
      ghost var f := FirstReady(v, lastSent, now);
      assert k < |v| ==> !Waits(v[k], lastSent, now);
      assert f < |v| ==> !Waits(v[f], lastSent, now);
    }

    /** One repeat of the slot at k is done. */
    method CountDown(p: PendingSlot, ghost k: nat)
      requires Valid() && k < |nodes| && nodes[k] == p && p.repeats > 0
      modifies p`repeats
      ensures Valid() && Values(nodes) == old(Values(nodes))[k := OneLess(old(p.Value()))]
    {
      ghost var v, x := Values(nodes), OneLess(p.Value());
      assert forall i :: 0 <= i < |nodes| && i != k ==> nodes[i] != p;
      p.repeats := p.repeats - 1;
      assert p.Value() == x;
      hide PendingSlot.Value, Values, Valid, Chain;
      ValuesUpdated(nodes, v, k);
    }

    /** Overwrite the packet at k. */
    method Overwrite(p: PendingSlot, ghost k: nat, packet: Packet, repeats: nat)
      requires Valid() && k < |nodes| && nodes[k] == p && |packet| <= |p.packet|
      modifies p`packet, p`length, p`repeats
      ensures Valid() && |p.packet| == old(|p.packet|)
      ensures Values(nodes) == old(Values(nodes))[k := Refilled(old(p.Value()), packet, repeats)]
    {
      hide PendingSlot.Value, Values;
      ghost var v := Values(nodes);
      assert forall i :: 0 <= i < |nodes| && i != k ==> nodes[i] != p;
      hide Valid, Chain;
      p.Refill(packet, repeats);
      ValuesUpdated(nodes, v, k);
    }
  }

  // ---------------------------------------------------------------- the scheduler

  /** Every slot of `all` lies exactly once on exactly one of four lists. */
  ghost predicate Census(all: set<PendingSlot>, a: seq<PendingSlot>, b: seq<PendingSlot>, c: seq<PendingSlot>, d: seq<PendingSlot>) {
    multiset(a) + multiset(b) + multiset(c) + multiset(d) == multiset(all)
  }

  lemma CensusApart(all: set<PendingSlot>, a: seq<PendingSlot>, b: seq<PendingSlot>, c: seq<PendingSlot>, d: seq<PendingSlot>)
    requires Census(all, a, b, c, d)
    ensures forall x :: x in a ==> x !in b && x !in c && x !in d && x in all
    ensures forall x :: x in b ==> x !in c && x !in d && x in all
    ensures forall x :: x in c ==> x !in d && x in all
    ensures forall x :: x in d ==> x in all
  {
    var m := multiset(a) + multiset(b) + multiset(c) + multiset(d);
    forall x ensures m[x] == multiset(a)[x] + multiset(b)[x] + multiset(c)[x] + multiset(d)[x] && m[x] <= 1
      ensures m[x] == 1 <==> x in all {
    }
    forall x ensures (x in a <==> multiset(a)[x] > 0) && (x in b <==> multiset(b)[x] > 0)
      ensures (x in c <==> multiset(c)[x] > 0) && (x in d <==> multiset(d)[x] > 0) {
    }
  }

  /** The same, by index. */
  lemma CensusApartAt(all: set<PendingSlot>, a: seq<PendingSlot>, b: seq<PendingSlot>, c: seq<PendingSlot>, d: seq<PendingSlot>)
    requires Census(all, a, b, c, d)
    ensures forall i :: 0 <= i < |a| ==> a[i] !in b && a[i] !in c && a[i] !in d
    ensures forall i :: 0 <= i < |b| ==> b[i] !in a && b[i] !in c && b[i] !in d
    ensures forall i :: 0 <= i < |c| ==> c[i] !in a && c[i] !in b && c[i] !in d
  {
    CensusApart(all, a, b, c, d);
    hide Census;
    assert forall i :: 0 <= i < |a| ==> a[i] in a;
    assert forall i :: 0 <= i < |b| ==> b[i] in b;
    assert forall i :: 0 <= i < |c| ==> c[i] in c;
  }

  lemma CensusNodes(all: set<PendingSlot>, a: seq<PendingSlot>, b: seq<PendingSlot>, c: seq<PendingSlot>)
    requires Census(all, a, b, c, [])
    ensures forall i :: 0 <= i < |a| ==> a[i] in all
    ensures forall i :: 0 <= i < |b| ==> b[i] in all
  {
    CensusApart(all, a, b, c, []);
    hide Census;
    assert forall i :: 0 <= i < |a| ==> a[i] in a;
    assert forall i :: 0 <= i < |b| ==> b[i] in b;
  }

  lemma CensusCount(all: set<PendingSlot>, a: seq<PendingSlot>, b: seq<PendingSlot>, c: seq<PendingSlot>, d: seq<PendingSlot>)
    requires Census(all, a, b, c, d)
    ensures |all| == |a| + |b| + |c| + |d|
  {
    assert |multiset(a) + multiset(b) + multiset(c) + multiset(d)| == |a| + |b| + |c| + |d|;
    assert |multiset(all)| == |all|;
  }

  lemma CensusHand(all: set<PendingSlot>, a: seq<PendingSlot>, b: seq<PendingSlot>, c: seq<PendingSlot>, p: PendingSlot)
    requires Census(all, a, b, c, [p])
    ensures p !in a && p !in b && p !in c && p in all
  {
    CensusApart(all, a, b, c, [p]);
    assert p in [p];
  }

  lemma CensusRecycle(all: set<PendingSlot>, a: seq<PendingSlot>, b: seq<PendingSlot>, c: seq<PendingSlot>, p: PendingSlot)
    ensures Census(all, a, b, c, [p]) <==> Census(all, a, b, [p] + c, [])
  {
    assert multiset([p] + c) == multiset(c) + multiset([p]);
  }

  lemma CensusNew(all: set<PendingSlot>, a: seq<PendingSlot>, b: seq<PendingSlot>, c: seq<PendingSlot>, p: PendingSlot)
    requires Census(all, a, b, c, []) && p !in all
    ensures Census(all + {p}, a, b, c, [p]) && |all + {p}| == |all| + 1
  {
    assert multiset(all + {p}) == multiset(all) + multiset([p]);
  }

  lemma ChainPush(p: PendingSlot, r: seq<PendingSlot>)
    requires Chain(r) && p !in r && p.next == NodeAt(r, 0)
    ensures Chain([p] + r)
  {
  }

  lemma ChainPop(r: seq<PendingSlot>)
    requires Chain(r) && r != []
    ensures Chain(r[1..]) && r[0].next == NodeAt(r[1..], 0)
  {
    forall i | 0 <= i < |r| - 1 ensures r[1..][i].next == NodeAt(r[1..], i + 1) {
      assert r[1..][i] == r[i + 1];
    }
  }

  class Scheduler {
    const high: DccQueue
    const low: DccQueue
    var recycleList: PendingSlot?
    var lastSent: nat
    var created: nat
    ghost var spare: seq<PendingSlot>
    ghost var all: set<PendingSlot>

    /** The lists are sound; `hand` is a slot between lists. */
    ghost predicate Sound(hand: seq<PendingSlot>)
      reads this, high, low, all, high.nodes, low.nodes, spare
    {
      && high != low && high.Valid() && low.Valid()
      && Chain(spare) && recycleList == NodeAt(spare, 0)
      && Census(all, high.nodes, low.nodes, spare, hand)
      && created == |all|
      && forall x :: x in all ==> |x.packet| == MAX_PACKET_SIZE
    }

    ghost predicate Valid()
      reads this, high, low, all, high.nodes, low.nodes, spare
    {
      Sound([])
    }

    ghost function View(): Queues
      reads this, high, low, high.nodes, low.nodes
    {
      Queues(Values(high.nodes), Values(low.nodes), lastSent)
    }

    constructor ()
      ensures Valid() && View() == Queues([], [], 0) && all == {}
    {
      high := new DccQueue();
      low := new DccQueue();
      recycleList, lastSent, created := null, 0, 0;
      spare, all := [], {};
    }

    method Recycle(p: PendingSlot)
      requires Sound([p])
      modifies this`recycleList, this`spare, all`next
      ensures Valid() && View() == old(View()) && spare == [p] + old(spare)
    {
      hide Census, Chain, Values, DccQueue.Valid;
      CensusHand(all, high.nodes, low.nodes, spare, p);
      p.next := recycleList;
      recycleList := p;
      ChainPush(p, spare);
      CensusRecycle(all, high.nodes, low.nodes, spare, p);
      spare := [p] + spare;
    }

    method CountNodes(q: DccQueue) returns (n: nat)
      requires q.Valid()
      ensures n == |q.nodes|
    {
      n := 0;
      var p := q.head;
      while p != null
        invariant n <= |q.nodes| && p == NodeAt(q.nodes, n)
        decreases |q.nodes| - n
      {
        p := p.next;
        n := n + 1;
      }
    }

    /** With nothing to recycle, every slot created is on a queue. */
    method LooksLeaky() returns (leak: bool)
      requires Valid() && recycleList == null
      ensures !leak
    {
      CensusCount(all, high.nodes, low.nodes, spare, []);
      hide Census, Chain, Values, DccQueue.Valid;
      var q1 := CountNodes(high);
      var q2 := CountNodes(low);
      leak := q1 + q2 != created;
    }

    /** A new slot.  The leak that is looked for is never found. */
    method Allocate() returns (p: PendingSlot, leak: bool)
      requires Valid() && recycleList == null
      modifies this`created, this`all
      ensures Sound([p]) && View() == old(View()) && !leak
      ensures fresh(p) && all == old(all) + {p}
    {
      hide Census, Chain, Values, DccQueue.Valid;
      leak := LooksLeaky();
      p := new PendingSlot();
      CensusNew(all, high.nodes, low.nodes, spare, p);
      created := created + 1;
      all := all + {p};
    }

    /** A slot from the recycle list, or a new one. */
    method TakeSlot() returns (p: PendingSlot, leak: bool)
      requires Valid()
      modifies this`recycleList, this`spare, this`created, this`all
      ensures Sound([p]) && View() == old(View()) && !leak
      ensures (p in old(spare) && all == old(all)) || (fresh(p) && all == old(all) + {p})
    {
      hide Census, Chain, Values, DccQueue.Valid;
      if recycleList != null {
        leak := false;
        p := recycleList;
        ChainPop(spare);
        recycleList := p.next;
        assert spare == [p] + spare[1..];
        CensusRecycle(all, high.nodes, low.nodes, spare[1..], p);
        spare := spare[1..];
      } else {
        p, leak := Allocate();
      }
    }

    ghost predicate Footprint()
      reads this, high, low
    {
      && (forall i :: 0 <= i < |high.nodes| ==> high.nodes[i] in all)
      && (forall i :: 0 <= i < |low.nodes| ==> low.nodes[i] in all)
      && (forall i :: 0 <= i < |spare| ==> spare[i] in all)
    }

    lemma Inside(hand: seq<PendingSlot>)
      requires Sound(hand)
      ensures Footprint() && forall i :: 0 <= i < |hand| ==> hand[i] in all
    {
      CensusApart(all, high.nodes, low.nodes, spare, hand);
      hide Census;
      assert forall i :: 0 <= i < |high.nodes| ==> high.nodes[i] in high.nodes;
      assert forall i :: 0 <= i < |low.nodes| ==> low.nodes[i] in low.nodes;
      assert forall i :: 0 <= i < |spare| ==> spare[i] in spare;
      assert forall i :: 0 <= i < |hand| ==> hand[i] in hand;
    }

    /** No slot is ever given up. */
    twostate predicate Kept()
      reads this
    {
      old(all) <= all && forall x :: x in all ==> x in old(all) || fresh(x)
    }

    method GetSlot(kind: Kind, packet: Packet, repeats: nat, loco: nat) returns (p: PendingSlot, leak: bool)
      requires Valid() && loco < HALF_WORD
      modifies this`recycleList, this`spare, this`created, this`all, all
      ensures Sound([p]) && View() == old(View()) && !leak
      ensures Kept() && p in all
      ensures p.Value() == NewSlot(kind, packet, repeats, loco)
    {
      hide Census, Chain, Values, DccQueue.Valid, PendingSlot.Value;
      Inside([]);
      p, leak := TakeSlot();
      CensusHand(all, high.nodes, low.nodes, spare, p);
      p.Prepare(kind, packet, repeats, loco);
    }

    // ------------------------------------------------------------ slots on and off the queues

    ghost function Side(v: Queues, q: DccQueue): seq<Slot> {
      if q == high then v.high else v.low
    }

    /** These queues with another list for q. */
    ghost function With(v: Queues, q: DccQueue, list: seq<Slot>): Queues {
      if q == high then v.(high := list) else v.(low := list)
    }

    ghost predicate Mine(q: DccQueue) {
      q == high || q == low
    }

    method JoinHere(q: DccQueue, p: PendingSlot)
      requires Sound([p]) && Mine(q)
      modifies q, p`next, q.nodes`next
      ensures Valid()
      ensures View() == With(old(View()), q, Side(old(View()), q) + [old(p.Value())])
    {
      hide Census, Chain, DccQueue.Valid, PendingSlot.Value, Values;
      CensusApartAt(all, high.nodes, low.nodes, spare, [p]);
      CensusHand(all, high.nodes, low.nodes, spare, p);
      CensusJoin(all, high.nodes, low.nodes, spare, p);
      q.AddQueue(p);
    }

    method JumpHere(p: PendingSlot)
      requires Sound([p])
      modifies high, p`next
      ensures Valid()
      ensures View() == old(View()).(high := [old(p.Value())] + old(View()).high)
    {
      hide Census, Chain, DccQueue.Valid, PendingSlot.Value, Values;
      CensusHand(all, high.nodes, low.nodes, spare, p);
      CensusJoin(all, high.nodes, low.nodes, spare, p);
      high.JumpQueue(p);
    }

    method TakeOutHere(q: DccQueue, p: PendingSlot, ghost k: nat)
      requires Valid() && Mine(q) && k < |q.nodes| && q.nodes[k] == p
      modifies q, q.nodes`next
      ensures Sound([p]) && q.nodes == old(q.nodes[..k] + q.nodes[k + 1..])
      ensures p.Value() == old(p.Value())
      ensures View() == With(old(View()), q, Without(Side(old(View()), q), k))
    {
      hide Census, Chain, DccQueue.Valid, PendingSlot.Value, Values;
      CensusApartAt(all, high.nodes, low.nodes, spare, []);
      if q == high {
        CensusTakeHigh(all, high.nodes, low.nodes, spare, k);
      } else {
        CensusTakeLow(all, high.nodes, low.nodes, spare, k);
      }
      q.RemoveAt(p, k);
    }

    /** Overwrite a queued slot. */
    method RefillHere(q: DccQueue, p: PendingSlot, ghost k: nat, packet: Packet, repeats: nat)
      requires Valid() && Mine(q) && k < |q.nodes| && q.nodes[k] == p && |packet| <= MAX_PACKET_SIZE
      modifies p`packet, p`length, p`repeats
      ensures Valid()
      ensures View() == With(old(View()), q, Side(old(View()), q)[k := Refilled(old(p.Value()), packet, repeats)])
    {
      hide Census, Chain, DccQueue.Valid, PendingSlot.Value, Values;
      CensusApartAt(all, high.nodes, low.nodes, spare, []);
      CensusNodes(all, high.nodes, low.nodes, spare);
      q.Overwrite(p, k, packet, repeats);
    }

    // The same, with frames in terms of all slots.

    method Join(q: DccQueue, p: PendingSlot)
      requires Sound([p]) && Mine(q)
      modifies q, all`next
      ensures Valid() && View() == With(old(View()), q, Side(old(View()), q) + [old(p.Value())])
    {
      Inside([p]);
      hide Sound, View, PendingSlot.Value;
      JoinHere(q, p);
    }

    method Jump(p: PendingSlot)
      requires Sound([p])
      modifies high, all`next
      ensures Valid() && View() == old(View()).(high := [old(p.Value())] + old(View()).high)
    {
      Inside([p]);
      hide Sound, View, PendingSlot.Value;
      JumpHere(p);
    }

    method TakeOut(q: DccQueue, p: PendingSlot, ghost k: nat)
      requires Valid() && Mine(q) && k < |q.nodes| && q.nodes[k] == p
      modifies q, all`next
      ensures Sound([p]) && q.nodes == old(q.nodes[..k] + q.nodes[k + 1..]) && p.Value() == old(p.Value())
      ensures k < |Side(old(View()), q)| && View() == With(old(View()), q, Without(Side(old(View()), q), k))
    {
      Inside([]);
      assert k < |Side(View(), q)|;
      hide Sound, View, PendingSlot.Value;
      TakeOutHere(q, p, k);
    }

    method Refill(q: DccQueue, p: PendingSlot, ghost k: nat, packet: Packet, repeats: nat)
      requires Valid() && Mine(q) && k < |q.nodes| && q.nodes[k] == p && |packet| <= MAX_PACKET_SIZE
      modifies all`packet, all`length, all`repeats
      ensures Valid() && k < |Side(old(View()), q)|
      ensures View() == With(old(View()), q, Side(old(View()), q)[k := Refilled(old(p.Value()), packet, repeats)])
    {
      Inside([]);
      assert k < |Side(View(), q)|;
      hide Sound, View, PendingSlot.Value;
      RefillHere(q, p, k, packet, repeats);
    }

    // ------------------------------------------------------------ requests

    /** A new slot joins a queue. */
    method Enqueue(q: DccQueue, kind: Kind, packet: Packet, repeats: nat, loco: nat)
      requires Valid() && Mine(q) && loco < HALF_WORD
      modifies this, high, low, all
      ensures Valid() && Kept()
      ensures View() == With(old(View()), q, Side(old(View()), q) + [NewSlot(kind, packet, repeats, loco)])
    {
      hide Sound, View, Cut, NewSlot, PendingSlot.Value;
      var p, _ := GetSlot(kind, packet, repeats, loco);
      Join(q, p);
    }

    /** What a queue looks like from outside. */
    lemma Outline(q: DccQueue)
      requires Valid() && Mine(q)
      ensures |Side(View(), q)| == |q.nodes| && q.head == NodeAt(q.nodes, 0) && high != low
    {
    }

    lemma At(q: DccQueue, i: nat)
      requires Valid() && Mine(q) && i < |q.nodes|
      ensures var p := q.nodes[i];
              && |Side(View(), q)| == |q.nodes| && Side(View(), q)[i] == p.Value()
              && p.next == NodeAt(q.nodes, i + 1)
              && p.kind == p.Value().kind && p.word == p.Value().word && p.repeats == p.Value().repeats
    {
    }

    method SendPacket(packet: Packet, repeats: nat, loco: nat)
      requires Valid() && loco < HALF_WORD
      modifies this, high, low, all
      ensures Valid() && Kept() && View() == PacketQueue.SendPacket(old(View()), packet, repeats, loco)
    {
      assert high != low;
      hide Sound, View, NewSlot;
      Enqueue(low, Normal, packet, repeats, loco);
    }

    method SendAccOnOff(packet: Packet, repeats: nat, delay: nat)
      requires Valid() && delay < HALF_WORD
      modifies this, high, low, all
      ensures Valid() && Kept() && View() == PacketQueue.SendAccOnOff(old(View()), packet, repeats, delay)
    {
      assert high != low;
      hide Sound, View, NewSlot;
      Enqueue(low, AccOn, packet, repeats, delay);
    }

    method FindIn(q: DccQueue, loco: nat, kind: Option<Kind>) returns (p: PendingSlot?, ghost k: nat)
      requires Valid() && Mine(q)
      ensures k == Find(Side(View(), q), loco, kind) && p == NodeAt(q.nodes, k)
      ensures |Side(View(), q)| == |q.nodes|
    {
      Outline(q);
      hide Find, Chain, Census, Values;
      p, k := q.FindSlot(loco, kind);
    }

    method Replace(q: DccQueue, p: PendingSlot, ghost k: nat, packet: Packet, repeats: nat)
      requires Valid() && Mine(q) && k < |q.nodes| && q.nodes[k] == p && |packet| <= MAX_PACKET_SIZE
      modifies this, high, low, all
      ensures Valid() && Kept() && k < |Side(old(View()), q)|
      ensures var v := Side(old(View()), q); View() == With(old(View()), q, v[k := Refilled(v[k], packet, repeats)])
    {
      At(q, k);
      hide Sound, View, PendingSlot.Value, Refilled;
      Refill(q, p, k, packet, repeats);
    }

    /** Replace the slot found, or join the end. */
    method Place(q: DccQueue, find: Option<Kind>, kind: Kind, packet: Packet, repeats: nat, loco: nat)
      requires Valid() && Mine(q) && loco < HALF_WORD && |packet| <= MAX_PACKET_SIZE
      modifies this, high, low, all
      ensures Valid() && Kept()
      ensures var v := Side(old(View()), q);
              View() == With(old(View()), q, Placed(v, Find(v, loco, find), NewSlot(kind, packet, repeats, loco)))
    {
      hide Sound, View, Find, PendingSlot.Value, DccQueue.Valid, Values, With;
      var p, k := FindIn(q, loco, find);
      if p != null {
        Replace(q, p, k, packet, repeats);
      } else {
        hide Placed;
        Enqueue(q, kind, packet, repeats, loco);
      }
    }

    method SendSpeed(packet: Packet, repeats: nat, loco: nat)
      requires Valid() && loco < HALF_WORD && |packet| <= MAX_PACKET_SIZE
      modifies this, high, low, all
      ensures Valid() && Kept() && View() == PacketQueue.SendSpeed(old(View()), packet, repeats, loco)
    {
      hide Sound, View, Find, Placed, NewSlot;
      Place(high, None, Speed, packet, repeats, loco);
    }

    method SendFunction(packet: Packet, loco: nat, group: nat)
      requires Valid() && loco < HALF_WORD && |packet| <= MAX_PACKET_SIZE
      modifies this, high, low, all
      ensures Valid() && Kept() && View() == PacketQueue.SendFunction(old(View()), packet, loco, group)
    {
      assert high != low;
      hide Sound, View, Find, Placed, NewSlot;
      if group < 1 || group > 5 {
        return;
      }
      Place(low, Some(Function(group)), Function(group), packet, 0, loco);
    }

    method SendEstop(packet: Packet, repeats: nat, loco: nat)
      requires Valid() && loco < HALF_WORD
      modifies this, high, low, all
      ensures Valid() && Kept() && View() == PacketQueue.SendEstop(old(View()), packet, repeats, loco)
    {
      Flush(loco);
      hide Sound, View, Survivors, NewSlot, PendingSlot.Value;
      var p, _ := GetSlot(Speed, packet, repeats, 0);
      Jump(p);
    }

    /** Take a slot off its queue and recycle it. */
    method Discard(q: DccQueue, p: PendingSlot, ghost k: nat)
      requires Valid() && Mine(q) && k < |q.nodes| && q.nodes[k] == p
      modifies this`recycleList, this`spare, q, all`next
      ensures Valid() && q.nodes == old(q.nodes[..k] + q.nodes[k + 1..]) && |Side(View(), q)| == |q.nodes|
      ensures k < |Side(old(View()), q)| && View() == With(old(View()), q, Without(Side(old(View()), q), k))
    {
      hide Sound, View, PendingSlot.Value, Without;
      TakeOut(q, p, k);
      Recycle(p);
      Outline(q);
    }

    /** Look at one slot of the high queue. */
    method FlushOne(p: PendingSlot, ghost i: nat, loco: nat) returns (pNext: PendingSlot?, ghost i': nat)
      requires Valid() && i < |high.nodes| && high.nodes[i] == p && i <= |View().high|
      modifies this`recycleList, this`spare, high, all`next
      ensures Valid() && i' <= |high.nodes| == |View().high| && pNext == NodeAt(high.nodes, i')
      ensures View() == old(View()).(high := View().high)
      ensures Flushing(View().high, i', loco) == Flushing(old(View()).high, i, loco)
      ensures |high.nodes| - i' < old(|high.nodes|) - i
    {
      At(high, i);
      hide Sound, View, PendingSlot.Value, Without;
      pNext, i' := p.next, i;
      FlushingStep(View().high, i, loco);
      hide Flushing;
      if p.kind != AccOff && (loco == 0 || p.word % HALF_WORD == loco) {
        Discard(high, p, i);
      } else {
        i' := i + 1;
      }
    }

    /** Recycle the throttle slots of a loco, or of all. */
    method Flush(loco: nat)
      requires Valid()
      modifies this`recycleList, this`spare, high, all`next
      ensures Valid() && View() == old(View()).(high := Survivors(old(View()).high, loco))
    {
      Outline(high);
      hide Sound, View, Survivors, PendingSlot.Value, DccQueue.Valid;
      ghost var v := View();
      var p := high.head;
      ghost var i: nat := 0;
      while p != null
        invariant Valid() && i <= |high.nodes| == |View().high| && p == NodeAt(high.nodes, i)
        invariant View() == v.(high := View().high)
        invariant Flushing(View().high, i, loco) == Flushing(v.high, 0, loco)
        decreases |high.nodes| - i
      {
        hide Flushing;
        p, i := FlushOne(p, i, loco);
      }
      FlushingEnds(v.high, loco);
      FlushingEnds(View().high, loco);
    }

    // ------------------------------------------------------------ the next packet

    /** One repeat of a queued slot is done. */
    method CountDownHere(q: DccQueue, p: PendingSlot, ghost k: nat)
      requires Valid() && Mine(q) && k < |q.nodes| && q.nodes[k] == p && p.repeats > 0
      modifies p`repeats
      ensures Valid() && k < |Side(old(View()), q)|
      ensures View() == With(old(View()), q, Side(old(View()), q)[k := OneLess(old(p.Value()))])
    {
      hide Census, Chain, DccQueue.Valid, PendingSlot.Value, Values, OneLess;
      CensusApartAt(all, high.nodes, low.nodes, spare, []);
      q.CountDown(p, k);
    }

    /** A slot in hand is turned off. */
    method TurnOffInHand(p: PendingSlot, now: nat)
      requires Sound([p])
      modifies p
      ensures Sound([p]) && View() == old(View()) && p.Value() == TurnedOff(old(p.Value()), now)
    {
      CensusHand(all, high.nodes, low.nodes, spare, p);
      hide Census, Chain, DccQueue.Valid, PendingSlot.Value, Values, TurnedOff;
      p.TurnOff(now);
    }

    /** A coil-on in hand goes back as its coil-off. */
    method Return(p: PendingSlot, now: nat)
      requires Sound([p])
      modifies high, all
      ensures Valid() && View() == old(View()).(high := [TurnedOff(old(p.Value()), now)] + old(View()).high)
    {
      Inside([p]);
      hide Sound, View, PendingSlot.Value, TurnedOff;
      TurnOffInHand(p, now);
      Jump(p);
    }

    /** A slot sent for the last time: a coil-on comes back as its coil-off, others are recycled. */
    method Retire(q: DccQueue, p: PendingSlot, ghost k: nat, now: nat)
      requires Valid() && Mine(q) && k < |q.nodes| && q.nodes[k] == p
      modifies this`recycleList, this`spare, high, low, all
      ensures Valid() && k < |Side(old(View()), q)|
      ensures var s, v := old(p.Value()), With(old(View()), q, Without(Side(old(View()), q), k));
              View() == if s.kind == AccOn then v.(high := [TurnedOff(s, now)] + v.high) else v
    {
      At(q, k);
      hide Sound, View, PendingSlot.Value, Without, TurnedOff;
      var kind := p.kind;
      TakeOut(q, p, k);
      if kind == AccOn {
        Return(p, now);
      } else {
        Recycle(p);
      }
    }

    /** Send the slot at k of q, and keep it for its repeats. */
    method SendAndKeep(q: DccQueue, p: PendingSlot, ghost k: nat) returns (e: Emission)
      requires Valid() && Mine(q) && k < |q.nodes| && q.nodes[k] == p && Stays(p.Value())
      modifies this`lastSent, all`repeats
      ensures Valid() && k < |Side(old(View()), q)| && Stays(Side(old(View()), q)[k]) && e == EmissionOf(Side(old(View()), q)[k])
      ensures var s := Side(old(View()), q)[k];
              View() == With(old(View()).(lastSent := s.Tag()), q, Side(old(View()), q)[k := OneLess(s)])
    {
      At(q, k);
      Inside([]);
      e := Sent(p.Value(), 0);
      var tag := p.word % HALF_WORD;
      hide Sound, View, PendingSlot.Value, OneLess;
      SetLast(tag);
      CountDownHere(q, p, k);
    }

    /** Send the slot at k of q for the last time. */
    method SendAndRetire(q: DccQueue, p: PendingSlot, ghost k: nat, now: nat) returns (e: Emission)
      requires Valid() && Mine(q) && k < |q.nodes| && q.nodes[k] == p && !Stays(p.Value())
      modifies this`recycleList, this`spare, this`lastSent, high, low, all
      ensures Valid() && k < |Side(old(View()), q)| && !Stays(Side(old(View()), q)[k]) && e == EmissionOf(Side(old(View()), q)[k])
      ensures var s := Side(old(View()), q)[k];
              var v := With(old(View()).(lastSent := s.Tag()), q, Without(Side(old(View()), q), k));
              View() == if s.kind == AccOn then v.(high := [TurnedOff(s, now)] + v.high) else v
    {
      At(q, k);
      var tag := p.word % HALF_WORD;
      if tag != 0 {
        e := Sent(p.Value(), 0);
      } else {
        e := Sent(p.Value(), p.repeats);
      }
      hide Sound, View, PendingSlot.Value, Without, TurnedOff;
      SetLast(tag);
      Retire(q, p, k, now);
    }

    /** Send the slot at k of q. */
    method Dispatch(q: DccQueue, p: PendingSlot, ghost k: nat, now: nat) returns (e: Emission)
      requires Valid() && Mine(q) && k < |q.nodes| && q.nodes[k] == p
      modifies this`recycleList, this`spare, this`lastSent, high, low, all
      ensures Valid() && k < |Side(old(View()), q)|
      ensures View() == Take(old(View()), q, k, now) && e == EmissionOf(Side(old(View()), q)[k])
    {
      Outline(q);
      var keep := p.word % HALF_WORD != 0 && p.repeats > 0;
      assert keep == Stays(p.Value());
      hide Sound, View, PendingSlot.Value, Without, TurnedOff, EmissionOf, Stays, Slot.Tag;
      if keep {
        e := SendAndKeep(q, p, k);
      } else {
        e := SendAndRetire(q, p, k, now);
      }
    }

    method SetLast(tag: nat)
      requires Valid()
      modifies this`lastSent
      ensures Valid() && View() == old(View()).(lastSent := tag)
    {
      hide Census, Chain, DccQueue.Valid, Values;
      lastSent := tag;
    }

    /** What serving a queue comes to. */
    ghost function Serve(v: Queues, q: DccQueue, now: nat): (Queues, Option<Emission>) {
      if q == high then ServeHigh(v, now) else ServeLow(v, now)
    }

    ghost function Take(v: Queues, q: DccQueue, k: nat, now: nat): Queues
      requires k < |Side(v, q)|
    {
      if q == high then TakeHigh(v, k, now) else TakeLow(v, k, now)
    }

    ghost function Ready(v: Queues, q: DccQueue, now: nat): (k: nat)
      ensures k <= |Side(v, q)|
    {
      FirstReady(Side(v, q), v.lastSent, now)
    }

    lemma ServeIs(v: Queues, q: DccQueue, now: nat)
      ensures var k := Ready(v, q, now);
              Serve(v, q, now) == if k < |Side(v, q)| then (Take(v, q, k, now), Some(EmissionOf(Side(v, q)[k]))) else (v, None)
    {
      hide FirstReady, TakeHigh, TakeLow, EmissionOf;
    }

    /** Send the first slot of q that need not wait. */
    method NextInternal(q: DccQueue, now: nat) returns (e: Option<Emission>)
      requires Valid() && Mine(q)
      modifies this`recycleList, this`spare, this`lastSent, high, low, all
      ensures Valid() && View() == Serve(old(View()), q, now).0 && e == Serve(old(View()), q, now).1
    {
      ServeIs(View(), q, now);
      hide Sound, View, Serve, Take, Ready, Side, EmissionOf;
      var p, k := FirstSlot(q, now);
      if p != null {
        var sent := Dispatch(q, p, k, now);
        e := Some(sent);
      } else {
        e := None;
      }
    }

    method FirstSlot(q: DccQueue, now: nat) returns (p: PendingSlot?, ghost k: nat)
      requires Valid() && Mine(q)
      ensures k == Ready(View(), q, now) && p == NodeAt(q.nodes, k) && |Side(View(), q)| == |q.nodes|
    {
      Outline(q);
      hide Chain, Census, Values, FirstReady;
      p, k := q.FirstSlot(lastSent, now);
    }

    /** The main loop's request for a packet. */
    method ScheduleNext(force: bool, now: nat) returns (e: Option<Emission>)
      requires Valid()
      modifies this`recycleList, this`spare, this`lastSent, high, low, all
      ensures Valid() && View() == Next(old(View()), force, now).0 && e == Next(old(View()), force, now).1
    {
      Outline(high);
      hide Sound, View, ServeHigh, ServeLow;
      ServingOrNot(View(), now);
      e := NextInternal(high, now);
      if e.Some? {
        return;
      }
      e := NextInternal(low, now);
      if e.Some? {
        return;
      }
      if force {
        SetLast(0);
        return Some(Idle);
      }
    }
  }

  lemma ServingOrNot(v: Queues, now: nat)
    ensures ServeHigh(v, now).1.None? ==> ServeHigh(v, now).0 == v
    ensures ServeLow(v, now).1.None? ==> ServeLow(v, now).0 == v
  {
  }

  /** The scan of the high queue, done up to i. */
  function Flushing(u: seq<Slot>, i: nat, loco: nat): seq<Slot>
    requires i <= |u|
  {
    u[..i] + Survivors(u[i..], loco)
  }

  lemma FlushingEnds(u: seq<Slot>, loco: nat)
    ensures Flushing(u, |u|, loco) == u && Flushing(u, 0, loco) == Survivors(u, loco)
  {
    assert u[..0] == [] && u[0..] == u && u[|u|..] == [];
  }

  lemma FlushingStep(u: seq<Slot>, i: nat, loco: nat)
    requires i < |u|
    ensures Flushed(u[i], loco) ==> Flushing(Without(u, i), i, loco) == Flushing(u, i, loco)
    ensures !Flushed(u[i], loco) ==> Flushing(u, i + 1, loco) == Flushing(u, i, loco)
  {
    SurvivorsStep(u, i, loco);
  }

  lemma SurvivorsStep(u: seq<Slot>, i: nat, loco: nat)
    requires i < |u|
    ensures Flushed(u[i], loco) ==> Without(u, i)[..i] + Survivors(Without(u, i)[i..], loco) == u[..i] + Survivors(u[i..], loco)
    ensures !Flushed(u[i], loco) ==> u[..i + 1] + Survivors(u[i + 1..], loco) == u[..i] + Survivors(u[i..], loco)
  {
    assert u[i..][0] == u[i] && u[i..][1..] == u[i + 1..];
    assert Without(u, i)[..i] == u[..i] && Without(u, i)[i..] == u[i + 1..];
  }

  lemma CensusJoin(all: set<PendingSlot>, a: seq<PendingSlot>, b: seq<PendingSlot>, c: seq<PendingSlot>, p: PendingSlot)
    requires Census(all, a, b, c, [p])
    ensures Census(all, a + [p], b, c, []) && Census(all, [p] + a, b, c, []) && Census(all, a, b + [p], c, [])
  {
    assert multiset([p] + a) == multiset(a) + multiset([p]);
  }

  lemma CensusTakeHigh(all: set<PendingSlot>, a: seq<PendingSlot>, b: seq<PendingSlot>, c: seq<PendingSlot>, k: nat)
    requires Census(all, a, b, c, []) && k < |a|
    ensures Census(all, a[..k] + a[k + 1..], b, c, [a[k]])
  {
    assert a == a[..k] + [a[k]] + a[k + 1..];
  }

  lemma CensusTakeLow(all: set<PendingSlot>, a: seq<PendingSlot>, b: seq<PendingSlot>, c: seq<PendingSlot>, k: nat)
    requires Census(all, a, b, c, []) && k < |b|
    ensures Census(all, a, b[..k] + b[k + 1..], c, [b[k]])
  {
    assert b == b[..k] + [b[k]] + b[k + 1..];
  }
}
