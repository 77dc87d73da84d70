/** The command station's throttle and lock on top of the scheduler's linked lists. */
module DccStation {
  import opened DccFraming
  import PacketQueue
  import opened PacketEncoders
  import opened PacketLists
  import T = ThrottleRuns

  class Station {
    const scheduler: Scheduler
    const h: Cab
    var estopIsLocked: bool

    constructor (h: Cab)
      ensures scheduler.Valid() && !estopIsLocked && this.h == h
      ensures scheduler.View() == T.Start(h).q && fresh(scheduler)
    {
      this.h := h;
      estopIsLocked := false;
      scheduler := new Scheduler();
    }

    /** The station as a state of ThrottleRuns, with an empty history. */
    ghost function State(): T.World
      reads this, scheduler, scheduler.high, scheduler.low, scheduler.high.nodes, scheduler.low.nodes
    {
      T.World(scheduler.View(), estopIsLocked, map[], [], h)
    }

    method Schedule(cab: Cab, code: bv8, steps: Steps)
      requires scheduler.Valid()
      modifies scheduler, scheduler.high, scheduler.low, scheduler.all
      ensures scheduler.Valid() && scheduler.Kept()
      ensures scheduler.View() == T.SetThrottle(old(State()), cab, code, steps).q
    {
      hide Scheduler.Sound, Scheduler.View, ThrottlePacket, PacketQueue.SendSpeed, PacketQueue.SendEstop;
      var b, t := ThrottlePacket(cab, code, steps, h), T.TagOf(cab);
      if code & 0x7F == 1 {
        scheduler.SendEstop(b, 4, t);
      } else {
        scheduler.SendSpeed(b, 0, t);
      }
    }

    /** setThrottleDCC; cab 0 without `reverse` stands for no loco. */
    method SetThrottleDcc(cab: Cab, reverse: bool, speedCode: bv8, steps: Steps)
      requires scheduler.Valid()
      modifies scheduler, scheduler.high, scheduler.low, scheduler.all
      ensures scheduler.Valid() && scheduler.Kept()
      ensures scheduler.View() == T.Step(old(State()), T.Throttle(cab, reverse, speedCode, steps)).q
    {
      hide Scheduler.Sound, Scheduler.View, T.SetThrottle;
      var code := speedCode;
      if reverse {
        code := code ^ 0x80;
      }
      if estopIsLocked {
        code := (code & 0x80) | 0x01;
      }
      Schedule(cab, code, steps);
    }

    method EstopLock(lock: bool, steps: Steps)
      requires scheduler.Valid()
      modifies this, scheduler, scheduler.high, scheduler.low, scheduler.all
      ensures scheduler.Valid() && scheduler.Kept()
      ensures estopIsLocked == lock
      ensures scheduler.View() == T.Step(old(State()), if lock then T.Lock(steps) else T.Unlock).q
    {
      hide Scheduler.Sound, Scheduler.View, T.SetThrottle;
      if estopIsLocked == lock {
        return;
      }
      estopIsLocked := lock;
      if lock {
        SetThrottleDcc(0, false, 1, steps);
      }
    }
  }
}
