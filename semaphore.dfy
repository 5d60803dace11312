/** The counting gate `processFilesParallel` puts around each file: `acquire` takes a permit
    when one is free and otherwise joins a FIFO wait queue; `release` returns a permit and, when
    someone waits, hands it straight to the oldest waiter. A waiter is named by a number (the
    resolve callback the source queues). */
module Semaphores {

  class Semaphore {
    var permits: int
    var waitQueue: seq<nat>
    /** The permits handed out under a `permits` of `initial`. */
    const initial: int
    ghost var holders: int

    /** With a non-negative start, permits never go negative, someone waits only while no
        permit is free, and free plus held permits are the permits the gate started with. */
    ghost predicate Valid()
      reads this
    {
      permits >= 0 && (waitQueue != [] ==> permits == 0) && permits + holders == initial
    }

    constructor(permits: int)
      ensures this.permits == permits && waitQueue == [] && initial == permits && holders == 0
      ensures permits >= 0 ==> Valid()
    {
      this.permits := permits;
      waitQueue := [];
      initial := permits;
      holders := 0;
    }

    /** `acquire`: granted at once when a permit is free; otherwise `waiter` joins the back of
        the queue. */
    method Acquire(waiter: nat) returns (granted: bool)
      modifies this
      ensures granted <==> old(permits) > 0
      ensures granted ==> permits == old(permits) - 1 && waitQueue == old(waitQueue) && holders == old(holders) + 1
      ensures !granted ==> permits == old(permits) && waitQueue == old(waitQueue) + [waiter] && holders == old(holders)
      ensures old(Valid()) ==> Valid()
    {
      if permits > 0 {
        permits := permits - 1;
        holders := holders + 1;
        granted := true;
      } else {
        waitQueue := waitQueue + [waiter];
        granted := false;
      }
    }

    /** `release`: the permit comes back; when someone waits, the oldest waiter is woken and
        takes it. */
    method Release() returns (woken: Wake)
      modifies this
      ensures if old(waitQueue) == [] then
          woken == Nobody && permits == old(permits) + 1 && waitQueue == [] && holders == old(holders) - 1
        else
          woken == Woken(old(waitQueue)[0]) && permits == old(permits) &&
          waitQueue == old(waitQueue)[1..] && holders == old(holders)
      ensures old(Valid()) ==> Valid()
    {
      permits := permits + 1;
      holders := holders - 1;
      woken := Nobody;
      if waitQueue != [] {
        var next := waitQueue[0];
        waitQueue := waitQueue[1..];
        permits := permits - 1;
        holders := holders + 1;
        woken := Woken(next);
      }
    }
  }

  /** Whom a `release` wakes. */
  datatype Wake = Nobody | Woken(waiter: nat)
}
