/** The pool of timers as an object: a bounded channel that hands timers out reset and takes them back stopped. */
module TimerPool {

  class Timer {
    var active: bool     // running
    var pending: bool    // its channel holds a tick
    var duration: int

    constructor (duration: int)
      ensures active && !pending && this.duration == duration
    {
      active, pending, this.duration := true, false, duration;
    }

    method Stop()
      modifies this
      ensures !active && pending == old(pending) && duration == old(duration)
    {
      active := false;
    }

    /** A non-blocking receive from the timer's channel. */
    method Drain()
      modifies this
      ensures !pending && active == old(active) && duration == old(duration)
    {
      if pending {
        pending := false;
      }
    }

    method Reset(d: int)
      modifies this
      ensures active && duration == d && pending == old(pending)
    {
      active, duration := true, d;
    }
  }

  class TimerPool {
    var ch: seq<Timer>
    const capacity: nat
    const duration: int

    /** No pooled timer runs or holds a tick, so none wakes its next user early; none is pooled twice. */
    ghost predicate Valid()
      reads this, ch
    {
      && |ch| <= capacity
      && (forall i :: 0 <= i < |ch| ==> !ch[i].active && !ch[i].pending)
      && (forall i, j :: 0 <= i < j < |ch| ==> ch[i] != ch[j])
    }

    constructor (size: nat, timeout: int)
      ensures Valid() && capacity == size && duration == timeout
      ensures |ch| == size && forall i :: 0 <= i < |ch| ==> fresh(ch[i])
    {
      ch, capacity, duration := [], size, timeout;
      new;
      for n := 0 to size
        invariant |ch| == n && capacity == size && duration == timeout
        invariant forall i :: 0 <= i < |ch| ==> fresh(ch[i])
        invariant Valid()
      {
        var timer := new Timer(timeout);
        timer.Stop();
        timer.Drain();
        ch := ch + [timer];
      }
    }

    /** Takes the oldest timer; with none in the pool the call blocks, so it only proceeds when there is one. */
    method Get() returns (timer: Timer)
      requires Valid() && |ch| > 0
      modifies this, ch
      ensures Valid()
      ensures timer == old(ch)[0] && ch == old(ch)[1..]
      ensures timer !in ch && timer.active && !timer.pending && timer.duration == duration
    {
      timer := ch[0];
      ch := ch[1..];
      timer.Reset(duration);
    }

    /** Gives a timer back stopped and drained; a full pool drops it. */
    method Put(timer: Timer)
      requires Valid()
      modifies this, timer
      ensures timer !in old(ch) ==> Valid()
      ensures ch == if |old(ch)| < capacity then old(ch) + [timer] else old(ch)
      ensures !timer.active && !timer.pending
    {
      timer.Stop();
      timer.Drain();
      if |ch| < capacity {
        ch := ch + [timer];
      }
    }
  }
}
