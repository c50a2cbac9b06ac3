/** A deadline on running time that can be paused (agent/deadline.go), over a logical clock. A timer
    fires in one step, at any time from when it is due, perhaps late. */
module Deadline {

  datatype Timer = None | Armed(due: int) | Fired

  class PausableDeadline {
    /** The running time allowed in all. */
    const d: int
    var now: int
    var remaining: int
    var started: int
    var timer: Timer
    /** Nested pauses; the clock runs only at zero. */
    var paused: nat
    var stopped: bool
    var fires: nat
    /** Running time used up to when the clock last started. */
    ghost var usedBefore: int

    /** The running time used so far. */
    ghost function Used(): int
      reads this
    {
      usedBefore + (if timer.Armed? then now - started else 0)
    }

    /** Out of time when it was paused, so never started again. */
    predicate Lost()
      reads this`timer, this`stopped, this`fires, this`remaining
    {
      timer.None? && !stopped && fires == 0 && remaining <= 0
    }

    ghost predicate Valid()
      reads this
    {
      && fires <= 1
      && (timer.Armed? ==> paused == 0 && !stopped && fires == 0 && started <= now && timer.due == started + remaining)
      && (fires == 0 && (timer.Armed? || !stopped) ==> remaining + usedBefore == d)
      && (timer.None? && !stopped && fires == 0 ==> paused > 0 || remaining <= 0)
      && (fires == 1 ==> usedBefore >= d && (timer.Fired? || remaining <= 0 || stopped))
      && (timer.Fired? ==> fires == 1 && !stopped)
    }

    constructor (d: int, now: int)
      ensures Valid() && this.d == d && this.now == now && Used() == 0 && fires == 0 && paused == 0 && !stopped && timer == Armed(now + d)
    {
      this.d, this.now, remaining, usedBefore := d, now, d, 0;
      started, timer, paused, stopped, fires := now, Armed(now + d), 0, false, 0;
    }

    /** Time passes. */
    method Tick(elapsed: nat)
      requires Valid()
      modifies this`now
      ensures Valid() && now == old(now) + elapsed
      ensures Used() == old(Used()) + (if timer.Armed? then elapsed else 0)
    {
      now := now + elapsed;
    }

    /** The timer fires: once, never while the clock is paused or stopped, and never before `d` of
        running time is used. */
    method Fire()
      requires Valid() && timer.Armed? && now >= timer.due
      modifies this`timer, this`fires, this`usedBefore
      ensures Valid() && old(fires) == 0 && fires == 1 && paused == 0 && !stopped && Used() == old(Used()) >= d
    {
      usedBefore := usedBefore + (now - started);
      timer, fires := Fired, 1;
    }

    /** Stops the clock. A pause after the timer was due but before it fired loses the deadline. */
    method Pause()
      requires Valid()
      modifies this`paused, this`remaining, this`timer, this`usedBefore
      ensures Valid() && paused == old(paused) + 1 && !timer.Armed? && Used() == old(Used())
      ensures !stopped && fires == 0 ==> remaining + Used() == d
      ensures Lost() <==> old(Lost()) || (old(timer).Armed? && now >= old(timer).due)
    {
      paused := paused + 1;
      if paused > 1 || stopped || timer.None? {
        return;
      }
      if timer.Armed? {
        remaining := remaining - (now - started);
        usedBefore := usedBefore + (now - started);
      } else {
        remaining := 0;
      }
      timer := None;
    }

    /** Starts the clock again once every pause is over, with the time that was left. */
    method Resume()
      requires Valid()
      modifies this`paused, this`started, this`timer
      ensures Valid() && paused == (if old(paused) > 0 then old(paused) - 1 else 0) && Used() == old(Used())
      ensures timer.Armed? <==> old(timer).Armed? || (paused == 0 && !stopped && old(timer).None? && remaining > 0)
      ensures !old(timer).Armed? && timer.Armed? ==> timer.due - now == remaining
      ensures Lost() <==> old(Lost())
    {
      if paused > 0 {
        paused := paused - 1;
      }
      if paused > 0 || stopped || !timer.None? || remaining <= 0 {
        return;
      }
      started, timer := now, Armed(now + remaining);
    }

    /** Releases the timer without firing. */
    method Stop()
      requires Valid()
      modifies this`stopped, this`timer, this`usedBefore
      ensures Valid() && stopped && timer.None? && fires == old(fires)
      ensures Used() == old(Used())
    {
      if timer.Armed? {
        usedBefore := usedBefore + (now - started);
      }
      stopped, timer := true, None;
    }

    /** A deadline that is neither stopped, fired nor lost is running, or paused with time left. */
    lemma StillPending()
      requires Valid() && !stopped && fires == 0 && !Lost()
      ensures timer.Armed? || (paused > 0 && remaining > 0)
      ensures (if timer.Armed? then timer.due - now else remaining) + Used() == d
    {}
  }

  // ---- every history ----

  datatype Event = Ticks(elapsed: nat) | Fires | Pauses | Resumes | Stops

  function TimeOf(e: Event): nat {
    if e.Ticks? then e.elapsed else 0
  }

  /** The time that passes over a history. */
  function Elapsed(events: seq<Event>): nat {
    if events == [] then 0 else Elapsed(events[..|events| - 1]) + TimeOf(events[|events| - 1])
  }

  method Step(p: PausableDeadline, e: Event)
    requires p.Valid()
    modifies p
    ensures p.Valid() && p.now == old(p.now) + TimeOf(e)
    ensures p.fires == old(p.fires) + (if e.Fires? && old(p.timer).Armed? && old(p.now) >= old(p.timer).due then 1 else 0)
    ensures p.paused == if e.Pauses? then old(p.paused) + 1 else if e.Resumes? && old(p.paused) > 0 then old(p.paused) - 1 else old(p.paused)
    ensures old(p.stopped) ==> p.stopped && p.fires == old(p.fires)
    ensures old(p.fires) == 1 ==> p.fires == 1
    ensures p.fires > old(p.fires) ==> old(p.paused) == 0 && !old(p.stopped) && old(p.Used()) >= p.d
    ensures old(p.Lost()) ==> p.fires == 0 && (p.Lost() || p.stopped)
    ensures p.Used() - old(p.Used()) == if e.Ticks? && old(p.timer).Armed? then e.elapsed else 0
  {
    match e
    case Ticks(elapsed) => p.Tick(elapsed);
    case Fires =>
      if p.timer.Armed? && p.now >= p.timer.due {
        p.Fire();
      }
    case Pauses => p.Pause();
    case Resumes => p.Resume();
    case Stops => p.Stop();
  }

  /** Over every history the deadline fires at most once, and only after `d` of running time. */
  method Replay(d: int, start: int, events: seq<Event>) returns (p: PausableDeadline)
    ensures fresh(p) && p.Valid() && p.now == start + Elapsed(events) && p.fires <= 1 && (p.fires == 1 ==> p.Used() >= d)
    ensures p.fires == 0 && !p.stopped ==> (if p.timer.Armed? then p.timer.due - p.now else p.remaining) + p.Used() == d
  {
    p := new PausableDeadline(d, start);
    var i := 0;
    while i < |events|
      invariant i <= |events| && fresh(p) && p.Valid() && p.d == d && p.now == start + Elapsed(events[..i])
    {
      assert events[..i + 1][..i] == events[..i];
      Step(p, events[i]);
      i := i + 1;
    }
    assert events[..i] == events;
  }

  /** A pause that comes after the timer is due, but before it fires, ends the deadline for good:
      whatever follows, it never fires. */
  method LatePauseNeverFires(p: PausableDeadline, events: seq<Event>)
    requires p.Valid() && p.timer.Armed? && p.now >= p.timer.due
    modifies p
    ensures p.Valid() && p.fires == 0 && p.Used() >= old(p.Used()) && p.now == old(p.now) + Elapsed(events)
  {
    p.Pause();
    var i := 0;
    while i < |events|
      invariant i <= |events| && p.Valid() && p.fires == 0 && (p.Lost() || p.stopped) && p.Used() >= old(p.Used())
      invariant p.now == old(p.now) + Elapsed(events[..i])
    {
      assert events[..i + 1][..i] == events[..i];
      Step(p, events[i]);
      i := i + 1;
    }
    assert events[..i] == events;
  }

  /** Such a deadline: all of its running time passes, and more of it, and then it is paused. */
  method NeverFired(d: nat, start: int, late: nat, events: seq<Event>) returns (p: PausableDeadline)
    ensures fresh(p) && p.Valid() && p.fires == 0 && p.Used() >= p.d == d && p.now == start + d + late + Elapsed(events)
  {
    p := new PausableDeadline(d, start);
    p.Tick(d + late);
    LatePauseNeverFires(p, events);
  }
}
