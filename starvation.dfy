// The "too many particles" warning: `notify_starvation` and the info-panel timer, as
// example/code/sandbox.cpp, example/code/ui.cpp and example/code/main.cpp each define them.
//
// A burst reports the particles it could not place; a non-zero total lights the warning
// for one second, and the timer runs down by the frame time, never below zero.

module Starvation {

  /** `fmax(timer - dt, 0)`: the warning timer after a frame of `dt` seconds. */
  function Decay(timer: real, dt: real): (r: real)
    ensures r >= 0.0
    ensures r == 0.0 || r == timer - dt
    ensures dt >= 0.0 ==> r <= timer || r == 0.0
    ensures timer <= dt ==> r == 0.0
    ensures timer > dt ==> r > 0.0
  {
    if timer - dt > 0.0 then timer - dt else 0.0
  }

  /**
   * After a notification the warning stays visible (timer > 0) for as long as the frame
   * times add up to less than one second.
   */
  lemma {:induction false} WarningLasts(dts: seq<real>)
    requires forall i :: 0 <= i < |dts| ==> dts[i] >= 0.0
    requires Total(dts) < 1.0
    ensures DecayAll(1.0, dts) == 1.0 - Total(dts)
    ensures DecayAll(1.0, dts) > 0.0
  {
    if dts != [] {
      var init := dts[..|dts| - 1];
      assert forall i :: 0 <= i < |init| ==> init[i] == dts[i];
      assert Total(init) <= Total(dts);
      WarningLasts(init);
    }
  }

  /** The timer after the frames `dts`, oldest first. */
  function DecayAll(timer: real, dts: seq<real>): real
  {
    if dts == [] then timer else Decay(DecayAll(timer, dts[..|dts| - 1]), dts[|dts| - 1])
  }

  function Total(dts: seq<real>): real
  {
    if dts == [] then 0.0 else Total(dts[..|dts| - 1]) + dts[|dts| - 1]
  }

  /** The count after `notify_starvation` is called with each of `shortfalls`, from `count`. */
  function Reported(count: int, shortfalls: seq<int>): int
  {
    if shortfalls == [] then count else Reported(count, shortfalls[..|shortfalls| - 1]) + shortfalls[|shortfalls| - 1]
  }

  /**
   * The timer after the same notifications: set to 1 by any notification after which the
   * count is non-zero, otherwise as it was.
   */
  function Notified(count: int, timer: real, shortfalls: seq<int>): real
  {
    if shortfalls == [] then timer
    else if Reported(count, shortfalls) != 0 then 1.0
    else Notified(count, timer, shortfalls[..|shortfalls| - 1])
  }

  /** Notifying `s` and then `t` leaves the count and the timer that notifying `s + t` does. */
  lemma {:induction false} NotificationsCompose(count: int, timer: real, s: seq<int>, t: seq<int>)
    ensures Reported(count, s + t) == Reported(Reported(count, s), t)
    ensures Notified(count, timer, s + t) == Notified(Reported(count, s), Notified(count, timer, s), t)
  {
    if t == [] {
      assert s + t == s;
    } else {
      var init := t[..|t| - 1];
      NotificationsCompose(count, timer, s, init);
      assert (s + t)[..|s + t| - 1] == s + init;
    }
  }

  /** The globals `starvation_count` and `starvation_timer`. */
  class StarvationReport {
    var count: int
    var timer: real

    /** Both globals start at zero. */
    constructor ()
      ensures count == 0 && timer == 0.0
    {
      count := 0;
      timer := 0.0;
    }

    /** The warning is on screen while the timer is positive. */
    predicate Showing()
      reads this
    {
      timer > 0.0
    }

    /** `notify_starvation`: adds to the count; a non-zero total restarts the timer at 1. */
    method Notify(shortfall: int)
      modifies this
      ensures count == old(count) + shortfall
      ensures timer == if count != 0 then 1.0 else old(timer)
      ensures count == Reported(old(count), [shortfall]) && timer == Notified(old(count), old(timer), [shortfall])
    {
      assert [shortfall][..0] == [];
      count := count + shortfall;
      if count != 0 {
        timer := 1.0;
      }
    }

    /** The info panel of example/code/ui.cpp: the timer runs down and the count is cleared. */
    method PanelTick(dt: real)
      modifies this
      ensures timer == Decay(old(timer), dt) && count == 0
    {
      timer := timer - dt;
      timer := if timer > 0.0 then timer else 0.0;
      count := 0;
    }

    /** The start of `do_frame` in example/code/main.cpp: the count is cleared. */
    method FrameStart()
      modifies this`count
      ensures count == 0
    {
      count := 0;
    }

    /** The info panel of example/code/main.cpp: the timer runs down. */
    method FrameEnd(dt: real)
      modifies this`timer
      ensures timer == Decay(old(timer), dt)
    {
      timer := timer - dt;
      timer := if timer > 0.0 then timer else 0.0;
    }
  }
}
