/**
 * The push-button click detector. Each poll samples the button level
 * (true = released, because the input has a pull-up) and the clock, and
 * reports a single click once the double-click window has passed without a
 * second press, or a double click when a second press falls inside it.
 * Time is an integer tick count (milliseconds) instead of float seconds.
 */
module SwitchHandler {

  import opened Wrappers

  /** The events a poll can report besides nothing: a single click ('timeout') or a double click. */
  datatype Click = Timeout | Double

  /** The default double-click window: 0.3 s, in milliseconds. */
  const DefaultThreshold: int := 300

  /** The detector's fields, as a value. */
  datatype SwitchState = SwitchState(lastState: bool, waitingForDoubleClick: bool, lastClickTime: int)

  /** The state a freshly constructed detector starts in: released, nothing pending. */
  const Initial: SwitchState := SwitchState(true, false, 0)

  /** What one poll produces: the new fields and the reported event. */
  datatype Poll = Poll(next: SwitchState, event: Option<Click>)

  /** A press edge: the level falls from released to pressed. */
  predicate IsPress(s: SwitchState, level: bool)
  {
    s.lastState && !level
  }

  /** The pending click has waited out the window. */
  predicate TimedOut(s: SwitchState, threshold: int, now: int)
  {
    s.waitingForDoubleClick && now - s.lastClickTime >= threshold
  }

  /**
   * One poll. The timeout check runs first and may report a single click; an
   * edge is then handled, and a press either pairs with the pending click
   * (a double click) or starts a new wait.
   */
  function Step(s: SwitchState, threshold: int, level: bool, now: int): (p: Poll)
    ensures p.next.lastState == level
    ensures p.event == Some(Double) ==> !p.next.waitingForDoubleClick
    ensures p.next.waitingForDoubleClick ==>
      if IsPress(s, level) then p.next.lastClickTime == now else p.next == s.(lastState := level)
  {
    var waiting := if TimedOut(s, threshold, now) then false else s.waitingForDoubleClick;
    var event: Option<Click> := if TimedOut(s, threshold, now) then Some(Timeout) else None;
    if level != s.lastState && !level then
      if waiting && now - s.lastClickTime < threshold then
        Poll(SwitchState(level, false, s.lastClickTime), Some(Double))
      else
        Poll(SwitchState(level, true, now), event)
    else
      Poll(SwitchState(level, waiting, s.lastClickTime), event)
  }

  class SwitchHandler {
    var lastState: bool
    var lastClickTime: int
    const doubleClickThreshold: int
    var waitingForDoubleClick: bool

    /** The fields as a value. */
    function State(): SwitchState
      reads this
    {
      SwitchState(lastState, waitingForDoubleClick, lastClickTime)
    }

    constructor (threshold: int := DefaultThreshold)
      ensures State() == Initial && doubleClickThreshold == threshold
    {
      lastState := true;
      lastClickTime := 0;
      doubleClickThreshold := threshold;
      waitingForDoubleClick := false;
    }

    /** Samples one poll: `level` is the button input and `now` the clock. */
    method Update(level: bool, now: int) returns (event: Option<Click>)
      modifies this
      ensures Poll(State(), event) == Step(old(State()), doubleClickThreshold, level, now)
    {
      event := None;
      if waitingForDoubleClick && now - lastClickTime >= doubleClickThreshold {
        waitingForDoubleClick := false;
        event := Some(Timeout);
      }
      if level != lastState {
        lastState := level;
        if !level {
          var isDoubleClick := waitingForDoubleClick && now - lastClickTime < doubleClickThreshold;
          if isDoubleClick {
            waitingForDoubleClick := false;
            event := Some(Double);
          } else {
            waitingForDoubleClick := true;
            lastClickTime := now;
          }
        }
      }
    }
  }

  // ---- Properties of one poll ----

  /** The reported event, completely: a double click exactly when a press lands inside the window, a timeout exactly when the window ran out. */
  lemma StepEvent(s: SwitchState, threshold: int, level: bool, now: int)
    ensures Step(s, threshold, level, now).event == Some(Double) <==>
      IsPress(s, level) && s.waitingForDoubleClick && now - s.lastClickTime < threshold
    ensures Step(s, threshold, level, now).event == Some(Timeout) <==> TimedOut(s, threshold, now)
    ensures Step(s, threshold, level, now).next.lastState == level
  {
  }

  /** A press with nothing pending starts a wait at the current time and reports no double click. */
  lemma PressStartsWait(s: SwitchState, threshold: int, level: bool, now: int)
    requires IsPress(s, level) && !s.waitingForDoubleClick
    ensures Step(s, threshold, level, now) == Poll(SwitchState(false, true, now), None)
  {
  }

  /** A press inside the window is a double click and clears the wait. */
  lemma PressInWindowIsDouble(s: SwitchState, threshold: int, level: bool, now: int)
    requires IsPress(s, level) && s.waitingForDoubleClick && now - s.lastClickTime < threshold
    ensures Step(s, threshold, level, now).event == Some(Double)
    ensures !Step(s, threshold, level, now).next.waitingForDoubleClick
  {
  }

  /**
   * Once the window has run out the poll reports a single click and clears
   * the wait, whatever the level does; a press in the same poll only starts
   * a fresh wait.
   */
  lemma TimeoutWins(s: SwitchState, threshold: int, level: bool, now: int)
    requires TimedOut(s, threshold, now)
    ensures Step(s, threshold, level, now).event == Some(Timeout)
    ensures Step(s, threshold, level, now).next ==
      if IsPress(s, level) then SwitchState(false, true, now)
      else SwitchState(level, false, s.lastClickTime)
  {
  }

  /** A release edge changes only the remembered level (besides a timeout that was due anyway). */
  lemma ReleaseOnlyRecordsLevel(s: SwitchState, threshold: int, level: bool, now: int)
    requires !s.lastState && level && !TimedOut(s, threshold, now)
    ensures Step(s, threshold, level, now) == Poll(s.(lastState := true), None)
  {
  }

  // ---- Runs of polls ----

  /** The events reported by a sequence of (level, time) polls, in order, and the final fields. */
  function Run(s: SwitchState, threshold: int, polls: seq<(bool, int)>): (r: (SwitchState, seq<Option<Click>>))
    ensures |r.1| == |polls|
    ensures r.0.lastState == if polls == [] then s.lastState else polls[|polls| - 1].0
    decreases |polls|
  {
    if polls == [] then (s, [])
    else
      var p := Step(s, threshold, polls[0].0, polls[0].1);
      var rest := Run(p.next, threshold, polls[1..]);
      (rest.0, [p.event] + rest.1)
  }

  /** How many times `e` occurs among the reported events. */
  function Count(events: seq<Option<Click>>, e: Click): nat
  {
    if events == [] then 0
    else (if events[0] == Some(e) then 1 else 0) + Count(events[1..], e)
  }

  /** The button, once released, stays released: a poll sequence with no press edge after a held button. */
  predicate ReleasedOnce(polls: seq<(bool, int)>)
  {
    forall i, j | 0 <= i < j < |polls| :: polls[i].0 ==> polls[j].0
  }

  /** Index of the first poll at which a click made at `t0` has timed out, if any. */
  function FirstDue(polls: seq<(bool, int)>, threshold: int, t0: int): (k: nat)
    ensures k <= |polls|
    ensures forall i | 0 <= i < k :: polls[i].1 - t0 < threshold
    ensures k < |polls| ==> polls[k].1 - t0 >= threshold
  {
    if polls == [] || polls[0].1 - t0 >= threshold then 0
    else 1 + FirstDue(polls[1..], threshold, t0)
  }

  /**
   * After a click at `t0` that is still held or released, with no further
   * press, exactly one single click is reported, at the first poll whose
   * time is past the window, and no double click at all.
   */
  lemma {:induction false} LoneClickTimesOutOnce(s: SwitchState, threshold: int, polls: seq<(bool, int)>)
    requires s.waitingForDoubleClick && ReleasedOnce(polls)
    requires s.lastState ==> forall i | 0 <= i < |polls| :: polls[i].0
    ensures var k := FirstDue(polls, threshold, s.lastClickTime);
      var events := Run(s, threshold, polls).1;
      && Count(events, Timeout) == (if k < |polls| then 1 else 0)
      && Count(events, Double) == 0
      && (k < |polls| ==> events[k] == Some(Timeout))
    decreases |polls|
  {
    if polls != [] {
      var p := Step(s, threshold, polls[0].0, polls[0].1);
      assert ReleasedOnce(polls[1..]);
      if polls[0].1 - s.lastClickTime >= threshold {
        assert !p.next.waitingForDoubleClick;
        QuietAfterTimeout(p.next, threshold, polls[1..]);
      } else {
        assert p.next.waitingForDoubleClick && p.next.lastClickTime == s.lastClickTime;
        LoneClickTimesOutOnce(p.next, threshold, polls[1..]);
      }
    }
  }

  /** With nothing pending and no press edge, a run reports nothing. */
  lemma {:induction false} QuietAfterTimeout(s: SwitchState, threshold: int, polls: seq<(bool, int)>)
    requires !s.waitingForDoubleClick && ReleasedOnce(polls)
    requires s.lastState ==> forall i | 0 <= i < |polls| :: polls[i].0
    ensures Count(Run(s, threshold, polls).1, Timeout) == 0
    ensures Count(Run(s, threshold, polls).1, Double) == 0
    decreases |polls|
  {
    if polls != [] {
      var p := Step(s, threshold, polls[0].0, polls[0].1);
      assert ReleasedOnce(polls[1..]);
      QuietAfterTimeout(p.next, threshold, polls[1..]);
    }
  }

  /** Press at 0, release, press again at 200 ms: exactly one double click and no single click. */
  lemma DoubleClickScenario()
    ensures var events := Run(Initial, DefaultThreshold, [(false, 0), (true, 100), (false, 200), (true, 250), (true, 600), (true, 900)]).1;
      Count(events, Double) == 1 && Count(events, Timeout) == 0
  {
    var waiting := SwitchState(true, true, 0);
    var idle := SwitchState(true, false, 0);
    assert Run(idle, DefaultThreshold, [(true, 600), (true, 900)]).1 == [None, None];
    assert Run(SwitchState(false, false, 0), DefaultThreshold, [(true, 250), (true, 600), (true, 900)]).1 == [None, None, None];
    assert Run(waiting, DefaultThreshold, [(false, 200), (true, 250), (true, 600), (true, 900)]).1 == [Some(Double), None, None, None];
    assert Run(SwitchState(false, true, 0), DefaultThreshold, [(true, 100), (false, 200), (true, 250), (true, 600), (true, 900)]).1
        == [None, Some(Double), None, None, None];
    var events := [None, None, Some(Double), None, None, None];
    assert Run(Initial, DefaultThreshold, [(false, 0), (true, 100), (false, 200), (true, 250), (true, 600), (true, 900)]).1 == events;
    assert events[1..] == [None, Some(Double), None, None, None];
    assert events[2..] == [Some(Double), None, None, None];
    assert events[3..] == [None, None, None];
  }

  /** Press at 0 and release: the single click is reported at the first poll at or after 300 ms. */
  lemma SingleClickScenario()
    ensures Run(Initial, DefaultThreshold, [(false, 0), (true, 100), (true, 200), (true, 290), (true, 300), (true, 310)]).1
         == [None, None, None, None, Some(Timeout), None]
  {
    var waiting := SwitchState(true, true, 0);
    assert Run(waiting, DefaultThreshold, [(true, 300), (true, 310)]).1 == [Some(Timeout), None];
    assert Run(waiting, DefaultThreshold, [(true, 200), (true, 290), (true, 300), (true, 310)]).1 == [None, None, Some(Timeout), None];
  }
}
