/**
 * The orientation hook of src/components/useOrientation.js.
 *
 * Every accelerometer sample is classified into one of four labels by a chain
 * of threshold tests checked in priority order; the hook publishes the label
 * only when it differs from the current one, remembers the time of the last
 * vertical reading (a ref that survives re-subscription), and keeps a
 * settling flag that a 1000 ms timer clears.
 */
module Orientation {

  datatype Label = Horizontal | Vertical | RightTilt | LeftTilt {
    predicate IsTilt() { this == RightTilt || this == LeftTilt }
  }

  /** Thresholds of the classification chain (strict comparisons). */
  const VerticalY: real := 7.0
  const TiltX: real := 3.0
  const FlatZ: real := 8.0
  /** Milliseconds after a vertical reading during which no tilt is accepted. */
  const TiltHoldMs: int := 500
  /** Milliseconds the settling timer waits before clearing `isInitialRender`. */
  const SettleMs: int := 1000

  function Abs(r: real): real {
    if r < 0.0 then -r else r
  }

  /** Rule 1 of the chain. */
  predicate VerticalFires(y: real) {
    Abs(y) > VerticalY
  }

  /** Rule 2 of the chain, including the failure of rule 1. */
  predicate TiltFires(x: real, y: real, now: int, lastVertical: int) {
    !VerticalFires(y) && Abs(x) > TiltX && now - lastVertical > TiltHoldMs
  }

  /** Rule 3 of the chain, including the failure of rules 1 and 2. */
  predicate FlatFires(x: real, y: real, z: real, now: int, lastVertical: int) {
    !VerticalFires(y) && !TiltFires(x, y, now, lastVertical) && Abs(z) > FlatZ
  }

  /**
   * The label one sample yields, given the time of the last vertical reading
   * and the current label (kept when no rule fires).
   */
  function Classify(x: real, y: real, z: real, now: int, lastVertical: int, current: Label): (r: Label)
    ensures VerticalFires(y) ==> r == Vertical
    ensures TiltFires(x, y, now, lastVertical) ==> r == (if x > 0.0 then RightTilt else LeftTilt)
    ensures FlatFires(x, y, z, now, lastVertical) ==> r == Horizontal
    // a label other than the current one is produced only by the rule that names it
    ensures r != current ==>
      (r == Vertical && VerticalFires(y)) ||
      (r.IsTilt() && TiltFires(x, y, now, lastVertical) && (r == RightTilt <==> x > 0.0)) ||
      (r == Horizontal && FlatFires(x, y, z, now, lastVertical))
    // no sample yields a tilt within the hold time of the last vertical reading
    ensures r.IsTilt() && now - lastVertical <= TiltHoldMs ==> r == current
  {
    if Abs(y) > VerticalY then Vertical
    else if Abs(x) > TiltX && now - lastVertical > TiltHoldMs then
      (if x > 0.0 then RightTilt else LeftTilt)
    else if Abs(z) > FlatZ then Horizontal
    else current
  }

  /** The hook's whole state: the `orientation` and `isInitialRender` states,
      the `lastVerticalTime` ref, and the time the settling timer was armed. */
  datatype State = State(orientation: Label, lastVerticalTime: int, isInitialRender: bool, timerArmedAt: int)

  /** What the hook receives: an accelerometer sample, or the clock reaching a time. */
  datatype Event = Sample(x: real, y: real, z: real, now: int) | Tick(at: int)

  /** The state right after mounting at time `mountedAt`. */
  function Initial(mountedAt: int): (s: State)
    ensures s.orientation == Horizontal && s.isInitialRender && s.lastVerticalTime == 0
  {
    State(Horizontal, 0, true, mountedAt)
  }

  /**
   * One sample. A vertical reading refreshes `lastVerticalTime` even when the
   * label is already vertical. A change of label re-runs the effect, which
   * clears the pending settling timer and arms a new one.
   */
  function AfterSample(s: State, x: real, y: real, z: real, now: int): (r: State)
    ensures r.orientation == Classify(x, y, z, now, s.lastVerticalTime, s.orientation)
    ensures r.lastVerticalTime == (if VerticalFires(y) then now else s.lastVerticalTime)
    ensures r.isInitialRender == s.isInitialRender
    ensures r.timerArmedAt == (if r.orientation != s.orientation then now else s.timerArmedAt)
  {
    var next := Classify(x, y, z, now, s.lastVerticalTime, s.orientation);
    State(next,
          if Abs(y) > VerticalY then now else s.lastVerticalTime,
          s.isInitialRender,
          if next != s.orientation then now else s.timerArmedAt)
  }

  /** The clock reaching `at`: the pending timer has fired once SettleMs elapsed. */
  function AfterTick(s: State, at: int): (r: State)
    ensures r.orientation == s.orientation && r.lastVerticalTime == s.lastVerticalTime
    ensures r.timerArmedAt == s.timerArmedAt
    ensures r.isInitialRender <==> s.isInitialRender && at - s.timerArmedAt < SettleMs
  {
    if s.isInitialRender && at - s.timerArmedAt >= SettleMs then s.(isInitialRender := false) else s
  }

  function Apply(s: State, e: Event): State {
    match e
    case Sample(x, y, z, now) => AfterSample(s, x, y, z, now)
    case Tick(at) => AfterTick(s, at)
  }

  /** The state after a stream of events, processed in arrival order. */
  function Run(s: State, events: seq<Event>): State
    decreases |events|
  {
    if events == [] then s else Run(Apply(s, events[0]), events[1..])
  }

  /** The time of an event. */
  function TimeOf(e: Event): int {
    match e
    case Sample(_, _, _, now) => now
    case Tick(at) => at
  }

  /**
   * Hysteresis: a vertical reading taken at time t is followed, up to t + 500 ms,
   * by no tilt label, whatever samples and timer ticks arrive in between.
   */
  lemma NoTiltAfterVertical(s: State, x: real, y: real, z: real, t: int, events: seq<Event>)
    requires VerticalFires(y)
    requires forall k :: 0 <= k < |events| && events[k].Sample? ==> t <= TimeOf(events[k]) <= t + TiltHoldMs
    ensures !Run(s, [Sample(x, y, z, t)] + events).orientation.IsTilt()
  {
    var s' := AfterSample(s, x, y, z, t);
    assert ([Sample(x, y, z, t)] + events)[1..] == events;
    NoTiltWithinHoldFrom(s', t, events);
  }

  /** The inductive core of NoTiltAfterVertical: from a non-tilt label whose last
      vertical reading is no earlier than t, samples up to t + 500 ms (and any
      timer ticks) keep it non-tilt. */
  lemma {:induction false} NoTiltWithinHoldFrom(s: State, t: int, events: seq<Event>)
    requires !s.orientation.IsTilt() && s.lastVerticalTime >= t
    requires forall k :: 0 <= k < |events| && events[k].Sample? ==> t <= TimeOf(events[k]) <= t + TiltHoldMs
    ensures !Run(s, events).orientation.IsTilt()
    ensures Run(s, events).lastVerticalTime >= t
    decreases |events|
  {
    if events != [] {
      var s' := Apply(s, events[0]);
      assert s'.lastVerticalTime >= t;
      assert forall k :: 0 <= k < |events[1..]| ==> events[1..][k] == events[k + 1];
      NoTiltWithinHoldFrom(s', t, events[1..]);
    }
  }

  /** The settling flag never goes back to true: no event sets it. */
  lemma {:induction false} SettledStaysSettled(s: State, events: seq<Event>)
    requires !s.isInitialRender
    ensures !Run(s, events).isInitialRender
    decreases |events|
  {
    if events != [] {
      SettledStaysSettled(Apply(s, events[0]), events[1..]);
    }
  }

  /**
   * Settling ends only through the timer: if the flag is cleared by a stream
   * of events, one of them is a tick at least SettleMs after the timer was
   * last armed.
   */
  lemma {:induction false} SettlingEndsOnlyByTimer(s: State, events: seq<Event>)
    requires s.isInitialRender && !Run(s, events).isInitialRender
    ensures exists k :: 0 <= k < |events| && events[k].Tick? &&
                        events[k].at - Run(s, events[..k]).timerArmedAt >= SettleMs
    decreases |events|
  {
    assert events != [];
    var s' := Apply(s, events[0]);
    assert events[..0] == [];
    if s'.isInitialRender {
      SettlingEndsOnlyByTimer(s', events[1..]);
      var k :| 0 <= k < |events[1..]| && events[1..][k].Tick? &&
               events[1..][k].at - Run(s', events[1..][..k]).timerArmedAt >= SettleMs;
      assert events[..k + 1] == [events[0]] + events[1..][..k];
      assert Run(s, events[..k + 1]) == Run(s', events[1..][..k]);
      assert events[k + 1] == events[1..][k];
    } else {
      assert events[0].Tick?;
      assert Run(s, events[..0]) == s;
    }
  }

  /** The hook as a stateful object: the fields the source keeps in React state and refs. */
  class Tracker {
    var orientation: Label
    var lastVerticalTime: int
    var isInitialRender: bool
    var timerArmedAt: int

    ghost function Snapshot(): State
      reads this
    {
      State(orientation, lastVerticalTime, isInitialRender, timerArmedAt)
    }

    /** Mounting at time `mountedAt`: subscribe and arm the settling timer. */
    constructor (mountedAt: int)
      ensures Snapshot() == Initial(mountedAt)
    {
      orientation := Horizontal;
      lastVerticalTime := 0;
      isInitialRender := true;
      timerArmedAt := mountedAt;
    }

    /** The subscription callback for one sample; `published` says whether
        `setOrientation` was called. */
    method OnSample(x: real, y: real, z: real, now: int) returns (published: bool)
      modifies this
      ensures Snapshot() == AfterSample(old(Snapshot()), x, y, z, now)
      ensures published <==> orientation != old(orientation)
    {
      var next: Label;
      if Abs(y) > VerticalY {
        next := Vertical;
        lastVerticalTime := now;
      } else if Abs(x) > TiltX && now - lastVerticalTime > TiltHoldMs {
        next := if x > 0.0 then RightTilt else LeftTilt;
      } else if Abs(z) > FlatZ {
        next := Horizontal;
      } else {
        next := orientation;
      }
      published := next != orientation;
      if published {
        orientation := next;
        timerArmedAt := now;
      }
    }

    /** The clock reaching `at`; the armed settling timer fires once SettleMs have passed. */
    method OnTick(at: int)
      modifies this
      ensures Snapshot() == AfterTick(old(Snapshot()), at)
    {
      if isInitialRender && at - timerArmedAt >= SettleMs {
        isInitialRender := false;
      }
    }
  }
}
