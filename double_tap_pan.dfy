/** Double-click / double-tap to centre: a tap detector on pointer-down times,
    the fly-to radius, and the animation lock that keeps a second centring
    from starting while one is in flight.

    Picking and the vector distance are engine work: their results arrive as a
    `PickView`. The animation itself is the record of what was launched. */
module DoubleTapPan {
  import opened Common

  /** Two pointer-downs closer than this many milliseconds form a double tap. */
  const DoubleTapThreshold: int := 300
  /** The duration, in frames, handed to the camera animation. */
  const CenterFrames: nat := 30
  /** The values `upperRadiusLimit || 7.0` and `lowerRadiusLimit || 2.0` fall back to. */
  const FallbackUpperRadius: real := 7.0
  const FallbackLowerRadius: real := 2.0

  datatype Point = Point(x: real, y: real, z: real)

  /** A pick as the engine reports it: no result at all, or a result with a hit
      flag and a picked point that may be missing. */
  datatype PickResult = NoPickResult | PickResult(hit: bool, pickedPoint: Option<Point>)

  /** What a centring attempt sees: the pick under the pointer, the distance from
      the camera target to the picked point, and the camera's radius limits. */
  datatype PickView = PickView(pick: PickResult, distance: real, upperRadiusLimit: JsValue, lowerRadiusLimit: JsValue)

  /** A launched camera animation: its target point, radius and length. */
  datatype FlyTo = FlyTo(target: Point, radius: real, frames: nat)

  /** The closure state: the last tap time, the lock, and the animation whose
      end callback is still to come. */
  datatype PanState = PanState(lastTap: int, isAnimating: bool, inFlight: Option<FlyTo>)

  datatype PanEvent =
    | PointerDown(time: int)
    | PointerDoubleTap(button: int)
    | OtherPointer
    | AnimationEnded

  const InitialPanState: PanState := PanState(0, false, None)

  /** The lock discipline: the lock is held exactly while an animation is in flight. */
  predicate LockHeld(s: PanState) {
    s.isAnimating <==> s.inFlight.Some?
  }

  /** `max(min(2 * distance, upper || 7), lower || 2)`. */
  function TargetRadius(distance: real, upper: JsValue, lower: JsValue): (r: real)
    ensures r >= OrElse(lower, FallbackLowerRadius)
    ensures r == OrElse(lower, FallbackLowerRadius) || r == Min(2.0 * distance, OrElse(upper, FallbackUpperRadius))
    ensures OrElse(lower, FallbackLowerRadius) <= OrElse(upper, FallbackUpperRadius) ==>
      r <= OrElse(upper, FallbackUpperRadius)
    ensures OrElse(lower, FallbackLowerRadius) <= 2.0 * distance <= OrElse(upper, FallbackUpperRadius) ==>
      r == 2.0 * distance
    ensures r >= Min(2.0 * distance, OrElse(upper, FallbackUpperRadius))
    ensures OrElse(lower, FallbackLowerRadius) <= OrElse(upper, FallbackUpperRadius) < 2.0 * distance ==>
      r == OrElse(upper, FallbackUpperRadius)
    ensures 2.0 * distance < OrElse(lower, FallbackLowerRadius) ==> r == OrElse(lower, FallbackLowerRadius)
  {
    Max(Min(distance * 2.0, OrElse(upper, FallbackUpperRadius)), OrElse(lower, FallbackLowerRadius))
  }

  /** A hit at distance 5 with limits 2..7 flies to radius 7. */
  lemma TargetRadiusExample()
    ensures TargetRadius(5.0, Num(7.0), Num(2.0)) == 7.0
  {
  }

  /** Unset limits, and limits of 0, fall back to 7 and 2. */
  lemma UnsetLimitsFallBack(distance: real)
    ensures TargetRadius(distance, Null, Undefined) == TargetRadius(distance, Num(7.0), Num(2.0))
    ensures TargetRadius(distance, Num(0.0), Num(0.0)) == TargetRadius(distance, Num(7.0), Num(2.0))
  {
  }

  /** `handleDoubleTap`'s decision: the animation to launch, if any. */
  function CenterRequest(isAnimating: bool, view: PickView): (r: Option<FlyTo>)
    ensures r.Some? <==>
      !isAnimating && view.pick.PickResult? && view.pick.hit && view.pick.pickedPoint.Some?
    ensures r.Some? ==>
      r.value.target == view.pick.pickedPoint.value && r.value.frames == CenterFrames &&
      r.value.radius == TargetRadius(view.distance, view.upperRadiusLimit, view.lowerRadiusLimit)
  {
    if isAnimating then None
    else if view.pick.PickResult? && view.pick.hit && view.pick.pickedPoint.Some? then
      Some(FlyTo(view.pick.pickedPoint.value,
                 TargetRadius(view.distance, view.upperRadiusLimit, view.lowerRadiusLimit),
                 CenterFrames))
    else None
  }

  /** `handleDoubleTap`: take the lock and launch the animation, or change nothing. */
  function Center(s: PanState, view: PickView): (r: PanState)
    ensures s.isAnimating ==> r == s
    ensures r.lastTap == s.lastTap
    ensures r != s ==> r.isAnimating && r.inFlight == CenterRequest(s.isAnimating, view)
    ensures CenterRequest(s.isAnimating, view).Some? ==>
      r == s.(isAnimating := true, inFlight := CenterRequest(s.isAnimating, view))
    ensures CenterRequest(s.isAnimating, view).None? ==> r == s
    ensures LockHeld(s) ==> LockHeld(r)
  {
    match CenterRequest(s.isAnimating, view)
    case None => s
    case Some(f) => s.(isAnimating := true, inFlight := Some(f))
  }

  /** The pointer-down rule of the tap detector. */
  predicate TapTriggers(lastTap: int, time: int) {
    0 < time - lastTap < DoubleTapThreshold
  }

  /** The tap time the detector remembers after a pointer-down: 0 after a
      double tap, so that a third tap cannot pair with the second. */
  function NextTap(lastTap: int, time: int): int {
    if TapTriggers(lastTap, time) then 0 else time
  }

  /** One event as the closures in the pan setup handle it. */
  function Step(s: PanState, ev: PanEvent, view: PickView): (r: PanState)
    ensures LockHeld(s) ==> LockHeld(r)
    ensures s.isAnimating && !ev.AnimationEnded? ==> r.isAnimating && r.inFlight == s.inFlight
    ensures ev.AnimationEnded? ==> !r.isAnimating && r.inFlight.None?
    ensures !s.isAnimating && r.isAnimating ==>
      (ev == PointerDoubleTap(0) || (ev.PointerDown? && TapTriggers(s.lastTap, ev.time))) &&
      r.inFlight == CenterRequest(false, view)
    ensures (!s.isAnimating && CenterRequest(false, view).Some? &&
             (ev == PointerDoubleTap(0) || (ev.PointerDown? && TapTriggers(s.lastTap, ev.time)))) ==>
      r.isAnimating && r.inFlight == CenterRequest(false, view)
    ensures ev.PointerDown? ==> r.lastTap == NextTap(s.lastTap, ev.time)
    ensures !ev.PointerDown? ==> r.lastTap == s.lastTap
  {
    match ev
    case PointerDoubleTap(button) =>
      if button == 0 then Center(s, view) else s
    case PointerDown(time) =>
      if TapTriggers(s.lastTap, time) then Center(s, view).(lastTap := 0)
      else s.(lastTap := time)
    case OtherPointer =>
      s
    case AnimationEnded =>
      s.(isAnimating := false, inFlight := None)
  }

  /** A sequence of events, each with the view it sees. */
  function Run(s: PanState, evs: seq<(PanEvent, PickView)>): PanState
    decreases |evs|
  {
    if evs == [] then s else Run(Step(s, evs[0].0, evs[0].1), evs[1..])
  }

  /** While the lock is held, no event but the end of the animation releases it
      or replaces the animation in flight. */
  lemma {:induction false} LockHeldUntilAnimationEnds(s: PanState, evs: seq<(PanEvent, PickView)>)
    requires s.isAnimating
    requires forall i :: 0 <= i < |evs| ==> !evs[i].0.AnimationEnded?
    ensures Run(s, evs).isAnimating && Run(s, evs).inFlight == s.inFlight
    decreases |evs|
  {
    if evs != [] {
      LockHeldUntilAnimationEnds(Step(s, evs[0].0, evs[0].1), evs[1..]);
    }
  }

  /** The tap detector alone: which of a series of pointer-downs trigger. */
  function Triggers(lastTap: int, times: seq<int>): (fired: seq<bool>)
    ensures |fired| == |times|
    decreases |times|
  {
    if times == [] then []
    else [TapTriggers(lastTap, times[0])] + Triggers(NextTap(lastTap, times[0]), times[1..])
  }

  /** The tap time the detector remembers after a series of pointer-downs. */
  function TapAfter(lastTap: int, times: seq<int>): int
    decreases |times|
  {
    if times == [] then lastTap else TapAfter(NextTap(lastTap, times[0]), times[1..])
  }

  predicate NoAdjacentTriggers(fired: seq<bool>) {
    forall i :: 0 <= i < |fired| - 1 ==> !(fired[i] && fired[i + 1])
  }

  /** A trigger resets the detector, so with clock readings of at least 300 ms
      no two consecutive pointer-downs both trigger. */
  lemma {:induction false} NoTwoTriggersInARow(lastTap: int, times: seq<int>)
    requires forall i :: 0 <= i < |times| ==> times[i] >= DoubleTapThreshold
    ensures NoAdjacentTriggers(Triggers(lastTap, times))
    decreases |times|
  {
    if times != [] {
      var fire := TapTriggers(lastTap, times[0]);
      var next := NextTap(lastTap, times[0]);
      var rest := Triggers(next, times[1..]);
      NoTwoTriggersInARow(next, times[1..]);
      var fired := Triggers(lastTap, times);
      assert fired == [fire] + rest;
      forall i | 0 <= i < |fired| - 1 ensures !(fired[i] && fired[i + 1]) {
        if i == 0 {
          if fire {
            assert times[1..][0] == times[1];
            assert !TapTriggers(0, times[1]);
            assert fired[1] == rest[0];
          }
        } else {
          assert fired[i] == rest[i - 1] && fired[i + 1] == rest[i];
        }
      }
    }
  }

  /** The detector alone predicts the event handler: over a run of
      pointer-downs, `Run` remembers the tap time `TapAfter` ends in. A free lock
      is taken only if some tap fires, and when every pick hits with a point,
      it is taken exactly when some tap fires. */
  lemma {:induction false} RunMatchesTriggers(s: PanState, evs: seq<(PanEvent, PickView)>, times: seq<int>)
    requires |evs| == |times|
    requires forall i :: 0 <= i < |evs| ==> evs[i].0 == PointerDown(times[i])
    ensures Run(s, evs).lastTap == TapAfter(s.lastTap, times)
    ensures !s.isAnimating && Run(s, evs).isAnimating ==> true in Triggers(s.lastTap, times)
    ensures (!s.isAnimating && true in Triggers(s.lastTap, times) &&
             forall i :: 0 <= i < |evs| ==> CenterRequest(false, evs[i].1).Some?) ==>
      Run(s, evs).isAnimating
    decreases |evs|
  {
    if evs != [] {
      var s1 := Step(s, evs[0].0, evs[0].1);
      var fire := TapTriggers(s.lastTap, times[0]);
      assert Triggers(s.lastTap, times) == [fire] + Triggers(NextTap(s.lastTap, times[0]), times[1..]);
      assert forall i :: 0 <= i < |evs[1..]| ==> evs[1..][i].0 == PointerDown(times[1..][i]) by {
        forall i | 0 <= i < |evs[1..]| ensures evs[1..][i].0 == PointerDown(times[1..][i]) {
          assert evs[1..][i] == evs[i + 1];
        }
      }
      RunMatchesTriggers(s1, evs[1..], times[1..]);
      if s1.isAnimating {
        LockHeldUntilAnimationEnds(s1, evs[1..]);
      }
      if !s.isAnimating && fire && (forall i :: 0 <= i < |evs| ==> CenterRequest(false, evs[i].1).Some?) {
        assert CenterRequest(false, evs[0].1).Some?;
      }
      if !s.isAnimating && (forall i :: 0 <= i < |evs| ==> CenterRequest(false, evs[i].1).Some?) {
        assert forall i :: 0 <= i < |evs[1..]| ==> CenterRequest(false, evs[1..][i].1).Some? by {
          forall i | 0 <= i < |evs[1..]| ensures CenterRequest(false, evs[1..][i].1).Some? {
            assert evs[1..][i] == evs[i + 1];
          }
        }
      }
    }
  }

  /** Three quick taps trigger exactly once, on the second. */
  lemma ThreeQuickTaps(lastTap: int, t1: int, t2: int, t3: int)
    requires !TapTriggers(lastTap, t1)
    requires 0 < t2 - t1 < DoubleTapThreshold
    requires t3 >= DoubleTapThreshold
    ensures Triggers(lastTap, [t1, t2, t3]) == [false, true, false]
  {
    assert [t1, t2, t3][1..] == [t2, t3];
    assert [t2, t3][1..] == [t3];
    assert Triggers(0, [t3]) == [false] + Triggers(t3, []);
    assert Triggers(t1, [t2, t3]) == [true] + Triggers(0, [t3]);
    assert Triggers(lastTap, [t1, t2, t3]) == [false] + Triggers(t1, [t2, t3]);
  }

  /** A gap of 150 triggers; gaps of 400 and of exactly 300 do not. */
  lemma TapGapExamples()
    ensures Triggers(0, [0, 150]) == [false, true]
    ensures Triggers(0, [0, 400]) == [false, false]
    ensures Triggers(0, [1000, 1300]) == [false, false]
  {
    assert [0, 150][1..] == [150];
    assert [0, 400][1..] == [400];
    assert [1000, 1300][1..] == [1300];
  }

  /** A first double-click starts an animation, a second one during it does
      nothing, and one after the end callback starts another. */
  lemma DoubleClickSequence(view: PickView)
    requires view.pick.PickResult? && view.pick.hit && view.pick.pickedPoint.Some?
    ensures var s1 := Step(InitialPanState, PointerDoubleTap(0), view);
      var s2 := Step(s1, PointerDoubleTap(0), view);
      var s3 := Step(s2, AnimationEnded, view);
      var s4 := Step(s3, PointerDoubleTap(0), view);
      s1.isAnimating && s2 == s1 && !s3.isAnimating && s4.isAnimating && s4.inFlight.Some?
  {
  }

  /** A miss, or a hit without a point, leaves everything as it was. */
  lemma MissChangesNothing(s: PanState, view: PickView)
    requires !(view.pick.PickResult? && view.pick.hit && view.pick.pickedPoint.Some?)
    ensures Center(s, view) == s
  {
  }

  /** The closure state of the pan setup, as an object. */
  class PanController {
    var lastTap: int
    var isAnimating: bool
    var inFlight: Option<FlyTo>

    function State(): PanState
      reads this
    {
      PanState(lastTap, isAnimating, inFlight)
    }

    constructor ()
      ensures State() == InitialPanState
    {
      lastTap, isAnimating, inFlight := 0, false, None;
    }

    method HandleDoubleTap(view: PickView)
      modifies this`isAnimating, this`inFlight
      ensures State() == Center(old(State()), view)
    {
      if isAnimating {
        return;
      }
      var pick := view.pick;
      if pick.PickResult? && pick.hit && pick.pickedPoint.Some? {
        var radius := TargetRadius(view.distance, view.upperRadiusLimit, view.lowerRadiusLimit);
        isAnimating := true;
        inFlight := Some(FlyTo(pick.pickedPoint.value, radius, CenterFrames));
      }
    }

    /** The animation's end callback. */
    method OnAnimationEnd()
      modifies this`isAnimating, this`inFlight
      ensures State() == old(State()).(isAnimating := false, inFlight := None)
    {
      isAnimating := false;
      inFlight := None;
    }

    method OnEvent(ev: PanEvent, view: PickView)
      modifies this
      ensures State() == Step(old(State()), ev, view)
    {
      match ev {
        case PointerDoubleTap(button) =>
          if button == 0 {
            HandleDoubleTap(view);
          }
        case PointerDown(time) =>
          var tapLength := time - lastTap;
          if tapLength < DoubleTapThreshold && tapLength > 0 {
            HandleDoubleTap(view);
            lastTap := 0;
          } else {
            lastTap := time;
          }
        case OtherPointer =>
        case AnimationEnded =>
          OnAnimationEnd();
      }
    }
  }
}
