/** The control panel's readout: frames per second, render size and the total
    vertex count, written at most once per 450 ms and only while the panel is
    open. Clock readings and engine figures arrive as a `Frame`. */
module UiReadout {
  import opened Common

  const ThrottleMs: real := 450.0

  /** One write of the three readout fields. */
  datatype Readout = Readout(time: real, fps: real, width: int, height: int, vertices: real)

  /** What the engine reports before a frame: the clock, the frame rate, the
      render size, and each scene mesh's vertex count as the engine returns it. */
  datatype Frame = Frame(now: real, fps: real, width: int, height: int, vertexCounts: seq<JsValue>)

  datatype PanelState = PanelState(visible: bool, lastUpdateTime: real, readouts: seq<Readout>)

  const InitialPanel: PanelState := PanelState(false, 0.0, [])

  /** `mesh.getTotalVertices() || 0`. */
  function VertexCount(v: JsValue): real {
    OrElse(v, 0.0)
  }

  /** The `reduce` in `getTotalVertices`: a left fold from `acc`. */
  function Reduce(acc: real, counts: seq<JsValue>): real
    decreases |counts|
  {
    if counts == [] then acc else Reduce(acc + VertexCount(counts[0]), counts[1..])
  }

  function TotalVertices(counts: seq<JsValue>): real {
    Reduce(0.0, counts)
  }

  /** A reference definition of the same total, by recursion from the right. */
  function Sum(counts: seq<JsValue>): real
    decreases |counts|
  {
    if counts == [] then 0.0 else Sum(counts[..|counts| - 1]) + VertexCount(counts[|counts| - 1])
  }

  lemma {:induction false} SumAppend(a: seq<JsValue>, b: seq<JsValue>)
    ensures Sum(a + b) == Sum(a) + Sum(b)
    decreases |b|
  {
    if b == [] {
      assert a + b == a;
    } else {
      var b' := b[..|b| - 1];
      assert (a + b)[..|a + b| - 1] == a + b';
      assert (a + b)[|a + b| - 1] == b[|b| - 1];
      SumAppend(a, b');
    }
  }

  /** The left fold computes the reference total. */
  lemma {:induction false} ReduceIsSum(acc: real, counts: seq<JsValue>)
    ensures Reduce(acc, counts) == acc + Sum(counts)
    decreases |counts|
  {
    if counts != [] {
      ReduceIsSum(acc + VertexCount(counts[0]), counts[1..]);
      SumAppend([counts[0]], counts[1..]);
      assert [counts[0]] + counts[1..] == counts;
      assert Sum([counts[0]]) == VertexCount(counts[0]) by {
        assert [counts[0]][..0] == [];
      }
    }
  }

  /** The total over two lists of meshes is the sum of their totals. */
  lemma TotalVerticesAppend(a: seq<JsValue>, b: seq<JsValue>)
    ensures TotalVertices(a + b) == TotalVertices(a) + TotalVertices(b)
  {
    ReduceIsSum(0.0, a + b);
    ReduceIsSum(0.0, a);
    ReduceIsSum(0.0, b);
    SumAppend(a, b);
  }

  /** A mesh whose count is missing (or 0) adds nothing to the total. */
  lemma MissingCountAddsNothing(a: seq<JsValue>, missing: JsValue, b: seq<JsValue>)
    requires !Truthy(missing)
    ensures TotalVertices(a + [missing] + b) == TotalVertices(a + b)
  {
    TotalVerticesAppend(a + [missing], b);
    TotalVerticesAppend(a, [missing]);
    TotalVerticesAppend(a, b);
    assert [missing][1..] == [];
    assert TotalVertices([missing]) == Reduce(0.0 + VertexCount(missing), []);
  }

  /** With no negative counts the total is not negative. */
  lemma {:induction false} TotalVerticesNonNegative(counts: seq<JsValue>)
    requires forall i :: 0 <= i < |counts| ==> counts[i].Num? ==> counts[i].n >= 0.0
    ensures TotalVertices(counts) >= 0.0
  {
    ReduceIsSum(0.0, counts);
    SumNonNegative(counts);
  }

  lemma {:induction false} SumNonNegative(counts: seq<JsValue>)
    requires forall i :: 0 <= i < |counts| ==> counts[i].Num? ==> counts[i].n >= 0.0
    ensures Sum(counts) >= 0.0
    decreases |counts|
  {
    if counts != [] {
      SumNonNegative(counts[..|counts| - 1]);
    }
  }

  /** The gate in the before-render observer. */
  predicate ShouldUpdate(now: real, lastUpdateTime: real, visible: bool) {
    now - lastUpdateTime > ThrottleMs && visible
  }

  /** The throttle's invariant over the history of writes: the first came more
      than 450 ms after time 0, each later one more than 450 ms after the one
      before, and `lastUpdateTime` is the time of the latest (0 before any). */
  predicate Throttled(s: PanelState) {
    (s.readouts == [] ==> s.lastUpdateTime == 0.0) &&
    (s.readouts != [] ==>
      s.lastUpdateTime == s.readouts[|s.readouts| - 1].time && s.readouts[0].time > ThrottleMs) &&
    (forall i :: 0 < i < |s.readouts| ==> s.readouts[i].time - s.readouts[i - 1].time > ThrottleMs)
  }

  /** The observer's work on one frame. */
  function OnFrame(s: PanelState, f: Frame): (r: PanelState)
    ensures r.visible == s.visible
    ensures Throttled(s) ==> Throttled(r)
    ensures r != s <==> ShouldUpdate(f.now, s.lastUpdateTime, s.visible)
    ensures r.lastUpdateTime != s.lastUpdateTime ==> r.readouts != s.readouts
    ensures r != s ==>
      r.lastUpdateTime == f.now &&
      r.readouts == s.readouts + [Readout(f.now, f.fps, f.width, f.height, TotalVertices(f.vertexCounts))]
  {
    if ShouldUpdate(f.now, s.lastUpdateTime, s.visible) then
      s.(lastUpdateTime := f.now,
         readouts := s.readouts + [Readout(f.now, f.fps, f.width, f.height, TotalVertices(f.vertexCounts))])
    else s
  }

  /** A click on the panel header. */
  function ToggleVisible(s: PanelState): (r: PanelState)
    ensures r.visible != s.visible
    ensures r.lastUpdateTime == s.lastUpdateTime && r.readouts == s.readouts
  {
    s.(visible := !s.visible)
  }

  function RunFrames(s: PanelState, frames: seq<Frame>): PanelState
    decreases |frames|
  {
    if frames == [] then s else RunFrames(OnFrame(s, frames[0]), frames[1..])
  }

  /** A hidden panel is never written, however many frames pass. */
  lemma {:induction false} HiddenPanelWritesNothing(s: PanelState, frames: seq<Frame>)
    requires !s.visible
    ensures RunFrames(s, frames) == s
    decreases |frames|
  {
    if frames != [] {
      HiddenPanelWritesNothing(OnFrame(s, frames[0]), frames[1..]);
    }
  }

  /** Across any run of frames the throttle holds and earlier writes stay. */
  lemma {:induction false} FramesKeepThrottle(s: PanelState, frames: seq<Frame>)
    requires Throttled(s)
    ensures Throttled(RunFrames(s, frames))
    ensures |RunFrames(s, frames).readouts| >= |s.readouts|
    ensures RunFrames(s, frames).readouts[..|s.readouts|] == s.readouts
    decreases |frames|
  {
    if frames != [] {
      var next := OnFrame(s, frames[0]);
      FramesKeepThrottle(next, frames[1..]);
      var last := RunFrames(next, frames[1..]);
      assert last.readouts[..|s.readouts|] == last.readouts[..|next.readouts|][..|s.readouts|];
    }
  }

  /** A gap of exactly 450 ms does not write; a longer one does. */
  lemma ThrottleBoundary(f: Frame)
    ensures OnFrame(PanelState(true, 100.0, []), f.(now := 550.0)) == PanelState(true, 100.0, [])
    ensures OnFrame(PanelState(true, 100.0, []), f.(now := 551.0)).readouts != []
  {
  }

  /** The panel's visibility flag and the observer's closure state. */
  class ControlPanel {
    var isControlPanelVisible: bool
    var lastUpdateTime: real
    var readouts: seq<Readout>

    function State(): PanelState
      reads this
    {
      PanelState(isControlPanelVisible, lastUpdateTime, readouts)
    }

    constructor ()
      ensures State() == InitialPanel && Throttled(State())
    {
      isControlPanelVisible, lastUpdateTime, readouts := false, 0.0, [];
    }

    method OnBeforeRender(f: Frame)
      modifies this`lastUpdateTime, this`readouts
      ensures State() == OnFrame(old(State()), f)
    {
      if f.now - lastUpdateTime > ThrottleMs && isControlPanelVisible {
        lastUpdateTime := f.now;
        var total := TotalVertices(f.vertexCounts);
        readouts := readouts + [Readout(f.now, f.fps, f.width, f.height, total)];
      }
    }

    method OnHeaderClick()
      modifies this`isControlPanelVisible
      ensures State() == ToggleVisible(old(State()))
    {
      isControlPanelVisible := !isControlPanelVisible;
    }
  }
}
