// The split-pane divider: every drag sample moves the bound pane size by
// the gesture's translation along the divider's axis and clamps it into
// [minSize, maxSize].
module Divider {
  import opened Geometry
  import opened Wrappers

  /** Bounds the main window gives both of its dividers: a minimum of 100
      and a maximum of half the window's width. */
  const MinPaneWidth := 100.0

  function PaneMaxSize(containerWidth: real): (r: real)
    ensures 2.0 * r == containerWidth
    ensures r >= MinPaneWidth <==> containerWidth >= 2.0 * MinPaneWidth
  {
    containerWidth / 2.0
  }

  /** The component of the translation the divider follows: the horizontal
      one for a vertical divider, the vertical one otherwise, negated for a
      reversed divider. */
  function Delta(translation: Size, isVertical: bool, isReversed: bool): (d: real)
    ensures isVertical ==> d == (if isReversed then -translation.width else translation.width)
    ensures !isVertical ==> d == (if isReversed then -translation.height else translation.height)
    ensures d == 0.0 <==> (if isVertical then translation.width else translation.height) == 0.0
  {
    if isVertical then
      (if isReversed then -translation.width else translation.width)
    else
      (if isReversed then -translation.height else translation.height)
  }

  /** The size one sample leaves, given the size the previous sample left. */
  function Step(size: real, translation: Size, minSize: real, maxSize: real,
                isVertical: bool, isReversed: bool): (r: real)
    ensures r >= minSize
    ensures minSize <= maxSize ==> r <= maxSize
    ensures maxSize < minSize ==> r == minSize
    ensures minSize <= size + Delta(translation, isVertical, isReversed) <= maxSize ==>
              r == size + Delta(translation, isVertical, isReversed)
  {
    ClampLowWins(size + Delta(translation, isVertical, isReversed), minSize, maxSize)
  }

  /** A zero translation keeps a size inside the bounds, and clamping a
      size the clamp produced changes nothing. */
  lemma StepFixedPoints(size: real, translation: Size, minSize: real, maxSize: real,
                        isVertical: bool, isReversed: bool)
    ensures translation == ZeroSize && minSize <= size <= maxSize ==>
              Step(size, translation, minSize, maxSize, isVertical, isReversed) == size
    ensures var r := Step(size, translation, minSize, maxSize, isVertical, isReversed);
              ClampLowWins(r, minSize, maxSize) == r
  {
    ClampLowWinsIdempotent(size + Delta(translation, isVertical, isReversed), minSize, maxSize);
  }

  /** The size after a sequence of samples, each applied to the size the
      previous one left. */
  function Replay(size: real, samples: seq<Size>, minSize: real, maxSize: real,
                  isVertical: bool, isReversed: bool): (r: real)
    ensures samples == [] ==> r == size
    ensures samples != [] ==> r >= minSize
    ensures samples != [] && minSize <= maxSize ==> r <= maxSize
  {
    if samples == [] then size
    else Step(Replay(size, samples[..|samples| - 1], minSize, maxSize, isVertical, isReversed),
              samples[|samples| - 1], minSize, maxSize, isVertical, isReversed)
  }

  /** The sum of the deltas of a sequence of samples. */
  function SumDeltas(samples: seq<Size>, isVertical: bool, isReversed: bool): real {
    if samples == [] then 0.0
    else SumDeltas(samples[..|samples| - 1], isVertical, isReversed)
         + Delta(samples[|samples| - 1], isVertical, isReversed)
  }

  /** As written, while no clamp bites, the pane moves by the SUM of the
      deltas of all samples so far, although each sample already reports the
      whole displacement since the gesture began (translations 5 and then 10
      move the pane by 15, not 10). */
  lemma {:induction false} ReplayAccumulates(start: real, samples: seq<Size>, minSize: real, maxSize: real,
                                             isVertical: bool, isReversed: bool)
    requires forall k :: 0 <= k <= |samples| ==>
               minSize <= start + SumDeltas(samples[..k], isVertical, isReversed) <= maxSize
    ensures Replay(start, samples, minSize, maxSize, isVertical, isReversed)
         == start + SumDeltas(samples, isVertical, isReversed)
  {
    if samples != [] {
      var n := |samples| - 1;
      var front := samples[..n];
      forall k | 0 <= k <= |front|
        ensures minSize <= start + SumDeltas(front[..k], isVertical, isReversed) <= maxSize
      {
        assert front[..k] == samples[..k];
      }
      ReplayAccumulates(start, front, minSize, maxSize, isVertical, isReversed);
      assert samples[..|samples|] == samples;
    }
  }

  /** A size that starts in the bounds stays there after every prefix of a
      sequence of samples. */
  lemma ReplayStaysInBounds(size: real, samples: seq<Size>, minSize: real, maxSize: real,
                            isVertical: bool, isReversed: bool, k: nat)
    requires k <= |samples|
    requires minSize <= size <= maxSize
    ensures var r := Replay(size, samples[..k], minSize, maxSize, isVertical, isReversed);
              minSize <= r <= maxSize
  {
  }

  /** The divider itself; `size` stands for the bound pane size. */
  class DragDivider {
    var size: real
    const minSize: real
    const maxSize: real
    const isVertical: bool
    const isReversed: bool

    constructor (size: real, minSize: real, maxSize: real, isVertical: bool, isReversed: bool)
      ensures this.size == size && this.minSize == minSize && this.maxSize == maxSize
      ensures this.isVertical == isVertical && this.isReversed == isReversed
    {
      this.size := size;
      this.minSize := minSize;
      this.maxSize := maxSize;
      this.isVertical := isVertical;
      this.isReversed := isReversed;
    }

    /** The initialiser with the direction left at its default, not reversed. */
    constructor WithDefaultDirection(size: real, minSize: real, maxSize: real, isVertical: bool)
      ensures this.size == size && this.minSize == minSize && this.maxSize == maxSize
      ensures this.isVertical == isVertical && !isReversed
    {
      this.size := size;
      this.minSize := minSize;
      this.maxSize := maxSize;
      this.isVertical := isVertical;
      isReversed := false;
    }

    /** One drag sample, `translation` being the pointer's displacement since
        the gesture began. */
    method OnChanged(translation: Size)
      modifies this`size
      ensures size == Step(old(size), translation, minSize, maxSize, isVertical, isReversed)
      ensures size >= minSize
      ensures minSize <= maxSize ==> size <= maxSize
      ensures maxSize < minSize ==> size == minSize
    {
      var delta := if isVertical
        then (if isReversed then -translation.width else translation.width)
        else (if isReversed then -translation.height else translation.height);
      size := Max(minSize, Min(maxSize, size + delta));
    }
  }

  /** The window's dividers: with the pane between 100 and half the window
      width, every sample keeps it there once the window is at least 200
      wide, and pins it at 100 in a narrower window. */
  lemma PaneBounds(size: real, translation: Size, containerWidth: real, isReversed: bool)
    ensures var r := Step(size, translation, MinPaneWidth, PaneMaxSize(containerWidth), true, isReversed);
      MinPaneWidth <= r &&
      (containerWidth >= 200.0 ==> r <= containerWidth / 2.0) &&
      (containerWidth < 200.0 ==> r == MinPaneWidth)
  {
  }

  // ---------------------------------------------------------------------
  // The translation is counted again on every sample

  /** The pane size the gesture evidently means: the size at the start of
      the gesture moved by the displacement since then, clamped. */
  function IntendedSize(start: real, translation: Size, minSize: real, maxSize: real,
                        isVertical: bool, isReversed: bool): (r: real)
    ensures r >= minSize
    ensures minSize <= maxSize ==> r <= maxSize
    ensures minSize <= start + Delta(translation, isVertical, isReversed) <= maxSize ==>
              r - start == Delta(translation, isVertical, isReversed)
  {
    ClampLowWins(start + Delta(translation, isVertical, isReversed), minSize, maxSize)
  }

  /** The divider with the evident intent: the pane size at the first sample
      of a gesture is kept as the baseline every later sample of that gesture
      moves from, and the gesture's end drops it. */
  class BaselineDragDivider {
    var size: real
    var baseline: Option<real>
    const minSize: real
    const maxSize: real
    const isVertical: bool
    const isReversed: bool

    constructor (size: real, minSize: real, maxSize: real, isVertical: bool, isReversed: bool)
      ensures this.size == size && baseline == None
      ensures this.minSize == minSize && this.maxSize == maxSize
      ensures this.isVertical == isVertical && this.isReversed == isReversed
    {
      this.size := size;
      baseline := None;
      this.minSize := minSize;
      this.maxSize := maxSize;
      this.isVertical := isVertical;
      this.isReversed := isReversed;
    }

    method OnChanged(translation: Size)
      modifies this`size, this`baseline
      ensures baseline == (if old(baseline).None? then Some(old(size)) else old(baseline))
      ensures size == IntendedSize(baseline.value, translation, minSize, maxSize, isVertical, isReversed)
    {
      if baseline.None? {
        baseline := Some(size);
      }
      size := IntendedSize(baseline.value, translation, minSize, maxSize, isVertical, isReversed);
    }

    method OnEnded()
      modifies this`baseline
      ensures baseline == None
    {
      baseline := None;
    }
  }

  /** With the baseline kept, a sample repeated while the pointer stands still
      leaves the pane where the first one put it. */
  method BaselineScenario() returns (afterOne: real, afterTwo: real)
    ensures afterOne == afterTwo == 210.0
  {
    var divider := new BaselineDragDivider(200.0, 100.0, 500.0, true, false);
    divider.OnChanged(Size(10.0, 0.0));
    afterOne := divider.size;
    divider.OnChanged(Size(10.0, 0.0));
    afterTwo := divider.size;
  }

  /** As written, two samples reporting the same displacement (the pointer
      did not move in between) move the pane by twice that displacement,
      where the intended size moves it once. */
  lemma {:induction false} RepeatedSampleCountsTwice(start: real, t: Size, minSize: real, maxSize: real,
                                                     isVertical: bool, isReversed: bool)
    requires var d := Delta(t, isVertical, isReversed);
      minSize <= start + d <= maxSize && minSize <= start + 2.0 * d <= maxSize
    ensures Replay(start, [t, t], minSize, maxSize, isVertical, isReversed)
         == start + 2.0 * Delta(t, isVertical, isReversed)
    ensures IntendedSize(start, t, minSize, maxSize, isVertical, isReversed)
         == start + Delta(t, isVertical, isReversed)
  {
    var d := Delta(t, isVertical, isReversed);
    assert [t][..0] == [];
    assert Replay(start, [t], minSize, maxSize, isVertical, isReversed) == start + d;
    assert [t, t][..1] == [t];
    assert Replay(start, [t, t], minSize, maxSize, isVertical, isReversed)
        == Step(start + d, t, minSize, maxSize, isVertical, isReversed);
  }

  /** A concrete case: a vertical divider at 200 between 100 and 500,
      dragged 10 to the right and held there for two samples, ends at 220
      instead of 210. */
  lemma RepeatedSampleExample()
    ensures Replay(200.0, [Size(10.0, 0.0), Size(10.0, 0.0)], 100.0, 500.0, true, false) == 220.0
    ensures IntendedSize(200.0, Size(10.0, 0.0), 100.0, 500.0, true, false) == 210.0
  {
    RepeatedSampleCountsTwice(200.0, Size(10.0, 0.0), 100.0, 500.0, true, false);
  }
}
