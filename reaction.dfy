/** The reaction controller of the face-reaction script: the debounce policy applied
    once per captured frame, and the loop that owns `prev_emotion` and `frame_count`. */
module Reaction {
  import opened Wrappers
  import opened Emotion
  import opened Expression

  /** A face rectangle reported by the detector, in frame coordinates. */
  datatype FaceRegion = FaceRegion(x: int, y: int, w: int, h: int)

  /** What one captured frame yields: the detector's regions, in scan order, and the
      classifier's prediction vector for the crop of any region of this frame. */
  datatype Frame = Frame(faces: seq<FaceRegion>, predict: FaceRegion -> seq<real>)

  /** The classifier's output has one entry per label. */
  predicate WellFormed(f: Frame)
  {
    |f.faces| > 0 ==> |f.predict(f.faces[0])| == |Labels|
  }

  predicate AllWellFormed(frames: seq<Frame>)
  {
    forall k :: 0 <= k < |frames| ==> WellFormed(frames[k])
  }

  /** The persistent state of the loop: `prev_emotion` (None until the first render)
      and `frame_count`. */
  datatype State = State(prev: Option<string>, frameCount: nat)

  /** The state after one cycle and the label rendered during it, if any. */
  datatype CycleResult = CycleResult(next: State, shown: Option<string>)

  /** The classification of a frame with a face: read off the first region's prediction
      alone, a maximal class with its probability as the confidence. */
  function FirstFace(f: Frame): (c: Classification)
    requires WellFormed(f) && |f.faces| > 0
    ensures exists i :: 0 <= i < |Labels| && c.emotion == Labels[i] && c.confidence == f.predict(f.faces[0])[i]
    ensures forall j :: 0 <= j < |Labels| ==> f.predict(f.faces[0])[j] <= c.confidence
  {
    Classify(f.predict(f.faces[0]))
  }

  /** One pass of the main loop body. The display state changes exactly when something is
      rendered, and then to the rendered label, which always differs from the old state. */
  function Cycle(s: State, f: Frame): (r: CycleResult)
    requires WellFormed(f)
    ensures r.next.frameCount == s.frameCount + 1
    ensures r.shown.None? ==> r.next.prev == s.prev
    ensures r.shown.Some? ==> r.next.prev == r.shown && r.shown != s.prev
  {
    var n := s.frameCount + 1;
    if |f.faces| > 0 then
      var c := FirstFace(f);
      if Some(c.emotion) != s.prev && c.confidence > Threshold then
        CycleResult(State(Some(c.emotion), n), Some(c.emotion))
      else
        CycleResult(State(s.prev, n), None)
    else if s.prev != Some("Neutral") then
      CycleResult(State(Some("Neutral"), n), Some("Neutral"))
    else
      CycleResult(State(s.prev, n), None)
  }

  /** With a face: a render happens exactly when the first face's label differs from the
      display state and its confidence is strictly above the threshold; it renders that label. */
  lemma FaceCycle(s: State, f: Frame)
    requires WellFormed(f) && |f.faces| > 0
    ensures Cycle(s, f).shown.Some? <==>
              Some(FirstFace(f).emotion) != s.prev && FirstFace(f).confidence > Threshold
    ensures Cycle(s, f).shown.Some? ==> Cycle(s, f).shown == Some(FirstFace(f).emotion)
  {
  }

  /** Confidence at or below 0.4 (0.4 itself included) never changes the display. */
  lemma LowConfidenceKeepsState(s: State, f: Frame)
    requires WellFormed(f) && |f.faces| > 0 && FirstFace(f).confidence <= Threshold
    ensures Cycle(s, f) == CycleResult(State(s.prev, s.frameCount + 1), None)
  {
  }

  /** Only the first region is classified: two frames whose first regions get the same
      prediction give the same cycle, whatever the other regions are. */
  lemma FirstFaceOnly(s: State, f: Frame, g: Frame)
    requires WellFormed(f) && WellFormed(g) && |f.faces| > 0 && |g.faces| > 0
    requires f.predict(f.faces[0]) == g.predict(g.faces[0])
    ensures Cycle(s, f) == Cycle(s, g)
  {
  }

  /** With no face: Neutral is rendered once, unless the display state is already Neutral. */
  lemma NoFaceCycle(s: State, f: Frame)
    requires |f.faces| == 0
    ensures s.prev != Some("Neutral") ==>
              Cycle(s, f) == CycleResult(State(Some("Neutral"), s.frameCount + 1), Some("Neutral"))
    ensures s.prev == Some("Neutral") ==>
              Cycle(s, f) == CycleResult(State(s.prev, s.frameCount + 1), None)
  {
  }

  /** Two faceless frames in a row render at most once between them, and the second
      leaves the display state as the first left it. */
  lemma NoFaceTwice(s: State, f: Frame, g: Frame)
    requires |f.faces| == 0 && |g.faces| == 0
    ensures var r1 := Cycle(s, f); var r2 := Cycle(r1.next, g);
            r2.shown == None && r2.next.prev == r1.next.prev == Some("Neutral") &&
            |ToSeq(r1.shown) + ToSeq(r2.shown)| <= 1
  {
  }

  /** The outcome of a run of cycles: the final state and every label rendered, in order. */
  datatype RunResult = RunResult(last: State, shown: seq<string>)

  /** The main loop over a finite sequence of frames: `frame_count` grows by exactly one
      per cycle, and each cycle renders at most once. */
  function Run(s: State, frames: seq<Frame>): (r: RunResult)
    requires AllWellFormed(frames)
    ensures r.last.frameCount == s.frameCount + |frames|
    ensures |r.shown| <= |frames|
    decreases |frames|
  {
    if frames == [] then RunResult(s, [])
    else
      var r := Cycle(s, frames[0]);
      var rest := Run(r.next, frames[1..]);
      RunResult(rest.last, ToSeq(r.shown) + rest.shown)
  }

  /** After any run, the display state is the last label rendered, or the initial state
      if nothing was rendered. */
  lemma {:induction false} RunStateIsLastShown(s: State, frames: seq<Frame>)
    requires AllWellFormed(frames)
    ensures var r := Run(s, frames);
            if r.shown == [] then r.last.prev == s.prev else r.last.prev == Some(r.shown[|r.shown| - 1])
    decreases |frames|
  {
    if frames != [] {
      RunStateIsLastShown(Cycle(s, frames[0]).next, frames[1..]);
    }
  }

  /** The debounce guarantee: no render repeats the label already on the display, so the
      first render differs from the initial state and consecutive renders always differ. */
  lemma {:induction false} RunNeverRepeats(s: State, frames: seq<Frame>)
    requires AllWellFormed(frames)
    ensures var r := Run(s, frames);
            (r.shown != [] ==> Some(r.shown[0]) != s.prev) &&
            forall i :: 0 < i < |r.shown| ==> r.shown[i - 1] != r.shown[i]
    decreases |frames|
  {
    if frames != [] {
      var c := Cycle(s, frames[0]);
      var rest := Run(c.next, frames[1..]);
      RunNeverRepeats(c.next, frames[1..]);
      var all := Run(s, frames).shown;
      assert all == ToSeq(c.shown) + rest.shown;
      if c.shown.Some? {
        forall i | 0 < i < |all| ensures all[i - 1] != all[i] {
          if i > 1 {
            assert all[i - 1] == rest.shown[i - 2] && all[i] == rest.shown[i - 1];
          } else {
            assert all[1] == rest.shown[0];
          }
        }
      }
    }
  }

  /** The image each rendered label pushes to the panel. */
  function Images(shown: seq<string>): (imgs: seq<seq<Shape>>)
    ensures |imgs| == |shown|
    ensures forall i :: 0 <= i < |shown| ==> imgs[i] == PatternShapes(Dispatch(shown[i]))
    decreases |shown|
  {
    if shown == [] then [] else [PatternShapes(Dispatch(shown[0]))] + Images(shown[1..])
  }

  lemma ImagesAppend(a: seq<string>, b: seq<string>)
    ensures Images(a + b) == Images(a) + Images(b)
  {
  }

  /** What the canvas holds after the labels `shown` were rendered on it, starting from
      `initial`: each render clears and redraws the whole eye area, so only the last counts. */
  function Showing(initial: seq<Shape>, shown: seq<string>): seq<Shape>
  {
    if shown == [] then initial else PatternShapes(Dispatch(shown[|shown| - 1]))
  }

  /** After any run the canvas agrees with `prev_emotion`: it holds the pattern of the
      display state when something was rendered, and is untouched (with the display state
      unchanged) when nothing was. */
  lemma ShowingIsDisplayState(s: State, frames: seq<Frame>, initial: seq<Shape>)
    requires AllWellFormed(frames)
    ensures var r := Run(s, frames);
            r.shown != [] ==> r.last.prev.Some? && Showing(initial, r.shown) == PatternShapes(Dispatch(r.last.prev.value))
    ensures var r := Run(s, frames);
            r.shown == [] ==> r.last.prev == s.prev && Showing(initial, r.shown) == initial
  {
    RunStateIsLastShown(s, frames);
  }

  lemma ShowingStep(initial: seq<Shape>, done: seq<string>, t: seq<string>)
    requires |t| <= 1
    ensures Showing(initial, done + t) ==
            if t == [] then Showing(initial, done) else PatternShapes(Dispatch(t[0]))
  {
    if t == [] {
      assert done + t == done;
    }
  }

  /** Regrouping a concatenation. Stated apart so that the loop of `RunCycles` uses it
      without the rest of the loop's facts in view. */
  lemma Regroup<T>(a: seq<T>, b: seq<T>, c: seq<T>)
    ensures a + (b + c) == (a + b) + c
  {
  }

  /** One cycle peeled off the front of the frames still to come keeps the loop of
      `RunCycles` on track: what remains of the run after the cycle, appended to what was
      shown so far and in the cycle, is still the whole run. */
  lemma RunAdvance(frames: seq<Frame>, i: nat, cur: State, done: seq<string>, whole: RunResult)
    requires AllWellFormed(frames) && i < |frames|
    requires Run(cur, frames[i..]).last == whole.last
    requires done + Run(cur, frames[i..]).shown == whole.shown
    ensures var c := Cycle(cur, frames[i]); var rest := Run(c.next, frames[i + 1..]);
            rest.last == whole.last && (done + ToSeq(c.shown)) + rest.shown == whole.shown
  {
    assert frames[i..][0] == frames[i];
    assert frames[i..][1..] == frames[i + 1..];
    var c := Cycle(cur, frames[i]);
    Regroup(done, ToSeq(c.shown), Run(c.next, frames[i + 1..]).shown);
  }

  /** The main loop's persistent state (`prev_emotion`, `frame_count`), the labels it
      rendered, and the canvas it draws on. */
  class ReactionController {
    var prevEmotion: Option<string>
    var frameCount: nat
    /** The labels passed to `show_emotion_on_display`, in order. */
    ghost var shown: seq<string>
    const canvas: Canvas

    function Snapshot(): State
      reads this
    {
      State(prevEmotion, frameCount)
    }

    /** `prev_emotion = None`, `frame_count = 0`. */
    constructor (canvas: Canvas)
      ensures prevEmotion == None && frameCount == 0 && shown == [] && this.canvas == canvas
    {
      prevEmotion := None;
      frameCount := 0;
      shown := [];
      this.canvas := canvas;
    }

    /** One pass of the `while True` body for the frame just captured. */
    method Step(f: Frame)
      requires WellFormed(f)
      modifies this, canvas
      ensures var r := Cycle(old(Snapshot()), f);
              Snapshot() == r.next && shown == old(shown) + ToSeq(r.shown) &&
              canvas.flushed == old(canvas.flushed) + Images(ToSeq(r.shown)) &&
              (r.shown.None? ==> canvas.shapes == old(canvas.shapes)) &&
              (r.shown.Some? ==> canvas.shapes == PatternShapes(Dispatch(r.shown.value)))
    {
      frameCount := frameCount + 1;
      if |f.faces| > 0 {
        var face := f.faces[0];
        var prediction := f.predict(face);
        var emotion := Labels[ArgMax(prediction)];
        var confidence := Max(prediction);
        if Some(emotion) != prevEmotion && confidence > Threshold {
          ShowEmotionOnDisplay(canvas, emotion);
          prevEmotion := Some(emotion);
          shown := shown + [emotion];
        }
      } else if prevEmotion != Some("Neutral") {
        ShowEmotionOnDisplay(canvas, "Neutral");
        prevEmotion := Some("Neutral");
        shown := shown + ["Neutral"];
      }
    }

    /** The main loop, over the frames captured before it is interrupted. The canvas ends
        up holding the pattern of the last label rendered, or what it held if none was. */
    method RunCycles(frames: seq<Frame>)
      requires AllWellFormed(frames)
      modifies this, canvas
      ensures var r := Run(old(Snapshot()), frames);
              Snapshot() == r.last && shown == old(shown) + r.shown &&
              canvas.flushed == old(canvas.flushed) + Images(r.shown)
      ensures canvas.shapes == Showing(old(canvas.shapes), Run(old(Snapshot()), frames).shown)
    {
      ghost var whole := Run(Snapshot(), frames);
      ghost var done: seq<string> := [];
      var i := 0;
      while i < |frames|
        invariant 0 <= i <= |frames|
        invariant Run(Snapshot(), frames[i..]).last == whole.last
        invariant done + Run(Snapshot(), frames[i..]).shown == whole.shown
        invariant shown == old(shown) + done
        invariant canvas.flushed == old(canvas.flushed) + Images(done)
        invariant canvas.shapes == Showing(old(canvas.shapes), done)
      {
        ghost var before := Snapshot();
        RunAdvance(frames, i, before, done, whole);
        ghost var t := ToSeq(Cycle(before, frames[i]).shown);
        Step(frames[i]);
        Regroup(old(shown), done, t);
        Regroup(old(canvas.flushed), Images(done), Images(t));
        ImagesAppend(done, t);
        ShowingStep(old(canvas.shapes), done, t);
        done := done + t;
        i := i + 1;
      }
      assert frames[i..] == [];
      assert done == whole.shown;
    }

    /** The cleanup on exit: clear the image and push the blank image to the panel. */
    method Shutdown()
      modifies canvas
      ensures canvas.shapes == [] && canvas.flushed == old(canvas.flushed) + [[]]
    {
      canvas.Clear();
      canvas.ShowOnTft();
    }
  }
}
