/** The expression renderer: the four eye patterns, the label-to-pattern dispatch of
    `show_emotion_on_display`, and the off-screen canvas the `draw_*` routines paint. */
module Expression {

  datatype Point = Point(x: int, y: int)

  /** One drawing primitive, always in the eye colour. */
  datatype Shape =
    | Line(from: Point, to: Point, width: nat)
    | RoundedRect(x: int, y: int, w: int, h: int, radius: nat)

  datatype Pattern = HappyEyes | SadEyes | AngryEyes | NeutralEyes

  /** The default corner radius of `draw_eye_rect`. */
  const EyeRadius: nat := 9

  /** The image is 240 pixels wide and 320 tall, but `clear` paints the rectangle from (0, 0)
      to (320, 240): the full width and only the top 240 rows. */
  const ImageWidth: int := 240
  const ClearedHeight: int := 240

  /** The shape, stroke included, lies inside the part of the image that `clear` paints. */
  predicate InsideCleared(sh: Shape)
  {
    match sh
    case Line(from, to, width) =>
      width <= from.x && from.x + width <= ImageWidth && width <= from.y && from.y + width <= ClearedHeight &&
      width <= to.x && to.x + width <= ImageWidth && width <= to.y && to.y + width <= ClearedHeight
    case RoundedRect(x, y, w, h, _) =>
      0 <= x && 0 <= w && x + w <= ImageWidth && 0 <= y && 0 <= h && y + h <= ClearedHeight
  }

  /** The hand-authored geometry of each pattern, in drawing order. Every pattern lies
      inside the area `clear` paints, so a clear erases all of any earlier pattern. */
  function PatternShapes(p: Pattern): (shapes: seq<Shape>)
    ensures shapes != []
    ensures forall k :: 0 <= k < |shapes| ==> InsideCleared(shapes[k])
  {
    match p
    case HappyEyes => [
      Line(Point(35, 130), Point(70, 95), 10), Line(Point(65, 95), Point(95, 130), 10),
      Line(Point(145, 130), Point(180, 95), 10), Line(Point(175, 95), Point(205, 130), 10)]
    case SadEyes => [
      Line(Point(35, 110), Point(70, 135), 10), Line(Point(65, 135), Point(95, 110), 10),
      Line(Point(145, 110), Point(180, 135), 10), Line(Point(175, 135), Point(205, 110), 10)]
    case AngryEyes => [
      Line(Point(35, 100), Point(100, 120), 6), Line(Point(35, 120), Point(100, 140), 11),
      Line(Point(145, 120), Point(210, 100), 6), Line(Point(145, 140), Point(210, 120), 11)]
    case NeutralEyes => [
      RoundedRect(40, 100, 60, 70, EyeRadius), RoundedRect(160, 100, 60, 70, EyeRadius)]
  }

  /** The label each pattern was drawn for. */
  function PatternName(p: Pattern): string
  {
    match p
    case HappyEyes => "Happy"
    case SadEyes => "Sad"
    case AngryEyes => "Angry"
    case NeutralEyes => "Neutral"
  }

  /** The if/elif chain of `show_emotion_on_display`: three labels have their own
      pattern and every other string, known label or not, gets the neutral eyes. */
  function Dispatch(emotion: string): (p: Pattern)
    ensures emotion == PatternName(p) || (p == NeutralEyes && emotion !in {"Happy", "Sad", "Angry"})
    ensures p != NeutralEyes ==> emotion == PatternName(p)
  {
    if emotion == "Happy" then HappyEyes
    else if emotion == "Sad" then SadEyes
    else if emotion == "Angry" then AngryEyes
    else NeutralEyes
  }

  /** Dispatch undoes PatternName: every pattern is reached by its own label. */
  lemma DispatchName(p: Pattern)
    ensures Dispatch(PatternName(p)) == p
  {
  }

  /** Different patterns give different images, so the canvas shows which pattern was drawn. */
  lemma PatternShapesInjective(p: Pattern, q: Pattern)
    requires PatternShapes(p) == PatternShapes(q)
    ensures p == q
  {
    assert PatternShapes(p)[0] == PatternShapes(q)[0];
  }

  /** The off-screen image (as the shapes painted on a background-coloured image since
      the last clear; the rows `clear` misses are never drawn on) and the sequence of images pushed to the panel. */
  class Canvas {
    var shapes: seq<Shape>
    var flushed: seq<seq<Shape>>

    /** `Image.new`: a fresh image is all background; nothing shown yet. */
    constructor ()
      ensures shapes == [] && flushed == []
    {
      shapes := [];
      flushed := [];
    }

    /** `clear`: paint the background colour over the top 240 rows. No pattern reaches
        below them (see `PatternShapes`), so what remains is a blank image. */
    method Clear()
      modifies this
      ensures shapes == [] && flushed == old(flushed)
    {
      shapes := [];
    }

    method DrawLine(from: Point, to: Point, width: nat)
      modifies this
      ensures shapes == old(shapes) + [Line(from, to, width)] && flushed == old(flushed)
    {
      shapes := shapes + [Line(from, to, width)];
    }

    /** `draw_eye_rect`. */
    method DrawEyeRect(x: int, y: int, w: int, h: int, radius: nat)
      modifies this
      ensures shapes == old(shapes) + [RoundedRect(x, y, w, h, radius)] && flushed == old(flushed)
    {
      shapes := shapes + [RoundedRect(x, y, w, h, radius)];
    }

    /** `show_on_tft`: push the current image to the panel. */
    method ShowOnTft()
      modifies this
      ensures shapes == old(shapes) && flushed == old(flushed) + [shapes]
    {
      flushed := flushed + [shapes];
    }

    method DrawHappy()
      modifies this
      ensures shapes == PatternShapes(HappyEyes) && flushed == old(flushed) + [shapes]
    {
      Clear();
      DrawLine(Point(35, 130), Point(70, 95), 10);
      DrawLine(Point(65, 95), Point(95, 130), 10);
      DrawLine(Point(145, 130), Point(180, 95), 10);
      DrawLine(Point(175, 95), Point(205, 130), 10);
      ShowOnTft();
    }

    method DrawSad()
      modifies this
      ensures shapes == PatternShapes(SadEyes) && flushed == old(flushed) + [shapes]
    {
      Clear();
      DrawLine(Point(35, 110), Point(70, 135), 10);
      DrawLine(Point(65, 135), Point(95, 110), 10);
      DrawLine(Point(145, 110), Point(180, 135), 10);
      DrawLine(Point(175, 135), Point(205, 110), 10);
      ShowOnTft();
    }

    method DrawAngry()
      modifies this
      ensures shapes == PatternShapes(AngryEyes) && flushed == old(flushed) + [shapes]
    {
      Clear();
      DrawLine(Point(35, 100), Point(100, 120), 6);
      DrawLine(Point(35, 120), Point(100, 140), 11);
      DrawLine(Point(145, 120), Point(210, 100), 6);
      DrawLine(Point(145, 140), Point(210, 120), 11);
      ShowOnTft();
    }

    method DrawNeutral()
      modifies this
      ensures shapes == PatternShapes(NeutralEyes) && flushed == old(flushed) + [shapes]
    {
      Clear();
      DrawEyeRect(40, 100, 60, 70, EyeRadius);
      DrawEyeRect(160, 100, 60, 70, EyeRadius);
      ShowOnTft();
    }
  }

  /** `show_emotion_on_display`: the image pushed depends only on the label, never on
      what the canvas held before. */
  method ShowEmotionOnDisplay(canvas: Canvas, emotion: string)
    modifies canvas
    ensures canvas.shapes == PatternShapes(Dispatch(emotion))
    ensures canvas.flushed == old(canvas.flushed) + [canvas.shapes]
  {
    if emotion == "Happy" {
      canvas.DrawHappy();
    } else if emotion == "Sad" {
      canvas.DrawSad();
    } else if emotion == "Angry" {
      canvas.DrawAngry();
    } else {
      canvas.DrawNeutral();
    }
  }

  /** Rendering the same label twice pushes the same image twice. */
  method ShowTwice(canvas: Canvas, emotion: string)
    modifies canvas
    ensures canvas.flushed == old(canvas.flushed) + [canvas.shapes, canvas.shapes]
    ensures canvas.shapes == PatternShapes(Dispatch(emotion))
  {
    ShowEmotionOnDisplay(canvas, emotion);
    ShowEmotionOnDisplay(canvas, emotion);
  }
}
