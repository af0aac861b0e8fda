/**
 * `_annotate_coco_ssd_image`: for every record, in list order, two outlines
 * and two texts are drawn onto the same image, which is returned. The image
 * is modelled as the list of draw commands applied to it; PIL's text
 * measurement, `str.title` and the font file are parameters.
 */
module Annotation {
  import opened Wrappers
  import opened Strings
  import opened Conversions
  import opened Detections

  datatype Rgb = Rgb(red: nat, green: nat, blue: nat)

  const Black := Rgb(0, 0, 0)
  const Accent := Rgb(0, 96, 255)
  /** Offset of the caption from the box's top-left corner, in pixels. */
  const TextOffset := 10
  const MinFontSize := 8.0
  const MaxFontSize := 36.0

  /** One `draw.rectangle` or `draw.text` call. */
  datatype DrawCommand =
    | Rectangle(x0: int, y0: int, x1: int, y1: int, outline: Rgb, lineWidth: nat)
    | Text(x: int, y: int, text: string, fill: Rgb, fontSize: real, strokeWidth: nat)

  /** What makes annotating one record raise. */
  datatype RenderError =
    | LabelNotText     // `id_str` is the fallback class id, which has no `.title()`
    | ZeroTextHeight   // `textsize(label)[1]` is 0, a division by zero
    | FontUnavailable  // `ImageFont.truetype('data/Nasa.ttf', ...)` fails

  /** The foreign calls of one annotation: `draw.textsize(text)` as
      `(width, height)`, `str.title`, and whether the font file loads. */
  datatype Renderer = Renderer(textSize: string -> (nat, nat), title: string -> string, fontLoads: bool)

  /** `draw.textsize(text)[1]`: the measured height of a text. */
  function TextHeight(rd: Renderer, text: string): nat {
    rd.textSize(text).1
  }

  /** `text.title()`. */
  function Titled(rd: Renderer, text: string): string {
    rd.title(text)
  }

  /** `int(coord * dimension)`. */
  function Pixel(coord: real, dim: nat): int {
    Trunc(coord * dim as real)
  }

  /** A coordinate inside [0, 1] lands on a pixel inside [0, dimension]. */
  lemma PixelInImage(coord: real, dim: nat)
    requires InUnit(coord)
    ensures 0 <= Pixel(coord, dim) <= dim
  {
    var d := dim as real;
    assert d - coord * d == (1.0 - coord) * d;
    NonNegativeProduct(1.0 - coord, d);
    NonNegativeProduct(coord, d);
    TruncTowardZero(coord * d);
  }

  lemma NonNegativeProduct(a: real, b: real)
    requires a >= 0.0 && b >= 0.0
    ensures a * b >= 0.0
  {
  }

  /** `'{}% {}'.format(int(100 * score), titled)`. */
  function Caption(score: real, titled: string): string {
    IntToString(Trunc(100.0 * score)) + "% " + titled
  }

  /** The caption of a score in [0, 1] starts with the percentage in [0, 100]
      as decimal digits without a superfluous leading zero, which read back as
      that percentage, then `"% "`, then the titled label. */
  lemma CaptionReadsBack(score: real, titled: string)
    requires InUnit(score)
    ensures var p, c := Trunc(100.0 * score), Caption(score, titled);
      var k := |IntToString(p)|;
      && 0 <= p <= 100
      && k + 2 <= |c| && AllDigits(c[..k]) && DigitsValue(c[..k]) == p
      && (c[0] == '0' ==> p == 0 && k == 1)
      && c[k..k + 2] == "% " && c[k + 2..] == titled
  {
    var p := Trunc(100.0 * score);
    TruncTowardZero(100.0 * score);
    IntToStringDigits(p);
    var digits := IntToString(p);
    var c := Caption(score, titled);
    assert c[..|digits|] == digits;
    assert c[|digits|..|digits| + 2] == "% ";
    assert c[|digits| + 2..] == titled;
  }

  /** `min(max((y1 - y0) / text_height * 30, 8), 36)`. */
  function FontSize(y0: int, y1: int, textHeight: nat): (size: real)
    requires textHeight > 0
  {
    var raw := (y1 - y0) as real / textHeight as real * 30.0;
    var lower := if raw > MinFontSize then raw else MinFontSize;
    if lower < MaxFontSize then lower else MaxFontSize
  }

  /** The font size is the box height over the text height, times 30,
      clamped to [8, 36]. */
  lemma FontSizeClamped(y0: int, y1: int, textHeight: nat)
    requires textHeight > 0
    ensures var size := FontSize(y0, y1, textHeight);
      var raw := (y1 - y0) as real / textHeight as real * 30.0;
      && MinFontSize <= size <= MaxFontSize
      && (MinFontSize <= raw <= MaxFontSize ==> size == raw)
      && (raw < MinFontSize ==> size == MinFontSize)
      && (raw > MaxFontSize ==> size == MaxFontSize)
  {
  }

  /** The four draw calls for one record: a black 4px outline, a blue 2px
      outline, the caption in black with a 1px stroke and the caption in blue. */
  function ObjectCommands(width: nat, height: nat, obj: Detection, rd: Renderer): Result<seq<DrawCommand>, RenderError> {
    var x0, y0 := Pixel(obj.bbox.xmin, width), Pixel(obj.bbox.ymin, height);
    var x1, y1 := Pixel(obj.bbox.xmax, width), Pixel(obj.bbox.ymax, height);
    if obj.idStr.RawId? then Failure(LabelNotText)
    else
      var caption := Caption(obj.score, Titled(rd, obj.idStr.text));
      var textHeight := TextHeight(rd, caption);
      if textHeight == 0 then Failure(ZeroTextHeight)
      else
        var size := FontSize(y0, y1, textHeight);
        if !rd.fontLoads then Failure(FontUnavailable)
        else
          Success([Rectangle(x0, y0, x1, y1, Black, 4),
                   Rectangle(x0, y0, x1, y1, Accent, 2),
                   Text(x0 + TextOffset, y0 + TextOffset, caption, Black, size, 1),
                   Text(x0 + TextOffset, y0 + TextOffset, caption, Accent, size, 0)])
  }

  /** One record draws exactly when its label is text, its caption has a
      height and the font loads; it then draws both outlines on the box's
      pixel corners before both captions, 10px inside the top-left corner,
      at the font size of the box and caption heights, which lies in [8, 36]. A record with the fallback class id fails. */
  lemma ObjectCommandsLayout(width: nat, height: nat, obj: Detection, rd: Renderer)
    ensures obj.idStr.RawId? ==> ObjectCommands(width, height, obj, rd) == Failure(LabelNotText)
    ensures obj.idStr.Label? && TextHeight(rd, Caption(obj.score, Titled(rd, obj.idStr.text))) == 0 ==>
      ObjectCommands(width, height, obj, rd) == Failure(ZeroTextHeight)
    ensures obj.idStr.Label? && TextHeight(rd, Caption(obj.score, Titled(rd, obj.idStr.text))) > 0 && !rd.fontLoads ==>
      ObjectCommands(width, height, obj, rd) == Failure(FontUnavailable)
    ensures ObjectCommands(width, height, obj, rd).Success? <==>
      && obj.idStr.Label?
      && TextHeight(rd, Caption(obj.score, Titled(rd, obj.idStr.text))) > 0
      && rd.fontLoads
    ensures ObjectCommands(width, height, obj, rd).Success? ==>
      var cs := ObjectCommands(width, height, obj, rd).value;
      var x0, y0 := Pixel(obj.bbox.xmin, width), Pixel(obj.bbox.ymin, height);
      var x1, y1 := Pixel(obj.bbox.xmax, width), Pixel(obj.bbox.ymax, height);
      var caption := Caption(obj.score, Titled(rd, obj.idStr.text));
      && |cs| == 4
      && cs[0].Rectangle? && cs[1].Rectangle? && cs[2].Text? && cs[3].Text?
      && (cs[0].x0, cs[0].y0, cs[0].x1, cs[0].y1) == (x0, y0, x1, y1) == (cs[1].x0, cs[1].y0, cs[1].x1, cs[1].y1)
      && cs[0].outline == Black && cs[0].lineWidth == 4
      && cs[1].outline == Accent && cs[1].lineWidth == 2
      && (cs[2].x, cs[2].y) == (x0 + 10, y0 + 10) == (cs[3].x, cs[3].y)
      && cs[2].text == caption == cs[3].text
      && cs[2].fontSize == cs[3].fontSize == FontSize(y0, y1, TextHeight(rd, caption))
      && MinFontSize <= cs[2].fontSize <= MaxFontSize
      && cs[2].fill == Black && cs[2].strokeWidth == 1
      && cs[3].fill == Accent && cs[3].strokeWidth == 0
  {
    if ObjectCommands(width, height, obj, rd).Success? {
      var caption := Caption(obj.score, Titled(rd, obj.idStr.text));
      FontSizeClamped(Pixel(obj.bbox.ymin, height), Pixel(obj.bbox.ymax, height), TextHeight(rd, caption));
    }
  }

  /** The draw commands issued, and the error that stopped the loop, if any. */
  datatype Annotated = Annotated(commands: seq<DrawCommand>, error: Option<RenderError>)

  /** What each record would draw, or the error it would raise. */
  function Layouts(width: nat, height: nat, objs: seq<Detection>, rd: Renderer): (rs: seq<Result<seq<DrawCommand>, RenderError>>)
    ensures |rs| == |objs|
  {
    if objs == [] then []
    else [ObjectCommands(width, height, objs[0], rd)] + Layouts(width, height, objs[1..], rd)
  }

  /** Step `k` of the run is record `k`'s draw calls. */
  lemma {:induction false} LayoutsAt(width: nat, height: nat, objs: seq<Detection>, rd: Renderer, k: nat)
    requires k < |objs|
    ensures Layouts(width, height, objs, rd)[k] == ObjectCommands(width, height, objs[k], rd)
  {
    if k > 0 {
      LayoutsAt(width, height, objs[1..], rd, k - 1);
    }
  }

  /** The steps for the first `k` records are the first `k` steps. */
  lemma {:induction false} LayoutsPrefix(width: nat, height: nat, objs: seq<Detection>, rd: Renderer, k: nat)
    requires k <= |objs|
    ensures Layouts(width, height, objs[..k], rd) == Layouts(width, height, objs, rd)[..k]
  {
    if k > 0 {
      assert objs[..k][1..] == objs[1..][..k - 1];
      LayoutsPrefix(width, height, objs[1..], rd, k - 1);
    }
  }

  /** Running the records' draw calls one after the other; the first that
      raises ends the run, keeping what was drawn before it. */
  function Chain(rs: seq<Result<seq<DrawCommand>, RenderError>>): Annotated {
    if rs == [] then Annotated([], None)
    else
      match rs[0]
      case Failure(e) => Annotated([], Some(e))
      case Success(cs) =>
        var rest := Chain(rs[1..]);
        Annotated(cs + rest.commands, rest.error)
  }

  /** The run from step `i` on is step `i` followed by the run from step `i + 1`. */
  lemma ChainFrom(rs: seq<Result<seq<DrawCommand>, RenderError>>, i: nat)
    requires i < |rs|
    ensures Chain(rs[i..]) ==
      match rs[i]
      case Failure(e) => Annotated([], Some(e))
      case Success(cs) => Annotated(cs + Chain(rs[i + 1..]).commands, Chain(rs[i + 1..]).error)
  {
    assert rs[i..][0] == rs[i] && rs[i..][1..] == rs[i + 1..];
  }

  /** The `for obj in objs` loop of `_annotate_coco_ssd_image`. */
  function AnnotateSpec(width: nat, height: nat, objs: seq<Detection>, rd: Renderer): Annotated {
    Chain(Layouts(width, height, objs, rd))
  }

  /** Taking one more step of a run that has drawn `drawn` so far. */
  lemma ChainStep(rs: seq<Result<seq<DrawCommand>, RenderError>>, i: nat, drawn: seq<DrawCommand>)
    requires i < |rs|
    requires Chain(rs) == Annotated(drawn + Chain(rs[i..]).commands, Chain(rs[i..]).error)
    ensures rs[i].Failure? ==> Chain(rs) == Annotated(drawn, Some(rs[i].error))
    ensures rs[i].Success? ==>
      Chain(rs) == Annotated((drawn + rs[i].value) + Chain(rs[i + 1..]).commands, Chain(rs[i + 1..]).error)
  {
    ChainFrom(rs, i);
    if rs[i].Success? {
      var restRun := Chain(rs[i + 1..]);
      assert drawn + (rs[i].value + restRun.commands) == (drawn + rs[i].value) + restRun.commands;
    }
  }

  /** The run finishes without error exactly when no step fails. */
  lemma {:induction false} ChainSucceeds(rs: seq<Result<seq<DrawCommand>, RenderError>>)
    ensures Chain(rs).error.None? <==> forall k :: 0 <= k < |rs| ==> rs[k].Success?
  {
    if rs != [] {
      var rest := rs[1..];
      ChainSucceeds(rest);
      assert forall k :: 1 <= k < |rs| ==> rs[k] == rest[k - 1];
    }
  }

  /** When no step fails and every step issues four commands, step `k`'s
      commands sit at positions `4k .. 4k+4`. */
  lemma {:induction false} ChainInOrder(rs: seq<Result<seq<DrawCommand>, RenderError>>)
    requires forall k :: 0 <= k < |rs| ==> rs[k].Success? && |rs[k].value| == 4
    ensures Chain(rs).error.None?
    ensures |Chain(rs).commands| == 4 * |rs|
    ensures forall k :: 0 <= k < |rs| ==> Chain(rs).commands[4 * k..4 * k + 4] == rs[k].value
  {
    if rs != [] {
      var rest := rs[1..];
      assert forall k :: 1 <= k < |rs| ==> rs[k] == rest[k - 1];
      ChainInOrder(rest);
      var cs := Chain(rs).commands;
      var tail := Chain(rest).commands;
      assert cs == rs[0].value + tail;
      forall k | 0 <= k < |rs|
        ensures cs[4 * k..4 * k + 4] == rs[k].value
      {
        if k == 0 {
          assert cs[..4] == rs[0].value;
        } else {
          assert cs[4 * k..4 * k + 4] == tail[4 * (k - 1)..4 * (k - 1) + 4];
        }
      }
    }
  }

  /** When a step fails, the run stops there: the error is that step's, and
      exactly the commands of the steps before it were issued. */
  lemma {:induction false} ChainStopsAtFailure(rs: seq<Result<seq<DrawCommand>, RenderError>>)
    requires Chain(rs).error.Some?
    ensures exists k ::
      && 0 <= k < |rs|
      && rs[k] == Failure(Chain(rs).error.value)
      && Chain(rs[..k]) == Annotated(Chain(rs).commands, None)
  {
    if rs[0].Failure? {
      assert rs[..0] == [];
    } else {
      var rest := rs[1..];
      ChainStopsAtFailure(rest);
      var k :| && 0 <= k < |rest|
               && rest[k] == Failure(Chain(rest).error.value)
               && Chain(rest[..k]) == Annotated(Chain(rest).commands, None);
      var prefix := rs[..k + 1];
      assert prefix[0] == rs[0] && prefix[1..] == rest[..k];
      assert rs[k + 1] == rest[k];
    }
  }

  /** When no record raises, every record contributes its four commands, in
      list order: the commands of a later record come after (are drawn over)
      those of an earlier one. */
  lemma AnnotateInOrder(width: nat, height: nat, objs: seq<Detection>, rd: Renderer)
    requires forall k :: 0 <= k < |objs| ==> ObjectCommands(width, height, objs[k], rd).Success?
    ensures var a := AnnotateSpec(width, height, objs, rd);
      && a.error.None?
      && |a.commands| == 4 * |objs|
      && forall k :: 0 <= k < |objs| ==>
           a.commands[4 * k..4 * k + 4] == ObjectCommands(width, height, objs[k], rd).value
  {
    var rs := Layouts(width, height, objs, rd);
    forall k | 0 <= k < |rs| ensures rs[k] == ObjectCommands(width, height, objs[k], rd) && |rs[k].value| == 4 {
      LayoutsAt(width, height, objs, rd, k);
      ObjectCommandsLayout(width, height, objs[k], rd);
    }
    ChainInOrder(rs);
  }

  /** The loop ends with an error exactly when some record raises; it is the
      first such record's error, and only the records before it were drawn. */
  lemma AnnotateStopsAtFailure(width: nat, height: nat, objs: seq<Detection>, rd: Renderer)
    ensures AnnotateSpec(width, height, objs, rd).error.Some? <==>
      exists k :: 0 <= k < |objs| && ObjectCommands(width, height, objs[k], rd).Failure?
    ensures AnnotateSpec(width, height, objs, rd).error.Some? ==>
      exists k ::
        && 0 <= k < |objs|
        && ObjectCommands(width, height, objs[k], rd) == Failure(AnnotateSpec(width, height, objs, rd).error.value)
        && AnnotateSpec(width, height, objs[..k], rd) == Annotated(AnnotateSpec(width, height, objs, rd).commands, None)
  {
    var rs := Layouts(width, height, objs, rd);
    forall k | 0 <= k < |rs| ensures rs[k] == ObjectCommands(width, height, objs[k], rd) {
      LayoutsAt(width, height, objs, rd, k);
    }
    ChainSucceeds(rs);
    if Chain(rs).error.Some? {
      ChainStopsAtFailure(rs);
      var k :| 0 <= k < |rs| && rs[k] == Failure(Chain(rs).error.value) && Chain(rs[..k]) == Annotated(Chain(rs).commands, None);
      LayoutsPrefix(width, height, objs, rd, k);
    }
  }

  /** A PIL image, seen through the draw calls made on it. */
  class Canvas {
    const width: nat
    const height: nat
    var commands: seq<DrawCommand>

    constructor (width: nat, height: nat)
      ensures this.width == width && this.height == height && commands == []
    {
      this.width := width;
      this.height := height;
      commands := [];
    }

    /** One pass of the loop body of `_annotate_coco_ssd_image`: draws one
        record, or raises before drawing anything. */
    method DrawObject(obj: Detection, rd: Renderer) returns (outcome: Outcome<RenderError>)
      modifies this
      ensures match ObjectCommands(width, height, obj, rd)
              case Success(cs) => outcome == Pass && commands == old(commands) + cs
              case Failure(e) => outcome == Fail(e) && commands == old(commands)
    {
      var x0, y0 := Pixel(obj.bbox.xmin, width), Pixel(obj.bbox.ymin, height);
      var x1, y1 := Pixel(obj.bbox.xmax, width), Pixel(obj.bbox.ymax, height);
      if obj.idStr.RawId? {
        return Fail(LabelNotText);
      }
      var caption := Caption(obj.score, Titled(rd, obj.idStr.text));
      var textHeight := TextHeight(rd, caption);
      if textHeight == 0 {
        return Fail(ZeroTextHeight);
      }
      var size := FontSize(y0, y1, textHeight);
      if !rd.fontLoads {
        return Fail(FontUnavailable);
      }
      commands := commands + [Rectangle(x0, y0, x1, y1, Black, 4)];
      commands := commands + [Rectangle(x0, y0, x1, y1, Accent, 2)];
      commands := commands + [Text(x0 + TextOffset, y0 + TextOffset, caption, Black, size, 1)];
      commands := commands + [Text(x0 + TextOffset, y0 + TextOffset, caption, Accent, size, 0)];
      outcome := Pass;
    }

    /** `_annotate_coco_ssd_image(self, objs)` drawing onto this image. */
    method Annotate(objs: seq<Detection>, rd: Renderer) returns (outcome: Outcome<RenderError>)
      modifies this
      ensures commands == old(commands) + AnnotateSpec(width, height, objs, rd).commands
      ensures outcome == match AnnotateSpec(width, height, objs, rd).error
                         case None => Pass
                         case Some(e) => Fail(e)
    {
      ghost var rs := Layouts(width, height, objs, rd);
      ghost var drawn: seq<DrawCommand> := [];
      var i := 0;
      while i < |objs|
        invariant 0 <= i <= |objs|
        invariant commands == old(commands) + drawn
        invariant Chain(rs) == Annotated(drawn + Chain(rs[i..]).commands, Chain(rs[i..]).error)
      {
        LayoutsAt(width, height, objs, rd, i);
        ChainStep(rs, i, drawn);
        var step := DrawObject(objs[i], rd);
        if step.Fail? {
          return step;
        }
        drawn := drawn + rs[i].value;
        i := i + 1;
      }
      assert rs[i..] == [];
      return Pass;
    }
  }
}
