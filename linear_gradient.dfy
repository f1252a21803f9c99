/** `Css3Images::LinearGradient`: a factory that holds a width and the
    normalised colour stops, and builds (once) a top-to-bottom gradient image
    out of one image-library request per stop. */
module Gradients {
  import opened Runtime
  import opened ColorStops

  /** The attributes hash given to `LinearGradient.new`: each key is present
      (Some) or absent (None). */
  datatype Attributes = Attributes(width: Option<int>, colorStops: Option<Value<StopInput>>)

  /** What a successful `initialize` stores. */
  datatype Config = Config(width: int, colorStops: seq<ColorStop>)

  /** `initialize(attributes)`: fetch `:width`, then fetch `:color_stops` and
      normalise it; the first missing key or the empty stop list fails. */
  function Init(attributes: Attributes): (r: Result<Config, Error>)
    ensures attributes.width.None? ==> r == Failure(KeyError("width"))
    ensures attributes.width.Some? && attributes.colorStops.None? ==> r == Failure(KeyError("color_stops"))
    ensures attributes.width.Some? && attributes.colorStops.Some? && ToArray(attributes.colorStops.value) == [] ==>
              r == Failure(EmptyStops)
    ensures r.Success? <==>
              attributes.width.Some? && attributes.colorStops.Some? && ToArray(attributes.colorStops.value) != []
    ensures r.Success? ==> r.value.width == attributes.width.value
    ensures r.Success? ==> Success(r.value.colorStops) == From(attributes.colorStops.value)
    ensures r.Success? ==> |r.value.colorStops| == |ToArray(attributes.colorStops.value)| - 1
  {
    match attributes.width
    case None => Failure(KeyError("width"))
    case Some(width) =>
      match attributes.colorStops
      case None => Failure(KeyError("color_stops"))
      case Some(stops) =>
        match From(Arr(ToArray(stops)))
        case Failure(e) => Failure(e)
        case Success(colorStops) => Success(Config(width, colorStops))
  }

  /** The arguments of `Magick::Image.new(columns, rows, fill)`. */
  datatype SubImage = SubImage(columns: int, rows: int, fill: GradientFill)

  /** The request made for one stop: `Magick::Image.new(width, stop.height, stop.to_gradient_fill(width))`. */
  function Step(width: int, stop: ColorStop): (r: SubImage)
    ensures r.columns == width && r.rows == stop.height
    ensures r.fill.startColor == stop.from && r.fill.endColor == stop.to
    ensures r.fill.x1 == 0 && r.fill.y1 == 0 && r.fill.x2 == width && r.fill.y2 == 0
  {
    SubImage(width, stop.height, stop.ToGradientFill(width))
  }

  /** The image list `inject` builds: the requests for the stops, appended in order. */
  function Plan(width: int, stops: seq<ColorStop>): (r: seq<SubImage>)
    ensures |r| == |stops|
    decreases |stops|
  {
    if stops == [] then []
    else Plan(width, stops[..|stops| - 1]) + [Step(width, stops[|stops| - 1])]
  }

  /** One request per stop, in stop order, of size `width` by the stop's height,
      with a fill between the stop's two colours whose starting line is the top edge. */
  lemma {:induction false} PlanAt(width: int, stops: seq<ColorStop>, i: nat)
    requires i < |stops|
    ensures |Plan(width, stops)| == |stops|
    ensures Plan(width, stops)[i] ==
              SubImage(width, stops[i].height, GradientFill(0, 0, width, 0, stops[i].from, stops[i].to))
    decreases |stops|
  {
    var n := |stops| - 1;
    if i < n {
      PlanAt(width, stops[..n], i);
    } else if n > 0 {
      PlanAt(width, stops[..n], 0);
    }
  }

  /** The `inject` loop of `image`: push one sub-image per stop onto the list. */
  method BuildSteps(width: int, stops: seq<ColorStop>) returns (steps: seq<SubImage>)
    ensures steps == Plan(width, stops)
  {
    steps := [];
    var i := 0;
    while i < |stops|
      invariant 0 <= i <= |stops|
      invariant steps == Plan(width, stops[..i])
    {
      assert stops[..i + 1][..i] == stops[..i];
      steps := steps + [Step(width, stops[i])];
      i := i + 1;
    }
    assert stops[..i] == stops;
  }

  /** The image returned by `ImageList#append(stacked)` over `steps`; its pixels
      are the image library's business. It is an object, so a cached image is
      recognisably the same one. */
  class MagickImage {
    const steps: seq<SubImage>
    const stacked: bool

    constructor Append(steps: seq<SubImage>, stacked: bool)
      ensures this.steps == steps && this.stacked == stacked
    {
      this.steps := steps;
      this.stacked := stacked;
    }
  }

  class LinearGradient {
    const width: int
    const colorStops: seq<ColorStop>
    var imageMemo: MagickImage?

    /** A cached image, once there is one, is the vertical stack of the
        requests for the current width and stops. */
    ghost predicate Valid()
      reads this
    {
      imageMemo != null ==> imageMemo.steps == Plan(width, colorStops) && imageMemo.stacked
    }

    constructor (width: int, colorStops: seq<ColorStop>)
      ensures this.width == width && this.colorStops == colorStops
      ensures imageMemo == null && Valid()
    {
      this.width := width;
      this.colorStops := colorStops;
      imageMemo := null;
    }

    /** `LinearGradient.new(attributes)`: fails at construction time, not at
        render time, when a key is missing or the stop list is empty. */
    static method New(attributes: Attributes) returns (r: Result<LinearGradient, Error>)
      ensures r.Failure? ==> Init(attributes) == Failure(r.error)
      ensures r.Success? ==> Init(attributes) == Success(Config(r.value.width, r.value.colorStops))
      ensures r.Success? ==> fresh(r.value) && r.value.imageMemo == null && r.value.Valid()
    {
      if attributes.width.None? {
        return Failure(KeyError("width"));
      }
      var width := attributes.width.value;
      if attributes.colorStops.None? {
        return Failure(KeyError("color_stops"));
      }
      var colorStops := FromStops(Arr(ToArray(attributes.colorStops.value)));
      if colorStops.Failure? {
        return Failure(colorStops.error);
      }
      var g := new LinearGradient(width, colorStops.value);
      return Success(g);
    }

    /** `image`: build the stacked image on the first call and cache it; every
        later call returns that same object. Only the cache is a variable. */
    method Image() returns (img: MagickImage)
      requires Valid()
      modifies this
      ensures Valid()
      ensures imageMemo == img
      ensures img.steps == Plan(width, colorStops) && img.stacked
      ensures old(imageMemo) != null ==> img == old(imageMemo)
      ensures old(imageMemo) == null ==> fresh(img)
    {
      if imageMemo == null {
        var steps := BuildSteps(width, colorStops);
        imageMemo := new MagickImage.Append(steps, true);
      }
      img := imageMemo;
    }

    /** `write(path)`: render (or reuse) the image, hand it to the image
        library's writer, and return that same image. */
    method Write(path: string) returns (img: MagickImage)
      requires Valid()
      modifies this
      ensures Valid()
      ensures imageMemo == img
      ensures img.steps == Plan(width, colorStops) && img.stacked
      ensures old(imageMemo) != null ==> img == old(imageMemo)
      ensures old(imageMemo) == null ==> fresh(img)
    {
      var written := Image();
      // written.write(path): the file encoding is the image library's and is not modelled
      img := Image();
    }
  }

  /** The example in the documentation of `LinearGradient.new`: one segment,
      hence one request of 1 by 17 from grey to white. */
  lemma GreyToWhite()
    ensures Init(Attributes(Some(1), Some(Arr([StopInput("rgb(242,242,242)", 0), StopInput("rgb(255,255,255)", 17)]))))
         == Success(Config(1, [ColorStop("rgb(242,242,242)", "rgb(255,255,255)", 17)]))
    ensures Plan(1, [ColorStop("rgb(242,242,242)", "rgb(255,255,255)", 17)])
         == [SubImage(1, 17, GradientFill(0, 0, 1, 0, "rgb(242,242,242)", "rgb(255,255,255)"))]
  {
    var r := From(Arr([StopInput("rgb(242,242,242)", 0), StopInput("rgb(255,255,255)", 17)])).value;
    assert r[0] == ColorStop("rgb(242,242,242)", "rgb(255,255,255)", 17);
    assert r == [r[0]];
  }

  /** What a caller can rely on: the stops of the `from` example give two
      requests, `image` and `write` hand back one and the same object. */
  method RenderTwice()
  {
    var attributes := Attributes(Some(1), Some(Arr([StopInput("#000", 0), StopInput("#fff", 17), StopInput("#ccc", 18)])));
    DocumentedExample();
    var r := LinearGradient.New(attributes);
    assert r.Success?;
    var g := r.value;
    assert g.colorStops == [ColorStop("#000", "#fff", 17), ColorStop("#fff", "#ccc", 18)];
    var first := g.Image();
    var second := g.Write("example.png");
    assert first == second;
    PlanAt(1, g.colorStops, 0);
    PlanAt(1, g.colorStops, 1);
    assert first.steps[1] == SubImage(1, 18, GradientFill(0, 0, 1, 0, "#fff", "#ccc"));
  }
}
