/** `Css3Images::ColorStop`: the record of one gradient segment, and the
    normalisation of a CSS3 stop list into such records. */
module ColorStops {
  import opened Runtime

  /** Colours are passed through to the image library unparsed. */
  type Color = string

  /** One input tuple `[color, offset]`; `first` is the colour, `last` the offset. */
  datatype StopInput = StopInput(color: Color, offset: int)

  /** The arguments of `Magick::GradientFill.new(x1, y1, x2, y2, start_color, end_color)`;
      the fill itself is computed by the image library. */
  datatype GradientFill = GradientFill(x1: int, y1: int, x2: int, y2: int, startColor: Color, endColor: Color)

  /** A segment of the gradient: blend `from` into `to` over `height` rows.
      `ColorStop.new(from, to, height)` is this constructor; the fields are
      read-only. */
  datatype ColorStop = ColorStop(from: Color, to: Color, height: int) {

    /** `to_gradient_fill(width)`: a fill whose starting line is the top
        edge, from (0, 0) to (width, 0), between the two colours of the segment. */
    function ToGradientFill(width: int): (f: GradientFill)
      ensures f.startColor == from && f.endColor == to
      ensures f.x1 == 0 && f.y1 == 0 && f.x2 == width && f.y2 == 0
    {
      GradientFill(0, 0, width, 0, from, to)
    }
  }

  /** The error `from` raises for an empty stop list: `slice` returned nil,
      and nil has no `each_with_index`. */
  const EmptyStops := NoMethodError("each_with_index")

  /** `ColorStop.from(stops)`: pair every tuple after the first with the one
      before it. The height of a segment is the offset of its later tuple,
      as it stands, not the distance between the two offsets. */
  function From(stops: Value<StopInput>): (r: Result<seq<ColorStop>, Error>)
    ensures r.Failure? <==> |ToArray(stops)| == 0
    ensures r.Failure? ==> r.error == EmptyStops
    ensures r.Success? ==> |r.value| == |ToArray(stops)| - 1
    ensures r.Success? ==> forall i :: 0 <= i < |r.value| ==>
              r.value[i].from == ToArray(stops)[i].color &&
              r.value[i].to == ToArray(stops)[i + 1].color &&
              r.value[i].height == ToArray(stops)[i + 1].offset
    ensures r.Success? ==> forall i :: 0 <= i < |r.value| - 1 ==> r.value[i].to == r.value[i + 1].from
  {
    var tuples := ToArray(stops);
    match Slice(tuples, 1, |tuples|)
    case None => Failure(EmptyStops)
    case Some(tail) =>
      Success(seq(|tail|, i requires 0 <= i < |tail| => ColorStop(tuples[i].color, tail[i].color, tail[i].offset)))
  }

  /** `ColorStop.from` as the code runs it: an `each_with_index` loop over the
      slice that appends one record per element. */
  method FromStops(stops: Value<StopInput>) returns (r: Result<seq<ColorStop>, Error>)
    ensures r == From(stops)
  {
    var colorStops: seq<ColorStop> := [];
    var tuples := ToArray(stops);
    var slice := Slice(tuples, 1, |tuples|);
    if slice.None? {
      return Failure(EmptyStops);
    }
    var tail := slice.value;
    var i := 0;
    while i < |tail|
      invariant 0 <= i <= |tail|
      invariant colorStops == Segments(tuples[..i + 1])
    {
      assert tuples[..i + 2] == tuples[..i + 1] + [tail[i]];
      SegmentsSnoc(tuples[..i + 1], tail[i]);
      colorStops := colorStops + [ColorStop(tuples[i].color, tail[i].color, tail[i].offset)];
      i := i + 1;
    }
    assert tuples[..i + 1] == tuples;
    FromIsPairwise(stops);
    r := Success(colorStops);
  }

  /** Reference definition of the normalisation: one segment per consecutive
      pair of tuples, first pair first. */
  function Segments(s: seq<StopInput>): seq<ColorStop>
    decreases |s|
  {
    if |s| < 2 then []
    else [ColorStop(s[0].color, s[1].color, s[1].offset)] + Segments(s[1..])
  }

  lemma {:induction false} SegmentsAt(s: seq<StopInput>, i: nat)
    requires i + 1 < |s|
    ensures |Segments(s)| == |s| - 1
    ensures Segments(s)[i] == ColorStop(s[i].color, s[i + 1].color, s[i + 1].offset)
    decreases |s|
  {
    if i == 0 {
      if |s| > 2 {
        SegmentsAt(s[1..], 0);
      }
    } else {
      SegmentsAt(s[1..], i - 1);
    }
  }

  /** Appending a tuple to a non-empty list adds exactly one segment at the end:
      the one from the old last colour to the new tuple. */
  lemma {:induction false} SegmentsSnoc(s: seq<StopInput>, x: StopInput)
    requires |s| >= 1
    ensures Segments(s + [x]) == Segments(s) + [ColorStop(s[|s| - 1].color, x.color, x.offset)]
    decreases |s|
  {
    if |s| == 1 {
      assert (s + [x])[1..] == [x];
    } else {
      assert (s + [x])[1..] == s[1..] + [x];
      SegmentsSnoc(s[1..], x);
    }
  }

  /** `from` agrees with the pairwise reference definition on every input it accepts. */
  lemma FromIsPairwise(stops: Value<StopInput>)
    requires |ToArray(stops)| >= 1
    ensures From(stops) == Success(Segments(ToArray(stops)))
  {
    var s := ToArray(stops);
    var r := From(stops).value;
    if |s| == 1 {
      assert Segments(s) == [];
    } else {
      forall i | 0 <= i < |r|
        ensures |Segments(s)| == |r| && r[i] == Segments(s)[i]
      {
        SegmentsAt(s, i);
      }
      SegmentsAt(s, 0);
      assert r == Segments(s);
    }
  }

  /** The example in the documentation of `from`: heights 17 and 18 (the
      offsets themselves), although the second pair of offsets is only 1 apart. */
  lemma DocumentedExample()
    ensures From(Arr([StopInput("#000", 0), StopInput("#fff", 17), StopInput("#ccc", 18)]))
         == Success([ColorStop("#000", "#fff", 17), ColorStop("#fff", "#ccc", 18)])
  {
    var s := [StopInput("#000", 0), StopInput("#fff", 17), StopInput("#ccc", 18)];
    var r := From(Arr(s)).value;
    assert r[0] == ColorStop("#000", "#fff", 17);
    assert r[1] == ColorStop("#fff", "#ccc", 18);
    assert r == [r[0], r[1]];
  }
}
