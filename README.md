# css3-images: colour-stop normalisation and the linear-gradient factory

The Ruby library `Css3Images` turns a CSS3-style list of colour stops
(`[color, offset]` tuples) into a top-to-bottom gradient image built with
RMagick. This project models the part the library owns:

- `ColorStop.from` (module `ColorStops`): a stop list becomes one `ColorStop`
  record `(from, to, height)` per consecutive pair of tuples. `From` is the
  specification function, `FromStops` the `each_with_index` loop that appends
  records, and `Segments` an independent recursive reference definition
  ("one segment per consecutive pair") that `FromIsPairwise` shows equal to it.
  `ColorStop` itself is read-only after `initialize`, so it is a datatype; its
  constructor stores exactly the three values it is given.
- `LinearGradient` (module `Gradients`): a class with the fields `width`,
  `colorStops` and the image cache `imageMemo`. `New` models `initialize`
  (fetching the two keys and normalising the stops, with `Init` as its
  specification), `Image` the memoised build, and `Write` the public writer.
  `width` and `colorStops` are only read after construction, so they are
  `const`; the cache is the one variable field.
- The image library is represented by the requests made to it:
  `GradientFill` and `SubImage` record the arguments of `GradientFill.new` and
  `Image.new`, and the class `MagickImage` stands for the image `ImageList#append`
  returns. Because it is an object, "the cache returns the same image" is
  stated as reference equality and "the first call builds a new one" as `fresh`.
- Module `Runtime` holds the Ruby semantics the code relies on: `Kernel#Array`
  on nil and on arrays, `Array#slice(start, length)`, and the two exceptions
  (`KeyError`, `NoMethodError`).

Colours are opaque strings and offsets integers; nothing checks either.
The height of a segment is the offset of the later tuple as it stands, not the
distance between the two offsets (`[["#000",0],["#fff",17],["#ccc",18]]` gives
heights 17 and 18).

An empty or nil stop list raises: `Array(stops)` is `[]`, `[].slice(1, 0)` is
nil and `nil.each_with_index` raises. `From` returns
`Failure(NoMethodError("each_with_index"))` for it, and `LinearGradient.new`
fails with it at construction time. A single tuple gives no segments and no
error.

`From` is a function on values, so it leaves its input untouched and gives
equal results for equal inputs by construction; no separate lemma states this.

## Model

| member | source | states |
|---|---|---|
| Runtime.ToArray | lib/css3-images/color_stop.rb:50 | `Array(x)` is the empty array for nil and the array itself for an array (also applied at linear_gradient.rb line 38) |
| Runtime.Slice | lib/css3-images/color_stop.rb:51 | `slice(start, length)` is nil exactly when `start` is past the end; otherwise it is the contiguous run starting at `start` whose length is `length` capped by what remains |
| Runtime.SliceTail | lib/css3-images/color_stop.rb:50-51 | `set.slice(1, set.length)` is nil for the empty array and the array minus its first element otherwise |
| ColorStops.ColorStop.ToGradientFill | lib/css3-images/color_stop.rb:27-29 | the fill is requested with the top edge, (0,0)–(width,0), as its starting line and blends from the stop's `from` to its `to` |
| ColorStops.From | lib/css3-images/color_stop.rb:47-56 | fails (NoMethodError) exactly when the coerced list is empty; otherwise gives n−1 records, record i going from colour i to colour i+1 with height the offset of tuple i+1; consecutive records chain (`to` of one is `from` of the next); one tuple gives `[]` |
| ColorStops.FromStops | lib/css3-images/color_stop.rb:47-56 | the append loop over the slice returns exactly `From(stops)`, error case included |
| ColorStops.SegmentsAt | lib/css3-images/color_stop.rb:4-5 | the pairwise reference list has n−1 segments and segment i joins tuples i and i+1, with the later offset as height |
| ColorStops.SegmentsSnoc | lib/css3-images/color_stop.rb:51-53 | appending a tuple to a non-empty list appends exactly one segment, from the old last colour to the new tuple |
| ColorStops.FromIsPairwise | lib/css3-images/color_stop.rb:47-56 | on every non-empty list `from` equals the pairwise reference definition |
| ColorStops.DocumentedExample | lib/css3-images/color_stop.rb:37-44 | the documented three-tuple example gives `("#000","#fff",17)` and `("#fff","#ccc",18)`: heights are offsets, not differences |
| Gradients.Init | lib/css3-images/linear_gradient.rb:36-39 | a missing `:width` fails with KeyError before `:color_stops` is looked at; a missing `:color_stops` fails with KeyError; an empty or nil stop list fails with the `from` error; otherwise width is stored unchanged and the stops are `From` of the attribute, n−1 of them |
| Gradients.Step | lib/css3-images/linear_gradient.rb:47 | the request for one stop is an image of `width` columns and `stop.height` rows with that stop's gradient fill for `width` |
| Gradients.Plan | lib/css3-images/linear_gradient.rb:46-48 | the image list the `inject` builds has exactly one entry per stop |
| Gradients.PlanAt | lib/css3-images/linear_gradient.rb:44-48 | the render plan has one request per stop, in stop order, of size width × stop height, whose fill starts on the top edge (0,0)–(width,0) and goes from the stop's `from` to its `to` |
| Gradients.BuildSteps | lib/css3-images/linear_gradient.rb:44-48 | the `inject` loop produces exactly the render plan for the width and stops |
| Gradients.MagickImage.Append | lib/css3-images/linear_gradient.rb:50 | the appended image records the sub-image requests and the stacking direction it was built from |
| Gradients.LinearGradient.constructor | lib/css3-images/linear_gradient.rb:36-39 | a new gradient holds the given width and stops and no cached image |
| Gradients.LinearGradient.New | lib/css3-images/linear_gradient.rb:36-39 | construction fails exactly as `Init` does; on success the new object's width and stops are what `Init` computes and its cache is empty |
| Gradients.LinearGradient.Image | lib/css3-images/linear_gradient.rb:42-57 | returns the vertical stack of the render plan; the first call creates a fresh image and caches it, later calls return that identical object; width and stops are constant fields |
| Gradients.LinearGradient.Write | lib/css3-images/linear_gradient.rb:64-67 | returns the same cached image that `Image` returns (building it if needed); width and stops are constant fields |
| Gradients.GreyToWhite | lib/css3-images/linear_gradient.rb:28-31 | the documented grey-to-white attributes give width 1 and one stop, rendered as one 1 × 17 request |

## Left out

- Pixel content: what `Magick::GradientFill`, `Magick::Image.new` and `ImageList#append` compute is the image library's business; the model records only the requests, so it claims nothing about total height or pixels.
- Errors raised by the image library (bad colour syntax, zero or negative sizes, `append` on an empty image list for a single-tuple input) are not modelled; for one tuple the model builds an image with no sub-images.
- Gradients.LinearGradient.Write: the file encoding and write at `path` is I/O of the image library; only the returned image and the cache are modelled.
- The commented-out compositing code after `append` is dead and not modelled.
- `Kernel#Array` on objects other than nil and arrays, tuples that are not pairs, non-integer offsets, and a `:width` key present with a non-integer value are not modelled.
- Gradients.LinearGradient.Image: the array `attr_reader :color_stops` hands out is not modelled as mutable; a caller that appends to it after `image` would leave the cache stale, whereas the model promises the cached image always matches the stops.
- Concurrent use of the cache is not modelled; the library is single-threaded.
