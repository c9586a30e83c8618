/** Dimension arithmetic and acceptance rules of internal/processor/image.go. */
module Processor {
  import opened Arithmetic
  import opened Wrappers

  const MAX_ORIGINAL_SIZE := 512
  const THUMB_SIZE := 128
  const MAX_DIMENSION := 4096

  datatype Size = Size(w: int, h: int)

  function Max(a: int, b: int): int {
    if a >= b then a else b
  }

  /** The size `resizeImage` gives a picture of size `s` (image.go:96-116). */
  function Fit(s: Size, max: int): Size
    requires s.w >= 1 && s.h >= 1 && max >= 1
  {
    if s.w <= max && s.h <= max then s
    else if s.w >= s.h then
      Size(max, if s.h * max / s.w < 1 then 1 else s.h * max / s.w)
    else
      Size(if s.w * max / s.h < 1 then 1 else s.w * max / s.h, max)
  }

  predicate Positive(s: Size) {
    s.w >= 1 && s.h >= 1
  }

  /** The shorter side, scaled by `max / long`, is within `0..max`, and below `max` if it was shorter. */
  lemma ScaledSide(short: int, long: int, max: int)
    requires 1 <= short <= long && max >= 1
    ensures 0 <= short * max / long <= max
    ensures short < long ==> short * max / long < max
    ensures max < long ==> short * max / long <= short
  {
    var q := short * max / long;
    QuotientIs(short * max, long, q);
    NonNegative(short, max);
    MultiplesApart(q + 1, 0, long);
    Distribute(q, 1, long);
    MultiplesApart(short, long, max);
    MultiplesApart(max, q, long);
    Commute(long, max);
    MultiplesApart(max, long, short);
    MultiplesApart(short, q, long);
    Commute(short, max);
    Commute(long, short);
  }

  lemma Commute(x: int, y: int)
    ensures x * y == y * x
  {
  }

  /** Results stay within `1..max` on both sides, never exceed the source, and hit `max` if it was exceeded. */
  lemma FitBounds(s: Size, max: int)
    requires Positive(s) && max >= 1
    ensures var r := Fit(s, max);
      && 1 <= r.w <= max && 1 <= r.h <= max
      && r.w <= s.w && r.h <= s.h
      && (Max(s.w, s.h) > max ==> Max(r.w, r.h) == max)
  {
    if s.w <= max && s.h <= max {
    } else if s.w >= s.h {
      ScaledSide(s.h, s.w, max);
    } else {
      ScaledSide(s.w, s.h, max);
    }
  }

  /**
   A picture within the bound keeps its size. Of a larger one, the longer side gets the bound and
   the shorter side its share rounded down, the most pixels that do not exceed it, but at least one.
   */
  lemma FitRoundsDown(s: Size, max: int)
    requires Positive(s) && max >= 1
    ensures var r := Fit(s, max);
      && (s.w <= max && s.h <= max ==> r == s)
      && (s.w > max && s.w >= s.h ==>
            r.w == max && (r.h * s.w <= s.h * max < (r.h + 1) * s.w || (r.h == 1 && s.h * max < s.w)))
      && (s.h > max && s.w < s.h ==>
            r.h == max && (r.w * s.h <= s.w * max < (r.w + 1) * s.h || (r.w == 1 && s.w * max < s.h)))
  {
    if s.w > max && s.w >= s.h {
      ShareRoundsDown(s.h, s.w, max);
    } else if s.h > max && s.w < s.h {
      ShareRoundsDown(s.w, s.h, max);
    }
  }

  lemma ShareRoundsDown(short: int, long: int, max: int)
    requires 1 <= short <= long && max >= 1
    ensures var side := Side(short, long, max);
      side * long <= short * max < (side + 1) * long || (side == 1 && short * max < long)
  {
    var q := short * max / long;
    QuotientIs(short * max, long, q);
    Distribute(q, 1, long);
    NonNegative(short, max);
    if q < 1 {
      ScaledSide(short, long, max);
      assert q == 0;
    }
  }

  function Transpose(s: Size): Size {
    Size(s.h, s.w)
  }

  /** Rotating a picture by a quarter turn commutes with resizing it, ties included. */
  lemma FitTransposes(s: Size, max: int)
    requires Positive(s) && max >= 1
    ensures Fit(Transpose(s), max) == Transpose(Fit(s, max))
  {
    if s.w == s.h && s.w > max {
      QuotientIs(s.w * max, s.w, max);
    }
  }

  /** The aspect ratio is kept up to rounding: the cross products differ by less than one longer side. */
  lemma FitKeepsRatio(s: Size, max: int)
    requires Positive(s) && max >= 1
    ensures var r := Fit(s, max);
      -Max(s.w, s.h) < r.w * s.h - r.h * s.w < Max(s.w, s.h)
  {
    if s.w <= max && s.h <= max {
      assert s.w * s.h == s.h * s.w;
    } else if s.w >= s.h {
      SideKeepsRatio(s.h, s.w, max);
    } else {
      SideKeepsRatio(s.w, s.h, max);
    }
  }

  /** The scaled shorter side, clamped to at least one pixel. */
  function Side(short: int, long: int, max: int): int
    requires long >= 1
  {
    if short * max / long < 1 then 1 else short * max / long
  }

  lemma SideKeepsRatio(short: int, long: int, max: int)
    requires 1 <= short <= long && 1 <= max
    ensures -long < max * short - Side(short, long, max) * long < long
  {
    var q := short * max / long;
    QuotientIs(short * max, long, q);
    ScaledSide(short, long, max);
    MultiplesApart(0, short, max);
    assert short * max == max * short;
  }

  /**
   Resizing in two stages gives the size of resizing once, whenever the first bound is a
   multiple of the second: clamping to one pixel at either stage does not disturb it.
   */
  lemma FitCommutes(s: Size, max: int, k: int)
    requires Positive(s) && max >= 1 && k >= 1
    ensures max * k >= max && Positive(Fit(s, max * k))
    ensures Fit(Fit(s, max * k), max) == Fit(s, max)
  {
    MultiplesApart(1, k, max);
    var big := max * k;
    FitBounds(s, big);
    if s.w <= big && s.h <= big {
    } else if s.w >= s.h {
      FitLandscape(s, big);
      FitLandscape(s, max);
      FitLandscape(Fit(s, big), max);
      TwoStageSide(s.h, s.w, max, k);
    } else {
      FitTransposes(s, big);
      FitTransposes(s, max);
      FitTransposes(Fit(s, big), max);
      FitLandscape(Transpose(s), big);
      FitLandscape(Transpose(s), max);
      FitLandscape(Fit(Transpose(s), big), max);
      TwoStageSide(s.w, s.h, max, k);
    }
  }

  /** For a picture at least as wide as the bound, and not taller than wide, one formula covers both branches. */
  lemma FitLandscape(s: Size, max: int)
    requires Positive(s) && max >= 1 && s.w >= s.h && s.w >= max
    ensures Fit(s, max) == Size(max, Side(s.h, s.w, max)) && Fit(s, max).h <= max
  {
    ScaledSide(s.h, s.w, max);
    QuotientIs(s.h * max, s.w, s.h);
  }

  /** The shorter side after scaling the longer one to `max * k` and then to `max`. */
  lemma TwoStageSide(short: int, long: int, max: int, k: int)
    requires 1 <= short <= long && 1 <= max && 1 <= k && max * k >= 1
    ensures Side(Side(short, long, max * k), max * k, max) == Side(short, long, max)
  {
    var first := short * (max * k) / long;
    Regroup(short, max, k);
    NestedFloor(short * max, long, k);
    CancelFactor(first, max, k);
    CancelFactor(1, max, k);
    ScaledSide(short, long, max * k);
    QuotientIs(1, k, 1);
    QuotientIs(1, k, 0);
  }

  // ---- Process ----

  datatype Decoded = Decoded(contentType: string, size: Size)

  /**
   The image libraries: decoding, and scaling a decoded picture to a size and encoding it as
   PNG. Both are deterministic; which bytes decode, and to what, is left open.
   */
  datatype Codec = Codec(decode: Bytes -> Option<Decoded>, png: (Bytes, Size) -> Option<Bytes>)

  datatype Info = Info(contentType: string, bytes: nat, size: Size)

  datatype Picture = Picture(original: Bytes, thumb: Bytes, info: Info)

  const NO_INFO := Info("", 0, Size(0, 0))

  /** `Process` (image.go:30-73); every error return is `None`. */
  function Process(codec: Codec, data: Bytes): Option<Picture> {
    if |data| == 0 then None
    else match codec.decode(data)
      case None => None
      case Some(d) =>
        if d.size.w > MAX_DIMENSION || d.size.h > MAX_DIMENSION || d.size.w < 1 || d.size.h < 1 then None
        else
          var big := Fit(d.size, MAX_ORIGINAL_SIZE);
          match (codec.png(data, big), codec.png(data, Fit(d.size, THUMB_SIZE)))
          case (Some(original), Some(thumb)) =>
            Some(Picture(original, thumb, Info(d.contentType, |original|, big)))
          case _ => None
  }

  /**
   Which uploads are pictures: exactly the bytes that decode to a picture of 1 to 4096 pixels on
   each side, and that can be encoded at the two sizes that are stored.
   */
  lemma ProcessAcceptsExactly(codec: Codec, data: Bytes)
    ensures Process(codec, data).Some? <==>
      && data != [] && codec.decode(data).Some?
      && var s := codec.decode(data).value.size;
      && 1 <= s.w <= 4096 && 1 <= s.h <= 4096
      && codec.png(data, Fit(s, 512)).Some? && codec.png(data, Fit(s, 128)).Some?
  {
  }

  /** Hence no picture within the bound is refused if it can be encoded at all, and its content type is kept. */
  lemma ProcessAcceptsPictures(codec: Codec, data: Bytes, d: Decoded)
    requires data != [] && codec.decode(data) == Some(d)
    requires 1 <= d.size.w <= 4096 && 1 <= d.size.h <= 4096
    requires forall size :: codec.png(data, size).Some?
    ensures Process(codec, data).Some?
    ensures var p := Process(codec, data).value;
      && p.info.contentType == d.contentType && p.info.size == Fit(d.size, 512)
      && codec.png(data, Fit(d.size, 512)) == Some(p.original) && codec.png(data, Fit(d.size, 128)) == Some(p.thumb)
  {
    ProcessAcceptsExactly(codec, data);
  }

  /**
   A successful `Process` records the decoded content type, and the dimensions and size of the
   picture it stores, which is the decoded one fitted to 512; and its thumbnail has the size that
   shrinking the stored picture to 128 would have given.
   */
  lemma ProcessDescribesItsResult(codec: Codec, data: Bytes)
    requires Process(codec, data).Some?
    ensures var p := Process(codec, data).value;
      && codec.decode(data).Some?
      && p.info.contentType == codec.decode(data).value.contentType
      && p.info.bytes == |p.original|
      && 1 <= p.info.size.w <= 512 && 1 <= p.info.size.h <= 512
      && Positive(codec.decode(data).value.size) && p.info.size == Fit(codec.decode(data).value.size, 512)
      && codec.png(data, p.info.size) == Some(p.original)
      && codec.png(data, Fit(p.info.size, 128)) == Some(p.thumb)
  {
    var d := codec.decode(data).value;
    FitBounds(d.size, MAX_ORIGINAL_SIZE);
    FitCommutes(d.size, THUMB_SIZE, 4);
  }
}
