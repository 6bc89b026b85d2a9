/**
 * Helpers of the page script (main.js) that compute rather than draw: fitting an
 * image inside a bound, reading the EXIF orientation from the start of a JPEG
 * file, the canvas size and transform of each orientation, and the status
 * badge's text key and classes.
 */
module PageHelpers {
  import opened Numeric
  import opened Wrappers

  // ---- scaleDimensions ----

  /**
   * `scaleDimensions`: unchanged when the longer side fits; otherwise the longer
   * side (the height when the sides are equal or the image is portrait) becomes
   * `maxSize` and the other keeps the aspect, rounded. A zero height counts as
   * an infinitely wide image.
   */
  function ScaleDimensions(width: nat, height: nat, maxSize: nat): (r: (int, int))
    requires maxSize > 0
    ensures MaxInt(width, height) <= maxSize ==> r == (width, height)
    ensures MaxInt(width, height) > maxSize && width > height ==> r.0 == maxSize && 0 <= r.1 <= maxSize
    ensures MaxInt(width, height) > maxSize && width <= height ==> r.1 == maxSize && 0 <= r.0 <= maxSize
    ensures MaxInt(width, height) > maxSize && width > height && height > 0 ==>
      r.1 as real - 0.5 <= maxSize as real * height as real / width as real < r.1 as real + 0.5
    ensures MaxInt(width, height) > maxSize && width <= height ==>
      r.0 as real - 0.5 <= maxSize as real * width as real / height as real < r.0 as real + 0.5
  {
    if MaxInt(width, height) <= maxSize then (width, height)
    else if width > height then
      (maxSize, if height == 0 then 0 else FitShorter(maxSize, height, width))
    else (FitShorter(maxSize, width, height), maxSize)
  }

  /** The shorter side `maxSize * shorter / longer`, rounded: between 0 and `maxSize`. */
  function FitShorter(maxSize: nat, shorter: nat, longer: nat): (r: int)
    requires 0 < longer && shorter <= longer
    ensures 0 <= r <= maxSize
    ensures r as real - 0.5 <= maxSize as real * shorter as real / longer as real < r as real + 0.5
  {
    var scaled := maxSize as real * shorter as real / longer as real;
    assert 0.0 <= scaled <= maxSize as real by {
      var q := shorter as real / longer as real;
      assert 0.0 <= q <= 1.0 by {
        assert q * longer as real == shorter as real;
      }
      assert scaled == maxSize as real * q;
      ScaledByFraction(maxSize as real, q);
    }
    RoundWithin(scaled, 0, maxSize);
    Round(scaled)
  }

  // ---- getExifOrientation ----

  type Byte = b: int | 0 <= b < 256

  /** `DataView.getUint16`: `None` where the read would run past the buffer (a `RangeError`). */
  function U16(buf: seq<Byte>, offset: int, little: bool): (r: Option<int>)
    ensures r.Some? <==> 0 <= offset && offset + 2 <= |buf|
    ensures r.Some? ==> 0 <= r.value < 0x1_0000
  {
    if 0 <= offset && offset + 2 <= |buf| then
      var b0, b1 := buf[offset] as int, buf[offset + 1] as int;
      Some(if little then b1 * 0x100 + b0 else b0 * 0x100 + b1)
    else None
  }

  /** `DataView.getUint32`, likewise. */
  function U32(buf: seq<Byte>, offset: int, little: bool): (r: Option<int>)
    ensures r.Some? <==> 0 <= offset && offset + 4 <= |buf|
    ensures r.Some? ==> 0 <= r.value
  {
    if 0 <= offset && offset + 4 <= |buf| then
      var b0, b1, b2, b3 := buf[offset] as int, buf[offset + 1] as int, buf[offset + 2] as int, buf[offset + 3] as int;
      Some(if little then ((b3 * 0x100 + b2) * 0x100 + b1) * 0x100 + b0
           else ((b0 * 0x100 + b1) * 0x100 + b2) * 0x100 + b3)
    else None
  }

  /** The orientation tag of TIFF IFD0. */
  const OrientationTag: int := 0x0112

  /** "Exif" as a big-endian 32-bit word. */
  const ExifWord: int := 0x4578_6966

  /** The outcome of the inner `for` over the IFD entries. */
  datatype TagSearch = Found(value: int) | Throws | NotFound

  /** Entries i, i+1, ... of the IFD starting at `entries`: the first orientation tag's value. */
  function FindTag(buf: seq<Byte>, entries: int, little: bool, i: nat, tags: nat): TagSearch
    decreases tags - i
  {
    if i >= tags then NotFound
    else
      var tagOffset := entries + i * 12;
      var tag := U16(buf, tagOffset, little);
      if tag.None? then Throws
      else if tag.value == OrientationTag then
        (var v := U16(buf, tagOffset + 8, little); if v.None? then Throws else Found(v.value))
      else FindTag(buf, entries, little, i + 1, tags)
  }

  /** One turn of the marker loop: stop with a result, or continue at a later offset. */
  datatype Step = Stop(result: int) | Continue(next: int)

  /**
   * The APP1 branch, from just after its marker: the block length, the "Exif"
   * word, the byte order, the IFD0 offset, the entry count, then the tag search.
   */
  function App1Step(buf: seq<Byte>, offset: int): (s: Step)
    requires 0 <= offset
    ensures s.Continue? ==> s.next >= offset + 10
  {
    if U16(buf, offset, false).None? then Stop(1)
    else
      var exif := U32(buf, offset + 2, false);
      if exif.None? || exif.value != ExifWord then Stop(1)
      else
        var tiff := offset + 8;
        var order := U16(buf, tiff, false);
        if order.None? then Stop(1)
        else
          var little := order.value == 0x4949;
          var ifd := U32(buf, tiff + 4, little);
          if ifd.None? then Stop(1)
          else
            var count := U16(buf, tiff + ifd.value, little);
            if count.None? then Stop(1)
            else
              var entries := tiff + ifd.value + 2;
              match FindTag(buf, entries, little, 0, count.value)
              case Found(v) => Stop(v)
              case Throws => Stop(1)
              case NotFound => Continue(entries)
  }

  /** One turn of the marker loop at `offset`. A turn that continues moves on by at least 2. */
  function SegmentStep(buf: seq<Byte>, offset: int): (s: Step)
    requires 0 <= offset
    ensures s.Continue? ==> s.next >= offset + 2
  {
    var marker := U16(buf, offset, false);
    if marker.None? then Stop(1)
    else if marker.value == 0xFFE1 then App1Step(buf, offset + 2)
    else if marker.value / 0x100 != 0xFF then Stop(1)
    else
      var length := U16(buf, offset + 2, false);
      if length.None? then Stop(1) else Continue(offset + 2 + length.value)
  }

  /** The marker loop from `offset` on; it ends because every turn that continues moves forward. */
  function ScanMarkers(buf: seq<Byte>, offset: int): int
    requires 0 <= offset
    decreases |buf| - offset
  {
    if offset >= |buf| then 1
    else match SegmentStep(buf, offset)
      case Stop(r) => r
      case Continue(next) => ScanMarkers(buf, next)
  }

  /** The orientation `getExifOrientation` reports for a file starting with `buf`. */
  function ExifOrientation(buf: seq<Byte>): int {
    if U16(buf, 0, false) != Some(0xFFD8) then 1 else ScanMarkers(buf, 2)
  }

  /**
   * `getExifOrientation` over the first bytes of the file: 1 unless the file is a
   * JPEG with an Exif block whose IFD0 holds an orientation entry, whose value
   * is then read in the block's byte order; a read past the end gives 1.
   */
  method GetExifOrientation(buf: seq<Byte>) returns (orientation: int)
    ensures orientation == ExifOrientation(buf)
    ensures 0 <= orientation < 0x1_0000
  {
    ExifOrientationRange(buf);
    var soi := U16(buf, 0, false);
    if soi.None? || soi.value != 0xFFD8 {
      return 1;
    }
    var offset := 2;
    var length := |buf|;
    while offset < length
      invariant 2 <= offset
      invariant ScanMarkers(buf, offset) == ExifOrientation(buf)
      decreases length - offset
    {
      ghost var start := offset;
      var marker := U16(buf, offset, false);
      if marker.None? {
        return 1;
      }
      offset := offset + 2;
      if marker.value == 0xFFE1 {
        var step := ReadApp1(buf, offset);
        if step.Stop? {
          return step.result;
        }
        offset := step.next;
      } else if marker.value / 0x100 != 0xFF {
        return 1;
      } else {
        var segment := U16(buf, offset, false);
        if segment.None? {
          return 1;
        }
        offset := offset + segment.value;
      }
      assert SegmentStep(buf, start) == Continue(offset);
    }
    orientation := 1;
  }

  /** The APP1 branch of the loop body, with the inner `for` over the IFD entries. */
  method ReadApp1(buf: seq<Byte>, offset: int) returns (step: Step)
    requires 0 <= offset
    ensures step == App1Step(buf, offset)
  {
    var blockLength := U16(buf, offset, false);
    if blockLength.None? {
      return Stop(1);
    }
    var exif := U32(buf, offset + 2, false);
    if exif.None? || exif.value != ExifWord {
      return Stop(1);
    }
    var tiff := offset + 8;
    var order := U16(buf, tiff, false);
    if order.None? {
      return Stop(1);
    }
    var little := order.value == 0x4949;
    var ifd := U32(buf, tiff + 4, little);
    if ifd.None? {
      return Stop(1);
    }
    var count := U16(buf, tiff + ifd.value, little);
    if count.None? {
      return Stop(1);
    }
    var entries := tiff + ifd.value + 2;
    var tags := count.value;
    var i := 0;
    while i < tags
      invariant 0 <= i <= tags
      invariant FindTag(buf, entries, little, i, tags) == FindTag(buf, entries, little, 0, tags)
    {
      var tagOffset := entries + i * 12;
      var tag := U16(buf, tagOffset, little);
      if tag.None? {
        return Stop(1);
      }
      if tag.value == OrientationTag {
        var value := U16(buf, tagOffset + 8, little);
        if value.None? {
          return Stop(1);
        }
        return Stop(value.value);
      }
      i := i + 1;
    }
    step := Continue(entries);
  }

  /** The search yields a 16-bit value read eight bytes past an orientation entry. */
  lemma {:induction false} FindTagFacts(buf: seq<Byte>, entries: int, little: bool, i: nat, tags: nat)
    ensures FindTag(buf, entries, little, i, tags).Found? ==>
      var v := FindTag(buf, entries, little, i, tags).value;
      0 <= v < 0x1_0000
      && exists t :: U16(buf, t, little) == Some(OrientationTag) && U16(buf, t + 8, little) == Some(v)
    decreases tags - i
  {
    if i < tags {
      var t := entries + i * 12;
      if U16(buf, t, little) != Some(OrientationTag) {
        FindTagFacts(buf, entries, little, i + 1, tags);
      }
    }
  }

  /** Whatever the marker loop returns is 1 or a 16-bit value read eight bytes past an orientation entry. */
  lemma {:induction false} ScanMarkersFacts(buf: seq<Byte>, offset: int)
    requires 0 <= offset
    ensures var r := ScanMarkers(buf, offset);
      0 <= r < 0x1_0000
      && (r == 1 || exists t, little :: U16(buf, t, little) == Some(OrientationTag) && U16(buf, t + 8, little) == Some(r))
    decreases |buf| - offset
  {
    if offset < |buf| {
      var s := SegmentStep(buf, offset);
      if s.Continue? {
        ScanMarkersFacts(buf, s.next);
      } else if U16(buf, offset, false) == Some(0xFFE1) {
        App1Facts(buf, offset + 2);
      }
    }
  }

  /** The APP1 branch stops with 1 or with a value read after an orientation entry. */
  lemma App1Facts(buf: seq<Byte>, offset: int)
    requires 0 <= offset
    ensures App1Step(buf, offset).Stop? ==>
      var r := App1Step(buf, offset).result;
      0 <= r < 0x1_0000
      && (r == 1 || exists t, little :: U16(buf, t, little) == Some(OrientationTag) && U16(buf, t + 8, little) == Some(r))
  {
    var exif := U32(buf, offset + 2, false);
    var tiff := offset + 8;
    var order := U16(buf, tiff, false);
    if U16(buf, offset, false).Some? && exif.Some? && exif.value == ExifWord && order.Some? {
      var little := order.value == 0x4949;
      var ifd := U32(buf, tiff + 4, little);
      if ifd.Some? {
        var count := U16(buf, tiff + ifd.value, little);
        if count.Some? {
          FindTagFacts(buf, tiff + ifd.value + 2, little, 0, count.value);
        }
      }
    }
  }

  /**
   * The reported orientation is 1, or the 16-bit value eight bytes past an
   * orientation entry, in the byte order the entry was read in.
   */
  lemma ExifOrientationRange(buf: seq<Byte>)
    ensures var r := ExifOrientation(buf);
      0 <= r < 0x1_0000
      && (r == 1 || exists t, little :: U16(buf, t, little) == Some(OrientationTag) && U16(buf, t + 8, little) == Some(r))
  {
    if U16(buf, 0, false) == Some(0xFFD8) {
      ScanMarkersFacts(buf, 2);
    }
  }

  /** A file that does not start with the JPEG start-of-image marker FF D8 has orientation 1. */
  lemma NotJpegIsUpright(buf: seq<Byte>)
    requires |buf| < 2 || buf[0] != 0xFF || buf[1] != 0xD8
    ensures ExifOrientation(buf) == 1
  {
  }

  /** A JPEG whose first segment is an APP1 block not labelled "Exif" has orientation 1. */
  lemma NonExifApp1IsUpright(buf: seq<Byte>)
    requires U16(buf, 0, false) == Some(0xFFD8) && U16(buf, 2, false) == Some(0xFFE1)
    requires U32(buf, 6, false) != Some(ExifWord)
    ensures ExifOrientation(buf) == 1
  {
  }

  // ---- orientImageSource ----

  /**
   * The canvas calls `orientImageSource` makes: `translate(tx, ty)`,
   * `scale(sx, sy)` with each factor 1 or -1 (a flip where it is -1), and
   * `rotate` by a whole number of quarter turns clockwise (pi/2 is one, pi two,
   * -pi/2 three), taken exactly.
   */
  datatype CanvasCall = Translate(tx: int, ty: int) | Flip(flipX: bool, flipY: bool) | Rotate(quarters: int)

  /** Where one call sends a point of its own coordinates in the coordinates before it. */
  function CallMaps(call: CanvasCall, p: (int, int)): (int, int) {
    match call
    case Translate(tx, ty) => (p.0 + tx, p.1 + ty)
    case Flip(fx, fy) => (if fx then -p.0 else p.0, if fy then -p.1 else p.1)
    case Rotate(q) =>
      if q % 4 == 1 then (-p.1, p.0)
      else if q % 4 == 2 then (-p.0, -p.1)
      else if q % 4 == 3 then (p.1, -p.0)
      else p
  }

  /** Where a point drawn after the calls lands on the canvas: the last call acts first. */
  function Draw(calls: seq<CanvasCall>, x: int, y: int): (int, int)
    decreases |calls|
  {
    if |calls| == 0 then (x, y) else CallMaps(calls[0], Draw(calls[1..], x, y))
  }

  /** Orientations 5 to 8 turn the image by a quarter, so the canvas swaps its sides. */
  function OrientedSize(width: nat, height: nat, orientation: int): (r: (nat, nat))
    ensures 5 <= orientation <= 8 ==> r == (height, width)
    ensures !(5 <= orientation <= 8) ==> r == (width, height)
  {
    if 5 <= orientation <= 8 then (height, width) else (width, height)
  }

  /**
   * The calls `orientImageSource` makes before drawing, in order; any value
   * outside 2 to 8 draws the image as it is.
   */
  function OrientCalls(width: nat, height: nat, orientation: int): seq<CanvasCall> {
    match orientation
    case 2 => [Translate(width, 0), Flip(true, false)]
    case 3 => [Translate(width, height), Rotate(2)]
    case 4 => [Translate(0, height), Flip(false, true)]
    case 5 => [Rotate(1), Flip(false, true)]
    case 6 => [Rotate(1), Translate(0, -(height as int))]
    case 7 => [Rotate(1), Translate(width, -(height as int)), Flip(true, false)]
    case 8 => [Rotate(-1), Translate(-(width as int), 0)]
    case _ => []
  }

  /**
   * What each orientation value means in the EXIF standard, as the map from a
   * stored pixel to where it belongs: 2 mirrors left to right, 3 turns by a
   * half, 4 mirrors top to bottom, 5 transposes, 6 turns clockwise by a quarter,
   * 7 transverses, 8 turns anticlockwise by a quarter.
   */
  function ExifMeaning(width: int, height: int, orientation: int, x: int, y: int): (int, int) {
    match orientation
    case 2 => (width - x, y)
    case 3 => (width - x, height - y)
    case 4 => (x, height - y)
    case 5 => (y, x)
    case 6 => (height - y, x)
    case 7 => (height - y, width - x)
    case 8 => (y, width - x)
    case _ => (x, y)
  }

  /** The canvas calls of every case compose to the map the EXIF standard gives that orientation. */
  lemma TransformMatchesExif(width: nat, height: nat, orientation: int)
    ensures forall x, y :: Draw(OrientCalls(width, height, orientation), x, y) == ExifMeaning(width, height, orientation, x, y)
  {
    var calls := OrientCalls(width, height, orientation);
    forall x, y
      ensures Draw(calls, x, y) == ExifMeaning(width, height, orientation, x, y)
    {
      if |calls| == 2 {
        DrawTwo(calls, x, y);
      } else if |calls| == 3 {
        DrawThree(calls, x, y);
      }
    }
  }

  lemma DrawTwo(calls: seq<CanvasCall>, x: int, y: int)
    requires |calls| == 2
    ensures Draw(calls, x, y) == CallMaps(calls[0], CallMaps(calls[1], (x, y)))
  {
    assert Draw(calls[1..][1..], x, y) == (x, y);
    assert Draw(calls[1..], x, y) == CallMaps(calls[1], (x, y));
  }

  lemma DrawThree(calls: seq<CanvasCall>, x: int, y: int)
    requires |calls| == 3
    ensures Draw(calls, x, y) == CallMaps(calls[0], CallMaps(calls[1], CallMaps(calls[2], (x, y))))
  {
    DrawTwo(calls[1..], x, y);
  }

  /** The corners of a w x h rectangle at the origin. */
  function Corners(w: int, h: int): set<(int, int)> {
    {(0, 0), (w, 0), (0, h), (w, h)}
  }

  /** Every orientation draws each point of the image's rectangle onto the canvas. */
  lemma OrientationInsideCanvas(width: nat, height: nat, orientation: int, x: int, y: int)
    requires 0 <= x <= width && 0 <= y <= height
    ensures var size := OrientedSize(width, height, orientation);
      var p := Draw(OrientCalls(width, height, orientation), x, y);
      0 <= p.0 <= size.0 && 0 <= p.1 <= size.1
  {
    TransformMatchesExif(width, height, orientation);
  }

  /** Every orientation sends the image's corners onto the canvas's corners. */
  lemma OrientationCorners(width: nat, height: nat, orientation: int)
    ensures var size := OrientedSize(width, height, orientation);
      var calls := OrientCalls(width, height, orientation);
      (set p | p in Corners(width, height) :: Draw(calls, p.0, p.1)) == Corners(size.0, size.1)
  {
    TransformMatchesExif(width, height, orientation);
    var calls := OrientCalls(width, height, orientation);
    var image := set p | p in Corners(width, height) :: Draw(calls, p.0, p.1);
    assert Draw(calls, 0, 0) in image;
    assert Draw(calls, width, 0) in image;
    assert Draw(calls, 0, height) in image;
    assert Draw(calls, width, height) in image;
  }

  // ---- updateStatusBadge ----

  /** The badge's text key and its two classes. */
  datatype Badge = Badge(key: string, ready: bool, error: bool)

  /** `keyMap` of `updateStatusBadge`. */
  function StatusKeys(): map<string, string> {
    map["loading" := "ai_model_status_loading", "ready" := "ai_model_status_ready",
        "local" := "ai_model_status_ready", "cloud" := "ai_model_status_cloud",
        "rules" := "ai_model_status_rules", "error" := "ai_model_status_error"]
  }

  /**
   * `updateStatusBadge`: the key for the state, the loading key for an unknown
   * state; the `ready` class for ready, local and cloud only, the `error` class
   * for error only.
   */
  function StatusBadge(state: string): (b: Badge)
    ensures state !in StatusKeys() ==> b.key == "ai_model_status_loading"
    ensures state in StatusKeys() ==> b.key == StatusKeys()[state]
    ensures b.ready <==> state == "ready" || state == "local" || state == "cloud"
    ensures b.error <==> state == "error"
    ensures !(b.ready && b.error)
  {
    var key := if state in StatusKeys() then StatusKeys()[state] else "ai_model_status_loading";
    if state == "ready" || state == "local" || state == "cloud" then Badge(key, true, false)
    else if state == "error" then Badge(key, false, true)
    else Badge(key, false, false)
  }

  /** Every badge shows one of the five status texts, and a state with the ready class shows a ready or cloud text. */
  lemma BadgeKeys(state: string)
    ensures StatusBadge(state).key in StatusKeys().Values
    ensures StatusBadge(state).ready ==> StatusBadge(state).key in {"ai_model_status_ready", "ai_model_status_cloud"}
  {
    assert StatusKeys()["loading"] == "ai_model_status_loading";
  }
}
