/**
 * The crop chosen for an improved version of the photo (composition_engine.js
 * `computeCropBox`): a margin that depends on the subject's size, a crop of the
 * preferred aspect (3:2 for landscape, 4:5 for portrait), and a centre pulled
 * toward the subject and then clamped so the crop stays on the canvas.
 */
module CropBox {
  import opened Numeric
  import opened Wrappers
  import opened CompositionTypes

  /** The optional `variation` settings of a candidate: `marginOffset`, `horizontalBias`, `verticalBias`. */
  datatype CropOptions = CropOptions(marginOffset: Option<real>, horizontalBias: Option<real>, verticalBias: Option<real>)

  /** A crop in whole pixels, with the subject's position inside it. */
  datatype CropRect = CropRect(x: int, y: int, width: int, height: int, focus: Point)

  /** 3:2 when the canvas is at least as wide as tall, 4:5 otherwise. */
  function AspectPreference(width: nat, height: nat): (r: real)
    ensures r == 1.5 || r == 0.8
    ensures r > 1.0 <==> width >= height
  {
    if width >= height then 3.0 / 2.0 else 4.0 / 5.0
  }

  /** The share of each side that is cut away: larger for a small subject, always in [0.08, 0.35]. */
  function SubjectMargin(m: Metrics, o: CropOptions): (r: real)
    ensures 0.08 <= r <= 0.35
    ensures o.marginOffset.None? && m.subjectRect.None? ==> r == 0.16
    ensures o.marginOffset.None? && m.subjectRect.Some? && m.subjectSize >= 0.0 ==> 0.1 <= r <= 0.28
  {
    var base := if m.subjectRect.Some? then Max(0.1, 0.28 - m.subjectSize * 1.2) else 0.16;
    Clamp(base + o.marginOffset.GetOr(0.0), 0.08, 0.35)
  }

  /**
   * `cropWidth / cropHeight > aspectPreference` with the source's floating-point
   * division: a positive width over a zero height is infinite, zero over zero is
   * NaN and compares false.
   */
  predicate WiderThan(cropWidth: int, cropHeight: int, aspect: real) {
    if cropHeight == 0 then cropWidth > 0 else cropWidth as real / cropHeight as real > aspect
  }

  /**
   * The crop's size: the canvas less its margin, one side shortened to the
   * preferred aspect, and neither side longer than the canvas.
   */
  function CropSize(width: nat, height: nat, margin: real, aspect: real): (r: (int, int))
    requires 0.0 <= margin <= 0.35 && 0.8 <= aspect <= 1.5
    ensures 0 <= r.0 <= width && 0 <= r.1 <= height
    ensures width > 0 && height > 0 ==> r.0 >= 1 && r.1 >= 1
  {
    var w0 := Round(width as real * (1.0 - margin));
    var h0 := Round(height as real * (1.0 - margin));
    ShrunkSide(width, 1.0 - margin);
    ShrunkSide(height, 1.0 - margin);
    var (w1, h1) := AspectFit(w0, h0, aspect);
    (MinInt(w1, width), MinInt(h1, height))
  }

  /** One side of the margin-cut crop shortened so the crop takes the preferred aspect. */
  function AspectFit(w0: int, h0: int, aspect: real): (r: (int, int))
    requires 0 <= w0 && 0 <= h0 && 0.8 <= aspect <= 1.5
    ensures 0 <= r.0 && 0 <= r.1
    ensures r.0 == w0 || r.1 == h0
    ensures w0 >= 1 && h0 >= 1 ==> r.0 >= 1 && r.1 >= 1
  {
    RoundLower(h0 as real, aspect);
    RoundLowerOver(w0 as real, aspect);
    if WiderThan(w0, h0, aspect) then (Round(h0 as real * aspect), h0) else (w0, Round(w0 as real / aspect))
  }

  /** A side scaled by a factor in [0.65, 1] and rounded stays within the side, and positive when the side is. */
  lemma ShrunkSide(n: nat, f: real)
    requires 0.65 <= f <= 1.0
    ensures 0 <= Round(n as real * f) <= n
    ensures n > 0 ==> Round(n as real * f) >= 1
  {
    ScaledByFraction(n as real, f);
    RoundWithin(n as real * f, 0, n);
    RoundLower(n as real, f);
  }

  /** A non-negative value scaled by at least 0.65 rounds to a non-negative number, and to at least 1 from 1 up. */
  lemma RoundLower(n: real, f: real)
    requires 0.65 <= f
    ensures n >= 0.0 ==> Round(n * f) >= 0
    ensures n >= 1.0 ==> Round(n * f) >= 1
  {
    if n >= 0.0 {
      MulRealMono(0.0, n, f);
    }
    if n >= 1.0 {
      MulRealMono(1.0, n, f);
    }
  }

  /** A non-negative value divided by at most 1.5 rounds to a non-negative number, and to at least 1 from 1 up. */
  lemma RoundLowerOver(n: real, d: real)
    requires 0.0 < d <= 1.5
    ensures n >= 0.0 ==> Round(n / d) >= 0
    ensures n >= 1.0 ==> Round(n / d) >= 1
  {
    var q := n / d;
    assert q * d == n;
    if q < 0.0 {
      MulRealMono(q, 0.0, d);
    } else if q < 0.5 {
      MulRealMono(q, 0.5, d);
      MulRealMono(d, 1.5, 0.5);
    }
  }

  /** Multiplying by a non-negative factor keeps an ordering. */
  lemma MulRealMono(a: real, b: real, f: real)
    requires a <= b && 0.0 <= f
    ensures a * f <= b * f
  {
    assert b * f - a * f == (b - a) * f;
  }

  /**
   * One axis of the placement: the crop's centre is clamped so the crop fits in
   * the canvas, and its left (top) edge rounded.
   */
  function Place(center: real, size: int, extent: int): (start: int)
    requires 0 <= size <= extent
    ensures 0 <= start && start + size <= extent
    ensures size as real / 2.0 <= center <= extent as real - size as real / 2.0
        ==> center - size as real / 2.0 - 0.5 < start as real <= center - size as real / 2.0 + 0.5
  {
    var c := Clamp(center, size as real / 2.0, extent as real - size as real / 2.0);
    RoundWithin(c - size as real / 2.0, 0, extent - size);
    Round(c - size as real / 2.0)
  }

  /**
   * The centre the crop aims at on one axis: the subject (or canvas middle),
   * pushed by the bias and the subject's offset, blended with the subject by
   * the alignment strength.
   */
  function AimedCenter(base: real, size: int, bias: real, offsetInfluence: real, alignment: real): (r: real)
    ensures bias == 0.5 && offsetInfluence == 0.0 ==> r == base
  {
    var target := base - size as real * (bias - 0.5) + offsetInfluence;
    base * (1.0 - alignment) + target * alignment
  }

  /**
   * `computeCropBox`: a crop of the canvas of at least one pixel each way (on a
   * non-empty canvas), lying wholly on the canvas, whose focus is the subject's
   * centre in crop coordinates, or the crop's middle without a subject.
   */
  function ComputeCropBox(width: nat, height: nat, m: Metrics, o: CropOptions): (r: CropRect)
    ensures 0 <= r.width <= width && 0 <= r.height <= height
    ensures width > 0 && height > 0 ==> r.width >= 1 && r.height >= 1
    ensures 0 <= r.x && r.x + r.width <= width
    ensures 0 <= r.y && r.y + r.height <= height
    ensures m.subjectRect.Some? ==> r.focus == Point(m.subjectCenter.x - r.x as real, m.subjectCenter.y - r.y as real)
    ensures m.subjectRect.None? ==> r.focus == Point(r.width as real / 2.0, r.height as real / 2.0)
  {
    var size := CropSize(width, height, SubjectMargin(m, o), AspectPreference(width, height));
    var (cropWidth, cropHeight) := size;
    var subject := m.subjectRect.Some?;
    var baseX := if subject then m.subjectCenter.x else width as real / 2.0;
    var baseY := if subject then m.subjectCenter.y else height as real / 2.0;
    var horizontalBias := o.horizontalBias.GetOr(if subject then (if m.subjectCenter.x < width as real / 2.0 then 0.32 else 0.68) else 0.5);
    var verticalBias := o.verticalBias.GetOr(if subject then (if m.subjectCenter.y < height as real / 2.0 then 0.36 else 0.64) else 0.5);
    var centerX := AimedCenter(baseX, cropWidth, horizontalBias, m.subjectOffset.x * width as real * 0.12, if subject then 0.7 else 0.45);
    var centerY := AimedCenter(baseY, cropHeight, verticalBias, m.subjectOffset.y * height as real * 0.12, if subject then 0.55 else 0.4);
    var x := Place(centerX, cropWidth, width);
    var y := Place(centerY, cropHeight, height);
    CropRect(x, y, cropWidth, cropHeight,
      if subject then Point(m.subjectCenter.x - x as real, m.subjectCenter.y - y as real)
      else Point(cropWidth as real / 2.0, cropHeight as real / 2.0))
  }

  /**
   * Without a subject, an offset or a bias, the crop sits in the middle of the
   * canvas: its left edge is the rounded half of the spare width.
   */
  lemma CenteredWithoutSubject(width: nat, height: nat, m: Metrics, o: CropOptions)
    requires m.subjectRect.None? && m.subjectOffset == Point(0.0, 0.0)
    requires o.horizontalBias.None? && o.verticalBias.None?
    ensures var r := ComputeCropBox(width, height, m, o);
      && r.x == Round((width - r.width) as real / 2.0)
      && r.y == Round((height - r.height) as real / 2.0)
  {
  }
}
