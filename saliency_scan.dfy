/**
 * The window search of saliency_fallback.js `estimateSaliency`: the windows the
 * four nested loops visit, in their order, the score of each window, and the
 * running best the loops keep (strict `>`, so the first of equal scores wins).
 */
module SaliencyScan {
  import opened Numeric
  import opened Wrappers
  import opened IntegralImage

  datatype Rect = Rect(x: int, y: int, width: int, height: int)

  /** Window size step: max(12, round(0.08 * min(W, H))). */
  function StepOf(width: nat, height: nat): (step: int)
    ensures step >= 12
    ensures step as real >= 0.08 * MinInt(width, height) as real - 0.5
  {
    MaxInt(12, Round(MinInt(width, height) as real * 0.08))
  }

  /** Position stride: max(8, round(step / 2)). */
  function StrideOf(step: int): (stride: int)
    ensures stride >= 8
    ensures stride as real >= step as real / 2.0 - 0.5
  {
    MaxInt(8, Round(step as real / 2.0))
  }

  /**
   * The score of one window: edge density inside minus 0.45 times the density of
   * the four 6-pixel bands around it. None is NaN: some read of a band fell past
   * the end of the table (bands are not clipped at the right or bottom edge).
   */
  function Score(table: seq<real>, width: nat, r: Rect): (s: Option<real>)
    ensures s.Some? ==> SumArea(table, width, r.x, r.y, r.width, r.height).Some?
  {
    var left := MaxInt(0, r.x - 6);
    match (SumArea(table, width, r.x, r.y, r.width, r.height),
           SumArea(table, width, left, MaxInt(0, r.y - 6), r.width + 12, 6),
           SumArea(table, width, left, r.y + r.height, r.width + 12, 6),
           SumArea(table, width, left, r.y, 6, r.height),
           SumArea(table, width, r.x + r.width, r.y, 6, r.height))
    case (Some(total), Some(top), Some(bottom), Some(leftBand), Some(rightBand)) =>
      var density := total / MaxInt(1, r.width * r.height) as real;
      var edgePerimeter := (top + bottom + leftBand + rightBand) / Max(1.0, (r.width * r.height) as real * 0.15);
      Some(density - edgePerimeter * 0.45)
    case _ => None
  }

  /** A scoring of windows; None is NaN, which never wins a comparison. */
  type Scorer = Rect -> Option<real>

  /** The scoring the search uses: `Score` over one integral table. */
  function ScoreOf(table: seq<real>, width: nat): (score: Scorer)
    ensures forall r :: score(r) == Score(table, width, r)
  {
    r => Score(table, width, r)
  }

  // ---- the windows, in loop order ----

  /** Innermost loop: x = x0, x0 + stride, ... while x + ws < W. */
  function XRun(width: nat, stride: int, hs: int, ws: int, y: int, x: int): seq<Rect>
    requires stride > 0 && ws > 0
    decreases width - x
  {
    if x + ws < width then [Rect(x, y, ws, hs)] + XRun(width, stride, hs, ws, y, x + stride) else []
  }

  /** Third loop: y = y0, y0 + stride, ... while y + hs < H. */
  function YRun(width: nat, height: nat, stride: int, hs: int, ws: int, y: int): seq<Rect>
    requires stride > 0 && ws > 0 && hs > 0
    decreases height - y
  {
    if y + hs < height then XRun(width, stride, hs, ws, y, 0) + YRun(width, height, stride, hs, ws, y + stride) else []
  }

  /** Second loop: ws = ws0, ws0 + step, ... while ws <= W. */
  function WRun(width: nat, height: nat, step: int, stride: int, hs: int, ws: int): seq<Rect>
    requires stride > 0 && step > 0 && hs > 0 && ws > 0
    decreases width - ws
  {
    if ws <= width then YRun(width, height, stride, hs, ws, 0) + WRun(width, height, step, stride, hs, ws + step) else []
  }

  /** Outer loop: hs = hs0, hs0 + step, ... while hs <= H. */
  function HRun(width: nat, height: nat, step: int, stride: int, hs: int): seq<Rect>
    requires stride > 0 && step > 0 && hs > 0
    decreases height - hs
  {
    if hs <= height then WRun(width, height, step, stride, hs, step) + HRun(width, height, step, stride, hs + step) else []
  }

  /** Every window the search visits, in visiting order. */
  function ScanWindows(width: nat, height: nat): seq<Rect> {
    var step := StepOf(width, height);
    HRun(width, height, step, StrideOf(step), step)
  }

  // ---- the running best ----

  datatype Best = Best(score: Option<real>, rect: Rect)

  /** One loop iteration: a window replaces the best only if its score is strictly greater (NaN never is). */
  function Update(score: Scorer, b: Best, r: Rect): (nb: Best)
    ensures nb == b || (nb.rect == r && nb.score == score(r))
  {
    match score(r)
    case Some(s) => if b.score.None? || s > b.score.value then Best(Some(s), r) else b
    case None => b
  }

  /** The best after visiting the windows `l`, starting from score -Infinity and the full frame. */
  function BestOf(score: Scorer, width: nat, height: nat, l: seq<Rect>): Best {
    if |l| == 0 then Best(None, Rect(0, 0, width, height))
    else Update(score, BestOf(score, width, height, l[..|l| - 1]), l[|l| - 1])
  }

  /** The search keeps the full frame, with no score, exactly when no visited window gets a score. */
  lemma {:induction false} BestOfUnscored(score: Scorer, width: nat, height: nat, l: seq<Rect>)
    ensures BestOf(score, width, height, l).score.None? <==> forall j :: 0 <= j < |l| ==> score(l[j]).None?
    ensures BestOf(score, width, height, l).score.None? ==> BestOf(score, width, height, l).rect == Rect(0, 0, width, height)
  {
    if |l| > 0 {
      var prefix := l[..|l| - 1];
      BestOfUnscored(score, width, height, prefix);
      assert forall j :: 0 <= j < |l| - 1 ==> l[j] == prefix[j];
    }
  }

  /** The kept score is at least the score of every visited window. */
  lemma {:induction false} BestOfIsMaximal(score: Scorer, width: nat, height: nat, l: seq<Rect>, j: int)
    requires 0 <= j < |l| && score(l[j]).Some?
    ensures BestOf(score, width, height, l).score.Some?
    ensures score(l[j]).value <= BestOf(score, width, height, l).score.value
  {
    var prefix := l[..|l| - 1];
    if j < |l| - 1 {
      assert l[j] == prefix[j];
      BestOfIsMaximal(score, width, height, prefix, j);
    }
  }

  /**
   * The kept rectangle is a visited window carrying the kept score, and no window
   * before it reaches that score.
   */
  lemma {:induction false} BestOfIsFirst(score: Scorer, width: nat, height: nat, l: seq<Rect>) returns (i: int)
    requires BestOf(score, width, height, l).score.Some?
    ensures 0 <= i < |l| && l[i] == BestOf(score, width, height, l).rect
    ensures score(l[i]) == BestOf(score, width, height, l).score
    ensures forall j :: 0 <= j < i && score(l[j]).Some? ==>
      score(l[j]).value < BestOf(score, width, height, l).score.value
  {
    var prefix := l[..|l| - 1];
    var b := BestOf(score, width, height, prefix);
    var nb := BestOf(score, width, height, l);
    if nb != b {
      i := |l| - 1;
      forall j | 0 <= j < i && score(l[j]).Some?
        ensures score(l[j]).value < nb.score.value
      {
        assert l[j] == prefix[j];
        BestOfIsMaximal(score, width, height, prefix, j);
      }
    } else {
      i := BestOfIsFirst(score, width, height, prefix);
      assert l[i] == prefix[i];
      forall j | 0 <= j < i && score(l[j]).Some?
        ensures score(l[j]).value < nb.score.value
      {
        assert l[j] == prefix[j];
      }
    }
  }

  // ---- the loops as folds ----

  /** The running best after visiting `l` in order, starting from `acc`. */
  function Fold(score: Scorer, acc: Best, l: seq<Rect>): Best
    decreases |l|
  {
    if |l| == 0 then acc else Fold(score, Update(score, acc, l[0]), l[1..])
  }

  lemma {:induction false} FoldConcat(score: Scorer, width: nat, acc: Best, a: seq<Rect>, b: seq<Rect>)
    ensures Fold(score, acc, a + b) == Fold(score, Fold(score, acc, a), b)
    decreases |a|
  {
    if |a| == 0 {
      assert a + b == b;
    } else {
      assert (a + b)[0] == a[0] && (a + b)[1..] == a[1..] + b;
      FoldConcat(score, width, Update(score, acc, a[0]), a[1..], b);
    }
  }

  /** Folding from the full frame is `BestOf`. */
  lemma {:induction false} FoldIsBestOf(score: Scorer, width: nat, height: nat, l: seq<Rect>)
    ensures Fold(score, Best(None, Rect(0, 0, width, height)), l) == BestOf(score, width, height, l)
    decreases |l|
  {
    if |l| > 0 {
      var prefix := l[..|l| - 1];
      FoldIsBestOf(score, width, height, prefix);
      assert l == prefix + [l[|l| - 1]];
      FoldConcat(score, width, Best(None, Rect(0, 0, width, height)), prefix, [l[|l| - 1]]);
    }
  }

  /** The innermost loop, as it updates the running best. */
  function FoldX(score: Scorer, width: nat, stride: int, hs: int, ws: int, y: int, x: int, acc: Best): Best
    requires stride > 0 && ws > 0
    decreases width - x
  {
    if x + ws < width then FoldX(score, width, stride, hs, ws, y, x + stride, Update(score, acc, Rect(x, y, ws, hs)))
    else acc
  }

  function FoldY(score: Scorer, width: nat, height: nat, stride: int, hs: int, ws: int, y: int, acc: Best): Best
    requires stride > 0 && ws > 0 && hs > 0
    decreases height - y
  {
    if y + hs < height then FoldY(score, width, height, stride, hs, ws, y + stride, FoldX(score, width, stride, hs, ws, y, 0, acc))
    else acc
  }

  function FoldW(score: Scorer, width: nat, height: nat, step: int, stride: int, hs: int, ws: int, acc: Best): Best
    requires stride > 0 && step > 0 && hs > 0 && ws > 0
    decreases width - ws
  {
    if ws <= width then FoldW(score, width, height, step, stride, hs, ws + step, FoldY(score, width, height, stride, hs, ws, 0, acc))
    else acc
  }

  function FoldH(score: Scorer, width: nat, height: nat, step: int, stride: int, hs: int, acc: Best): Best
    requires stride > 0 && step > 0 && hs > 0
    decreases height - hs
  {
    if hs <= height then FoldH(score, width, height, step, stride, hs + step, FoldW(score, width, height, step, stride, hs, step, acc))
    else acc
  }

  lemma {:induction false} FoldXIsFold(score: Scorer, width: nat, stride: int, hs: int, ws: int, y: int, x: int, acc: Best)
    requires stride > 0 && ws > 0
    ensures FoldX(score, width, stride, hs, ws, y, x, acc) == Fold(score, acc, XRun(width, stride, hs, ws, y, x))
    decreases width - x
  {
    if x + ws < width {
      var r := Rect(x, y, ws, hs);
      var rest := XRun(width, stride, hs, ws, y, x + stride);
      assert ([r] + rest)[0] == r && ([r] + rest)[1..] == rest;
      FoldXIsFold(score, width, stride, hs, ws, y, x + stride, Update(score, acc, r));
    }
  }

  lemma {:induction false} FoldYIsFold(score: Scorer, width: nat, height: nat, stride: int, hs: int, ws: int, y: int, acc: Best)
    requires stride > 0 && ws > 0 && hs > 0
    ensures FoldY(score, width, height, stride, hs, ws, y, acc) == Fold(score, acc, YRun(width, height, stride, hs, ws, y))
    decreases height - y
  {
    if y + hs < height {
      FoldXIsFold(score, width, stride, hs, ws, y, 0, acc);
      FoldConcat(score, width, acc, XRun(width, stride, hs, ws, y, 0), YRun(width, height, stride, hs, ws, y + stride));
      FoldYIsFold(score, width, height, stride, hs, ws, y + stride, FoldX(score, width, stride, hs, ws, y, 0, acc));
    }
  }

  lemma {:induction false} FoldWIsFold(score: Scorer, width: nat, height: nat, step: int, stride: int, hs: int, ws: int, acc: Best)
    requires stride > 0 && step > 0 && hs > 0 && ws > 0
    ensures FoldW(score, width, height, step, stride, hs, ws, acc) == Fold(score, acc, WRun(width, height, step, stride, hs, ws))
    decreases width - ws
  {
    if ws <= width {
      FoldYIsFold(score, width, height, stride, hs, ws, 0, acc);
      FoldConcat(score, width, acc, YRun(width, height, stride, hs, ws, 0), WRun(width, height, step, stride, hs, ws + step));
      FoldWIsFold(score, width, height, step, stride, hs, ws + step, FoldY(score, width, height, stride, hs, ws, 0, acc));
    }
  }

  lemma {:induction false} FoldHIsFold(score: Scorer, width: nat, height: nat, step: int, stride: int, hs: int, acc: Best)
    requires stride > 0 && step > 0 && hs > 0
    ensures FoldH(score, width, height, step, stride, hs, acc) == Fold(score, acc, HRun(width, height, step, stride, hs))
    decreases height - hs
  {
    if hs <= height {
      FoldWIsFold(score, width, height, step, stride, hs, step, acc);
      FoldConcat(score, width, acc, WRun(width, height, step, stride, hs, step), HRun(width, height, step, stride, hs + step));
      FoldHIsFold(score, width, height, step, stride, hs + step, FoldW(score, width, height, step, stride, hs, step, acc));
    }
  }

  /** The four nested loops compute `BestOf` over `ScanWindows`. */
  lemma LoopsComputeBestOf(score: Scorer, width: nat, height: nat)
    ensures var step := StepOf(width, height);
      FoldH(score, width, height, step, StrideOf(step), step, Best(None, Rect(0, 0, width, height)))
      == BestOf(score, width, height, ScanWindows(width, height))
  {
    var step := StepOf(width, height);
    FoldHIsFold(score, width, height, step, StrideOf(step), step, Best(None, Rect(0, 0, width, height)));
    FoldIsBestOf(score, width, height, ScanWindows(width, height));
  }

  // ---- the shape of the visited windows ----

  /** Window a comes before window b in the order (height, width, y, x). */
  predicate LexLess(a: Rect, b: Rect) {
    a.height < b.height
    || (a.height == b.height && a.width < b.width)
    || (a.height == b.height && a.width == b.width && a.y < b.y)
    || (a.height == b.height && a.width == b.width && a.y == b.y && a.x < b.x)
  }

  predicate Ascending(l: seq<Rect>) {
    forall i, j :: 0 <= i < j < |l| ==> LexLess(l[i], l[j])
  }

  lemma AscendingConcat(a: seq<Rect>, b: seq<Rect>)
    requires Ascending(a) && Ascending(b)
    requires forall i, j :: 0 <= i < |a| && 0 <= j < |b| ==> LexLess(a[i], b[j])
    ensures Ascending(a + b)
  {
  }

  /** A window lies strictly inside the image (the loops test x + ws < W and y + hs < H). */
  predicate Inside(r: Rect, width: nat, height: nat) {
    0 <= r.x && 0 <= r.y && r.x + r.width < width && r.y + r.height < height
  }

  lemma {:induction false} XRunShape(width: nat, height: nat, stride: int, hs: int, ws: int, y: int, x: int)
    requires stride > 0 && ws > 0 && 0 <= x && 0 <= y && y + hs < height
    ensures Ascending(XRun(width, stride, hs, ws, y, x))
    ensures forall r :: r in XRun(width, stride, hs, ws, y, x) ==>
      r.height == hs && r.width == ws && r.y == y && x <= r.x && Inside(r, width, height)
    decreases width - x
  {
    if x + ws < width {
      XRunShape(width, height, stride, hs, ws, y, x + stride);
      AscendingConcat([Rect(x, y, ws, hs)], XRun(width, stride, hs, ws, y, x + stride));
    }
  }

  lemma {:induction false} YRunShape(width: nat, height: nat, stride: int, hs: int, ws: int, y: int)
    requires stride > 0 && ws > 0 && hs > 0 && 0 <= y
    ensures Ascending(YRun(width, height, stride, hs, ws, y))
    ensures forall r :: r in YRun(width, height, stride, hs, ws, y) ==>
      r.height == hs && r.width == ws && y <= r.y && Inside(r, width, height)
    decreases height - y
  {
    if y + hs < height {
      XRunShape(width, height, stride, hs, ws, y, 0);
      YRunShape(width, height, stride, hs, ws, y + stride);
      AscendingConcat(XRun(width, stride, hs, ws, y, 0), YRun(width, height, stride, hs, ws, y + stride));
    }
  }

  lemma {:induction false} WRunShape(width: nat, height: nat, step: int, stride: int, hs: int, ws: int)
    requires stride > 0 && step > 0 && hs > 0 && ws > 0
    ensures Ascending(WRun(width, height, step, stride, hs, ws))
    ensures forall r :: r in WRun(width, height, step, stride, hs, ws) ==>
      r.height == hs && ws <= r.width && Inside(r, width, height)
    decreases width - ws
  {
    if ws <= width {
      YRunShape(width, height, stride, hs, ws, 0);
      WRunShape(width, height, step, stride, hs, ws + step);
      AscendingConcat(YRun(width, height, stride, hs, ws, 0), WRun(width, height, step, stride, hs, ws + step));
    }
  }

  lemma {:induction false} HRunShape(width: nat, height: nat, step: int, stride: int, hs: int)
    requires stride > 0 && step > 0 && hs > 0
    ensures Ascending(HRun(width, height, step, stride, hs))
    ensures forall r :: r in HRun(width, height, step, stride, hs) ==>
      hs <= r.height && step <= r.width && Inside(r, width, height)
    decreases height - hs
  {
    if hs <= height {
      WRunShape(width, height, step, stride, hs, step);
      HRunShape(width, height, step, stride, hs + step);
      AscendingConcat(WRun(width, height, step, stride, hs, step), HRun(width, height, step, stride, hs + step));
    }
  }

  /**
   * Every visited window lies strictly inside the image, is at least `step` wide
   * and high, and the windows come in ascending (height, width, y, x) order.
   */
  lemma ScanWindowsShape(width: nat, height: nat)
    ensures Ascending(ScanWindows(width, height))
    ensures forall r :: r in ScanWindows(width, height) ==>
      Inside(r, width, height) && StepOf(width, height) <= r.width && StepOf(width, height) <= r.height
  {
    var step := StepOf(width, height);
    HRunShape(width, height, step, StrideOf(step), step);
  }

  /** An image no larger than `step` in either direction has no window at all. */
  lemma SmallImageHasNoWindows(width: nat, height: nat)
    requires width <= StepOf(width, height) || height <= StepOf(width, height)
    ensures ScanWindows(width, height) == []
  {
    var l := ScanWindows(width, height);
    assert |l| > 0 ==> l[0] in l;
    ScanWindowsShape(width, height);
  }

  /** The search keeps the full frame exactly when no window of the scan gets a score. */
  lemma ScanKeepsFullFrame(score: Scorer, width: nat, height: nat)
    ensures var b := BestOf(score, width, height, ScanWindows(width, height));
      && (b.score.None? <==> forall r :: r in ScanWindows(width, height) ==> score(r).None?)
      && (b.score.None? ==> b.rect == Rect(0, 0, width, height))
  {
    BestOfUnscored(score, width, height, ScanWindows(width, height));
  }

  /**
   * Over windows visited in ascending order, a scored search keeps a visited window
   * whose score is maximal and which is the least, in that order, of the windows
   * reaching that score.
   */
  lemma BestOfChoice(score: Scorer, width: nat, height: nat, l: seq<Rect>)
    requires Ascending(l) && BestOf(score, width, height, l).score.Some?
    ensures var b := BestOf(score, width, height, l);
      && b.rect in l && score(b.rect) == b.score
      && (forall r :: r in l && score(r).Some? ==> score(r).value <= b.score.value)
      && (forall r :: r in l && score(r) == b.score ==> !LexLess(r, b.rect))
  {
    var b := BestOf(score, width, height, l);
    var i := BestOfIsFirst(score, width, height, l);
    forall r | r in l && score(r).Some?
      ensures score(r).value <= b.score.value
    {
      var j :| 0 <= j < |l| && l[j] == r;
      BestOfIsMaximal(score, width, height, l, j);
    }
    forall r | r in l && score(r) == b.score
      ensures !LexLess(r, b.rect)
    {
      var j :| 0 <= j < |l| && l[j] == r;
      if j > i {
        assert LexLess(l[i], l[j]);
      }
    }
  }

  /**
   * Otherwise the chosen rectangle is a window strictly inside the image whose score
   * is maximal, and the first window with that score in (height, width, y, x) order.
   */
  lemma ScanPicksFirstMaximum(score: Scorer, width: nat, height: nat)
    requires BestOf(score, width, height, ScanWindows(width, height)).score.Some?
    ensures var l, b := ScanWindows(width, height), BestOf(score, width, height, ScanWindows(width, height));
      && b.rect in l && Inside(b.rect, width, height) && score(b.rect) == b.score
      && (forall r :: r in l && score(r).Some? ==> score(r).value <= b.score.value)
      && (forall r :: r in l && score(r) == b.score ==> !LexLess(r, b.rect))
  {
    ScanWindowsShape(width, height);
    BestOfChoice(score, width, height, ScanWindows(width, height));
  }

  /** The chosen rectangle always lies within the image. */
  lemma BestRectFits(score: Scorer, width: nat, height: nat)
    ensures var b := BestOf(score, width, height, ScanWindows(width, height)).rect;
      0 <= b.x && 0 <= b.y && 0 <= b.width && 0 <= b.height && b.x + b.width <= width && b.y + b.height <= height
  {
    var l := ScanWindows(width, height);
    BestOfUnscored(score, width, height, l);
    if BestOf(score, width, height, l).score.Some? {
      var i := BestOfIsFirst(score, width, height, l);
      ScanWindowsShape(width, height);
      assert l[i] in l;
    }
  }

  /** A window whose bottom band reaches below the image scores NaN and is never chosen. */
  lemma BottomRowsScoreNaN(table: seq<real>, width: nat, height: nat, r: Rect)
    requires |table| == (width + 1) * (height + 1)
    requires 0 <= r.x && 0 <= r.width && r.y + r.height + 6 > height
    ensures Score(table, width, r) == None
  {
    BelowTableIsNaN(table, width, height, MaxInt(0, r.x - 6), r.y + r.height, r.width + 12, 6);
  }
}
