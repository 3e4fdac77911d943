/**
 The size-set calculation of `processItem`: the ordered output widths chosen by the
 transform type, and one height per width, scaled either by the source's aspect
 ratio or by the profile's `maxHeight / maxWidth`.
 */
module SizeSet {
  import opened Wrappers
  import opened Rounding

  /** `sizes` produces fractions of the source width, `responsive` multiples of it. */
  datatype TransformType = Sizes | Responsive

  /** Only the exact string `"responsive"` selects responsive mode; anything
      else, absent included, falls to the `sizes` branch. */
  function TransformOf(transformtype: Option<string>): (t: TransformType)
    ensures t == Responsive <==> transformtype == Some("responsive")
  {
    if transformtype == Some("responsive") then Responsive else Sizes
  }

  /** The size labels, matched to outputs by position. */
  const Labels: seq<string> := ["1_6", "1_4", "1_3", "1_2", "2_3", "1"]

  /** The output widths for a source of width `w`, in output order. */
  function Widths(w: nat, t: TransformType): (ws: seq<nat>)
    ensures t == Responsive ==>
      && |ws| == 4
      && ws[0] == w && Nearest(ws[1], 3 * w, 2) && ws[2] == 2 * w && ws[3] == 3 * w
    ensures t == Sizes ==>
      && |ws| == 6
      && Nearest(ws[0], w, 6) && Nearest(ws[1], w, 4) && Nearest(ws[2], w, 3)
      && Nearest(ws[3], w, 2) && ws[4] == 2 * ws[2] && ws[5] == w
  {
    match t
    case Responsive => [w, RoundDiv(w * 3, 2), w * 2, w * 3]
    case Sizes => [RoundDiv(w, 6), RoundDiv(w, 4), RoundDiv(w, 3), RoundDiv(w, 2), RoundDiv(w, 3) * 2, w]
  }

  predicate Ascending(ws: seq<nat>) {
    forall i, j :: 0 <= i < j < |ws| ==> ws[i] <= ws[j]
  }

  predicate StrictlyAscending(ws: seq<nat>) {
    forall i, j :: 0 <= i < j < |ws| ==> ws[i] < ws[j]
  }

  /** The `sizes` widths come out in ascending order for every source width
      except 1, where `round(1/3) * 2 = 0` lands after `round(1/2) = 1`. */
  lemma SizesAscendingUnlessOne(w: nat)
    ensures Ascending(Widths(w, Sizes)) <==> w != 1
  {
    var ws := Widths(w, Sizes);
    if w == 1 {
      assert ws[3] == 1 && ws[4] == 0;
    } else {
      assert ws[0] <= ws[1] <= ws[2] <= ws[3] <= ws[4] <= ws[5];
    }
  }

  /** Every `sizes` width is a usable (positive) pixel count exactly when the
      source is at least 3 pixels wide. */
  lemma SizesPositiveFromThree(w: nat)
    ensures (forall i :: 0 <= i < 6 ==> Widths(w, Sizes)[i] > 0) <==> w >= 3
  {
    var ws := Widths(w, Sizes);
    if w < 3 {
      assert ws[0] == 0;
    }
  }

  /** The `responsive` widths never decrease, and strictly increase exactly
      when the source is at least 2 pixels wide (`round(1.5) = 2 = 2 * 1`). */
  lemma ResponsiveAscending(w: nat)
    ensures Ascending(Widths(w, Responsive))
    ensures StrictlyAscending(Widths(w, Responsive)) <==> w >= 2
  {
    var ws := Widths(w, Responsive);
    assert 2 * (2 * ws[1] - 1) <= 6 * w < 2 * (2 * ws[1] + 1);
    if w >= 2 {
      assert ws[0] < ws[1] < ws[2] < ws[3];
    } else if w == 1 {
      assert ws[1] == 2 == ws[2];
    } else {
      assert ws[1] == 0;
    }
  }

  /** Height per unit width, as a fraction `num / den`. */
  datatype Ratio = Ratio(num: nat, den: nat)

  /** Without a `maxHeight` heights follow the source aspect ratio: dividing by
      `srcW / srcH` is multiplying by `srcH / srcW`. With one (`0` included, as
      only `undefined` and `null` select the first branch) they follow
      `maxHeight / maxWidth`. */
  function HeightRatio(srcW: nat, srcH: nat, maxWidth: nat, maxHeight: Option<nat>): (r: Ratio)
    ensures r.den == (if maxHeight.None? then srcW else maxWidth)
    ensures maxHeight.None? ==> r.num * srcW == srcH * r.den
    ensures maxHeight.Some? ==> r.num * maxWidth == maxHeight.value * r.den
  {
    match maxHeight
    case None => Ratio(srcH, srcW)
    case Some(mh) => Ratio(mh, maxWidth)
  }

  /** One rounded height per width, in the same positions. */
  function Heights(ws: seq<nat>, r: Ratio): (hs: seq<nat>)
    requires r.den > 0
    ensures |hs| == |ws|
    ensures forall i :: 0 <= i < |ws| ==> Nearest(hs[i], ws[i] * r.num, r.den)
  {
    if |ws| == 0 then []
    else [RoundDiv(ws[0] * r.num, r.den)] + Heights(ws[1..], r)
  }

  /** Scaling by the source's own aspect ratio, the outputs whose width is a
      whole multiple of the source width keep the source height times that
      multiple: the full-size `sizes` output is `srcW x srcH`, and the
      `responsive` outputs at 1x, 2x and 3x are `srcH`, `2 srcH` and `3 srcH` high. */
  lemma WholeMultiplesKeepAspect(srcW: nat, srcH: nat)
    requires srcW > 0
    ensures Heights(Widths(srcW, Sizes), Ratio(srcH, srcW))[5] == srcH
    ensures var hs := Heights(Widths(srcW, Responsive), Ratio(srcH, srcW));
      hs[0] == srcH && hs[2] == 2 * srcH && hs[3] == 3 * srcH
  {
    var r := Ratio(srcH, srcW);
    var ws, hs := Widths(srcW, Sizes), Heights(Widths(srcW, Sizes), r);
    assert Nearest(hs[5], ws[5] * srcH, srcW);
    ExactMultipleHeight(1, srcW, srcH, hs[5]);
    var wr, hr := Widths(srcW, Responsive), Heights(Widths(srcW, Responsive), r);
    assert Nearest(hr[0], wr[0] * srcH, srcW);
    ExactMultipleHeight(1, srcW, srcH, hr[0]);
    assert Nearest(hr[2], wr[2] * srcH, srcW);
    ExactMultipleHeight(2, srcW, srcH, hr[2]);
    assert Nearest(hr[3], wr[3] * srcH, srcW);
    ExactMultipleHeight(3, srcW, srcH, hr[3]);
  }

  lemma ExactMultipleHeight(k: nat, srcW: nat, srcH: nat, h: int)
    requires srcW > 0
    requires Nearest(h, (k * srcW) * srcH, srcW)
    ensures h == k * srcH
  {
    RoundDivExact(k * srcH, srcW);
    assert (k * srcW) * srcH == (k * srcH) * srcW;
    NearestUnique(h, k * srcH, (k * srcW) * srcH, srcW);
  }

  /** Worked example: a 1200 x 800 source in `sizes` mode without a height bound. */
  lemma ExampleLandscape()
    ensures Widths(1200, Sizes) == [200, 300, 400, 600, 800, 1200]
    ensures Heights([200, 300, 400, 600, 800, 1200], HeightRatio(1200, 800, 800, None))
         == [133, 200, 267, 400, 533, 800]
  {
    var ws: seq<nat> := [200, 300, 400, 600, 800, 1200];
    var r := HeightRatio(1200, 800, 800, None);
    assert Heights(ws[5..], r) == [800];
    assert Heights(ws[4..], r) == [533, 800];
    assert Heights(ws[3..], r) == [400, 533, 800];
    assert Heights(ws[2..], r) == [267, 400, 533, 800];
    assert Heights(ws[1..], r) == [200, 267, 400, 533, 800];
  }

  /** Worked example: a 1-pixel source gives a non-monotonic `sizes` list. */
  lemma ExampleOnePixel()
    ensures Widths(1, Sizes) == [0, 0, 0, 1, 0, 1]
  {
  }

  /** Worked example: a 300-pixel source in `responsive` mode. */
  lemma ExampleResponsive()
    ensures Widths(300, Responsive) == [300, 450, 600, 900]
  {
  }

  /** Worked example: a width of 200 under a 400 / 800 height bound. */
  lemma ExampleBounded()
    ensures Heights([200], HeightRatio(1200, 800, 800, Some(400))) == [100]
  {
  }
}
