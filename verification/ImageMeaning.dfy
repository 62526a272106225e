/** How the output size of an image is chosen (internal/feature/imageprep/prepare.go): whether the picture
    is touched, and that a smaller one keeps its shape and no more is lost than the policy asks for. */
module ImageMeaning {
  import opened ImageDimensions

  /** Unset policy fields take their defaults, the others stay. */
  lemma {:induction false} DefaultsFillIn(p: Policy)
    ensures Normalized(p).maxDimension == (if p.maxDimension > 0 then p.maxDimension else 2048)
    ensures Normalized(p).maxPatches == (if p.maxPatches > 0 then p.maxPatches else 2500)
    ensures Normalized(p).patchSize == (if p.patchSize > 0 then p.patchSize else 32)
  {
  }

  /** Patches needed to cover a side: the least number of them that is long enough. */
  predicate Covers(patches: int, side: int, size: int) {
    patches * size >= side && (patches - 1) * size < side
  }

  /** An image fits when no side is too long and the patches that cover it are not too many. */
  lemma {:induction false} FitsMeans(width: int, height: int, p: Policy, wide: int, high: int)
    requires Positive(p) && Covers(wide, width, p.patchSize) && Covers(high, height, p.patchSize)
    ensures DimensionsFit(width, height, p) <==> width <= p.maxDimension && height <= p.maxDimension && wide * high <= p.maxPatches
  {
    CoverIsCeil(wide, width, p.patchSize);
    CoverIsCeil(high, height, p.patchSize);
  }

  lemma {:induction false} CoverIsCeil(patches: int, side: int, size: int)
    requires size > 0 && Covers(patches, side, size)
    ensures CeilDiv(side, size) == patches
  {
    assert size * patches == patches * size && size * (patches - 1) == (patches - 1) * size;
    CeilDivLeast(side, size, patches);
    CeilDivLeast(side, size, patches - 1);
  }

  // ---------- which size comes out ----------

  /** A fitting image is left alone; one whose sides are capped and then fits is no smaller than that. */
  lemma {:induction false} NoMoreThanNeeded(sqrt: Sqrt, width: int, height: int, policy: Policy)
    requires width > 0 && height > 0
    ensures var p := Normalized(policy);
            var capped := CapSide(width, height, p);
            && (DimensionsFit(width, height, p) ==> OutputDimensions(sqrt, width, height, policy) == (width, height))
            && (!DimensionsFit(width, height, p) && DimensionsFit(capped.0, capped.1, p) ==> OutputDimensions(sqrt, width, height, policy) == capped)
            && (!DimensionsFit(width, height, p) && !DimensionsFit(capped.0, capped.1, p) ==>
                  capped.0 > 0 && capped.1 > 0 && OutputDimensions(sqrt, width, height, policy) == CapPatches(sqrt, capped.0, capped.1, p))
  {
    CapSideShrinks(width, height, Normalized(policy));
  }

  // ---------- capping the longest side ----------

  /** Within half a pixel of the proportional length, or the one pixel a side has at least. */
  predicate Proportional(capped: int, side: int, longest: int, limit: int) {
    (2 * capped - 1) * longest <= 2 * side * limit < (2 * capped + 1) * longest || capped == 1
  }

  lemma {:induction false} RoundIsNearest(x: real)
    requires x >= 0.0
    ensures Round(x) as real - 0.5 <= x < Round(x) as real + 0.5
  {
    var y := x + 0.5;
    assert y.Floor as real <= y < y.Floor as real + 1.0;
  }

  lemma {:induction false} Doubled(a: int, half: real, b: int)
    requires a as real == 2.0 * half
    ensures (a * b) as real == 2.0 * (half * b as real)
  {
    assert (a * b) as real == a as real * b as real;
    assert 2.0 * half * b as real == 2.0 * (half * b as real);
  }

  lemma {:induction false} NotBelow(twice: int, half: real, longest: int, x: real, scaled: int)
    requires longest > 0 && twice as real == 2.0 * half && half <= x && x * longest as real == scaled as real
    ensures twice * longest <= 2 * scaled
  {
    ImageDimensions.MulMono(half, x, longest as real);
    Doubled(twice, half, longest);
  }

  lemma {:induction false} NotAbove(twice: int, half: real, longest: int, x: real, scaled: int)
    requires longest > 0 && twice as real == 2.0 * half && x < half && x * longest as real == scaled as real
    ensures 2 * scaled < twice * longest
  {
    StrictMul(x, half, longest as real);
    Doubled(twice, half, longest);
  }

  lemma {:induction false} ProportionalByReals(capped: int, side: int, longest: int, limit: int, x: real)
    requires longest > 0 && x * longest as real == (side * limit) as real
    requires capped as real - 0.5 <= x < capped as real + 0.5
    ensures (2 * capped - 1) * longest <= 2 * side * limit < (2 * capped + 1) * longest
  {
    NotBelow(2 * capped - 1, capped as real - 0.5, longest, x, side * limit);
    NotAbove(2 * capped + 1, capped as real + 0.5, longest, x, side * limit);
    assert 2 * side * limit == 2 * (side * limit);
  }

  lemma {:induction false} StrictMul(a: real, b: real, c: real)
    requires a < b && c > 0.0
    ensures a * c < b * c
  {
  }

  lemma {:induction false} ShrinkingRatio(longest: int, limit: int) returns (ratio: real)
    requires 0 < limit < longest
    ensures ratio == limit as real / longest as real && ratio * longest as real == limit as real && 0.0 < ratio < 1.0
  {
    ratio := limit as real / longest as real;
    DivMul(limit as real, longest as real);
    CancelLess(longest as real, ratio, 1.0);
  }

  lemma {:induction false} ScaledSide(side: int, longest: int, limit: int, ratio: real)
    requires side > 0 && ratio > 0.0 && ratio * longest as real == limit as real
    ensures side as real * ratio > 0.0 && side as real * ratio * longest as real == (side * limit) as real
  {
    MulPositive(side as real, ratio);
    assert side as real * ratio * longest as real == side as real * (ratio * longest as real);
    assert (side * limit) as real == side as real * limit as real;
  }

  lemma {:induction false} CapOneIsProportional(side: int, longest: int, limit: int)
    requires 0 < side <= longest && 0 < limit < longest
    ensures Proportional(CapOne(side, longest, limit), side, longest, limit)
  {
    var ratio := ShrinkingRatio(longest, limit);
    ScaledSide(side, longest, limit, ratio);
    var x := side as real * ratio;
    RoundIsNearest(x);
    ProportionalByReals(Round(x), side, longest, limit, x);
    assert CapOne(side, longest, limit) == Max(1, Round(x));
  }

  lemma {:induction false} UncappedSide(side: int, longest: int, limit: int)
    requires 0 < side && 0 < longest <= limit
    ensures CapOne(side, longest, limit) == side
  {
    DivMul(limit as real, longest as real);
    var ratio := limit as real / longest as real;
    if ratio < 1.0 { StrictMul(ratio, 1.0, longest as real); }
    assert side as real * 1.0 == side as real;
  }

  lemma {:induction false} LongestBecomesLimit(longest: int, limit: int)
    requires 0 < limit < longest
    ensures CapOne(longest, longest, limit) == limit
  {
    var ratio := ShrinkingRatio(longest, limit);
    assert longest as real * ratio == limit as real;
  }

  /** The side cap touches nothing within the limit; otherwise the longest side becomes the limit and the
      other keeps the proportion, as near as whole pixels go. */
  lemma {:induction false} SideCapKeepsShape(width: int, height: int, p: Policy)
    requires width > 0 && height > 0 && Positive(p)
    ensures var longest := if width < height then height else width;
            var capped := CapSide(width, height, p);
            && (longest <= p.maxDimension ==> capped == (width, height))
            && (longest > p.maxDimension ==>
                  && (width == longest ==> capped.0 == p.maxDimension) && (height == longest ==> capped.1 == p.maxDimension)
                  && Proportional(capped.0, width, longest, p.maxDimension) && Proportional(capped.1, height, longest, p.maxDimension))
  {
    var longest := if width < height then height else width;
    if longest <= p.maxDimension {
      UncappedSide(width, longest, p.maxDimension);
      UncappedSide(height, longest, p.maxDimension);
    } else {
      LongestBecomesLimit(longest, p.maxDimension);
      CapOneIsProportional(width, longest, p.maxDimension);
      CapOneIsProportional(height, longest, p.maxDimension);
    }
  }

  // ---------- capping the patch grid ----------

  /** A side scaled and rounded down, at least one pixel. */
  predicate RoundedDown(out: int, side: int, factor: real) {
    (out as real <= side as real * factor < out as real + 1.0) || (out == 1 && side as real * factor < 1.0)
  }

  lemma {:induction false} ShareIsAtLeastHalf(a: real)
    requires a >= 1.0
    ensures 1.0 <= 2.0 * (Cells(a) as real / a) && Cells(a) as real / a <= 1.0
  {
    var cells, share := Cells(a) as real, Cells(a) as real / a;
    DivMul(cells, a);
    assert a < 2.0 * cells && a * (2.0 * share) == 2.0 * cells;
    CancelLess(a, 1.0, 2.0 * share);
    CancelLess(a, share, 1.0);
  }

  lemma {:induction false} ScaledIsRoundedDown(side: int, factor: real)
    requires side as real * factor > 0.0
    ensures RoundedDown(Scaled(side, factor), side, factor)
  {
  }

  /** The patch cap scales both sides by one factor. With whole patches both ways that factor is at most the
      one that fills the patch budget exactly, and more than half of it. */
  lemma {:induction false} PatchCapKeepsShape(sqrt: Sqrt, width: int, height: int, p: Policy) returns (full: real, factor: real)
    requires IsSqrt(sqrt) && width > 0 && height > 0 && Positive(p)
    ensures full > 0.0 && full * full * (width as real * height as real) == p.patchSize as real * p.patchSize as real * p.maxPatches as real
    ensures var out := CapPatches(sqrt, width, height, p);
            factor > 0.0 && RoundedDown(out.0, width, factor) && RoundedDown(out.1, height, factor)
    ensures width as real * full >= p.patchSize as real && height as real * full >= p.patchSize as real ==>
              factor <= full <= 2.0 * factor
  {
    hide CapPatches, FinalScale, RoundedDown, Scaled;
    var a, b;
    full, a, b := PatchGrid(sqrt, width, height, p);
    var size, w, h := p.patchSize as real, width as real, height as real;
    AreaOfGrid(full, w, h, size, p.maxPatches as real, a, b);
    factor := FinalScale(full, a, b);
    FactorIsPositive(full, a, b);
    MulPositive(w, factor);
    MulPositive(h, factor);
    ScaledIsRoundedDown(width, factor);
    ScaledIsRoundedDown(height, factor);
    if w * full >= size && h * full >= size { WholeIsClose(full, a, b, size); }
  }

  lemma {:induction false} WholeIsClose(full: real, a: real, b: real, size: real)
    requires full > 0.0 && size > 0.0 && a * size >= size && b * size >= size
    ensures FinalScale(full, a, b) <= full <= 2.0 * FinalScale(full, a, b)
  {
    hide FinalScale;
    WholePatches(a, size);
    WholePatches(b, size);
    FactorIsClose(full, a, b);
  }

  lemma {:induction false} AreaOfGrid(full: real, w: real, h: real, size: real, patches: real, a: real, b: real)
    requires a * size == w * full && b * size == h * full && a * b == patches
    ensures full * full * (w * h) == size * size * patches
  {
    Regroup(w, full, h);
    Regroup(a, size, b);
    SameProduct(w * full, h * full, a * size, b * size);
  }

  lemma {:induction false} WholePatches(a: real, size: real)
    requires size > 0.0 && a * size >= size
    ensures a >= 1.0
  {
    if a < 1.0 { StrictMul(a, 1.0, size); }
  }

  lemma {:induction false} FactorIsPositive(full: real, a: real, b: real)
    requires full > 0.0 && a > 0.0 && b > 0.0
    ensures FinalScale(full, a, b) > 0.0
  {
    DivMul(Cells(a) as real, a);
    DivMul(Cells(b) as real, b);
    MulPositive(full, RealMin(Cells(a) as real / a, Cells(b) as real / b));
  }

  lemma {:induction false} ShareKeepsHalf(full: real, share: real)
    requires full > 0.0 && share <= 1.0 <= 2.0 * share
    ensures full * share <= full <= 2.0 * (full * share)
  {
    ImageDimensions.MulMono(share, 1.0, full);
    ImageDimensions.MulMono(1.0, 2.0 * share, full);
  }

  lemma {:induction false} FactorIsClose(full: real, a: real, b: real)
    requires full > 0.0 && a >= 1.0 && b >= 1.0
    ensures FinalScale(full, a, b) <= full <= 2.0 * FinalScale(full, a, b)
  {
    hide Cells;
    ShareIsAtLeastHalf(a);
    ShareIsAtLeastHalf(b);
    ShareKeepsHalf(full, RealMin(Cells(a) as real / a, Cells(b) as real / b));
  }
}
