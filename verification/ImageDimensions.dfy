/** Output-size arithmetic of image preparation (internal/feature/imageprep/prepare.go), over real
    numbers with the square root given by its defining equation. */
module ImageDimensions {

  datatype Policy = Policy(maxDimension: int, maxPatches: int, patchSize: int)

  type Sqrt = real -> real

  ghost predicate IsSqrt(sqrt: Sqrt) {
    forall x: real :: x > 0.0 ==> sqrt(x) > 0.0 && sqrt(x) * sqrt(x) == x
  }

  // ---------- the source's arithmetic ----------

  function Normalized(p: Policy): Policy {
    Policy(if p.maxDimension <= 0 then 2048 else p.maxDimension,
           if p.maxPatches <= 0 then 2500 else p.maxPatches,
           if p.patchSize <= 0 then 32 else p.patchSize)
  }

  predicate Positive(p: Policy) {
    p.maxDimension > 0 && p.maxPatches > 0 && p.patchSize > 0
  }

  function CeilDiv(a: int, b: int): int
    requires b > 0
  {
    (a + b - 1) / b
  }

  predicate DimensionsFit(width: int, height: int, p: Policy)
    requires Positive(p)
  {
    && width <= p.maxDimension && height <= p.maxDimension
    && CeilDiv(width, p.patchSize) * CeilDiv(height, p.patchSize) <= p.maxPatches
  }

  function Max(a: int, b: int): int { if a < b then b else a }
  function RealMin(a: real, b: real): real { if a < b then a else b }

  /** math.Round on a non-negative number */
  function Round(x: real): int {
    (x + 0.5).Floor
  }

  function CapOne(side: int, longest: int, limit: int): int
    requires longest > 0
  {
    Max(1, Round(side as real * RealMin(1.0, limit as real / longest as real)))
  }

  function CapSide(width: int, height: int, p: Policy): (int, int)
    requires width > 0 && height > 0 && Positive(p)
  {
    var longest := Max(width, height);
    (CapOne(width, longest, p.maxDimension), CapOne(height, longest, p.maxDimension))
  }

  function PatchArea(width: int, height: int, p: Policy): real
    requires width > 0 && height > 0 && Positive(p)
  {
    p.patchSize as real * p.patchSize as real * p.maxPatches as real / width as real / height as real
  }

  function Cells(a: real): (n: int)
    ensures n >= 1
  {
    Max(1, a.Floor)
  }

  /** The scale after rounding the patch grid down to whole patches. */
  function FinalScale(scale: real, wide: real, high: real): real {
    if wide > 0.0 && high > 0.0
    then scale * RealMin(Cells(wide) as real / wide, Cells(high) as real / high)
    else scale
  }

  function InPatches(side: int, scale: real, p: Policy): real
    requires Positive(p)
  {
    side as real * scale / p.patchSize as real
  }

  function Scaled(side: int, scale: real): int {
    Max(1, (side as real * scale).Floor)
  }

  function CapPatches(sqrt: Sqrt, width: int, height: int, p: Policy): (int, int)
    requires width > 0 && height > 0 && Positive(p)
  {
    var scale := sqrt(PatchArea(width, height, p));
    var wide := InPatches(width, scale, p);
    var high := InPatches(height, scale, p);
    var final := FinalScale(scale, wide, high);
    (Scaled(width, final), Scaled(height, final))
  }

  function OutputDimensions(sqrt: Sqrt, width: int, height: int, policy: Policy): (int, int) {
    var p := Normalized(policy);
    var w, h := Max(1, width), Max(1, height);
    var (w1, h1) := CapSide(w, h, p);
    if DimensionsFit(w, h, p) then (w, h)
    else if DimensionsFit(w1, h1, p) then (w1, h1)
    else CapPatches(sqrt, w1, h1, p)
  }

  // ---------- capping the longest side ----------

  lemma {:induction false} RoundStaysBelow(x: real, n: int)
    requires x <= n as real
    ensures Round(x) <= n
  {
  }

  lemma {:induction false} ScaledBelow(x: real, bound: real, most: real)
    requires 0.0 <= x <= most && most > 0.0 && bound > 0.0
    ensures x * RealMin(1.0, bound / most) <= x && x * RealMin(1.0, bound / most) <= bound
  {
    var ratio := bound / most;
    var scale := RealMin(1.0, ratio);
    DivMul(bound, most);
    MulMono(scale, 1.0, x);
    MulMono(x, most, scale);
    MulMono(scale, ratio, most);
  }

  lemma {:induction false} CapOneSide(x: int, most: int, limit: int)
    requires 0 < x <= most && limit > 0
    ensures 1 <= CapOne(x, most, limit) <= x && CapOne(x, most, limit) <= limit
  {
    ScaledBelow(x as real, limit as real, most as real);
    RoundStaysBelow(x as real * RealMin(1.0, limit as real / most as real), x);
    RoundStaysBelow(x as real * RealMin(1.0, limit as real / most as real), limit);
  }

  /** The side cap keeps within the limit and never enlarges. */
  lemma {:induction false} CapSideShrinks(width: int, height: int, p: Policy)
    requires width > 0 && height > 0 && Positive(p)
    ensures var (w, h) := CapSide(width, height, p);
            1 <= w <= width && 1 <= h <= height && w <= p.maxDimension && h <= p.maxDimension
  {
    CapOneSide(width, Max(width, height), p.maxDimension);
    CapOneSide(height, Max(width, height), p.maxDimension);
  }

  // ---------- small facts of real arithmetic ----------

  lemma {:induction false} MulMono(a: real, b: real, c: real)
    requires a <= b && c >= 0.0
    ensures a * c <= b * c
  {
  }

  lemma {:induction false} DivMul(a: real, b: real)
    requires b > 0.0
    ensures a / b * b == a
    ensures a > 0.0 ==> a / b > 0.0
  {
  }

  lemma {:induction false} Cancel(k: real, x: real, y: real)
    requires k > 0.0
    requires k * x == k * y
    ensures x == y
  {
  }

  lemma {:induction false} CancelLess(k: real, x: real, y: real)
    requires k > 0.0 && k * x <= k * y
    ensures x <= y
  {
    assert x > y ==> k * (x - y) > 0.0;
  }

  lemma {:induction false} SquareLess(a: real, b: real)
    requires a >= 0.0 && b >= 0.0 && a * a < b * b
    ensures a < b
  {
    if a >= b { MulMono(b, a, a); MulMono(b, a, b); }
  }

  lemma {:induction false} IntMulMono(a: int, b: int, c: int, d: int)
    requires 0 <= a <= b && 0 <= c <= d
    ensures a * c <= b * d
  {
  }

  lemma {:induction false} CeilDivLeast(a: int, b: int, n: int)
    requires b > 0
    ensures CeilDiv(a, b) <= n <==> a <= b * n
  {
    var q := CeilDiv(a, b);
    DivMod(a + b - 1, b);
    if q <= n { ProductMono(b, q, n); } else { ProductMono(b, n + 1, q); }
  }

  lemma {:induction false} DivMod(a: int, b: int)
    requires b > 0
    ensures b * (a / b) <= a < b * (a / b) + b
  {
  }

  lemma {:induction false} ProductMono(b: int, x: int, y: int)
    requires b > 0 && x <= y
    ensures b * x <= b * y
  {
  }

  // ---------- capping the patch grid ----------

  /** The quantities of one patch cap: `scale` from the square root, `a` by `b` the scaled patch
      grid, whose area is exactly the patch budget. */
  ghost predicate Grid(w: int, h: int, p: Policy, scale: real, a: real, b: real) {
    && w > 0 && h > 0 && Positive(p)
    && scale > 0.0 && a > 0.0 && b > 0.0
    && a * p.patchSize as real == w as real * scale
    && b * p.patchSize as real == h as real * scale
    && a * b == p.maxPatches as real
  }

  lemma {:induction false} GridArea(size: real, patches: real, w: real, h: real, scale: real, a: real, b: real)
    requires size > 0.0
    requires scale * scale * (w * h) == size * size * patches
    requires a * size == w * scale && b * size == h * scale
    ensures a * b == patches
  {
    calc {
      size * size * (a * b);
      { Regroup(a, size, b); }
      (a * size) * (b * size);
      { SameProduct(a * size, b * size, w * scale, h * scale); }
      (w * scale) * (h * scale);
      { Regroup(w, scale, h); }
      scale * scale * (w * h);
      size * size * patches;
    }
    CancelSquare(size, a * b, patches);
  }

  lemma {:induction false} CancelSquare(size: real, x: real, y: real)
    requires size > 0.0 && size * size * x == size * size * y
    ensures x == y
  {
    MulPositive(size, size);
    assert x != y ==> size * size * (x - y) != 0.0;
  }

  lemma {:induction false} UndoDivisions(all: real, w: real, h: real)
    requires w > 0.0 && h > 0.0
    ensures all / w / h * (w * h) == all
  {
    DivMul(all, w);
    DivMul(all / w, h);
    Unfold(all / w / h, w, h, all / w, all);
  }

  lemma {:induction false} Unfold(square: real, w: real, h: real, third: real, all: real)
    requires square * h == third && third * w == all
    ensures square * (w * h) == all
  {
    assert square * (w * h) == square * h * w;
  }

  lemma {:induction false} MulPositive(x: real, y: real)
    requires x > 0.0 && y > 0.0
    ensures x * y > 0.0
  {
  }

  lemma {:induction false} Regroup(x: real, y: real, z: real)
    ensures (x * y) * (z * y) == (y * y) * (x * z)
  {
  }

  lemma {:induction false} SameProduct(x: real, y: real, u: real, v: real)
    requires x == u && y == v
    ensures x * y == u * v
  {
  }

  lemma {:induction false} InPatchesScales(side: int, scale: real, p: Policy)
    requires Positive(p) && side > 0 && scale > 0.0
    ensures InPatches(side, scale, p) * p.patchSize as real == side as real * scale && InPatches(side, scale, p) > 0.0
  {
    DivMul(side as real * scale, p.patchSize as real);
    MulPositive(side as real, scale);
  }

  lemma {:induction false} RootArea(sqrt: Sqrt, w: int, h: int, p: Policy)
    requires IsSqrt(sqrt) && w > 0 && h > 0 && Positive(p)
    ensures var scale := sqrt(PatchArea(w, h, p));
            && scale > 0.0
            && scale * scale * (w as real * h as real) == p.patchSize as real * p.patchSize as real * p.maxPatches as real
  {
    var size, scale := p.patchSize as real, sqrt(PatchArea(w, h, p));
    AreaPositive(w, h, p);
    UndoDivisions(size * size * p.maxPatches as real, w as real, h as real);
    SameProduct(scale * scale, w as real * h as real, PatchArea(w, h, p), w as real * h as real);
  }

  lemma {:induction false} PatchGrid(sqrt: Sqrt, w: int, h: int, p: Policy) returns (scale: real, a: real, b: real)
    requires IsSqrt(sqrt) && w > 0 && h > 0 && Positive(p)
    ensures Grid(w, h, p, scale, a, b)
    ensures CapPatches(sqrt, w, h, p) == (Scaled(w, FinalScale(scale, a, b)), Scaled(h, FinalScale(scale, a, b)))
  {
    RootArea(sqrt, w, h, p);
    scale := sqrt(PatchArea(w, h, p));
    a, b := InPatches(w, scale, p), InPatches(h, scale, p);
    InPatchesScales(w, scale, p);
    InPatchesScales(h, scale, p);
    GridArea(p.patchSize as real, p.maxPatches as real, w as real, h as real, scale, a, b);
  }

  lemma {:induction false} AreaPositive(w: int, h: int, p: Policy)
    requires w > 0 && h > 0 && Positive(p)
    ensures PatchArea(w, h, p) > 0.0
  {
    var size, patches := p.patchSize as real, p.maxPatches as real;
    MulPositive(size, size);
    MulPositive(size * size, patches);
    DivMul(size * size * patches, w as real);
    DivMul(size * size * patches / w as real, h as real);
  }

  // ---------- one side at a time ----------

  lemma {:induction false} CeilDivMono(a: int, b: int, size: int)
    requires size > 0 && a <= b
    ensures CeilDiv(a, size) <= CeilDiv(b, size)
  {
    CeilDivLeast(b, size, CeilDiv(b, size));
    CeilDivLeast(a, size, CeilDiv(b, size));
  }

  lemma {:induction false} CeilDivPositive(a: int, size: int)
    requires size > 0 && a > 0
    ensures CeilDiv(a, size) >= 1
  {
    CeilDivLeast(a, size, 0);
  }

  /** A side scaled by at most its cells' share covers no more than those cells. */
  lemma {:induction false} SideWithinCells(side: int, size: int, scale: real, a: real, share: real, k: real)
    requires side > 0 && size > 0 && a > 0.0
    requires a * size as real == side as real * scale
    requires share * a == Cells(a) as real && k <= scale * share
    ensures side as real * k <= (size * Cells(a)) as real
  {
    MulMono(k, scale * share, side as real);
    Reorder(side as real, scale, share);
    SameProduct(side as real * scale, share, a * size as real, share);
    Reorder(share, a, size as real);
    SameProduct(share * a, size as real, Cells(a) as real, size as real);
    assert (Cells(a) * size) as real == Cells(a) as real * size as real;
  }

  lemma {:induction false} Reorder(x: real, y: real, z: real)
    ensures x * (y * z) == (x * y) * z == (y * z) * x
  {
  }

  lemma {:induction false} ScaledWithinCells(side: int, size: int, cells: int, k: real)
    requires size > 0 && cells >= 1 && side as real * k <= (size * cells) as real
    ensures CeilDiv(Scaled(side, k), size) <= cells
  {
    IntMulMono(1, size, 1, cells);
    CeilDivLeast(Scaled(side, k), size, cells);
  }

  lemma {:induction false} ShrinkingScale(side: int, k: real)
    requires side > 0 && k <= 1.0
    ensures 1 <= Scaled(side, k) <= side
  {
    MulMono(k, 1.0, side as real);
  }

  /** A side can only grow when its cells already cover it. */
  lemma {:induction false} GrowthNeedsCells(side: int, size: int, cells: int, k: real)
    requires side > 0 && size > 0 && side as real * k <= (size * cells) as real && k > 1.0
    ensures CeilDiv(side, size) <= cells
  {
    MulMono(1.0, k, side as real);
    CeilDivLeast(side, size, cells);
  }

  lemma {:induction false} ShareOf(a: real) returns (share: real)
    requires a > 0.0
    ensures share == Cells(a) as real / a && share * a == Cells(a) as real && share > 0.0
    ensures a >= 1.0 ==> share <= 1.0 && Cells(a) as real <= a
  {
    share := Cells(a) as real / a;
    DivMul(Cells(a) as real, a);
    if a >= 1.0 { CancelLess(a, share, 1.0); }
  }

  lemma {:induction false} ScaleAtMost(scale: real, x: real, y: real)
    requires scale > 0.0 && x <= y
    ensures scale * x <= scale * y
  {
  }

  lemma {:induction false} FinalScaleShares(scale: real, a: real, b: real) returns (shareA: real, shareB: real)
    requires scale > 0.0 && a > 0.0 && b > 0.0
    ensures shareA * a == Cells(a) as real && FinalScale(scale, a, b) <= scale * shareA
    ensures shareB * b == Cells(b) as real && FinalScale(scale, a, b) <= scale * shareB
    ensures a >= 1.0 || b >= 1.0 ==> FinalScale(scale, a, b) <= scale
  {
    shareA := ShareOf(a);
    shareB := ShareOf(b);
    var least := RealMin(shareA, shareB);
    ScaleAtMost(scale, least, shareA);
    ScaleAtMost(scale, least, shareB);
    assert FinalScale(scale, a, b) == scale * least;
    if a >= 1.0 || b >= 1.0 {
      assert least <= 1.0;
      ScaleAtMost(scale, least, 1.0);
      assert scale * 1.0 == scale;
    }
  }

  lemma {:induction false} WidthWithinCells(w: int, h: int, p: Policy, scale: real, a: real, b: real)
    requires Grid(w, h, p, scale, a, b)
    ensures CeilDiv(Scaled(w, FinalScale(scale, a, b)), p.patchSize) <= Cells(a)
    ensures FinalScale(scale, a, b) > 1.0 ==> CeilDiv(w, p.patchSize) <= Cells(a)
  {
    var k := FinalScale(scale, a, b);
    var shareA, shareB := FinalScaleShares(scale, a, b);
    SideWithinCells(w, p.patchSize, scale, a, shareA, k);
    ScaledWithinCells(w, p.patchSize, Cells(a), k);
    if k > 1.0 { GrowthNeedsCells(w, p.patchSize, Cells(a), k); }
  }

  lemma {:induction false} GridFlips(w: int, h: int, p: Policy, scale: real, a: real, b: real)
    requires Grid(w, h, p, scale, a, b)
    ensures Grid(h, w, p, scale, b, a) && FinalScale(scale, b, a) == FinalScale(scale, a, b)
  {
    assert b * a == a * b;
  }

  // ---------- both sides together ----------

  /** The patch budget covers one row of the longest allowed side, or rounding the longest possible
      strip down to whole patches stays within it. */
  predicate Roomy(p: Policy)
    requires Positive(p)
  {
    || p.maxPatches >= CeilDiv(p.maxDimension, p.patchSize)
    || p.maxPatches * p.maxDimension < (p.maxPatches + 1) * (p.maxPatches + 1)
  }

  ghost predicate GoodScale(w: int, h: int, p: Policy, k: real)
    requires Positive(p)
  {
    && 1 <= Scaled(w, k) <= w && 1 <= Scaled(h, k) <= h
    && DimensionsFit(Scaled(w, k), Scaled(h, k), p)
  }

  lemma {:induction false} GoodFromCells(w: int, h: int, p: Policy, k: real, m: int, n: int)
    requires Positive(p) && 1 <= w <= p.maxDimension && 1 <= h <= p.maxDimension && k <= 1.0
    requires CeilDiv(Scaled(w, k), p.patchSize) <= m && CeilDiv(Scaled(h, k), p.patchSize) <= n && m * n <= p.maxPatches
    ensures GoodScale(w, h, p, k)
  {
    ShrinkingScale(w, k);
    ShrinkingScale(h, k);
    CeilDivPositive(Scaled(w, k), p.patchSize);
    CeilDivPositive(Scaled(h, k), p.patchSize);
    IntMulMono(CeilDiv(Scaled(w, k), p.patchSize), m, CeilDiv(Scaled(h, k), p.patchSize), n);
  }

  /** Whole patches both ways: rounding down keeps the area within the budget. */
  lemma {:induction false} BothWholeIsGood(w: int, h: int, p: Policy, scale: real, a: real, b: real)
    requires Grid(w, h, p, scale, a, b) && w <= p.maxDimension && h <= p.maxDimension && !DimensionsFit(w, h, p)
    requires a >= 1.0 && b >= 1.0
    ensures GoodScale(w, h, p, FinalScale(scale, a, b))
  {
    var k := FinalScale(scale, a, b);
    GridFlips(w, h, p, scale, a, b);
    WidthWithinCells(w, h, p, scale, a, b);
    WidthWithinCells(h, w, p, scale, b, a);
    CellsWithinArea(a, b, p.maxPatches);
    CeilDivPositive(w, p.patchSize);
    CeilDivPositive(h, p.patchSize);
    if k > 1.0 {
      IntMulMono(CeilDiv(w, p.patchSize), Cells(a), CeilDiv(h, p.patchSize), Cells(b));
      assert false;
    }
    GoodFromCells(w, h, p, k, Cells(a), Cells(b));
  }

  lemma {:induction false} CellsWithinArea(a: real, b: real, area: int)
    requires a >= 1.0 && b >= 1.0 && a * b == area as real
    ensures Cells(a) * Cells(b) <= area
  {
    MulMono(Cells(a) as real, a, Cells(b) as real);
    MulMono(Cells(b) as real, b, a);
    assert (Cells(a) * Cells(b)) as real == Cells(a) as real * Cells(b) as real;
  }

  lemma {:induction false} StripBoundInReals(p: Policy)
    requires Positive(p)
    ensures p.maxPatches * p.maxDimension < (p.maxPatches + 1) * (p.maxPatches + 1) <==>
              p.maxDimension as real * p.maxPatches as real < (p.maxPatches as real + 1.0) * (p.maxPatches as real + 1.0)
  {
    assert (p.maxPatches * p.maxDimension) as real == p.maxDimension as real * p.maxPatches as real;
    assert ((p.maxPatches + 1) * (p.maxPatches + 1)) as real == (p.maxPatches as real + 1.0) * (p.maxPatches as real + 1.0);
  }

  /** In a strip one cell wide, its length in cells is bounded by the strip bound of the policy. */
  lemma {:induction false} StripLength(w: int, h: int, p: Policy, scale: real, a: real, b: real)
    requires Grid(w, h, p, scale, a, b) && h <= p.maxDimension
    requires p.maxPatches * p.maxDimension < (p.maxPatches + 1) * (p.maxPatches + 1)
    ensures b < (p.maxPatches + 1) as real
  {
    var size, area, wr, hr := p.patchSize as real, p.maxPatches as real, w as real, h as real;
    CrossSides(size, wr, hr, scale, a, b);
    StripBoundInReals(p);
    StripBelow(a, b, wr, hr, area, p.maxDimension as real);
  }

  lemma {:induction false} StripBelow(a: real, b: real, w: real, h: real, area: real, side: real)
    requires a > 0.0 && b > 0.0 && w >= 1.0 && area > 0.0 && h <= side
    requires a * b == area && a * h == b * w
    requires side * area < (area + 1.0) * (area + 1.0)
    ensures b < area + 1.0
  {
    StripSquare(a, b, w, h, area);
    MulMono(h, side, area);
    SquareLess(b, area + 1.0);
  }

  lemma {:induction false} StripSquare(a: real, b: real, w: real, h: real, area: real)
    requires a > 0.0 && b > 0.0 && w >= 1.0 && a * b == area && a * h == b * w
    ensures b * b <= area * h
  {
    SameProduct(b, a * h, b, b * w);
    SameProduct(a * b, h, area, h);
    MulPositive(b, b);
    MulMono(1.0, w, b * b);
  }

  lemma {:induction false} CrossSides(size: real, w: real, h: real, scale: real, a: real, b: real)
    requires size > 0.0 && a * size == w * scale && b * size == h * scale
    ensures a * h == b * w
  {
    calc {
      size * (a * h);
      (a * size) * h;
      { SameProduct(a * size, h, w * scale, h); }
      (w * scale) * h;
      (h * scale) * w;
      { SameProduct(h * scale, w, b * size, w); }
      (b * size) * w;
      size * (b * w);
    }
    Cancel(size, a * h, b * w);
  }

  /** One side narrower than a patch: the strip is one cell wide, and a roomy policy covers its length. */
  lemma {:induction false} StripIsGood(w: int, h: int, p: Policy, scale: real, a: real, b: real)
    requires Grid(w, h, p, scale, a, b) && w <= p.maxDimension && h <= p.maxDimension && !DimensionsFit(w, h, p)
    requires a < 1.0 && Roomy(p)
    ensures GoodScale(w, h, p, FinalScale(scale, a, b))
  {
    var k := FinalScale(scale, a, b);
    GridFlips(w, h, p, scale, a, b);
    WidthWithinCells(w, h, p, scale, a, b);
    WidthWithinCells(h, w, p, scale, b, a);
    StripIsLong(a, b, p.maxPatches);
    var rows := if p.maxPatches >= CeilDiv(p.maxDimension, p.patchSize) then p.maxPatches else Cells(b);
    if rows == Cells(b) && p.maxPatches < CeilDiv(p.maxDimension, p.patchSize) { StripLength(w, h, p, scale, a, b); }
    assert rows <= p.maxPatches;
    StripNeverGrows(w, h, p, scale, a, b);
    ShrinkingScale(h, k);
    CeilDivMono(Scaled(h, k), p.maxDimension, p.patchSize);
    GoodFromCells(w, h, p, k, 1, rows);
  }

  lemma {:induction false} StripIsLong(a: real, b: real, area: int)
    requires 0.0 < a < 1.0 && b > 0.0 && a * b == area as real && area >= 1
    ensures b >= 1.0 && Cells(a) == 1
  {
    MulMono(a, 1.0, b);
  }

  lemma {:induction false} StripNeverGrows(w: int, h: int, p: Policy, scale: real, a: real, b: real)
    requires Grid(w, h, p, scale, a, b) && w <= p.maxDimension && h <= p.maxDimension && !DimensionsFit(w, h, p)
    requires a < 1.0 && Roomy(p)
    ensures FinalScale(scale, a, b) <= 1.0
  {
    if FinalScale(scale, a, b) > 1.0 {
      GridFlips(w, h, p, scale, a, b);
      StripIsLong(a, b, p.maxPatches);
      WidthWithinCells(w, h, p, scale, a, b);
      WidthWithinCells(h, w, p, scale, b, a);
      CeilDivPositive(w, p.patchSize);
      assert CeilDiv(w, p.patchSize) == 1;
      if p.maxPatches >= CeilDiv(p.maxDimension, p.patchSize) {
        CeilDivMono(h, p.maxDimension, p.patchSize);
      } else {
        StripLength(w, h, p, scale, a, b);
      }
      assert false;
    }
  }

  lemma {:induction false} StripIsOverlong(p: Policy, scale: real, a: real, b: real)
    requires Grid(1, p.maxDimension, p, scale, a, b) && !Roomy(p)
    ensures b >= 1.0 && Cells(b) > p.maxPatches && a < 1.0
  {
    var side, area := p.maxDimension as real, p.maxPatches as real;
    CrossSides(p.patchSize as real, 1.0, side, scale, a, b);
    StripBoundInReals(p);
    StripAtLeast(a, b, side, area);
  }

  lemma {:induction false} StripAtLeast(a: real, b: real, side: real, area: real)
    requires a > 0.0 && b > 0.0 && area >= 1.0 && a * b == area && a * side == b
    requires side * area >= (area + 1.0) * (area + 1.0)
    ensures b >= area + 1.0 && a < 1.0
  {
    assert b * b == area * side by {
      SameProduct(b, b, b, a * side);
      Reorder(a, b, side);
      SameProduct(a * b, side, area, side);
    }
    SquareAtLeast(b, area + 1.0);
    FactorBelowOne(a, b);
  }

  lemma {:induction false} SquareAtLeast(x: real, y: real)
    requires x > 0.0 && y > 0.0 && x * x >= y * y
    ensures x >= y
  {
    if x < y {
      MulLess(x, y, y);
      MulLess(x, y, x);
    }
  }

  lemma {:induction false} FactorBelowOne(x: real, y: real)
    requires y > 0.0 && x * y < y
    ensures x < 1.0
  {
    if x >= 1.0 { MulMono(1.0, x, y); }
  }

  lemma {:induction false} MulLess(x: real, y: real, z: real)
    requires x < y && z > 0.0
    ensures x * z < y * z
  {
    MulPositive(y - x, z);
  }

  lemma {:induction false} ExactLength(side: int, size: int, scale: real, b: real, share: real)
    requires side > 0 && size > 0
    requires b * size as real == side as real * scale && share * b == Cells(b) as real
    ensures CeilDiv(Scaled(side, scale * share), size) == Cells(b)
  {
    Reorder(side as real, scale, share);
    SameProduct(side as real * scale, share, b * size as real, share);
    Reorder(share, b, size as real);
    SameProduct(share * b, size as real, Cells(b) as real, size as real);
    assert (Cells(b) * size) as real == Cells(b) as real * size as real;
    assert side as real * (scale * share) == (Cells(b) * size) as real;
    IntMulMono(1, Cells(b), 1, size);
    assert Scaled(side, scale * share) == Cells(b) * size;
    CeilDivLeast(Cells(b) * size, size, Cells(b));
    CeilDivLeast(Cells(b) * size, size, Cells(b) - 1);
  }

  lemma {:induction false} TooManyCells(w: int, h: int, p: Policy)
    requires Positive(p) && w > 0 && CeilDiv(h, p.patchSize) > p.maxPatches
    ensures !DimensionsFit(w, h, p)
  {
    CeilDivPositive(w, p.patchSize);
    IntMulMono(1, CeilDiv(w, p.patchSize), CeilDiv(h, p.patchSize), CeilDiv(h, p.patchSize));
  }

  lemma {:induction false} ShareOfThin(a: real, share: real)
    requires 0.0 < a < 1.0 && share * a == Cells(a) as real
    ensures share >= 1.0
  {
    if share < 1.0 { MulMono(share, 1.0, a); }
  }

  lemma {:induction false} StripScale(scale: real, a: real, b: real) returns (share: real)
    requires 0.0 < a < 1.0 && b >= 1.0 && scale > 0.0
    ensures share * b == Cells(b) as real && FinalScale(scale, a, b) == scale * share
  {
    var shareA := ShareOf(a);
    share := ShareOf(b);
    ShareOfThin(a, shareA);
    assert RealMin(shareA, share) == share;
  }

  lemma {:induction false} StripCells(w: int, h: int, p: Policy, scale: real, a: real, b: real)
    requires Grid(w, h, p, scale, a, b) && a < 1.0 && b >= 1.0
    ensures CeilDiv(Scaled(h, FinalScale(scale, a, b)), p.patchSize) == Cells(b)
  {
    var share := StripScale(scale, a, b);
    ExactLength(h, p.patchSize, scale, b, share);
  }

  lemma {:induction false} StripGridIsTooLong(p: Policy, scale: real, a: real, b: real)
    requires Grid(1, p.maxDimension, p, scale, a, b) && !Roomy(p)
    ensures !DimensionsFit(Scaled(1, FinalScale(scale, a, b)), Scaled(p.maxDimension, FinalScale(scale, a, b)), p)
  {
    StripIsOverlong(p, scale, a, b);
    StripCells(1, p.maxDimension, p, scale, a, b);
    TooManyCells(Scaled(1, FinalScale(scale, a, b)), Scaled(p.maxDimension, FinalScale(scale, a, b)), p);
  }

  // ---------- the theorems ----------

  ghost predicate GoodOutput(sqrt: Sqrt, width: int, height: int, policy: Policy) {
    var (w, h) := OutputDimensions(sqrt, width, height, policy);
    1 <= w <= width && 1 <= h <= height && DimensionsFit(w, h, Normalized(policy))
  }

  /** Under a roomy policy every image ends within the limits and is never enlarged. */
  lemma {:induction false} RoomyPolicyIsSafe(sqrt: Sqrt, width: int, height: int, policy: Policy)
    requires IsSqrt(sqrt) && width > 0 && height > 0 && Roomy(Normalized(policy))
    ensures GoodOutput(sqrt, width, height, policy)
  {
    var p := Normalized(policy);
    var (w, h) := CapSide(width, height, p);
    CapSideShrinks(width, height, p);
    if !DimensionsFit(width, height, p) && !DimensionsFit(w, h, p) {
      var scale, a, b := PatchGrid(sqrt, w, h, p);
      PatchCapIsGood(w, h, p, scale, a, b);
    }
  }

  lemma {:induction false} PatchCapIsGood(w: int, h: int, p: Policy, scale: real, a: real, b: real)
    requires Grid(w, h, p, scale, a, b) && w <= p.maxDimension && h <= p.maxDimension && !DimensionsFit(w, h, p) && Roomy(p)
    ensures GoodScale(w, h, p, FinalScale(scale, a, b))
  {
    if a >= 1.0 && b >= 1.0 {
      BothWholeIsGood(w, h, p, scale, a, b);
    } else if a < 1.0 {
      StripIsGood(w, h, p, scale, a, b);
    } else {
      GridFlips(w, h, p, scale, a, b);
      FitFlips(w, h, p);
      StripIsGood(h, w, p, scale, b, a);
      FitFlips(Scaled(w, FinalScale(scale, a, b)), Scaled(h, FinalScale(scale, a, b)), p);
    }
  }

  lemma {:induction false} FitFlips(w: int, h: int, p: Policy)
    requires Positive(p)
    ensures DimensionsFit(w, h, p) == DimensionsFit(h, w, p)
  {
  }

  /** Outside roomy policies the longest strip one pixel wide does not end within the limits. */
  lemma {:induction false} LongestStripOverflows(sqrt: Sqrt, policy: Policy)
    requires IsSqrt(sqrt) && !Roomy(Normalized(policy))
    ensures !GoodOutput(sqrt, 1, Normalized(policy).maxDimension, policy)
  {
    var p := Normalized(policy);
    var side := p.maxDimension;
    StripDoesNotFit(p);
    StripKeepsItsSize(p);
    var scale, a, b := PatchGrid(sqrt, 1, side, p);
    StripGridIsTooLong(p, scale, a, b);
  }

  lemma {:induction false} StripDoesNotFit(p: Policy)
    requires Positive(p) && !Roomy(p)
    ensures !DimensionsFit(1, p.maxDimension, p)
  {
    CeilDivPositive(1, p.patchSize);
    CeilDivLeast(1, p.patchSize, 1);
  }

  lemma {:induction false} StripKeepsItsSize(p: Policy)
    requires Positive(p)
    ensures CapSide(1, p.maxDimension, p) == (1, p.maxDimension)
  {
    DivMul(p.maxDimension as real, p.maxDimension as real);
    Cancel(p.maxDimension as real, p.maxDimension as real / p.maxDimension as real, 1.0);
    assert RealMin(1.0, p.maxDimension as real / p.maxDimension as real) == 1.0;
  }

  /** The exact condition: a policy is safe for every image exactly when it is roomy. */
  lemma {:induction false} SafeForAllImagesIffRoomy(sqrt: Sqrt, policy: Policy)
    requires IsSqrt(sqrt)
    ensures (forall width: int, height: int :: width > 0 && height > 0 ==> GoodOutput(sqrt, width, height, policy)) <==> Roomy(Normalized(policy))
  {
    if Roomy(Normalized(policy)) {
      forall width: int, height: int | width > 0 && height > 0 ensures GoodOutput(sqrt, width, height, policy) {
        RoomyPolicyIsSafe(sqrt, width, height, policy);
      }
    } else {
      LongestStripOverflows(sqrt, policy);
    }
  }

  /** The default, the original-quality and the adaptive-thinking policy are safe. */
  lemma {:induction false} ShippedPoliciesAreSafe(sqrt: Sqrt, width: int, height: int)
    requires IsSqrt(sqrt) && width > 0 && height > 0
    ensures GoodOutput(sqrt, width, height, Policy(2048, 2500, 32))
    ensures GoodOutput(sqrt, width, height, Policy(6000, 10000, 32))
    ensures GoodOutput(sqrt, width, height, Policy(1568, 1160, 32))
  {
    RoomyPolicyIsSafe(sqrt, width, height, Policy(2048, 2500, 32));
    RoomyPolicyIsSafe(sqrt, width, height, Policy(6000, 10000, 32));
    RoomyPolicyIsSafe(sqrt, width, height, Policy(1568, 1160, 32));
  }
}
