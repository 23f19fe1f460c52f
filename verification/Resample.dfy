/** The resize of a grey picture to the hash grid (internal/media/phash.go, resampleCoeffs,
    resizeGrey, bicubic and clip8). Real numbers stand for float64; bytes and fixed-point
    taps are integers.
 */
module Resample {

  const ONE := 0x40_0000 // 2 to the power of 22, the precision
  const HALF := 0x20_0000

  /** The most taps whose rounding errors together stay below one half. */
  const MAX_TAPS := 16448

  /** A conversion to int cuts toward zero. */
  function Trunc(r: real): (t: int)
    ensures r >= 0.0 ==> t as real <= r < t as real + 1.0
    ensures r < 0.0 ==> t as real - 1.0 < r <= t as real
  {
    if r >= 0.0 then r.Floor else -((-r).Floor)
  }

  function Ceil(r: real): (c: int)
    ensures c as real - 1.0 < r <= c as real
  {
    -((-r).Floor)
  }

  function Max(a: real, b: real): real {
    if a >= b then a else b
  }

  function Abs(a: real): real {
    if a < 0.0 then -a else a
  }

  function Bicubic(x: real): real {
    var a, x := -0.5, Abs(x);
    if x < 1.0 then ((a + 2.0) * x - (a + 3.0)) * x * x + 1.0
    else if x < 2.0 then (((x - 5.0) * x + 8.0) * x - 4.0) * a
    else 0.0
  }

  /** The kernel is even, reproduces samples, and the four taps around any point sum to one. */
  lemma BicubicInterpolates(t: real)
    requires 0.0 <= t <= 1.0
    ensures Bicubic(t + 1.0) + Bicubic(t) + Bicubic(t - 1.0) + Bicubic(t - 2.0) == 1.0
    ensures Bicubic(0.0) == 1.0 && Bicubic(1.0) == 0.0 && Bicubic(2.0) == 0.0
    ensures Bicubic(-t) == Bicubic(t)
  {
    var u := 1.0 - t;
    Near(t);
    Near(u);
    Far(t + 1.0);
    Far(u + 1.0);
    assert Abs(t - 1.0) == u && Abs(t - 2.0) == u + 1.0;
    Cubic(t);
  }

  lemma Near(x: real)
    requires 0.0 <= x <= 1.0
    ensures Bicubic(x) == 1.5 * (x * x * x) - 2.5 * (x * x) + 1.0
  {
    if x == 1.0 {
      assert Bicubic(1.0) == 0.0;
    }
  }

  lemma Far(x: real)
    requires 1.0 <= x <= 2.0
    ensures Bicubic(x) == -0.5 * (x * x * x) + 2.5 * (x * x) - 4.0 * x + 2.0
  {
  }

  lemma Cubic(t: real)
    ensures var (u, v, w) := (1.0 - t, 1.0 + t, 2.0 - t);
            (1.5 * (t * t * t) - 2.5 * (t * t) + 1.0) + (1.5 * (u * u * u) - 2.5 * (u * u) + 1.0)
            + (-0.5 * (v * v * v) + 2.5 * (v * v) - 4.0 * v + 2.0)
            + (-0.5 * (w * w * w) + 2.5 * (w * w) - 4.0 * w + 2.0) == 1.0
  {
  }

  // ----- Where the taps lie -----

  function Scale(inSize: nat, outSize: nat): real
    requires outSize > 0
  {
    inSize as real / outSize as real
  }

  function Support(inSize: nat, outSize: nat): (s: real)
    requires outSize > 0
    ensures s >= 2.0
  {
    2.0 * Max(Scale(inSize, outSize), 1.0)
  }

  function KernelSize(inSize: nat, outSize: nat): (k: nat)
    requires outSize > 0
    ensures k >= 5
  {
    Ceil(Support(inSize, outSize)) * 2 + 1
  }

  function Center(inSize: nat, outSize: nat, xx: nat): real
    requires outSize > 0
  {
    (xx as real + 0.5) * Scale(inSize, outSize)
  }

  /** The first input index output xx reads. */
  function First(inSize: nat, outSize: nat, xx: nat): nat
    requires outSize > 0
  {
    var xmin := Trunc(Center(inSize, outSize, xx) - Support(inSize, outSize) + 0.5);
    if xmin < 0 then 0 else xmin
  }

  /** One past the last. */
  function Last(inSize: nat, outSize: nat, xx: nat): int
    requires outSize > 0
  {
    var xmax := Trunc(Center(inSize, outSize, xx) + Support(inSize, outSize) + 0.5);
    if xmax > inSize then inSize else xmax
  }

  lemma CenterInside(inSize: nat, outSize: nat, xx: nat)
    requires inSize > 0 && xx < outSize
    ensures 0.0 < Center(inSize, outSize, xx) < inSize as real
  {
    var s := Scale(inSize, outSize);
    assert s * outSize as real == inSize as real;
    Product(xx as real + 0.5, outSize as real, s);
  }

  lemma Product(a: real, b: real, s: real)
    requires 0.0 < a < b && 0.0 < s
    ensures 0.0 < a * s < b * s
  {
  }

  /** Whatever the sizes, each output reads at least one input, reads inside the row, and has
      its taps fit in the room for them. */
  lemma TapsFit(inSize: nat, outSize: nat, xx: nat)
    requires inSize > 0 && xx < outSize
    ensures First(inSize, outSize, xx) < Last(inSize, outSize, xx) <= inSize
    ensures Last(inSize, outSize, xx) - First(inSize, outSize, xx) < KernelSize(inSize, outSize)
  {
    hide Center, Support;
    CenterInside(inSize, outSize, xx);
  }

  lemma FewTaps(inSize: nat, outSize: nat, xx: nat)
    requires inSize > 0 && xx < outSize && inSize <= 4111 * outSize
    ensures Taps(inSize, outSize, xx) <= MAX_TAPS
  {
    hide First, Last, Center;
    Quotient(inSize as real, outSize as real, 4111.0);
    assert Support(inSize, outSize) <= 8222.0;
  }

  lemma Quotient(a: real, b: real, q: real)
    requires 0.0 < b && a <= q * b
    ensures a / b <= q
  {
  }

  function Taps(inSize: nat, outSize: nat, xx: nat): (n: nat)
    requires inSize > 0 && xx < outSize
    ensures 0 < n < KernelSize(inSize, outSize) && First(inSize, outSize, xx) + n <= inSize
  {
    TapsFit(inSize, outSize, xx);
    Last(inSize, outSize, xx) - First(inSize, outSize, xx)
  }

  // ----- The taps -----

  /** How far an input lies from the centre of an output. */
  function Away(inSize: nat, outSize: nat, xx: nat, i: nat): real
    requires outSize > 0
  {
    i as real - Center(inSize, outSize, xx) + 0.5
  }

  /** The same for the i-th input it reads. */
  function Offset(inSize: nat, outSize: nat, xx: nat, i: nat): real
    requires outSize > 0
  {
    Away(inSize, outSize, xx, i + First(inSize, outSize, xx))
  }

  /** Where a distance lies under the kernel, stretched by the reduction. */
  function Place(inSize: nat, outSize: nat, d: real): real
    requires outSize > 0
  {
    d * (1.0 / Max(Scale(inSize, outSize), 1.0))
  }

  function Weight(inSize: nat, outSize: nat, xx: nat, x: nat): real
    requires outSize > 0
  {
    Bicubic(Position(inSize, outSize, xx, x))
  }

  function Position(inSize: nat, outSize: nat, xx: nat, i: nat): real
    requires outSize > 0
  {
    Place(inSize, outSize, Offset(inSize, outSize, xx, i))
  }

  function WeightSum(inSize: nat, outSize: nat, xx: nat, n: nat): real
    requires outSize > 0
  {
    if n == 0 then 0.0
    else WeightSum(inSize, outSize, xx, n - 1) + Weight(inSize, outSize, xx, n - 1)
  }

  // ----- The weights never cancel -----

  lemma KernelWithin(z: real)
    ensures -0.08 <= Bicubic(z) <= 1.0
    ensures -1.0 <= z <= 1.0 ==> Bicubic(z) >= 0.0
    ensures -0.5 <= z <= 0.5 ==> Bicubic(z) >= 0.5625
  {
    var x := Abs(z);
    assert Bicubic(z) == Bicubic(x);
    if x <= 1.0 {
      Near(x);
      NearBounds(x);
    } else if x <= 2.0 {
      Far(x);
      FarBound(x);
    }
  }

  lemma NearBounds(x: real)
    requires 0.0 <= x <= 1.0
    ensures 0.0 <= 1.5 * (x * x * x) - 2.5 * (x * x) + 1.0 <= 1.0
    ensures x <= 0.5 ==> 1.5 * (x * x * x) - 2.5 * (x * x) + 1.0 >= 0.5625
  {
    var y := x * x;
    SquareBelow(x);
    FactorsNotNegative(x, y);
    NotNegative(y, 2.5 - 1.5 * x);
    NotNegative(1.0 - x, 1.0 + x - 1.5 * y);
    Factored(x);
    if x <= 0.5 {
      NotNegative(0.5 - x, 0.875 + 1.75 * x - 1.5 * y);
    }
  }

  lemma FactorsNotNegative(x: real, y: real)
    requires 0.0 <= y <= x <= 1.0
    ensures 2.5 - 1.5 * x >= 0.0 && 1.0 + x - 1.5 * y >= 0.0 && 0.875 + 1.75 * x - 1.5 * y >= 0.0
  {
  }

  lemma SquareBelow(x: real)
    requires 0.0 <= x <= 1.0
    ensures 0.0 <= x * x <= x
  {
    NotNegative(x, x);
    NotNegative(x, 1.0 - x);
    assert x * (1.0 - x) == x - x * x;
  }

  /** The kernel below 1, and its distance to 1 and to its value at one half, as products. */
  lemma Factored(x: real)
    ensures var y := x * x;
            var near := 1.5 * (x * x * x) - 2.5 * (x * x) + 1.0;
            && near == (1.0 - x) * (1.0 + x - 1.5 * y)
            && near == 1.0 - y * (2.5 - 1.5 * x)
            && near == 0.5625 + (0.5 - x) * (0.875 + 1.75 * x - 1.5 * y)
  {
  }

  lemma NotNegative(a: real, b: real)
    requires a >= 0.0 && b >= 0.0
    ensures a * b >= 0.0
  {
  }

  lemma FarBound(x: real)
    requires 1.0 <= x <= 2.0
    ensures -0.08 <= -0.5 * (x * x * x) + 2.5 * (x * x) - 4.0 * x + 2.0 <= 0.0
  {
    var q := 2.0 - x;
    var far := -0.5 * (x * x * x) + 2.5 * (x * x) - 4.0 * x + 2.0;
    assert far == -0.5 * ((1.0 - q) * (q * q));
    var e := if q >= 2.0 / 3.0 then 3.0 * q - 2.0 else 2.0 - 3.0 * q;
    NotNegative(q, q);
    NotNegative(1.0 - q, q * q);
    NotNegative(e, e);
    NotNegative(e * e, 3.0 * q + 1.0);
    assert 27.0 * (q * q * q) - 27.0 * (q * q) + 4.0 == e * e * (3.0 * q + 1.0);
  }

  lemma WeightWithin(inSize: nat, outSize: nat, xx: nat, i: nat)
    requires outSize > 0
    ensures var f := Max(Scale(inSize, outSize), 1.0);
            var d := Offset(inSize, outSize, xx, i);
            var w := Weight(inSize, outSize, xx, i);
            && -0.08 <= w <= 1.0
            && (-f <= d <= f ==> w >= 0.0)
            && (-f <= 2.0 * d <= f ==> w >= 0.5625)
  {
    hide Position, Offset, Scale, Bicubic;
    KernelWithin(Position(inSize, outSize, xx, i));
    PositionWithin(inSize, outSize, xx, i);
  }

  lemma PositionWithin(inSize: nat, outSize: nat, xx: nat, i: nat)
    requires outSize > 0
    ensures var f := Max(Scale(inSize, outSize), 1.0);
            var d, z := Offset(inSize, outSize, xx, i), Position(inSize, outSize, xx, i);
            && (-f <= d <= f ==> -1.0 <= z <= 1.0)
            && (-f <= 2.0 * d <= f ==> -0.5 <= z <= 0.5)
  {
    hide Offset, Scale;
    Shrunk(Offset(inSize, outSize, xx, i), Max(Scale(inSize, outSize), 1.0));
  }

  lemma Shrunk(d: real, f: real)
    requires f >= 1.0
    ensures -f <= d <= f ==> -1.0 <= d * (1.0 / f) <= 1.0
    ensures -f <= 2.0 * d <= f ==> -0.5 <= d * (1.0 / f) <= 0.5
  {
    var r := 1.0 / f;
    Inverse(f);
    if -f <= d <= f {
      Between(d, f, r);
    }
    if -f <= 2.0 * d <= f {
      Between(2.0 * d, f, r);
      Twice(d, r);
    }
  }

  lemma Inverse(f: real)
    requires f >= 1.0
    ensures 1.0 / f > 0.0 && f * (1.0 / f) == 1.0
  {
  }

  lemma Twice(d: real, r: real)
    ensures 2.0 * d * r == 2.0 * (d * r)
  {
  }

  lemma Opposite(f: real, r: real)
    ensures -f * r == -(f * r)
  {
  }

  lemma Between(d: real, f: real, r: real)
    requires -f <= d <= f && r > 0.0 && f * r == 1.0
    ensures -1.0 <= d * r <= 1.0
  {
    Opposite(f, r);
    Monotone(-f, d, r);
    Monotone(d, f, r);
  }

  lemma Monotone(a: real, b: real, r: real)
    requires a <= b && r > 0.0
    ensures a * r <= b * r
  {
  }

  lemma {:induction false} SumAtLeast(inSize: nat, outSize: nat, xx: nat, m: nat, n: nat, low: real)
    requires outSize > 0 && m <= n
    requires forall i: nat :: m <= i < n ==> Weight(inSize, outSize, xx, i) >= low
    ensures WeightSum(inSize, outSize, xx, n) >= WeightSum(inSize, outSize, xx, m) + low * (n - m) as real
    decreases n - m
  {
    hide Weight;
    if m < n {
      SumAtLeast(inSize, outSize, xx, m, n - 1, low);
      OneMoreTime(low, (n - 1 - m) as real);
      assert (n - m) as real == (n - 1 - m) as real + 1.0;
    }
  }

  lemma OneMoreTime(low: real, times: real)
    ensures low * (times + 1.0) == low * times + low
  {
  }

  /** The inputs of an output fall into the near ones, at most half the kernel's half-width
      away, and those up to its half-width and beyond it on either side. */
  lemma Cuts(inSize: nat, outSize: nat, xx: nat) returns (k1: nat, k2: nat, k3: nat, k4: nat)
    requires inSize > 0 && xx < outSize
    ensures k1 <= k2 <= k3 <= k4 <= Taps(inSize, outSize, xx)
    ensures var f := Max(Scale(inSize, outSize), 1.0);
            && (forall i: nat :: k1 <= i < k4 ==> -f <= Offset(inSize, outSize, xx, i) <= f)
            && (forall i: nat :: k2 <= i < k3 ==> -f <= 2.0 * Offset(inSize, outSize, xx, i) <= f)
            && k1 as real <= f + 1.0 && (Taps(inSize, outSize, xx) - k4) as real <= f + 1.0
            && (k3 - k2) as real > f - 1.0
  {
    var s := Scale(inSize, outSize);
    var f, c := Max(s, 1.0), Center(inSize, outSize, xx);
    var first, n := First(inSize, outSize, xx), Taps(inSize, outSize, xx);
    TapsFit(inSize, outSize, xx);
    MiddleInside(inSize, outSize, xx);
    k2 := Ceil(c - f / 2.0 - 0.5) - first;
    k3 := (c + f / 2.0 - 0.5).Floor + 1 - first;
    var a, b := Ceil(c - f - 0.5) - first, (c + f - 0.5).Floor + 1 - first;
    k1 := if a < 0 then 0 else a;
    k4 := if b > n then n else b;
  }

  /** The near inputs are all inside the row. */
  lemma MiddleInside(inSize: nat, outSize: nat, xx: nat)
    requires inSize > 0 && xx < outSize
    ensures var f := Max(Scale(inSize, outSize), 1.0);
            var c := Center(inSize, outSize, xx);
            0 <= Ceil(c - f / 2.0 - 0.5) && (c + f / 2.0 - 0.5).Floor + 1 <= inSize
  {
    var s := Scale(inSize, outSize);
    var c := Center(inSize, outSize, xx);
    CenterInside(inSize, outSize, xx);
    assert s * outSize as real == inSize as real;
    assert c == xx as real * s + 0.5 * s;
    Monotone(0.0, xx as real, s);
    Monotone(xx as real + 1.0, outSize as real, s);
  }

  /** The weights of any output of any resize sum to well over zero, so they can always be
      normalised. */
  lemma WeightsNeverCancel(inSize: nat, outSize: nat, xx: nat)
    requires inSize > 0 && xx < outSize
    ensures WeightSum(inSize, outSize, xx, Taps(inSize, outSize, xx)) > 0.08
  {
    hide Weight, WeightSum, First, Last, Taps, Offset, Center, Scale, KernelSize;
    var f, n := Max(Scale(inSize, outSize), 1.0), Taps(inSize, outSize, xx);
    var k1, k2, k3, k4 := Cuts(inSize, outSize, xx);
    forall i: nat
      ensures Weight(inSize, outSize, xx, i) >= -0.08
      ensures k1 <= i < k4 ==> Weight(inSize, outSize, xx, i) >= 0.0
      ensures k2 <= i < k3 ==> Weight(inSize, outSize, xx, i) >= 0.5625
    {
      WeightWithin(inSize, outSize, xx, i);
    }
    NoWeights(inSize, outSize, xx);
    SumAtLeast(inSize, outSize, xx, 0, k1, -0.08);
    SumAtLeast(inSize, outSize, xx, k1, k2, 0.0);
    SumAtLeast(inSize, outSize, xx, k2, k3, 0.5625);
    SumAtLeast(inSize, outSize, xx, k3, k4, 0.0);
    SumAtLeast(inSize, outSize, xx, k4, n, -0.08);
    Outweighed(k3 - k2, k1, n - k4, f);
  }

  lemma Outweighed(near: nat, before: nat, after: nat, f: real)
    requires f >= 1.0 && near as real > f - 1.0 && before as real <= f + 1.0 && after as real <= f + 1.0
    ensures 0.5625 * near as real - 0.08 * before as real - 0.08 * after as real > 0.08
  {
    assert near >= 1;
  }

  lemma NoWeights(inSize: nat, outSize: nat, xx: nat)
    requires outSize > 0
    ensures WeightSum(inSize, outSize, xx, 0) == 0.0
  {
  }

  function Normal(w: real, sum: real): real {
    if sum != 0.0 then w / sum else w
  }

  /** The nearest fixed-point number. */
  function Fixed(v: real): (k: int)
    ensures Abs(k as real - v * ONE as real) <= 0.5
  {
    if v < 0.0 then Trunc(-0.5 + v * ONE as real) else Trunc(0.5 + v * ONE as real)
  }

  function Tap(inSize: nat, outSize: nat, xx: nat, x: nat): int
    requires inSize > 0 && xx < outSize
  {
    Fixed(Normal(Weight(inSize, outSize, xx, x), WeightSum(inSize, outSize, xx, Taps(inSize, outSize, xx))))
  }

  /** A tap fits in 32 bits with room to spare. */
  lemma TapIsSmall(inSize: nat, outSize: nat, xx: nat, x: nat)
    requires inSize > 0 && xx < outSize
    ensures -13 * ONE < Tap(inSize, outSize, xx, x) < 13 * ONE
  {
    hide Weight, WeightSum, Taps, Fixed;
    var w, sum := Weight(inSize, outSize, xx, x), WeightSum(inSize, outSize, xx, Taps(inSize, outSize, xx));
    WeightsNeverCancel(inSize, outSize, xx);
    WeightWithin(inSize, outSize, xx, x);
    Ratio(w, sum);
    assert Tap(inSize, outSize, xx, x) == Fixed(w / sum);
  }

  lemma Ratio(w: real, sum: real)
    requires -0.08 <= w <= 1.0 && sum > 0.08
    ensures -12.5 < w / sum < 12.5
  {
    var v := w / sum;
    assert v * sum == w;
    if v >= 12.5 {
      Monotone(12.5, v, sum);
    }
    if v <= -12.5 {
      Monotone(v, -12.5, sum);
    }
  }

  function AllTaps(inSize: nat, outSize: nat, xx: nat): (k: seq<int>)
    requires inSize > 0 && xx < outSize
    ensures |k| == Taps(inSize, outSize, xx)
  {
    seq(Taps(inSize, outSize, xx), x requires 0 <= x => Tap(inSize, outSize, xx, x))
  }

  // ----- Cells of a table kept row by row -----

  function Cell(row: nat, width: nat, col: nat): nat {
    row * width + col
  }

  lemma CellInside(row: nat, rows: nat, width: nat, col: nat)
    requires row < rows && col < width
    ensures Cell(row, width, col) < rows * width
    ensures row * width + width <= rows * width
  {
    assert (row + 1) * width <= rows * width;
  }

  lemma CellsDiffer(row: nat, row': nat, width: nat, col: nat, col': nat)
    requires row < row' && col < width
    ensures Cell(row, width, col) < Cell(row', width, col')
  {
    assert (row + 1) * width <= row' * width;
  }

  /** Every index is a cell. */
  lemma CellOf(i: nat, rows: nat, width: nat) returns (row: nat, col: nat)
    requires i < rows * width
    ensures row < rows && col < width && Cell(row, width, col) == i
  {
    row, col := i / width, i % width;
    assert row * width <= i;
    LessFactor(row, rows, width);
  }

  lemma LessFactor(q: nat, rows: nat, width: nat)
    requires q * width < rows * width
    ensures q < rows
  {
  }

  // ----- The two passes -----

  function Clip8(acc: int): (v: int)
    ensures 0 <= v <= 255
    ensures 0 <= acc < 256 * ONE ==> v * ONE <= acc < (v + 1) * ONE
    ensures (acc < 0 ==> v == 0) && (acc >= 256 * ONE ==> v == 255)
  {
    var v := acc / ONE;
    if v < 0 then 0 else if v > 255 then 255 else v
  }

  /** The taps times the pixels of a row from start on. */
  function RowSum(src: seq<int>, start: nat, k: seq<int>): int
    requires start + |k| <= |src|
    decreases |k|
  {
    if k == [] then 0
    else RowSum(src, start, k[..|k| - 1]) + src[start + |k| - 1] * k[|k| - 1]
  }

  /** The taps times the pixels of column x from row first on. */
  function ColumnSum(mid: seq<int>, first: nat, width: nat, x: nat, k: seq<int>): int
    requires x < width && |mid| >= (first + |k|) * width
    decreases |k|
  {
    if k == [] then 0
    else
      CellInside(first + |k| - 1, first + |k|, width, x);
      ColumnSum(mid, first, width, x, k[..|k| - 1]) + mid[Cell(first + |k| - 1, width, x)] * k[|k| - 1]
  }

  /** The table holds f at each cell before (row, col) in reading order. */
  ghost predicate FilledTo(table: seq<int>, rows: nat, width: nat, f: (nat, nat) -> int, row: nat, col: nat) {
    && |table| == rows * width
    && forall r: nat, c: nat {:trigger Cell(r, width, c)} ::
         r < rows && c < width && (r < row || (r == row && c < col)) ==>
           Cell(r, width, c) < |table| && table[Cell(r, width, c)] == f(r, c)
  }

  /** The picture after the horizontal pass. */
  ghost predicate IsMiddle(mid: seq<int>, src: seq<int>, sw: nat, sh: nat, dw: nat)
    requires sw > 0 && |src| == sh * sw
  {
    FilledTo(mid, sh, dw, AcrossAll(src, sw, sh, dw), sh, 0)
  }

  function AcrossAll(src: seq<int>, sw: nat, sh: nat, dw: nat): (nat, nat) -> int
    requires sw > 0 && |src| == sh * sw
  {
    (y: nat, x: nat) => if y < sh && x < dw then Across(src, sw, sh, dw, y, x) else 0
  }

  /** A row pixel of the horizontal pass: its taps lie inside row y. */
  function Across(src: seq<int>, sw: nat, sh: nat, dw: nat, y: nat, x: nat): int
    requires sw > 0 && |src| == sh * sw && y < sh && x < dw
  {
    CellInside(y, sh, sw, First(sw, dw, x) + Taps(sw, dw, x) - 1);
    Clip8(HALF + RowSum(src, Cell(y, sw, First(sw, dw, x)), AllTaps(sw, dw, x)))
  }

  /** The picture after the vertical pass. */
  ghost predicate IsResized(out: seq<int>, mid: seq<int>, sh: nat, dw: nat, dh: nat)
    requires sh > 0 && |mid| == sh * dw
  {
    FilledTo(out, dh, dw, DownAll(mid, sh, dw, dh), dh, 0)
  }

  function DownAll(mid: seq<int>, sh: nat, dw: nat, dh: nat): (nat, nat) -> int
    requires sh > 0 && |mid| == sh * dw
  {
    (y: nat, x: nat) => if y < dh && x < dw then Down(mid, sh, dw, dh, y, x) else 0
  }

  function Down(mid: seq<int>, sh: nat, dw: nat, dh: nat, y: nat, x: nat): int
    requires sh > 0 && |mid| == sh * dw && y < dh && x < dw
  {
    RowsFit(First(sh, dh, y) + Taps(sh, dh, y), sh, dw);
    Clip8(HALF + ColumnSum(mid, First(sh, dh, y), dw, x, AllTaps(sh, dh, y)))
  }

  lemma RowsFit(a: nat, b: nat, width: nat)
    requires a <= b
    ensures a * width <= b * width
  {
  }

  // ----- A flat picture -----

  function Sum(k: seq<int>): int
    decreases |k|
  {
    if k == [] then 0 else Sum(k[..|k| - 1]) + k[|k| - 1]
  }

  lemma {:induction false} RowOfFlat(src: seq<int>, start: nat, k: seq<int>, v: int)
    requires start + |k| <= |src| && forall i :: 0 <= i < |src| ==> src[i] == v
    ensures RowSum(src, start, k) == v * Sum(k)
    decreases |k|
  {
    if k != [] {
      RowOfFlat(src, start, k[..|k| - 1], v);
    }
  }

  lemma {:induction false} ColumnOfFlat(mid: seq<int>, first: nat, width: nat, x: nat, k: seq<int>, v: int)
    requires x < width && |mid| >= (first + |k|) * width && forall i :: 0 <= i < |mid| ==> mid[i] == v
    ensures ColumnSum(mid, first, width, x, k) == v * Sum(k)
    decreases |k|
  {
    if k != [] {
      RowsFit(first + |k| - 1, first + |k|, width);
      ColumnOfFlat(mid, first, width, x, k[..|k| - 1], v);
      CellInside(first + |k| - 1, first + |k|, width, x);
    }
  }

  function NormalSum(inSize: nat, outSize: nat, xx: nat, n: nat, sum: real): real
    requires outSize > 0
  {
    if n == 0 then 0.0
    else NormalSum(inSize, outSize, xx, n - 1, sum) + Normal(Weight(inSize, outSize, xx, n - 1), sum)
  }

  lemma {:induction false} NormalSumScales(inSize: nat, outSize: nat, xx: nat, n: nat, sum: real)
    requires outSize > 0 && sum != 0.0
    ensures NormalSum(inSize, outSize, xx, n, sum) == WeightSum(inSize, outSize, xx, n) / sum
    decreases n
  {
    hide Weight;
    if n > 0 {
      NormalSumScales(inSize, outSize, xx, n - 1, sum);
    }
  }

  /** Rounding each of n taps moves their sum by n halves at most. */
  lemma {:induction false} RoundingAdds(inSize: nat, outSize: nat, xx: nat, k: seq<int>)
    requires inSize > 0 && xx < outSize && k <= AllTaps(inSize, outSize, xx)
    ensures var sum := WeightSum(inSize, outSize, xx, Taps(inSize, outSize, xx));
            Abs(Sum(k) as real - NormalSum(inSize, outSize, xx, |k|, sum) * ONE as real) <= |k| as real * 0.5
    decreases |k|
  {
    hide Weight, WeightSum, Normal, Taps;
    if k != [] {
      RoundingAdds(inSize, outSize, xx, k[..|k| - 1]);
    }
  }

  /** The roundings of an output's taps cannot add up to a half. */
  predicate FewEnough(inSize: nat, outSize: nat, xx: nat)
    requires inSize > 0 && xx < outSize
  {
    Taps(inSize, outSize, xx) <= MAX_TAPS
  }

  lemma TapsSumToOne(inSize: nat, outSize: nat, xx: nat)
    requires inSize > 0 && xx < outSize && FewEnough(inSize, outSize, xx)
    ensures -MAX_TAPS <= 2 * (Sum(AllTaps(inSize, outSize, xx)) - ONE) <= MAX_TAPS
  {
    hide Weight, WeightSum, NormalSum, Sum, Taps, AllTaps;
    var n := Taps(inSize, outSize, xx);
    var sum := WeightSum(inSize, outSize, xx, n);
    var k := AllTaps(inSize, outSize, xx);
    RoundingAdds(inSize, outSize, xx, k);
    WeightsNeverCancel(inSize, outSize, xx);
    NormalSumScales(inSize, outSize, xx, n, sum);
    SelfRatio(sum);
    WithinHalves(Sum(k), n);
  }

  lemma SelfRatio(r: real)
    requires r != 0.0
    ensures r / r == 1.0
  {
  }

  lemma WithinHalves(sum: int, n: nat)
    requires Abs(sum as real - 1.0 * ONE as real) <= n as real * 0.5
    ensures -(n as int) <= 2 * (sum - ONE) <= n
  {
  }

  lemma FlatPixel(sum: int, v: int)
    requires 0 <= v <= 255 && -MAX_TAPS <= 2 * (sum - ONE) <= MAX_TAPS
    ensures Clip8(HALF + v * sum) == v
  {
    var d := sum - ONE;
    assert v * sum == v * ONE + v * d;
    Spread(v, d);
    assert v * ONE <= HALF + v * sum < (v + 1) * ONE;
  }

  lemma Spread(v: int, d: int)
    requires 0 <= v <= 255 && -MAX_TAPS <= 2 * d <= MAX_TAPS
    ensures -255 * MAX_TAPS <= 2 * (v * d) <= 255 * MAX_TAPS
  {
  }

  /** A picture of one grey resizes to the same grey everywhere. */
  lemma FlatStaysFlat(src: seq<int>, mid: seq<int>, out: seq<int>, sw: nat, sh: nat, dw: nat, dh: nat, v: int)
    requires sw > 0 && sh > 0 && |src| == sh * sw && 0 <= v <= 255
    requires forall i :: 0 <= i < |src| ==> src[i] == v
    requires forall x :: 0 <= x < dw ==> FewEnough(sw, dw, x)
    requires forall y :: 0 <= y < dh ==> FewEnough(sh, dh, y)
    requires IsMiddle(mid, src, sw, sh, dw) && IsResized(out, mid, sh, dw, dh)
    ensures |out| == dh * dw && forall i :: 0 <= i < |out| ==> out[i] == v
  {
    hide Cell, IsMiddle, IsResized, FewEnough;
    forall i | 0 <= i < |mid| ensures mid[i] == v {
      MiddleSize(mid, src, sw, sh, dw);
      var y, x := CellOf(i, sh, dw);
      FlatAcross(src, mid, sw, sh, dw, y, x, v);
    }
    MiddleSize(mid, src, sw, sh, dw);
    ResizedSize(out, mid, sh, dw, dh);
    forall i | 0 <= i < |out| ensures out[i] == v {
      var y, x := CellOf(i, dh, dw);
      FlatDown(mid, out, sh, dw, dh, y, x, v);
    }
  }

  lemma MiddleSize(mid: seq<int>, src: seq<int>, sw: nat, sh: nat, dw: nat)
    requires sw > 0 && |src| == sh * sw && IsMiddle(mid, src, sw, sh, dw)
    ensures |mid| == sh * dw
  {
  }

  lemma ResizedSize(out: seq<int>, mid: seq<int>, sh: nat, dw: nat, dh: nat)
    requires sh > 0 && |mid| == sh * dw && IsResized(out, mid, sh, dw, dh)
    ensures |out| == dh * dw
  {
  }

  lemma FlatAcross(src: seq<int>, mid: seq<int>, sw: nat, sh: nat, dw: nat, y: nat, x: nat, v: int)
    requires sw > 0 && |src| == sh * sw && 0 <= v <= 255 && y < sh && x < dw
    requires forall i :: 0 <= i < |src| ==> src[i] == v
    requires FewEnough(sw, dw, x) && IsMiddle(mid, src, sw, sh, dw)
    ensures Cell(y, dw, x) < |mid| && mid[Cell(y, dw, x)] == v
  {
    hide Sum, RowSum, First, Taps, AllTaps, Clip8, FewEnough;
    CellInside(y, sh, dw, x);
    CellInside(y, sh, sw, First(sw, dw, x) + Taps(sw, dw, x) - 1);
    assert mid[Cell(y, dw, x)] == Across(src, sw, sh, dw, y, x);
    RowOfFlat(src, Cell(y, sw, First(sw, dw, x)), AllTaps(sw, dw, x), v);
    TapsSumToOne(sw, dw, x);
    FlatPixel(Sum(AllTaps(sw, dw, x)), v);
  }

  lemma FlatDown(mid: seq<int>, out: seq<int>, sh: nat, dw: nat, dh: nat, y: nat, x: nat, v: int)
    requires sh > 0 && |mid| == sh * dw && 0 <= v <= 255 && y < dh && x < dw
    requires forall i :: 0 <= i < |mid| ==> mid[i] == v
    requires FewEnough(sh, dh, y) && IsResized(out, mid, sh, dw, dh)
    ensures Cell(y, dw, x) < |out| && out[Cell(y, dw, x)] == v
  {
    hide Sum, ColumnSum, First, Taps, AllTaps, Clip8, FewEnough;
    CellInside(y, dh, dw, x);
    assert out[Cell(y, dw, x)] == Down(mid, sh, dw, dh, y, x);
    RowsFit(First(sh, dh, y) + Taps(sh, dh, y), sh, dw);
    ColumnOfFlat(mid, First(sh, dh, y), dw, x, AllTaps(sh, dh, y), v);
    TapsSumToOne(sh, dh, y);
    FlatPixel(Sum(AllTaps(sh, dh, y)), v);
  }

  // ----- Which inputs an output reads -----

  /** The weight of input i for an output, before the weights are made to sum to one. */
  function Kernel(inSize: nat, outSize: nat, xx: nat, i: nat): real
    requires outSize > 0
  {
    Bicubic(Place(inSize, outSize, Away(inSize, outSize, xx, i)))
  }

  lemma WeightIsKernel(inSize: nat, outSize: nat, xx: nat, x: nat)
    requires outSize > 0
    ensures Weight(inSize, outSize, xx, x) == Kernel(inSize, outSize, xx, First(inSize, outSize, xx) + x)
  {
    hide Bicubic, First, Away, Place;
  }

  /** The inputs left out of the taps have no weight. */
  lemma NothingMissed(inSize: nat, outSize: nat, xx: nat, i: nat)
    requires inSize > 0 && xx < outSize && i < inSize
    requires !(First(inSize, outSize, xx) <= i < Last(inSize, outSize, xx))
    ensures Kernel(inSize, outSize, xx, i) == 0.0
  {
    hide Bicubic, Center, Scale;
    var f, d := Max(Scale(inSize, outSize), 1.0), Away(inSize, outSize, xx, i);
    assert d <= -2.0 * f || d >= 2.0 * f;
    FarAway(d, f);
    assert Place(inSize, outSize, d) == d * (1.0 / f);
  }

  lemma FarAway(d: real, f: real)
    requires f >= 1.0 && (d <= -2.0 * f || d >= 2.0 * f)
    ensures Bicubic(d * (1.0 / f)) == 0.0
  {
    var r := 1.0 / f;
    Inverse(f);
    Opposite(f, r);
    Twice(f, r);
    Twice(-f, r);
    if d >= 2.0 * f {
      Monotone(2.0 * f, d, r);
    } else {
      Monotone(d, 2.0 * -f, r);
    }
  }

  lemma TruncGrows(a: real, b: real)
    requires a <= b
    ensures Trunc(a) <= Trunc(b)
  {
  }

  /** From one output to the next the inputs read never move back. */
  lemma RangesGrow(inSize: nat, outSize: nat, xx: nat, xx': nat)
    requires outSize > 0 && xx <= xx'
    ensures First(inSize, outSize, xx) <= First(inSize, outSize, xx')
    ensures Last(inSize, outSize, xx) <= Last(inSize, outSize, xx')
  {
    hide Trunc, Support, Center;
    var support := Support(inSize, outSize);
    var c, c' := Center(inSize, outSize, xx), Center(inSize, outSize, xx');
    CenterGrows(inSize, outSize, xx, xx');
    TruncGrows(c - support + 0.5, c' - support + 0.5);
    TruncGrows(c + support + 0.5, c' + support + 0.5);
  }

  lemma CenterGrows(inSize: nat, outSize: nat, xx: nat, xx': nat)
    requires outSize > 0 && xx <= xx'
    ensures Center(inSize, outSize, xx) <= Center(inSize, outSize, xx')
  {
    hide Scale;
    ScalePositive(inSize, outSize);
    NotNegative((xx' - xx) as real, Scale(inSize, outSize));
    Distributed(xx' as real + 0.5, xx as real + 0.5, Scale(inSize, outSize));
  }

  lemma ScalePositive(inSize: nat, outSize: nat)
    requires outSize > 0
    ensures Scale(inSize, outSize) >= 0.0 && Scale(inSize, outSize) * outSize as real == inSize as real
  {
  }

  /** Laid over the inputs, output xx and input i have their middles within half the larger of
      the two. */
  predicate Meet(inSize: nat, outSize: nat, xx: nat, i: nat) {
    var apart := (2 * i + 1) * outSize - (2 * xx + 1) * inSize;
    var larger := if inSize > outSize then inSize else outSize;
    -larger <= apart <= larger
  }

  /** An output reads every input it meets, and gives it a good part of the weight. */
  lemma ReadsWhatItMeets(inSize: nat, outSize: nat, xx: nat, i: nat)
    requires inSize > 0 && xx < outSize && i < inSize && Meet(inSize, outSize, xx, i)
    ensures First(inSize, outSize, xx) <= i < Last(inSize, outSize, xx)
    ensures Kernel(inSize, outSize, xx, i) >= 0.5625
  {
    hide Bicubic, First, Last, Away, Place, Scale, Max, Meet;
    MeetsWithin(inSize, outSize, xx, i);
    HeavyNear(inSize, outSize, Away(inSize, outSize, xx, i));
    if !(First(inSize, outSize, xx) <= i < Last(inSize, outSize, xx)) {
      NothingMissed(inSize, outSize, xx, i);
    }
  }

  lemma HeavyNear(inSize: nat, outSize: nat, d: real)
    requires outSize > 0
    requires var f := Max(Scale(inSize, outSize), 1.0); -f <= 2.0 * d <= f
    ensures Bicubic(Place(inSize, outSize, d)) >= 0.5625
  {
    hide Bicubic, Scale;
    Shrunk(d, Max(Scale(inSize, outSize), 1.0));
    KernelWithin(Place(inSize, outSize, d));
  }

  lemma MeetsWithin(inSize: nat, outSize: nat, xx: nat, i: nat)
    requires inSize > 0 && outSize > 0 && Meet(inSize, outSize, xx, i)
    ensures var f := Max(Scale(inSize, outSize), 1.0);
            -f <= 2.0 * Away(inSize, outSize, xx, i) <= f
  {
    hide Away, Scale, Max;
    var f, d := Max(Scale(inSize, outSize), 1.0), Away(inSize, outSize, xx, i);
    var apart := (2 * i + 1) * outSize - (2 * xx + 1) * inSize;
    var larger := if inSize > outSize then inSize else outSize;
    Apart(i, inSize, outSize, xx);
    Larger(inSize, outSize);
    Bounded(2.0 * d, f, outSize as real, apart, larger);
  }

  lemma Bounded(a: real, b: real, n: real, apart: int, larger: int)
    requires n > 0.0 && a * n == apart as real && b * n == larger as real && -larger <= apart <= larger
    ensures -b <= a <= b
  {
    Opposite(b, n);
    DividedOut(a, b, n);
  }

  lemma DividedOut(a: real, b: real, n: real)
    requires n > 0.0 && -b * n <= a * n <= b * n
    ensures -b <= a <= b
  {
    if a > b {
      Times(b, a, n);
    }
    if a < -b {
      Times(a, -b, n);
    }
  }

  lemma Times(a: real, b: real, n: real)
    requires a < b && n > 0.0
    ensures a * n < b * n
  {
  }

  lemma Apart(i: nat, inSize: nat, outSize: nat, xx: nat)
    requires outSize > 0
    ensures 2.0 * Away(inSize, outSize, xx, i) * outSize as real ==
              ((2 * i + 1) * outSize - (2 * xx + 1) * inSize) as real
  {
    var s, n := Scale(inSize, outSize), outSize as real;
    assert (xx as real + 0.5) * s * n == (xx as real + 0.5) * inSize as real;
  }

  lemma Larger(inSize: nat, outSize: nat)
    requires outSize > 0
    ensures var larger := if inSize > outSize then inSize else outSize;
            Max(Scale(inSize, outSize), 1.0) * outSize as real == larger as real
  {
  }

  // ----- The taps are the whole sum -----

  /** The weights of the first n inputs of the row. */
  function Total(inSize: nat, outSize: nat, xx: nat, n: nat): real
    requires outSize > 0
  {
    if n == 0 then 0.0 else Total(inSize, outSize, xx, n - 1) + Kernel(inSize, outSize, xx, n - 1)
  }

  /** What part of an output input i is, of all inputs of the row, in fixed point. */
  function Share(inSize: nat, outSize: nat, xx: nat, i: nat): int
    requires outSize > 0
  {
    Fixed(Normal(Kernel(inSize, outSize, xx, i), Total(inSize, outSize, xx, inSize)))
  }

  /** How many taps lie among the first n inputs. */
  function Reached(inSize: nat, outSize: nat, xx: nat, n: nat): (r: nat)
    requires inSize > 0 && xx < outSize
    ensures r <= Taps(inSize, outSize, xx)
  {
    var first, last := First(inSize, outSize, xx), Last(inSize, outSize, xx);
    if n <= first then 0 else if n >= last then Taps(inSize, outSize, xx) else n - first
  }

  /** One input more is one tap more, or has no weight. */
  lemma OneMoreInput(inSize: nat, outSize: nat, xx: nat, i: nat)
    requires inSize > 0 && xx < outSize && i < inSize
    ensures var (r, r') := (Reached(inSize, outSize, xx, i), Reached(inSize, outSize, xx, i + 1));
            if r' == r then Kernel(inSize, outSize, xx, i) == 0.0
            else
              && r' == r + 1 && i == First(inSize, outSize, xx) + r
              && Kernel(inSize, outSize, xx, i) == Weight(inSize, outSize, xx, r)
  {
    hide First, Last, Kernel, Weight;
    TapsFit(inSize, outSize, xx);
    if First(inSize, outSize, xx) <= i < Last(inSize, outSize, xx) {
      WeightIsKernel(inSize, outSize, xx, i - First(inSize, outSize, xx));
    } else {
      NothingMissed(inSize, outSize, xx, i);
    }
  }

  lemma {:induction false} TotalOfTaps(inSize: nat, outSize: nat, xx: nat, n: nat)
    requires inSize > 0 && xx < outSize && n <= inSize
    ensures Total(inSize, outSize, xx, n) == WeightSum(inSize, outSize, xx, Reached(inSize, outSize, xx, n))
    decreases n
  {
    hide Kernel, Weight, Reached;
    if n > 0 {
      TotalOfTaps(inSize, outSize, xx, n - 1);
      OneMoreInput(inSize, outSize, xx, n - 1);
    } else {
      NoneReached(inSize, outSize, xx);
    }
  }

  lemma NoneReached(inSize: nat, outSize: nat, xx: nat)
    requires inSize > 0 && xx < outSize
    ensures Reached(inSize, outSize, xx, 0) == 0
    ensures Reached(inSize, outSize, xx, inSize) == Taps(inSize, outSize, xx)
  {
    hide First, Last;
    TapsFit(inSize, outSize, xx);
  }

  lemma WholeTotal(inSize: nat, outSize: nat, xx: nat)
    requires inSize > 0 && xx < outSize
    ensures Total(inSize, outSize, xx, inSize) == WeightSum(inSize, outSize, xx, Taps(inSize, outSize, xx)) > 0.08
  {
    hide Kernel, Weight, WeightSum, Total, Taps, Reached;
    TotalOfTaps(inSize, outSize, xx, inSize);
    NoneReached(inSize, outSize, xx);
    WeightsNeverCancel(inSize, outSize, xx);
  }

  /** A share is a tap, or nothing. */
  lemma ShareIsTap(inSize: nat, outSize: nat, xx: nat, i: nat)
    requires inSize > 0 && xx < outSize && i < inSize
    ensures var (r, r') := (Reached(inSize, outSize, xx, i), Reached(inSize, outSize, xx, i + 1));
            Share(inSize, outSize, xx, i) == if r' == r then 0 else Tap(inSize, outSize, xx, r)
  {
    hide Kernel, Weight, WeightSum, Total, Taps, Reached, Fixed;
    OneMoreInput(inSize, outSize, xx, i);
    WholeTotal(inSize, outSize, xx);
    NoShare(Total(inSize, outSize, xx, inSize));
  }

  lemma NoShare(sum: real)
    ensures Fixed(Normal(0.0, sum)) == 0
  {
    assert Normal(0.0, sum) == 0.0;
    assert Fixed(0.0) == Trunc(0.5);
  }

  /** The shares of the first n inputs times the pixels of a row. */
  function DenseRow(src: seq<int>, start: nat, inSize: nat, outSize: nat, xx: nat, n: nat): int
    requires outSize > 0 && start + n <= |src|
  {
    if n == 0 then 0
    else DenseRow(src, start, inSize, outSize, xx, n - 1) + src[start + n - 1] * Share(inSize, outSize, xx, n - 1)
  }

  lemma {:induction false} RowOfTaps(src: seq<int>, start: nat, inSize: nat, outSize: nat, xx: nat, n: nat)
    requires inSize > 0 && xx < outSize && n <= inSize && start + inSize <= |src|
    requires First(inSize, outSize, xx) + Taps(inSize, outSize, xx) <= inSize
    ensures DenseRow(src, start, inSize, outSize, xx, n) ==
              RowSum(src, start + First(inSize, outSize, xx),
                     AllTaps(inSize, outSize, xx)[..Reached(inSize, outSize, xx, n)])
    decreases n
  {
    hide First, Taps, Tap, Share, Reached;
    var k := AllTaps(inSize, outSize, xx);
    if n > 0 {
      RowOfTaps(src, start, inSize, outSize, xx, n - 1);
      OneMoreInput(inSize, outSize, xx, n - 1);
      ShareIsTap(inSize, outSize, xx, n - 1);
      var r, r' := Reached(inSize, outSize, xx, n - 1), Reached(inSize, outSize, xx, n);
      if r' != r {
        assert k[..r'][..r] == k[..r] && k[..r'][r] == k[r];
      }
    } else {
      NoneReached(inSize, outSize, xx);
    }
  }

  /** A pixel of the horizontal pass is the rounded sum of the shares of the whole row: the
      range of taps leaves nothing out. */
  lemma AcrossIsDense(src: seq<int>, sw: nat, sh: nat, dw: nat, y: nat, x: nat)
    requires sw > 0 && |src| == sh * sw && y < sh && x < dw
    ensures Cell(y, sw, 0) + sw <= |src|
    ensures Across(src, sw, sh, dw, y, x) == Clip8(HALF + DenseRow(src, Cell(y, sw, 0), sw, dw, x, sw))
  {
    hide First, Taps, Tap, AllTaps, RowSum, DenseRow, Reached, Cell, Clip8;
    RowInside(y, sh, sw);
    TapsInside(sw, dw, x);
    RowOfTaps(src, Cell(y, sw, 0), sw, dw, x, sw);
    NoneReached(sw, dw, x);
    RowAt(y, sw, First(sw, dw, x), Taps(sw, dw, x));
    assert AllTaps(sw, dw, x)[..Taps(sw, dw, x)] == AllTaps(sw, dw, x);
  }

  lemma TapsInside(inSize: nat, outSize: nat, xx: nat)
    requires inSize > 0 && xx < outSize
    ensures First(inSize, outSize, xx) + Taps(inSize, outSize, xx) <= inSize
  {
  }

  /** The shares of the first n inputs times the pixels of column x. */
  function DenseColumn(mid: seq<int>, width: nat, x: nat, inSize: nat, outSize: nat, xx: nat, n: nat): int
    requires outSize > 0 && x < width && |mid| >= n * width
  {
    if n == 0 then 0
    else
      CellInside(n - 1, n, width, x);
      RowsFit(n - 1, n, width);
      DenseColumn(mid, width, x, inSize, outSize, xx, n - 1)
      + mid[Cell(n - 1, width, x)] * Share(inSize, outSize, xx, n - 1)
  }

  lemma DenseColumnStep(mid: seq<int>, width: nat, x: nat, inSize: nat, outSize: nat, xx: nat, n: nat)
    requires outSize > 0 && x < width && |mid| >= (n + 1) * width
    ensures |mid| >= n * width && Cell(n, width, x) < |mid|
    ensures DenseColumn(mid, width, x, inSize, outSize, xx, n + 1) ==
              DenseColumn(mid, width, x, inSize, outSize, xx, n)
              + mid[Cell(n, width, x)] * Share(inSize, outSize, xx, n)
  {
    hide Share;
    CellInside(n, n + 1, width, x);
    RowsFit(n, n + 1, width);
  }

  lemma NoDenseColumn(mid: seq<int>, width: nat, x: nat, inSize: nat, outSize: nat, xx: nat)
    requires outSize > 0 && x < width
    ensures DenseColumn(mid, width, x, inSize, outSize, xx, 0) == 0
  {
  }

  lemma {:induction false} ColumnOfTaps(mid: seq<int>, width: nat, x: nat, inSize: nat, outSize: nat, xx: nat, n: nat)
    requires inSize > 0 && xx < outSize && n <= inSize && x < width && |mid| >= inSize * width
    ensures |mid| >= n * width
    ensures (First(inSize, outSize, xx) + Reached(inSize, outSize, xx, n)) * width <= |mid|
    ensures DenseColumn(mid, width, x, inSize, outSize, xx, n) ==
              ColumnSum(mid, First(inSize, outSize, xx), width, x,
                        AllTaps(inSize, outSize, xx)[..Reached(inSize, outSize, xx, n)])
    decreases n
  {
    hide First, Taps, Tap, Share, Reached, ColumnSum, DenseColumn, Cell;
    var first, k, r' := First(inSize, outSize, xx), AllTaps(inSize, outSize, xx), Reached(inSize, outSize, xx, n);
    TapsInside(inSize, outSize, xx);
    RowsFit(first + r', inSize, width);
    RowsFit(n, inSize, width);
    if n > 0 {
      ColumnOfTaps(mid, width, x, inSize, outSize, xx, n - 1);
      DenseColumnStep(mid, width, x, inSize, outSize, xx, n - 1);
      OneMoreInput(inSize, outSize, xx, n - 1);
      ShareIsTap(inSize, outSize, xx, n - 1);
      var r := Reached(inSize, outSize, xx, n - 1);
      if r' != r {
        ColumnStep(mid, first, width, x, k, r);
      }
    } else {
      NoneReached(inSize, outSize, xx);
      RowsFit(first, inSize, width);
      NoColumn(mid, first, width, x);
      NoDenseColumn(mid, width, x, inSize, outSize, xx);
      assert k[..0] == [];
    }
  }

  /** So is a pixel of the vertical pass of the shares of the whole column. */
  lemma DownIsDense(mid: seq<int>, sh: nat, dw: nat, dh: nat, y: nat, x: nat)
    requires sh > 0 && |mid| == sh * dw && y < dh && x < dw
    ensures Down(mid, sh, dw, dh, y, x) == Clip8(HALF + DenseColumn(mid, dw, x, sh, dh, y, sh))
  {
    hide First, Taps, Tap, AllTaps, ColumnSum, DenseColumn, Reached, Clip8, Down;
    var k := AllTaps(sh, dh, y);
    DownIs(mid, sh, dw, dh, y, x, k);
    ColumnOfTaps(mid, dw, x, sh, dh, y, sh);
    NoneReached(sh, dh, y);
    assert k[..|k|] == k;
  }

  // ----- The same size -----

  lemma SameSizeKernel(n: nat, xx: nat, i: nat)
    requires xx < n && i < n
    ensures Kernel(n, n, xx, i) == if i == xx then 1.0 else 0.0
  {
    hide Bicubic;
    var d := i as real - xx as real;
    SamePlace(n, d);
    assert Away(n, n, xx, i) == d;
    WholeSteps(i - xx);
  }

  lemma SamePlace(n: nat, d: real)
    requires n > 0
    ensures Scale(n, n) == 1.0 && Place(n, n, d) == d
  {
    SelfRatio(n as real);
    assert Max(Scale(n, n), 1.0) == 1.0;
    assert d * (1.0 / 1.0) == d;
  }

  lemma WholeSteps(z: int)
    ensures Bicubic(z as real) == if z == 0 then 1.0 else 0.0
  {
    if z == 1 || z == -1 {
      assert Abs(z as real) == 1.0;
      assert Bicubic(1.0) == 0.0;
    } else if z != 0 {
      assert Abs(z as real) >= 2.0;
    }
  }

  lemma {:induction false} SameSizeTotal(n: nat, xx: nat, m: nat)
    requires xx < n && m <= n
    ensures Total(n, n, xx, m) == if m > xx then 1.0 else 0.0
    decreases m
  {
    hide Kernel;
    if m > 0 {
      SameSizeTotal(n, xx, m - 1);
      SameSizeKernel(n, xx, m - 1);
    }
  }

  lemma SameSizeShare(n: nat, xx: nat, i: nat)
    requires xx < n && i < n
    ensures Share(n, n, xx, i) == if i == xx then ONE else 0
  {
    hide Kernel, Total;
    SameSizeKernel(n, xx, i);
    SameSizeTotal(n, xx, n);
    NoShare(1.0);
    assert Normal(1.0, 1.0) == 1.0;
  }

  lemma {:induction false} SameSizeRow(src: seq<int>, start: nat, n: nat, xx: nat, m: nat)
    requires xx < n && m <= n && start + n <= |src|
    ensures DenseRow(src, start, n, n, xx, m) == if m > xx then src[start + xx] * ONE else 0
    decreases m
  {
    hide Share;
    if m > 0 {
      SameSizeRow(src, start, n, xx, m - 1);
      SameSizeShare(n, xx, m - 1);
    }
  }

  lemma {:induction false} SameSizeColumn(mid: seq<int>, width: nat, x: nat, n: nat, xx: nat, m: nat)
    requires xx < n && m <= n && x < width && |mid| == n * width
    ensures |mid| >= m * width && Cell(xx, width, x) < |mid|
    ensures DenseColumn(mid, width, x, n, n, xx, m) == if m > xx then mid[Cell(xx, width, x)] * ONE else 0
    decreases m
  {
    hide Share, DenseColumn, Cell;
    RowsFit(m, n, width);
    CellInside(xx, n, width, x);
    if m > 0 {
      SameSizeColumn(mid, width, x, n, xx, m - 1);
      DenseColumnStep(mid, width, x, n, n, xx, m - 1);
      SameSizeShare(n, xx, m - 1);
    } else {
      NoDenseColumn(mid, width, x, n, n, xx);
    }
  }

  lemma WholePixel(v: int)
    requires 0 <= v <= 255
    ensures Clip8(HALF + v * ONE) == v
  {
  }

  predicate Bytes(src: seq<int>) {
    forall i :: 0 <= i < |src| ==> 0 <= src[i] <= 255
  }

  lemma SameSizeAcross(src: seq<int>, mid: seq<int>, w: nat, h: nat, y: nat, x: nat)
    requires w > 0 && |src| == h * w && Bytes(src) && IsMiddle(mid, src, w, h, w) && y < h && x < w
    ensures Cell(y, w, x) < |mid| && Cell(y, w, x) < |src| && mid[Cell(y, w, x)] == src[Cell(y, w, x)]
  {
    hide Across, DenseRow, Clip8;
    CellInside(y, h, w, x);
    AcrossIsDense(src, w, h, w, y, x);
    SameSizeRow(src, Cell(y, w, 0), w, x, w);
    RowAt(y, w, x, 1);
    WholePixel(src[Cell(y, w, x)]);
  }

  lemma SameSizeDown(mid: seq<int>, out: seq<int>, w: nat, h: nat, y: nat, x: nat)
    requires h > 0 && |mid| == h * w && Bytes(mid) && IsResized(out, mid, h, w, h) && y < h && x < w
    ensures Cell(y, w, x) < |out| && Cell(y, w, x) < |mid| && out[Cell(y, w, x)] == mid[Cell(y, w, x)]
  {
    hide Down, DenseColumn, Clip8;
    CellInside(y, h, w, x);
    DownIsDense(mid, h, w, h, y, x);
    SameSizeColumn(mid, w, x, h, y, h);
    WholePixel(mid[Cell(y, w, x)]);
  }

  /** Resized to its own size, a picture stays as it is. */
  lemma SameSizeStaysSame(src: seq<int>, mid: seq<int>, out: seq<int>, w: nat, h: nat)
    requires w > 0 && h > 0 && |src| == h * w && Bytes(src)
    requires IsMiddle(mid, src, w, h, w) && IsResized(out, mid, h, w, h)
    ensures out == src
  {
    hide Cell, IsMiddle, IsResized;
    MiddleSize(mid, src, w, h, w);
    forall i | 0 <= i < |mid| ensures mid[i] == src[i] {
      var y, x := CellOf(i, h, w);
      SameSizeAcross(src, mid, w, h, y, x);
    }
    assert mid == src;
    ResizedSize(out, mid, h, w, h);
    forall i | 0 <= i < |out| ensures out[i] == mid[i] {
      var y, x := CellOf(i, h, w);
      SameSizeDown(mid, out, w, h, y, x);
    }
  }

  // ----- A mirrored picture -----

  lemma MirroredKernel(inSize: nat, outSize: nat, xx: nat, i: nat)
    requires xx < outSize && i < inSize
    ensures Kernel(inSize, outSize, outSize - 1 - xx, inSize - 1 - i) == Kernel(inSize, outSize, xx, i)
  {
    hide Bicubic, Place;
    var d := Away(inSize, outSize, xx, i);
    MirroredCenter(inSize, outSize, xx);
    assert Away(inSize, outSize, outSize - 1 - xx, inSize - 1 - i) == -d;
    EvenKernel(inSize, outSize, d);
  }

  lemma MirroredCenter(inSize: nat, outSize: nat, xx: nat)
    requires xx < outSize
    ensures Center(inSize, outSize, outSize - 1 - xx) == inSize as real - Center(inSize, outSize, xx)
  {
    var s, n, a := Scale(inSize, outSize), outSize as real, xx as real + 0.5;
    ScalePositive(inSize, outSize);
    assert (outSize - 1 - xx) as real + 0.5 == n - a;
    Distributed(n, a, s);
  }

  lemma Distributed(n: real, a: real, s: real)
    ensures (n - a) * s == n * s - a * s
  {
  }

  lemma EvenKernel(inSize: nat, outSize: nat, d: real)
    requires outSize > 0
    ensures Bicubic(Place(inSize, outSize, -d)) == Bicubic(Place(inSize, outSize, d))
  {
    hide Scale;
    Opposite(d, 1.0 / Max(Scale(inSize, outSize), 1.0));
    EvenBicubic(Place(inSize, outSize, d));
  }

  lemma EvenBicubic(z: real)
    ensures Bicubic(-z) == Bicubic(z)
  {
  }

  lemma {:induction false} MirroredTotal(inSize: nat, outSize: nat, xx: nat, n: nat)
    requires xx < outSize && n <= inSize
    ensures Total(inSize, outSize, outSize - 1 - xx, n) ==
              Total(inSize, outSize, xx, inSize) - Total(inSize, outSize, xx, inSize - n)
    decreases n
  {
    hide Kernel;
    if n > 0 {
      MirroredTotal(inSize, outSize, xx, n - 1);
      MirroredKernel(inSize, outSize, xx, inSize - n);
    }
  }

  lemma MirroredShare(inSize: nat, outSize: nat, xx: nat, i: nat)
    requires xx < outSize && i < inSize
    ensures Share(inSize, outSize, outSize - 1 - xx, inSize - 1 - i) == Share(inSize, outSize, xx, i)
  {
    hide Kernel, Fixed, Normal;
    MirroredKernel(inSize, outSize, xx, i);
    MirroredTotal(inSize, outSize, xx, inSize);
  }

  /** Row by row, from start on, the pixels of src' are those of src from right to left. */
  predicate Mirrored(src: seq<int>, src': seq<int>, start: nat, n: nat)
    requires start + n <= |src| && |src| == |src'|
  {
    forall i: nat :: i < n ==> Pixel(src', start, i) == Pixel(src, start, n - 1 - i)
  }

  function Pixel(src: seq<int>, start: nat, i: nat): int
    requires start + i < |src|
  {
    src[start + i]
  }

  lemma {:induction false} MirroredSum(src: seq<int>, src': seq<int>, start: nat, inSize: nat, outSize: nat,
                                       xx: nat, n: nat)
    requires xx < outSize && n <= inSize && start + inSize <= |src| && |src| == |src'|
    requires Mirrored(src, src', start, inSize)
    ensures DenseRow(src', start, inSize, outSize, outSize - 1 - xx, n) ==
              DenseRow(src, start, inSize, outSize, xx, inSize)
              - DenseRow(src, start, inSize, outSize, xx, inSize - n)
    decreases n
  {
    hide Share;
    if n > 0 {
      MirroredSum(src, src', start, inSize, outSize, xx, n - 1);
      MirroredShare(inSize, outSize, xx, inSize - n);
      assert Pixel(src', start, n - 1) == Pixel(src, start, inSize - n);
    }
  }

  /** A mirrored row resizes to the mirror image of what the row resizes to, for every size. */
  lemma MirrorCommutes(src: seq<int>, src': seq<int>, sw: nat, sh: nat, dw: nat, y: nat, x: nat)
    requires sw > 0 && |src| == |src'| == sh * sw && y < sh && x < dw
    requires Cell(y, sw, 0) + sw <= |src| && Mirrored(src, src', Cell(y, sw, 0), sw)
    ensures Across(src', sw, sh, dw, y, dw - 1 - x) == Across(src, sw, sh, dw, y, x)
  {
    hide Across, Cell, Clip8, Mirrored;
    AcrossIsDense(src, sw, sh, dw, y, x);
    AcrossIsDense(src', sw, sh, dw, y, dw - 1 - x);
    MirroredSum(src, src', Cell(y, sw, 0), sw, dw, x, sw);
  }

  // ----- The resize as it runs -----

  /** Row xx of the tap table holds the taps of output xx. */
  ghost predicate HasTaps(kk: seq<int>, ksize: nat, inSize: nat, outSize: nat, xx: nat)
    requires inSize > 0 && xx < outSize && ksize == KernelSize(inSize, outSize)
  {
    var at := Cell(xx, ksize, 0);
    at + Taps(inSize, outSize, xx) <= |kk| && kk[at..at + Taps(inSize, outSize, xx)] == AllTaps(inSize, outSize, xx)
  }

  lemma RowInside(row: nat, rows: nat, width: nat)
    requires row < rows
    ensures Cell(row, width, 0) + width <= rows * width
  {
    assert (row + 1) * width <= rows * width;
  }

  lemma RowBefore(row: nat, row': nat, width: nat)
    requires row < row'
    ensures Cell(row, width, 0) + width <= Cell(row', width, 0)
  {
    assert (row + 1) * width <= row' * width;
  }

  lemma TapsAre(inSize: nat, outSize: nat, xx: nat)
    requires inSize > 0 && xx < outSize
    ensures Taps(inSize, outSize, xx) == Last(inSize, outSize, xx) - First(inSize, outSize, xx)
  {
  }

  lemma RowStored(kk: seq<int>, ksize: nat, inSize: nat, outSize: nat, xx: nat,
                  w: seq<real>, sum: real)
    requires inSize > 0 && xx < outSize && ksize == KernelSize(inSize, outSize)
    requires |w| == Taps(inSize, outSize, xx) && Cell(xx, ksize, 0) + |w| <= |kk|
    requires sum == WeightSum(inSize, outSize, xx, |w|)
    requires forall i :: 0 <= i < |w| ==> w[i] == Weight(inSize, outSize, xx, i)
    requires forall i :: 0 <= i < |w| ==> kk[Cell(xx, ksize, 0) + i] == Fixed(Normal(w[i], sum))
    ensures HasTaps(kk, ksize, inSize, outSize, xx)
  {
    hide Weight, WeightSum, First, Last, Taps, Fixed, Normal, KernelSize, Cell;
    var at := Cell(xx, ksize, 0);
    var k := AllTaps(inSize, outSize, xx);
    forall i | 0 <= i < |w| ensures kk[at..at + |w|][i] == k[i] {
      assert kk[at + i] == Tap(inSize, outSize, xx, i);
    }
  }

  lemma RowKept(before: seq<int>, kk: seq<int>, ksize: nat, inSize: nat, outSize: nat, j: nat, xx: nat)
    requires inSize > 0 && j < xx < outSize && ksize == KernelSize(inSize, outSize)
    requires |kk| == |before| && Cell(xx, ksize, 0) <= |kk|
    requires forall i :: 0 <= i < Cell(xx, ksize, 0) ==> kk[i] == before[i]
    requires HasTaps(before, ksize, inSize, outSize, j)
    ensures HasTaps(kk, ksize, inSize, outSize, j)
  {
    hide First, Last, Taps, Fixed, Normal, KernelSize, Cell;
    RowBefore(j, xx, ksize);
    var at, n := Cell(j, ksize, 0), Taps(inSize, outSize, j);
    assert kk[at..at + n] == before[at..at + n];
  }

  method StoreTaps(kk: array<int>, at: nat, w: seq<real>, sum: real)
    requires at + |w| <= kk.Length
    modifies kk
    ensures forall i :: 0 <= i < |w| ==> kk[at + i] == Fixed(Normal(w[i], sum))
    ensures forall i :: 0 <= i < kk.Length && !(at <= i < at + |w|) ==> kk[i] == old(kk[i])
  {
    hide Fixed;
    var x := 0;
    while x < |w|
      invariant x <= |w|
      invariant forall i :: 0 <= i < x ==> kk[at + i] == Fixed(Normal(w[i], sum))
      invariant forall i :: 0 <= i < kk.Length && !(at <= i < at + x) ==> kk[i] == old(kk[i])
    {
      var v := w[x];
      if sum != 0.0 {
        v := v / sum;
      }
      kk[at + x] := Fixed(v);
      x := x + 1;
    }
  }

  method Weights(inSize: nat, outSize: nat, xx: nat, n: nat) returns (w: seq<real>, sum: real)
    requires outSize > 0
    ensures |w| == n && forall j: nat :: j < n ==> w[j] == Weight(inSize, outSize, xx, j)
    ensures sum == WeightSum(inSize, outSize, xx, n)
  {
    hide Weight;
    w, sum := [], 0.0;
    var x := 0;
    while x < n
      invariant x <= n && |w| == x
      invariant sum == WeightSum(inSize, outSize, xx, x)
      invariant forall j: nat :: j < x ==> w[j] == Weight(inSize, outSize, xx, j)
    {
      w := w + [Weight(inSize, outSize, xx, x)];
      sum := sum + w[x];
      x := x + 1;
    }
  }

  /** resampleCoeffs: where each output begins to read, how many inputs, and its taps. */
  method ResampleCoeffs(inSize: nat, outSize: nat) returns (bounds: array<int>, kk: array<int>, ksize: nat)
    requires inSize > 0 && outSize > 0
    ensures fresh(bounds) && fresh(kk)
    ensures AreCoeffs(bounds, kk, ksize, inSize, outSize)
    ensures forall xx: nat, i: nat :: xx < outSize && i < inSize && Meet(inSize, outSize, xx, i) ==>
              bounds[2 * xx] <= i < bounds[2 * xx] + bounds[2 * xx + 1]
  {
    hide Weight, WeightSum, First, Last, Taps, Fixed, Normal, Support, Center, KernelSize, Cell, HasTaps, Meet;
    ksize := KernelSize(inSize, outSize);
    bounds := new int[2 * outSize];
    kk := new int[outSize * ksize];
    var xx := 0;
    while xx < outSize
      invariant xx <= outSize
      invariant forall j: nat :: j < xx ==>
                  bounds[2 * j] == First(inSize, outSize, j) && bounds[2 * j + 1] == Taps(inSize, outSize, j)
      invariant forall j: nat :: j < xx ==> HasTaps(kk[..], ksize, inSize, outSize, j)
    {
      var xmin := First(inSize, outSize, xx);
      TapsAre(inSize, outSize, xx);
      var n := Last(inSize, outSize, xx) - xmin;
      var w, sum := Weights(inSize, outSize, xx, n);
      StoreRow(kk, ksize, inSize, outSize, xx, w, sum);
      bounds[2 * xx], bounds[2 * xx + 1] := xmin, n;
      xx := xx + 1;
    }
    forall xx: nat, i: nat | xx < outSize && i < inSize && Meet(inSize, outSize, xx, i)
      ensures bounds[2 * xx] <= i < bounds[2 * xx] + bounds[2 * xx + 1]
    {
      ReadsWhatItMeets(inSize, outSize, xx, i);
      TapsAre(inSize, outSize, xx);
    }
  }

  method StoreRow(kk: array<int>, ksize: nat, inSize: nat, outSize: nat, xx: nat, w: seq<real>, sum: real)
    requires inSize > 0 && xx < outSize && ksize == KernelSize(inSize, outSize) && kk.Length == outSize * ksize
    requires |w| == Taps(inSize, outSize, xx) && sum == WeightSum(inSize, outSize, xx, |w|)
    requires forall i: nat :: i < |w| ==> w[i] == Weight(inSize, outSize, xx, i)
    modifies kk
    ensures HasTaps(kk[..], ksize, inSize, outSize, xx)
    ensures forall j: nat :: j < xx && HasTaps(old(kk[..]), ksize, inSize, outSize, j) ==>
              HasTaps(kk[..], ksize, inSize, outSize, j)
  {
    hide Weight, WeightSum, First, Last, Fixed, Normal, Support, Center, KernelSize, Cell, HasTaps;
    RowInside(xx, outSize, ksize);
    ghost var before := kk[..];
    var at := Cell(xx, ksize, 0);
    StoreTaps(kk, at, w, sum);
    forall i | 0 <= i < |w| ensures kk[..][at + i] == Fixed(Normal(w[i], sum)) {
      assert kk[at + i] == Fixed(Normal(w[i], sum));
    }
    RowStored(kk[..], ksize, inSize, outSize, xx, w, sum);
    forall j: nat | j < xx && HasTaps(before, ksize, inSize, outSize, j)
      ensures HasTaps(kk[..], ksize, inSize, outSize, j)
    {
      RowKept(before, kk[..], ksize, inSize, outSize, j, xx);
    }
  }

  // The pixels of one pass, and its loop over the taps of one pixel.

  method AcrossPixel(src: array<int>, sw: nat, sh: nat, dw: nat, y: nat, x: nat, xmin: nat, k: seq<int>)
    returns (v: int)
    requires sw > 0 && src.Length == sh * sw && y < sh && x < dw
    requires xmin == First(sw, dw, x) && k == AllTaps(sw, dw, x)
    ensures v == Across(src[..], sw, sh, dw, y, x)
  {
    hide First, Last, Tap, Cell;
    CellInside(y, sh, sw, xmin + |k| - 1);
    RowAt(y, sw, xmin, |k|);
    var row := Cell(y, sw, 0);
    var acc := HALF;
    var i := 0;
    while i < |k|
      invariant i <= |k|
      invariant acc == HALF + RowSum(src[..], row + xmin, k[..i])
    {
      assert k[..i + 1][..i] == k[..i];
      acc := acc + src[row + xmin + i] * k[i];
      i := i + 1;
    }
    assert k[..i] == k;
    v := Clip8(acc);
  }

  lemma RowAt(y: nat, width: nat, first: nat, n: nat)
    ensures Cell(y, width, 0) + first == Cell(y, width, first)
    ensures n > 0 ==> Cell(y, width, 0) + first + n - 1 == Cell(y, width, first + n - 1)
  {
  }

  lemma ColumnStep(mid: seq<int>, first: nat, width: nat, x: nat, k: seq<int>, i: nat)
    requires i < |k| && x < width && (first + i + 1) * width <= |mid|
    ensures (first + i) * width <= |mid| && Cell(first + i, width, x) < |mid|
    ensures ColumnSum(mid, first, width, x, k[..i + 1]) ==
              ColumnSum(mid, first, width, x, k[..i]) + mid[Cell(first + i, width, x)] * k[i]
  {
    hide Cell;
    RowsFit(first + i, first + i + 1, width);
    CellInside(first + i, first + i + 1, width, x);
    assert k[..i + 1][..i] == k[..i];
  }

  lemma NoColumn(mid: seq<int>, first: nat, width: nat, x: nat)
    requires x < width && first * width <= |mid|
    ensures ColumnSum(mid, first, width, x, []) == 0
  {
  }

  lemma DownIs(mid: seq<int>, sh: nat, dw: nat, dh: nat, y: nat, x: nat, k: seq<int>)
    requires sh > 0 && |mid| == sh * dw && y < dh && x < dw && k == AllTaps(sh, dh, y)
    ensures (First(sh, dh, y) + |k|) * dw <= |mid|
    ensures Down(mid, sh, dw, dh, y, x) == Clip8(HALF + ColumnSum(mid, First(sh, dh, y), dw, x, k))
  {
    hide First, Last, Tap, Cell, ColumnSum, Clip8;
    RowsFit(First(sh, dh, y) + |k|, sh, dw);
  }

  method DownPixel(mid: array<int>, sh: nat, dw: nat, dh: nat, y: nat, x: nat, ymin: nat, k: seq<int>)
    returns (v: int)
    requires sh > 0 && mid.Length == sh * dw && y < dh && x < dw
    requires ymin == First(sh, dh, y) && k == AllTaps(sh, dh, y)
    ensures v == Down(mid[..], sh, dw, dh, y, x)
  {
    hide First, Tap, AllTaps, Taps, Cell, ColumnSum, Clip8, Down;
    DownIs(mid[..], sh, dw, dh, y, x, k);
    RowsFit(ymin, ymin + |k|, dw);
    NoColumn(mid[..], ymin, dw, x);
    assert k[..0] == [];
    var acc := HALF;
    var i := 0;
    while i < |k|
      invariant i <= |k|
      invariant (ymin + i) * dw <= mid.Length
      invariant acc == HALF + ColumnSum(mid[..], ymin, dw, x, k[..i])
    {
      RowsFit(ymin + i + 1, ymin + |k|, dw);
      ColumnStep(mid[..], ymin, dw, x, k, i);
      acc := acc + mid[Cell(ymin + i, dw, x)] * k[i];
      i := i + 1;
    }
    assert k[..i] == k;
    v := Clip8(acc);
  }

  /** resizeGrey: a horizontal pass over every row, then a vertical one over every column. No
      read or write is ever out of range. */
  method ResizeGrey(src: array<int>, sw: nat, sh: nat, dw: nat, dh: nat)
    returns (out: array<int>, ghost middle: seq<int>)
    requires sw > 0 && sh > 0 && dw > 0 && dh > 0 && src.Length == sh * sw
    ensures fresh(out)
    ensures IsMiddle(middle, src[..], sw, sh, dw) && IsResized(out[..], middle, sh, dw, dh)
    ensures dw == sw && dh == sh && Bytes(src[..]) ==> out[..] == src[..]
  {
    hide Across, Down, Cell, AllTaps, Taps, First, KernelSize, FilledTo, IsMiddle, IsResized, Bytes, Meet;
    var hb, hk, hsize := ResampleCoeffs(sw, dw);
    var vb, vk, vsize := ResampleCoeffs(sh, dh);

    var mid := new int[sh * dw];
    FirstPass(src, mid, sw, sh, dw, hb, hk, hsize);
    middle := mid[..];
    out := new int[dh * dw];
    SecondPass(mid, out, sh, dw, dh, vb, vk, vsize);
    if dw == sw && dh == sh && Bytes(src[..]) {
      SameSizeStaysSame(src[..], middle, out[..], sw, sh);
    }
  }

  lemma CellFilled(before: seq<int>, table: seq<int>, rows: nat, width: nat, f: (nat, nat) -> int, row: nat, col: nat)
    requires row < rows && col < width && FilledTo(before, rows, width, f, row, col)
    requires Cell(row, width, col) < |before| && table == before[Cell(row, width, col) := f(row, col)]
    ensures FilledTo(table, rows, width, f, row, col + 1)
  {
    hide Cell;
    forall r: nat, c: nat | r < rows && c < width && (r < row || (r == row && c < col))
      ensures Cell(r, width, c) != Cell(row, width, col)
    {
      if r < row {
        CellsDiffer(r, row, width, c, col);
      } else {
        SameRow(row, width, c, col);
      }
    }
  }

  lemma SameRow(row: nat, width: nat, c: nat, col: nat)
    requires c != col
    ensures Cell(row, width, c) != Cell(row, width, col)
  {
  }

  lemma RowFilled(table: seq<int>, rows: nat, width: nat, f: (nat, nat) -> int, row: nat)
    requires row < rows && FilledTo(table, rows, width, f, row, width)
    ensures FilledTo(table, rows, width, f, row + 1, 0)
  {
    hide Cell;
  }

  /** The tables ResampleCoeffs makes. */
  ghost predicate AreCoeffs(bounds: array<int>, kk: array<int>, ksize: nat, inSize: nat, outSize: nat)
    requires inSize > 0 && outSize > 0
    reads bounds, kk
  {
    && ksize == KernelSize(inSize, outSize)
    && bounds.Length == 2 * outSize && kk.Length == outSize * ksize
    && (forall xx: nat :: xx < outSize ==>
          bounds[2 * xx] == First(inSize, outSize, xx) && bounds[2 * xx + 1] == Taps(inSize, outSize, xx))
    && (forall xx: nat :: xx < outSize ==> HasTaps(kk[..], ksize, inSize, outSize, xx))
  }

  lemma TapsAt(kk: array<int>, ksize: nat, inSize: nat, outSize: nat, xx: nat)
    requires inSize > 0 && xx < outSize && ksize == KernelSize(inSize, outSize)
    requires HasTaps(kk[..], ksize, inSize, outSize, xx)
    ensures var at := Cell(xx, ksize, 0);
            var n := Taps(inSize, outSize, xx);
            at + n <= kk.Length && kk[at..at + n] == AllTaps(inSize, outSize, xx)
  {
    hide Cell, Taps, AllTaps, KernelSize;
    var at, n := Cell(xx, ksize, 0), Taps(inSize, outSize, xx);
    assert kk[..][at..at + n] == kk[at..at + n];
  }

  method FirstPass(src: array<int>, mid: array<int>, sw: nat, sh: nat, dw: nat,
                   bounds: array<int>, kk: array<int>, ksize: nat)
    requires sw > 0 && dw > 0 && src.Length == sh * sw && mid.Length == sh * dw
    requires mid != src && mid != bounds && mid != kk
    requires AreCoeffs(bounds, kk, ksize, sw, dw)
    modifies mid
    ensures IsMiddle(mid[..], src[..], sw, sh, dw)
  {
    hide Across, Cell, AllTaps, Taps, First, KernelSize, FilledTo, HasTaps;
    ghost var f := AcrossAll(src[..], sw, sh, dw);
    NothingFilled(mid[..], sh, dw, f);
    var y := 0;
    while y < sh
      invariant y <= sh
      invariant FilledTo(mid[..], sh, dw, f, y, 0)
    {
      var x := 0;
      while x < dw
        invariant x <= dw
        invariant FilledTo(mid[..], sh, dw, f, y, x)
      {
        var xmin, n := bounds[2 * x], bounds[2 * x + 1];
        var at := Cell(x, ksize, 0);
        TapsAt(kk, ksize, sw, dw, x);
        var v := AcrossPixel(src, sw, sh, dw, y, x, xmin, kk[at..at + n]);
        CellInside(y, sh, dw, x);
        ghost var before := mid[..];
        mid[Cell(y, dw, x)] := v;
        CellFilled(before, mid[..], sh, dw, f, y, x);
        x := x + 1;
      }
      RowFilled(mid[..], sh, dw, f, y);
      y := y + 1;
    }
  }

  method SecondPass(mid: array<int>, out: array<int>, sh: nat, dw: nat, dh: nat,
                    bounds: array<int>, kk: array<int>, ksize: nat)
    requires sh > 0 && dh > 0 && mid.Length == sh * dw && out.Length == dh * dw
    requires out != mid && out != bounds && out != kk
    requires AreCoeffs(bounds, kk, ksize, sh, dh)
    modifies out
    ensures IsResized(out[..], mid[..], sh, dw, dh)
  {
    hide Down, Cell, AllTaps, Taps, First, KernelSize, FilledTo, HasTaps;
    ghost var f := DownAll(mid[..], sh, dw, dh);
    NothingFilled(out[..], dh, dw, f);
    var y := 0;
    while y < dh
      invariant y <= dh
      invariant FilledTo(out[..], dh, dw, f, y, 0)
    {
      var ymin, n := bounds[2 * y], bounds[2 * y + 1];
      var at := Cell(y, ksize, 0);
      TapsAt(kk, ksize, sh, dh, y);
      var k := kk[at..at + n];
      var x := 0;
      while x < dw
        invariant x <= dw
        invariant FilledTo(out[..], dh, dw, f, y, x)
      {
        var v := DownPixel(mid, sh, dw, dh, y, x, ymin, k);
        CellInside(y, dh, dw, x);
        ghost var before := out[..];
        out[Cell(y, dw, x)] := v;
        CellFilled(before, out[..], dh, dw, f, y, x);
        x := x + 1;
      }
      RowFilled(out[..], dh, dw, f, y);
      y := y + 1;
    }
  }

  lemma NothingFilled(table: seq<int>, rows: nat, width: nat, f: (nat, nat) -> int)
    requires |table| == rows * width
    ensures FilledTo(table, rows, width, f, 0, 0)
  {
  }
}
