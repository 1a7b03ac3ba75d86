/** The fitted line against every other line, and what counts as an outlier. */
module NtpFit {
  import opened Machine
  import opened NtpRegression
  import opened NtpLine

  // ---- Least squares ----

  function U(meanX: real): Sample -> real {
    s => X(s) - meanX
  }

  function VV(meanY: real): Sample -> real {
    s => Square(Y(s) - meanY)
  }

  /** The line of that slope through a point, as a fit. */
  function Through(slope: real, x: real, y: real): Fit {
    Fit(slope, x, y, 0.0)
  }

  function V(meanY: real): Sample -> real {
    s => Y(s) - meanY
  }

  /** g and k times h. */
  function Plus(g: Sample -> real, k: real, h: Sample -> real): Sample -> real {
    s => g(s) + k * h(s)
  }

  lemma {:induction false} SumPlus(s: seq<Sample>, g: Sample -> real, k: real, h: Sample -> real)
    ensures Sum(s, Plus(g, k, h)) == Sum(s, g) + k * Sum(s, h)
    decreases s
  {
    if s == [] {
    } else {
      SumPlus(s[..|s| - 1], g, k, h);
      Distributes(k, Sum(s[..|s| - 1], h), h(s[|s| - 1]));
    }
  }

  lemma Distributes(k: real, a: real, b: real)
    ensures k * (a + b) == k * a + k * b
  {
  }

  /** The products that the squared residual of a line of slope c, missing the means by e, multiplies out to. */
  datatype Products = Products(cross: real, square: real, offset: real, tilt: real, constant: real)

  ghost predicate ProductsOf(k: Products, c: real, e: real) {
    k.cross == -2.0 * c && k.square == c * c && k.offset == 2.0 * e && k.tilt == -2.0 * c * e && k.constant == e * e
  }

  lemma Expands(u: real, v: real, c: real, e: real, k: Products)
    requires ProductsOf(k, c, e)
    ensures Square(v - c * u + e) ==
      Square(v) + k.cross * (u * v) + k.square * Square(u) + k.offset * v + k.tilt * u + k.constant * 1.0
  {
  }

  const ONE := (s: Sample) => 1.0

  function SlopePart(meanX: real, meanY: real, k: Products): Sample -> real {
    Plus(Plus(VV(meanY), k.cross, XY(meanX, meanY)), k.square, XX(meanX))
  }

  function WithOffset(f: Sample -> real, meanX: real, meanY: real, k: Products): Sample -> real {
    Plus(Plus(Plus(f, k.offset, V(meanY)), k.tilt, U(meanX)), k.constant, ONE)
  }

  lemma ResidualThrough(p: Sample, c: real, x: real, y: real)
    ensures RR(Through(c, x, y))(p) == Square(Y(p) - (c * (X(p) - x) + y))
  {
  }

  lemma PartsAt(p: Sample, meanX: real, meanY: real, k: Products, u: real, v: real)
    requires u == X(p) - meanX && v == Y(p) - meanY
    ensures WithOffset(SlopePart(meanX, meanY, k), meanX, meanY, k)(p) ==
      Square(v) + k.cross * (u * v) + k.square * Square(u) + k.offset * v + k.tilt * u + k.constant * 1.0
  {
  }

  lemma OneExpands(p: Sample, meanX: real, meanY: real, c: real, e: real, k: Products)
    requires ProductsOf(k, c, e)
    ensures RR(Through(c, meanX, meanY - e))(p) == WithOffset(SlopePart(meanX, meanY, k), meanX, meanY, k)(p)
  {
    var u, v := X(p) - meanX, Y(p) - meanY;
    ResidualThrough(p, c, meanX, meanY - e);
    PartsAt(p, meanX, meanY, k, u, v);
    Expands(u, v, c, e, k);
    assert Y(p) - (c * u + (meanY - e)) == v - c * u + e;
  }

  lemma {:induction false} SameSum(s: seq<Sample>, f: Sample -> real, g: Sample -> real)
    requires forall i :: 0 <= i < |s| ==> f(s[i]) == g(s[i])
    ensures Sum(s, f) == Sum(s, g)
    decreases s
  {
    if s == [] {
    } else {
      SameSum(s[..|s| - 1], f, g);
    }
  }

  lemma {:induction false} SumOfOnes(s: seq<Sample>)
    ensures Sum(s, ONE) == |s| as real
    decreases s
  {
    if s == [] {
    } else {
      SumOfOnes(s[..|s| - 1]);
    }
  }

  lemma SumSlopePart(s: seq<Sample>, meanX: real, meanY: real, k: Products)
    ensures Sum(s, SlopePart(meanX, meanY, k)) ==
      Sum(s, VV(meanY)) + k.cross * Sum(s, XY(meanX, meanY)) + k.square * Sum(s, XX(meanX))
  {
    SumPlus(s, VV(meanY), k.cross, XY(meanX, meanY));
    SumPlus(s, Plus(VV(meanY), k.cross, XY(meanX, meanY)), k.square, XX(meanX));
  }

  lemma SumWithOffset(s: seq<Sample>, f: Sample -> real, meanX: real, meanY: real, k: Products)
    requires Sum(s, V(meanY)) == 0.0 && Sum(s, U(meanX)) == 0.0
    ensures Sum(s, WithOffset(f, meanX, meanY, k)) == Sum(s, f) + k.constant * |s| as real
  {
    var one := Plus(f, k.offset, V(meanY));
    var two := Plus(one, k.tilt, U(meanX));
    SumPlus(s, f, k.offset, V(meanY));
    SumPlus(s, one, k.tilt, U(meanX));
    SumPlus(s, two, k.constant, ONE);
    SumOfOnes(s);
    TimesZero(k.offset);
    TimesZero(k.tilt);
  }

  lemma TimesZero(k: real)
    ensures k * 0.0 == 0.0
  {
  }

  /** Nothing is left of the distances from the mean, added up. */
  lemma MeanBalances(s: seq<Sample>, f: Sample -> real, g: Sample -> real)
    requires s != [] && forall i :: 0 <= i < |s| ==> g(s[i]) == 1.0 * f(s[i]) - Mean(s, f)
    ensures Sum(s, g) == 0.0
  {
    SumIsLine(s, g, f, 1.0, -Mean(s, f));
    TimesQuotient(Sum(s, f), |s| as real);
  }

  /** x and m are means of the window. */
  ghost predicate Balanced(s: seq<Sample>, x: real, m: real) {
    Sum(s, U(x)) == 0.0 && Sum(s, V(m)) == 0.0
  }

  lemma MeansBalance(s: seq<Sample>)
    requires s != []
    ensures Balanced(s, Mean(s, X), Mean(s, Y))
  {
    MeanBalances(s, X, U(Mean(s, X)));
    MeanBalances(s, Y, V(Mean(s, Y)));
  }

  lemma TimesQuotient(a: real, n: real)
    requires n != 0.0
    ensures a / n * n == a
  {
  }

  /** What any line through the mean of X loses against the fitted slope. */
  lemma CompletesSquare(
    vv: real, uv: real, uu: real, n: real, c: real, e: real, k: Products, b: real, j: Products)
    requires uv == b * uu && uu >= 0.0 && n >= 0.0 && ProductsOf(k, c, e) && ProductsOf(j, b, 0.0)
    ensures vv + j.cross * uv + j.square * uu + j.constant * n <= vv + k.cross * uv + k.square * uu + k.constant * n
  {
    SquareNotNegative(c - b);
    SquareNotNegative(e);
    NotNegative(Square(c - b), uu);
    NotNegative(Square(e), n);
    SquareDifference(uu, c, b);
  }

  lemma SquareDifference(uu: real, c: real, b: real)
    ensures -2.0 * c * (b * uu) + (c * c) * uu == -2.0 * b * (b * uu) + (b * b) * uu + Square(c - b) * uu
  {
  }

  lemma NotNegative(a: real, b: real)
    requires a >= 0.0 && b >= 0.0
    ensures a * b >= 0.0
  {
  }

  /** The squared residuals of the fitted line, added up, and its variance. */
  ghost function Loss(s: seq<Sample>, f: Fit): real {
    Sum(s, RR(f))
  }

  ghost predicate ExpandsOver(s: seq<Sample>, line: Fit, x: real, m: real, k: Products) {
    forall i :: 0 <= i < |s| ==> RR(line)(s[i]) == WithOffset(SlopePart(x, m, k), x, m, k)(s[i])
  }

  lemma AllExpand(s: seq<Sample>, x: real, m: real, c: real, e: real, k: Products) returns (line: Fit)
    requires ProductsOf(k, c, e)
    ensures line == Through(c, x, m - e) && ExpandsOver(s, line, x, m, k)
  {
    line := Through(c, x, m - e);
    forall i | 0 <= i < |s| ensures RR(line)(s[i]) == WithOffset(SlopePart(x, m, k), x, m, k)(s[i]) {
      OneExpands(s[i], x, m, c, e, k);
    }
  }

  lemma LossExpands(s: seq<Sample>, line: Fit, x: real, m: real, k: Products)
    requires Balanced(s, x, m) && ExpandsOver(s, line, x, m, k)
    ensures Loss(s, line) ==
      Sum(s, VV(m)) + k.cross * Sum(s, XY(x, m)) + k.square * Sum(s, XX(x)) + k.constant * |s| as real
  {
    SameSum(s, RR(line), WithOffset(SlopePart(x, m, k), x, m, k));
    SumIsParts(s, x, m, k);
  }

  lemma SumIsParts(s: seq<Sample>, x: real, m: real, k: Products)
    requires Balanced(s, x, m)
    ensures Sum(s, WithOffset(SlopePart(x, m, k), x, m, k)) ==
      Sum(s, VV(m)) + k.cross * Sum(s, XY(x, m)) + k.square * Sum(s, XX(x)) + k.constant * |s| as real
  {
    SumWithOffset(s, SlopePart(x, m, k), x, m, k);
    SumSlopePart(s, x, m, k);
  }

  /** A line may be given by any of its points. */
  lemma LineThroughMean(s: seq<Sample>, line: Fit, x: real, y: real)
    requires y == line.slope * (x - line.meanX) + line.meanY
    ensures Loss(s, line) == Loss(s, Through(line.slope, x, y))
  {
    forall i | 0 <= i < |s| ensures RR(line)(s[i]) == RR(Through(line.slope, x, y))(s[i]) {
      SameResidual(s[i], line, x, y);
    }
    SameSum(s, RR(line), RR(Through(line.slope, x, y)));
  }

  lemma SameResidual(p: Sample, line: Fit, x: real, y: real)
    requires y == line.slope * (x - line.meanX) + line.meanY
    ensures RR(line)(p) == RR(Through(line.slope, x, y))(p)
  {
    SameLine(line.slope, X(p), x, line.meanX, line.meanY);
  }

  lemma SameLine(c: real, at: real, x: real, meanX: real, meanY: real)
    ensures c * (at - meanX) + meanY == c * (at - x) + (c * (x - meanX) + meanY)
  {
  }

  /**
   * No line has smaller squared residuals over the window than the fitted one; its variance is theirs
   * over the number of reports less two.
   */
  lemma LeastSquares(s: seq<Sample>, f: Fit, line: Fit)
    requires |s| > 2 && FitOf(s) == Some(f)
    ensures Loss(s, f) <= Loss(s, line) && f.variance * (|s| - 2) as real == Loss(s, f)
  {
    FitIs(s, f);
    SumsAreLeast(s, f, line);
  }

  lemma SumsAreLeast(s: seq<Sample>, f: Fit, line: Fit)
    requires |s| > 2 && FromSums(s, f)
    requires f.variance == Loss(s, Through(f.slope, f.meanX, f.meanY)) / (|s| - 2) as real
    ensures Loss(s, f) <= Loss(s, line) && f.variance * (|s| - 2) as real == Loss(s, f)
  {
    FitVariance(s, f);
    BeatsAllThroughMean(s, f);
    FitBeats(s, f, line);
  }

  /** Against the lines through every other point over the mean. */
  ghost predicate LeastThrough(s: seq<Sample>, f: Fit, x: real) {
    forall c, y :: Loss(s, f) <= Loss(s, Through(c, x, y))
  }

  lemma BeatsAllThroughMean(s: seq<Sample>, f: Fit)
    requires s != [] && FromSums(s, f)
    ensures LeastThrough(s, f, Mean(s, X))
  {
    MeansBalance(s);
    FitLoss(s, f);
    SpreadNotNegative(s, f.meanX);
    TimesQuotient(Sum(s, XY(f.meanX, f.meanY)), Sum(s, XX(f.meanX)));
    BalancedIsLeast(s, f.slope, f.meanX, f.meanY);
    SameLossIsLeast(s, f, Through(f.slope, f.meanX, f.meanY), f.meanX);
  }

  lemma SameLossIsLeast(s: seq<Sample>, f: Fit, g: Fit, x: real)
    requires Loss(s, f) == Loss(s, g) && LeastThrough(s, g, x)
    ensures LeastThrough(s, f, x)
  {
  }

  lemma BalancedIsLeast(s: seq<Sample>, b: real, x: real, m: real)
    requires Balanced(s, x, m) && Sum(s, XX(x)) >= 0.0 && Sum(s, XY(x, m)) == b * Sum(s, XX(x))
    ensures LeastThrough(s, Through(b, x, m), x)
  {
    forall c, y ensures Loss(s, Through(b, x, m)) <= Loss(s, Through(c, x, y)) {
      Compared(s, x, m, c, y, b);
    }
  }

  /** How the line comes from the sums. */
  ghost predicate FromSums(s: seq<Sample>, f: Fit)
    requires s != []
  {
    && f.meanX == Mean(s, X) && f.meanY == Mean(s, Y) && Sum(s, XX(f.meanX)) != 0.0
    && f.slope == Sum(s, XY(f.meanX, f.meanY)) / Sum(s, XX(f.meanX))
  }

  lemma FitIs(s: seq<Sample>, f: Fit)
    requires |s| > 2 && FitOf(s) == Some(f)
    ensures FromSums(s, f)
    ensures f.variance == Loss(s, Through(f.slope, f.meanX, f.meanY)) / (|s| - 2) as real
  {
  }

  lemma FitBeats(s: seq<Sample>, f: Fit, line: Fit)
    requires s != [] && LeastThrough(s, f, Mean(s, X))
    ensures Loss(s, f) <= Loss(s, line)
  {
    var y := line.slope * (Mean(s, X) - line.meanX) + line.meanY;
    LineThroughMean(s, line, Mean(s, X), y);
  }

  /** The line of slope b through the means against one of slope c through another point. */
  lemma Compared(s: seq<Sample>, x: real, m: real, c: real, y: real, b: real)
    requires Balanced(s, x, m) && Sum(s, XX(x)) >= 0.0 && Sum(s, XY(x, m)) == b * Sum(s, XX(x))
    ensures Loss(s, Through(b, x, m)) <= Loss(s, Through(c, x, y))
  {
    var line, k, fitted, j := BothExpand(s, x, m, Sum(s, VV(m)), Sum(s, XY(x, m)), Sum(s, XX(x)), c, y, b);
    LossExpands(s, line, x, m, k);
    LossExpands(s, fitted, x, m, j);
  }

  lemma BothExpand(s: seq<Sample>, x: real, m: real, vv: real, uv: real, uu: real, c: real, y: real, b: real)
    returns (line: Fit, k: Products, fitted: Fit, j: Products)
    requires uu >= 0.0 && uv == b * uu
    ensures line == Through(c, x, y) && ExpandsOver(s, line, x, m, k)
    ensures fitted == Through(b, x, m) && ExpandsOver(s, fitted, x, m, j)
    ensures vv + j.cross * uv + j.square * uu + j.constant * |s| as real <=
      vv + k.cross * uv + k.square * uu + k.constant * |s| as real
  {
    k := ProductsWith(c, m - y);
    j := ProductsWith(b, 0.0);
    line := AllExpand(s, x, m, c, m - y, k);
    fitted := AllExpand(s, x, m, b, 0.0, j);
    CompletesSquare(vv, uv, uu, |s| as real, c, m - y, k, b, j);
  }

  lemma ProductsWith(c: real, e: real) returns (k: Products)
    ensures ProductsOf(k, c, e)
  {
    k := Products(-2.0 * c, c * c, 2.0 * e, -2.0 * c * e, e * e);
  }

  lemma SpreadNotNegative(s: seq<Sample>, meanX: real)
    ensures Sum(s, XX(meanX)) >= 0.0
  {
    forall i | 0 <= i < |s| ensures XX(meanX)(s[i]) >= 0.0 {
      SquareNotNegative(X(s[i]) - meanX);
    }
    SumNotNegative(s, XX(meanX));
  }

  /** The variance is no part of the line. */
  lemma FitLoss(s: seq<Sample>, f: Fit)
    ensures Loss(s, f) == Loss(s, Through(f.slope, f.meanX, f.meanY))
  {
    forall i | 0 <= i < |s| ensures RR(f)(s[i]) == RR(Through(f.slope, f.meanX, f.meanY))(s[i]) {
      AnyVariance(s[i], f);
    }
    SameSum(s, RR(f), RR(Through(f.slope, f.meanX, f.meanY)));
  }

  lemma AnyVariance(p: Sample, f: Fit)
    ensures RR(f)(p) == RR(Through(f.slope, f.meanX, f.meanY))(p)
  {
  }

  lemma FitVariance(s: seq<Sample>, f: Fit)
    requires |s| > 2 && f.variance == Loss(s, Through(f.slope, f.meanX, f.meanY)) / (|s| - 2) as real
    ensures f.variance * (|s| - 2) as real == Loss(s, f)
  {
    FitLoss(s, f);
    TimesQuotient(Loss(s, f), (|s| - 2) as real);
  }
}
