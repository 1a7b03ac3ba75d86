/** Which reports are rejected: against a steady sender, against any fitted line, and how they are counted. */
module NtpOutliers {
  import opened Machine
  import opened NtpRegression
  import opened NtpLine

  /** Three times the least deviation that is reckoned with. */
  const LEAST_MARGIN := 300_000.0

  function Magnitude(x: real): real {
    if x < 0.0 then -x else x
  }

  // ---- Squares and deviations ----

  lemma SquareGrows(a: real, b: real)
    requires 0.0 <= a && 0.0 <= b
    ensures a * a > b * b <==> a > b
  {
    if a > b {
      ProductPositive(a - b, a + b);
      assert (a - b) * (a + b) == a * a - b * b;
    } else {
      assert a * a <= a * b <= b * b;
    }
  }

  lemma ProductPositive(a: real, b: real)
    requires a > 0.0 && b > 0.0
    ensures a * b > 0.0
  {
  }

  lemma SquareOfMagnitude(x: real)
    ensures Magnitude(x) * Magnitude(x) == x * x && Magnitude(x) >= 0.0
  {
  }

  /** The threshold, as the code has it: three deviations, a deviation being 100 microseconds at least. */
  function Margin(deviation: real): real {
    OUTLIER_STD_DEVS * if deviation < MIN_STD_NANOS then MIN_STD_NANOS else deviation
  }

  lemma MarginSquared(f: Fit, deviation: real)
    requires deviation >= 0.0 && deviation * deviation == f.variance
    ensures Margin(deviation) * Margin(deviation) ==
      OUTLIER_STD_DEVS * OUTLIER_STD_DEVS *
      (if f.variance < MIN_STD_NANOS * MIN_STD_NANOS then MIN_STD_NANOS * MIN_STD_NANOS else f.variance)
    ensures Margin(deviation) >= LEAST_MARGIN
  {
    SquareGrows(MIN_STD_NANOS, deviation);
  }

  /** Judging squares against the variance is judging residuals against its root, the standard deviation. */
  lemma OutlyingIff(f: Fit, s: Sample, deviation: real)
    requires deviation >= 0.0 && deviation * deviation == f.variance
    ensures Outlying(f, s) <==> Magnitude(Residual(f, s)) > Margin(deviation)
  {
    MarginSquared(f, deviation);
    SquareOfMagnitude(Residual(f, s));
    SquareGrows(Magnitude(Residual(f, s)), Margin(deviation));
  }

  /** Whatever the window, a report within 300 microseconds of its prediction is not rejected. */
  lemma NearIsNeverRejected(e: Estimator, ntp: int, rtp: u32)
    requires Magnitude(Residual(e.fit, Sample(Queried(e.unwrap, rtp), ntp))) <= LEAST_MARGIN
    ensures !Rejects(OnReport(e, ntp, rtp).1)
  {
    var off := Residual(e.fit, Sample(Queried(e.unwrap, rtp), ntp));
    SquareOfMagnitude(off);
    SquareGrows(Magnitude(off), LEAST_MARGIN);
  }

  // ---- A steady sender, and then any report ----

  lemma {:induction false} NoneOutlying(reports: seq<Sample>, slope: real, base: real)
    requires Steady(reports, slope, base)
    ensures After(reports).outliers == 0
    decreases reports
  {
    if reports == [] {
    } else {
      var before, last := reports[..|reports| - 1], reports[|reports| - 1];
      SteadyPrefix(reports, slope, base);
      SteadyTracks(before, slope, base);
      ReportAccepted(After(before), before, last, slope, base);
      TakenIsNoOutlier(After(before), last.ntp, Wire(last.rtp));
    }
  }

  lemma TakenIsNoOutlier(e: Estimator, ntp: int, rtp: u32)
    requires OnReport(e, ntp, rtp).1 == Accepted
    ensures OnReport(e, ntp, rtp).0.outliers == 0
  {
  }

  lemma LineResidual(f: Fit, s: Sample, slope: real, base: real)
    requires Fits(f, slope, base)
    ensures Residual(f, s) == s.ntp as real - (slope * s.rtp as real + base)
    ensures Outlying(f, s) <==> Magnitude(s.ntp as real - (slope * s.rtp as real + base)) > LEAST_MARGIN
  {
    PredictsLine(f, s.rtp, slope, base);
    OutlyingIff(f, s, 0.0);
  }

  /** The unwrapped timestamp of the next report. */
  lemma NextUnwraps(reports: seq<Sample>, slope: real, base: real, x: int)
    requires Steady(reports, slope, base) && reports != []
    requires -TWO31 <= x - reports[|reports| - 1].rtp < TWO31
    ensures Queried(After(reports).unwrap, Wire(x)) == x
    ensures After(reports).samples != []
    ensures After(reports).samples[|After(reports).samples| - 1] == reports[|reports| - 1]
  {
    SteadyTracks(reports, slope, base);
    UnwrapIsExact(After(reports).unwrap, x);
  }

  /**
   * After four reports or more from a sender at one pace, whatever comes next, within 2^31 ticks: the
   * last report over again is a duplicate; another is rejected if and only if it lies more than 300
   * microseconds off the line; and timestamps are mapped only from the fourth report on.
   */
  lemma SteadyThenAny(reports: seq<Sample>, slope: real, base: real, ntp: int, x: int)
    requires Steady(reports, slope, base) && |reports| >= MIN_SAMPLES_READY
    requires -TWO31 <= x - reports[|reports| - 1].rtp < TWO31
    ensures OnReport(After(reports), ntp, Wire(x)).1 ==
      if Sample(x, ntp) == reports[|reports| - 1] then Duplicate
      else if Magnitude(ntp as real - (slope * x as real + base)) > LEAST_MARGIN then Outlier
      else Accepted
  {
    var e := Settled(reports, slope, base, x);
    JudgedByLine(e, reports[|reports| - 1], slope, base, ntp, x);
  }

  lemma Settled(reports: seq<Sample>, slope: real, base: real, x: int) returns (e: Estimator)
    requires Steady(reports, slope, base) && |reports| >= MIN_SAMPLES_READY
    requires -TWO31 <= x - reports[|reports| - 1].rtp < TWO31
    ensures e == After(reports) && Awaits(e, reports[|reports| - 1], x) && Fits(e.fit, slope, base)
  {
    SteadyTracks(reports, slope, base);
    NoneOutlying(reports, slope, base);
    NextUnwraps(reports, slope, base, x);
    e := After(reports);
  }

  /** A ready estimator without outliers, its newest report, and the next timestamp. */
  predicate Awaits(e: Estimator, last: Sample, x: int) {
    && e.ready && e.outliers == 0 && Queried(e.unwrap, Wire(x)) == x
    && e.samples != [] && e.samples[|e.samples| - 1] == last
  }

  lemma JudgedByLine(e: Estimator, last: Sample, slope: real, base: real, ntp: int, x: int)
    requires Awaits(e, last, x) && Fits(e.fit, slope, base)
    ensures OnReport(e, ntp, Wire(x)).1 ==
      if Sample(x, ntp) == last then Duplicate
      else if Magnitude(ntp as real - (slope * x as real + base)) > LEAST_MARGIN then Outlier
      else Accepted
  {
    LineResidual(e.fit, Sample(x, ntp), slope, base);
    Judged(e, last, ntp, x);
  }

  lemma Judged(e: Estimator, last: Sample, ntp: int, x: int)
    requires Awaits(e, last, x)
    ensures OnReport(e, ntp, Wire(x)).1 ==
      if Sample(x, ntp) == last then Duplicate else if Outlying(e.fit, Sample(x, ntp)) then Outlier else Accepted
  {
  }

  /** Before the fourth nothing is rejected and nothing mapped. */
  lemma FewReports(reports: seq<Sample>, slope: real, base: real, ntp: int, x: int)
    requires Steady(reports, slope, base) && 0 < |reports| < MIN_SAMPLES_READY
    requires -TWO31 <= x - reports[|reports| - 1].rtp < TWO31
    ensures OnReport(After(reports), ntp, Wire(x)).1 ==
      if Sample(x, ntp) == reports[|reports| - 1] then Duplicate else Accepted
    ensures RtpToNtp(After(reports), Wire(x)) == None
  {
    SteadyTracks(reports, slope, base);
    NextUnwraps(reports, slope, base, x);
  }

  // ---- Counting rejections ----

  /** How many outliers have come since the last report taken; repeated reports do not count. */
  function InARow(results: seq<Result>, before: nat): nat
    decreases results
  {
    if results == [] then before
    else
      match results[0]
      case Outlier => InARow(results[1..], before + 1)
      case Duplicate => InARow(results[1..], before)
      case _ => InARow(results[1..], 0)
  }

  /** The count is that of the outliers in a row, and the fifth of them is the one that rebuilds. */
  lemma {:induction false} OutliersAreCounted(e: Estimator, reports: seq<(int, u32)>)
    requires e.outliers < MAX_CONSECUTIVE_OUTLIERS
    ensures Fed(e, reports).outliers == InARow(Results(e, reports), e.outliers) < MAX_CONSECUTIVE_OUTLIERS
    decreases reports
  {
    if reports == [] {
    } else {
      var (ntp, rtp) := reports[0];
      OneIsCounted(e, ntp, rtp);
      OutliersAreCounted(OnReport(e, ntp, rtp).0, reports[1..]);
    }
  }

  lemma OneIsCounted(e: Estimator, ntp: int, rtp: u32)
    requires e.outliers < MAX_CONSECUTIVE_OUTLIERS
    ensures var (r, result) := OnReport(e, ntp, rtp);
      && r.outliers == (match result case Outlier => e.outliers + 1 case Duplicate => e.outliers case _ => 0)
      && (result == Outlier ==> e.outliers + 1 < MAX_CONSECUTIVE_OUTLIERS)
      && (result == Rebuilt ==> e.outliers + 1 == MAX_CONSECUTIVE_OUTLIERS)
  {
  }

  // ---- Windows without a line ----

  /** There is no line exactly if the window's RTP timestamps are all the same. */
  lemma NoFitIff(s: seq<Sample>)
    requires s != []
    ensures FitOf(s) == None <==> forall i :: 0 <= i < |s| ==> s[i].rtp == s[0].rtp
  {
    if forall i :: 0 <= i < |s| ==> s[i].rtp == s[0].rtp {
      SameTimestamps(s);
    } else {
      var i :| 0 <= i < |s| && s[i].rtp != s[0].rtp;
      SomeSpread(s, Mean(s, X), i);
    }
  }

  /** Such a window leaves the line as it is. */
  lemma SameTimestampsKeepLine(e: Estimator)
    requires e.samples != [] && forall i :: 0 <= i < |e.samples| ==> e.samples[i].rtp == e.samples[0].rtp
    ensures Refitted(e) == e
  {
    NoFitIff(e.samples);
  }

  lemma SameTimestamps(s: seq<Sample>)
    requires s != [] && forall i :: 0 <= i < |s| ==> s[i].rtp == s[0].rtp
    ensures Sum(s, XX(Mean(s, X))) == 0.0
  {
    MeanOfSame(s);
    forall i | 0 <= i < |s| ensures XX(Mean(s, X))(s[i]) == 0.0 * X(s[i]) {
    }
    SumScales(s, XX(Mean(s, X)), X, 0.0);
  }

  lemma MeanOfSame(s: seq<Sample>)
    requires s != [] && forall i :: 0 <= i < |s| ==> s[i].rtp == s[0].rtp
    ensures Mean(s, X) == X(s[0])
  {
    SumOfSame(s, X(s[0]));
    Divides(Sum(s, X), X(s[0]), |s| as real);
  }

  lemma {:induction false} SumOfSame(s: seq<Sample>, x: real)
    requires forall i :: 0 <= i < |s| ==> X(s[i]) == x
    ensures Sum(s, X) == x * |s| as real
    decreases s
  {
    if s == [] {
    } else {
      SumOfSame(s[..|s| - 1], x);
      assert x * (|s| - 1) as real + x == x * |s| as real;
    }
  }

  lemma SomeSpread(s: seq<Sample>, meanX: real, i: nat)
    requires i < |s| && s[i].rtp != s[0].rtp
    ensures Sum(s, XX(meanX)) > 0.0
  {
    forall j | 0 <= j < |s| ensures XX(meanX)(s[j]) >= 0.0 {
      SquareNotNegative(X(s[j]) - meanX);
    }
    var k := if X(s[0]) != meanX then 0 else i;
    SquarePositive(X(s[k]) - meanX);
    SumPositive(s, XX(meanX), k);
  }
}
