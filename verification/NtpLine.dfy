/**
 * A sender whose clock keeps one pace: none of its reports is rejected, and once the estimator is
 * ready it maps timestamps exactly.
 */
module NtpLine {
  import opened Machine
  import opened NtpRegression

  // ---- Sums ----

  lemma {:induction false} SumScales(s: seq<Sample>, f: Sample -> real, g: Sample -> real, k: real)
    requires forall i :: 0 <= i < |s| ==> f(s[i]) == k * g(s[i])
    ensures Sum(s, f) == k * Sum(s, g)
    decreases s
  {
    if s == [] {
    } else {
      SumScales(s[..|s| - 1], f, g, k);
    }
  }

  lemma {:induction false} SumIsLine(s: seq<Sample>, f: Sample -> real, g: Sample -> real, k: real, c: real)
    requires forall i :: 0 <= i < |s| ==> f(s[i]) == k * g(s[i]) + c
    ensures Sum(s, f) == k * Sum(s, g) + c * |s| as real
    decreases s
  {
    if s == [] {
    } else {
      SumIsLine(s[..|s| - 1], f, g, k, c);
    }
  }

  lemma {:induction false} SumNotNegative(s: seq<Sample>, f: Sample -> real)
    requires forall i :: 0 <= i < |s| ==> f(s[i]) >= 0.0
    ensures Sum(s, f) >= 0.0
    decreases s
  {
    if s == [] {
    } else {
      SumNotNegative(s[..|s| - 1], f);
    }
  }

  lemma {:induction false} SumPositive(s: seq<Sample>, f: Sample -> real, k: nat)
    requires k < |s| && f(s[k]) > 0.0
    requires forall i :: 0 <= i < |s| ==> f(s[i]) >= 0.0
    ensures Sum(s, f) > 0.0
    decreases s
  {
    SumNotNegative(s[..|s| - 1], f);
    if k < |s| - 1 {
      SumPositive(s[..|s| - 1], f, k);
    }
  }

  // ---- Reports on a line ----

  ghost predicate OnLine(s: seq<Sample>, slope: real, base: real) {
    forall i :: 0 <= i < |s| ==> Y(s[i]) == slope * X(s[i]) + base
  }

  lemma LineMeans(sumX: real, sumY: real, n: real, slope: real, base: real)
    requires n > 0.0 && sumY == slope * sumX + base * n
    ensures sumY / n == slope * (sumX / n) + base
  {
  }

  lemma SquareNotNegative(d: real)
    ensures Square(d) >= 0.0
  {
  }

  lemma SquarePositive(d: real)
    requires d != 0.0
    ensures Square(d) > 0.0
  {
    calc {
      Square(d);
      d * d;
    >
      0.0;
    }
  }

  lemma Divides(product: real, a: real, b: real)
    requires b != 0.0 && product == a * b
    ensures product / b == a
  {
  }

  /** The line fitted to points on a line is that line. */
  ghost predicate Fits(f: Fit, slope: real, base: real) {
    f.slope == slope && f.meanY == slope * f.meanX + base && f.variance == 0.0
  }

  lemma MeansOnLine(s: seq<Sample>, slope: real, base: real)
    requires OnLine(s, slope, base) && s != []
    ensures Mean(s, Y) == slope * Mean(s, X) + base
  {
    SumIsLine(s, Y, X, slope, base);
    LineMeans(Sum(s, X), Sum(s, Y), |s| as real, slope, base);
  }

  lemma EachProductOnLine(s: seq<Sample>, slope: real, base: real, meanX: real, meanY: real)
    requires OnLine(s, slope, base) && meanY == slope * meanX + base
    ensures forall i :: 0 <= i < |s| ==> XY(meanX, meanY)(s[i]) == slope * XX(meanX)(s[i])
  {
  }

  lemma ProductsScale(s: seq<Sample>, slope: real, meanX: real, meanY: real)
    requires forall i :: 0 <= i < |s| ==> XY(meanX, meanY)(s[i]) == slope * XX(meanX)(s[i])
    ensures Sum(s, XY(meanX, meanY)) == slope * Sum(s, XX(meanX))
  {
    SumScales(s, XY(meanX, meanY), XX(meanX), slope);
  }

  lemma ProductsOnLine(s: seq<Sample>, slope: real, base: real, meanX: real, meanY: real)
    requires OnLine(s, slope, base) && meanY == slope * meanX + base
    ensures Sum(s, XY(meanX, meanY)) == slope * Sum(s, XX(meanX))
  {
    EachProductOnLine(s, slope, base, meanX, meanY);
    ProductsScale(s, slope, meanX, meanY);
  }

  lemma SlopeOfLine(s: seq<Sample>, slope: real, base: real, meanX: real, meanY: real)
    requires OnLine(s, slope, base) && meanY == slope * meanX + base && Sum(s, XX(meanX)) > 0.0
    ensures Sum(s, XY(meanX, meanY)) / Sum(s, XX(meanX)) == slope
  {
    ProductsOnLine(s, slope, base, meanX, meanY);
    Divides(Sum(s, XY(meanX, meanY)), slope, Sum(s, XX(meanX)));
  }

  lemma NoResiduals(s: seq<Sample>, f: Fit, slope: real, base: real)
    requires OnLine(s, slope, base) && f.slope == slope && f.meanY == slope * f.meanX + base
    ensures Sum(s, RR(f)) == 0.0
  {
  }

  lemma FitOfLine(s: seq<Sample>, slope: real, base: real)
    requires OnLine(s, slope, base) && |s| >= 2 && s[0].rtp != s[1].rtp
    ensures FitOf(s).Some? && Fits(FitOf(s).value, slope, base)
  {
    var meanX, meanY := LineParts(s, slope, base);
    var f := ExactFit(s, slope, base, meanX, meanY);
    FitOfParts(s, meanX, meanY, Sum(s, XX(meanX)), slope);
  }

  lemma ExactFit(s: seq<Sample>, slope: real, base: real, meanX: real, meanY: real) returns (f: Fit)
    requires OnLine(s, slope, base) && meanY == slope * meanX + base
    ensures f == Fit(slope, meanX, meanY, 0.0) && Sum(s, RR(f)) == 0.0 && Fits(f, slope, base)
  {
    f := Fit(slope, meanX, meanY, 0.0);
    NoResiduals(s, f, slope, base);
  }

  lemma LineParts(s: seq<Sample>, slope: real, base: real) returns (meanX: real, meanY: real)
    requires OnLine(s, slope, base) && |s| >= 2 && s[0].rtp != s[1].rtp
    ensures meanX == Mean(s, X) && meanY == Mean(s, Y) && meanY == slope * meanX + base
    ensures Sum(s, XX(meanX)) > 0.0 && Sum(s, XY(meanX, meanY)) / Sum(s, XX(meanX)) == slope
  {
    meanX, meanY := Mean(s, X), Mean(s, Y);
    MeansOnLine(s, slope, base);
    SpreadPositive(s, meanX);
    SlopeOfLine(s, slope, base, meanX, meanY);
  }

  lemma FitOfParts(s: seq<Sample>, meanX: real, meanY: real, xx: real, slope: real)
    requires s != [] && meanX == Mean(s, X) && meanY == Mean(s, Y) && xx == Sum(s, XX(meanX)) && xx != 0.0
    requires Sum(s, XY(meanX, meanY)) / xx == slope && Sum(s, RR(Fit(slope, meanX, meanY, 0.0))) == 0.0
    ensures FitOf(s) == Some(Fit(slope, meanX, meanY, 0.0))
  {
  }

  lemma SpreadPositive(s: seq<Sample>, meanX: real)
    requires |s| >= 2 && s[0].rtp != s[1].rtp
    ensures Sum(s, XX(meanX)) > 0.0
  {
    forall i | 0 <= i < |s| ensures XX(meanX)(s[i]) >= 0.0 {
      SquareNotNegative(X(s[i]) - meanX);
    }
    assert X(s[0]) != X(s[1]);
    var k := if X(s[0]) != meanX then 0 else 1;
    SquarePositive(X(s[k]) - meanX);
    SumPositive(s, XX(meanX), k);
  }

  // ---- A run of such reports ----

  /** Sender reports at ever later ticks, each less than 2^31 after the one before. */
  ghost predicate Steady(reports: seq<Sample>, slope: real, base: real) {
    && OnLine(reports, slope, base)
    && (reports != [] ==> 0 <= reports[0].rtp < TWO32)
    && forall i :: 0 < i < |reports| ==> 0 < reports[i].rtp - reports[i - 1].rtp < TWO31
  }

  /** The newest reports, as many as the window holds. */
  function Newest(reports: seq<Sample>): seq<Sample> {
    if |reports| <= MAX_SAMPLES then reports else reports[|reports| - MAX_SAMPLES..]
  }

  lemma NewestGrows(reports: seq<Sample>, s: Sample)
    ensures Kept(Newest(reports), s) == Newest(reports + [s])
  {
  }

  function Wire(rtp: int): u32 {
    rtp % TWO32
  }

  /** The estimator after more reports, each as it is carried on the wire. */
  function Continued(e: Estimator, reports: seq<Sample>): Estimator
    decreases reports
  {
    if reports == [] then e
    else
      var last := reports[|reports| - 1];
      OnReport(Continued(e, reports[..|reports| - 1]), last.ntp, Wire(last.rtp)).0
  }

  function After(reports: seq<Sample>): Estimator {
    Continued(FRESH, reports)
  }

  ghost predicate Tracks(e: Estimator, reports: seq<Sample>, slope: real, base: real) {
    && e.samples == Newest(reports)
    && (reports == [] <==> !e.unwrap.seen)
    && (reports != [] ==> e.unwrap.offset % TWO32 == 0 && Position(e.unwrap) == reports[|reports| - 1].rtp)
    && (e.ready <==> |reports| >= MIN_SAMPLES_READY)
    && (e.ready ==> Fits(e.fit, slope, base))
  }

  lemma NotOutlying(f: Fit, s: Sample, slope: real, base: real)
    requires Fits(f, slope, base) && Y(s) == slope * X(s) + base
    ensures !Outlying(f, s)
  {
  }

  lemma NewestOnLine(reports: seq<Sample>, slope: real, base: real)
    requires Steady(reports, slope, base) && |reports| >= 2
    ensures OnLine(Newest(reports), slope, base) && |Newest(reports)| >= 2
    ensures Newest(reports)[0].rtp != Newest(reports)[1].rtp
  {
  }

  lemma ReportUnwraps(u: Unwrap, reports: seq<Sample>, s: Sample, slope: real, base: real)
    requires Steady(reports + [s], slope, base) && (reports == [] <==> !u.seen)
    requires reports != [] ==> u.offset % TWO32 == 0 && Position(u) == reports[|reports| - 1].rtp
    ensures Queried(u, Wire(s.rtp)) == s.rtp
    ensures var v := Moved(u, Wire(s.rtp)); v.seen && v.offset % TWO32 == 0 && Position(v) == s.rtp
  {
    var all := reports + [s];
    if reports == [] {
      assert all[0] == s;
    } else {
      assert all[|reports|] == s && all[|reports| - 1] == reports[|reports| - 1];
      UnwrapIsExact(u, s.rtp);
    }
  }

  lemma TakeFits(e: Estimator, reports: seq<Sample>, s: Sample, slope: real, base: real)
    requires Steady(reports + [s], slope, base) && e.samples == Newest(reports)
    requires e.ready <==> |reports| >= MIN_SAMPLES_READY
    ensures var r := Take(e, s);
      && r.unwrap == e.unwrap && r.samples == Newest(reports + [s])
      && (r.ready <==> |reports + [s]| >= MIN_SAMPLES_READY) && (r.ready ==> Fits(r.fit, slope, base))
  {
    NewestGrows(reports, s);
    if |reports + [s]| >= MIN_SAMPLES_READY {
      NewestOnLine(reports + [s], slope, base);
      FitOfLine(Newest(reports + [s]), slope, base);
    }
  }

  /** No such report is rejected, and each keeps the estimator on its line. */
  lemma ReportAccepted(e: Estimator, reports: seq<Sample>, s: Sample, slope: real, base: real)
    requires Tracks(e, reports, slope, base) && Steady(reports + [s], slope, base)
    ensures var (r, result) := OnReport(e, s.ntp, Wire(s.rtp));
      result == Accepted && Tracks(r, reports + [s], slope, base)
  {
    var all := reports + [s];
    assert all[|reports|] == s;
    ReportUnwraps(e.unwrap, reports, s, slope, base);
    if reports != [] {
      assert all[|reports| - 1] == reports[|reports| - 1] && s.rtp != reports[|reports| - 1].rtp;
    }
    if e.ready {
      NotOutlying(e.fit, s, slope, base);
    }
    TakeFits(e.(unwrap := Moved(e.unwrap, Wire(s.rtp))), reports, s, slope, base);
  }

  lemma SteadyPrefix(reports: seq<Sample>, slope: real, base: real)
    requires Steady(reports, slope, base) && reports != []
    ensures Steady(reports[..|reports| - 1], slope, base)
    ensures reports == reports[..|reports| - 1] + [reports[|reports| - 1]]
  {
  }

  lemma {:induction false} SteadyTracks(reports: seq<Sample>, slope: real, base: real)
    requires Steady(reports, slope, base)
    ensures Tracks(After(reports), reports, slope, base)
    decreases reports
  {
    if reports == [] {
    } else {
      SteadyPrefix(reports, slope, base);
      SteadyTracks(reports[..|reports| - 1], slope, base);
      ReportAccepted(After(reports[..|reports| - 1]), reports[..|reports| - 1], reports[|reports| - 1], slope, base);
    }
  }

  /**
   * After any number of reports from a sender at one pace, the next is accepted; and once there have
   * been four, a timestamp within 2^31 ticks of the last is mapped to its NTP time to the nanosecond.
   */
  lemma SteadySenderIsMappedExactly(reports: seq<Sample>, slope: real, base: real, x: int)
    requires Steady(reports, slope, base) && |reports| >= MIN_SAMPLES_READY
    requires -TWO31 <= x - reports[|reports| - 1].rtp < TWO31
    ensures RtpToNtp(After(reports), Wire(x)) == Some(Round(slope * x as real + base))
  {
    SteadyTracks(reports, slope, base);
    MapsExactly(After(reports), reports, slope, base, x);
  }

  lemma MapsExactly(e: Estimator, reports: seq<Sample>, slope: real, base: real, x: int)
    requires Tracks(e, reports, slope, base) && |reports| >= MIN_SAMPLES_READY
    requires -TWO31 <= x - reports[|reports| - 1].rtp < TWO31
    ensures RtpToNtp(e, Wire(x)) == Some(Round(slope * x as real + base))
  {
    UnwrapIsExact(e.unwrap, x);
    PredictsLine(e.fit, x, slope, base);
  }

  lemma PredictsLine(f: Fit, x: int, slope: real, base: real)
    requires Fits(f, slope, base)
    ensures Predicted(f, x) == slope * x as real + base
  {
  }

  lemma {:induction false} SteadyUpTo(reports: seq<Sample>, slope: real, base: real, k: nat)
    requires Steady(reports, slope, base) && k <= |reports|
    ensures Steady(reports[..k], slope, base)
    decreases |reports|
  {
  }

  lemma SteadySenderIsNeverRejected(reports: seq<Sample>, slope: real, base: real, k: nat)
    requires Steady(reports, slope, base) && k < |reports|
    ensures OnReport(After(reports[..k]), reports[k].ntp, Wire(reports[k].rtp)).1 == Accepted
  {
    SteadyUpTo(reports, slope, base, k);
    SteadyUpTo(reports, slope, base, k + 1);
    assert reports[..k + 1] == reports[..k] + [reports[k]];
    SteadyTracks(reports[..k], slope, base);
    ReportAccepted(After(reports[..k]), reports[..k], reports[k], slope, base);
  }

  // ---- Any run ----

  /** The samples accepted since the estimator last started over. */
  function Log(e: Estimator, log: seq<Sample>, ntp: int, rtp: u32): seq<Sample> {
    match OnReport(e, ntp, rtp).1
    case Accepted => log + [Sample(Queried(e.unwrap, rtp), ntp)]
    case Rebuilt => [Sample(rtp, ntp)]
    case _ => log
  }

  function RunLog(e: Estimator, log: seq<Sample>, reports: seq<(int, u32)>): (Estimator, seq<Sample>)
    decreases reports
  {
    if reports == [] then (e, log)
    else
      var (ntp, rtp) := reports[0];
      RunLog(OnReport(e, ntp, rtp).0, Log(e, log, ntp, rtp), reports[1..])
  }

  /** Whatever the reports, the window is the newest twenty of those accepted, oldest first. */
  lemma {:induction false} WindowIsNewestAccepted(e: Estimator, log: seq<Sample>, reports: seq<(int, u32)>)
    requires e.samples == Newest(log)
    ensures var (r, all) := RunLog(e, log, reports); r.samples == Newest(all)
    decreases reports
  {
    if reports == [] {
    } else {
      var (ntp, rtp) := reports[0];
      NewestGrows(log, Sample(Queried(e.unwrap, rtp), ntp));
      NewestGrows([], Sample(rtp, ntp));
      WindowIsNewestAccepted(OnReport(e, ntp, rtp).0, Log(e, log, ntp, rtp), reports[1..]);
    }
  }

  function Results(e: Estimator, reports: seq<(int, u32)>): (r: seq<Result>)
    ensures |r| == |reports|
    decreases reports
  {
    if reports == [] then []
    else
      var (next, result) := OnReport(e, reports[0].0, reports[0].1);
      [result] + Results(next, reports[1..])
  }

  /** A rejected report changes neither the window nor the line; a rebuild starts from it alone. */
  lemma RejectedChangesNothing(e: Estimator, ntp: int, rtp: u32)
    requires e.outliers < MAX_CONSECUTIVE_OUTLIERS
    ensures var (r, result) := OnReport(e, ntp, rtp);
      && r.outliers < MAX_CONSECUTIVE_OUTLIERS
      && (result == Outlier || result == Duplicate ==> r.samples == e.samples && r.fit == e.fit && r.ready == e.ready)
      && (result == Outlier ==> r.outliers == e.outliers + 1)
      && (result == Rebuilt ==>
           r.samples == [Sample(rtp, ntp)] && !r.ready && e.outliers == MAX_CONSECUTIVE_OUTLIERS - 1)
  {
  }

  /** Of five reports in a row, not all are rejected. */
  lemma {:induction false} RejectionsEnd(e: Estimator, reports: seq<(int, u32)>)
    requires e.outliers < MAX_CONSECUTIVE_OUTLIERS <= e.outliers + |reports|
    ensures exists i :: 0 <= i < |reports| && Results(e, reports)[i] != Outlier
    decreases reports
  {
    var (ntp, rtp) := reports[0];
    RejectedChangesNothing(e, ntp, rtp);
    if OnReport(e, ntp, rtp).1 == Outlier {
      RejectionsEnd(OnReport(e, ntp, rtp).0, reports[1..]);
      var i :| 0 <= i < |reports| - 1 && Results(OnReport(e, ntp, rtp).0, reports[1..])[i] != Outlier;
      assert Results(e, reports)[i + 1] != Outlier;
    } else {
      assert Results(e, reports)[0] != Outlier;
    }
  }

  // ---- A clock that steps ----

  function Fed(e: Estimator, reports: seq<(int, u32)>): Estimator
    decreases reports
  {
    if reports == [] then e else Fed(OnReport(e, reports[0].0, reports[0].1).0, reports[1..])
  }

  predicate Rejects(result: Result) {
    result == Outlier || result == Rebuilt
  }

  ghost predicate AllRejected(e: Estimator, reports: seq<(int, u32)>) {
    forall i :: 0 <= i < |reports| ==> Rejects(Results(e, reports)[i])
  }

  /** The report that completes five rejected in a row rebuilds the estimator from itself. */
  lemma {:induction false} FifthRebuilds(e: Estimator, reports: seq<(int, u32)>, ntp: int, rtp: u32)
    requires e.outliers + |reports| == MAX_CONSECUTIVE_OUTLIERS - 1
    requires AllRejected(e, reports + [(ntp, rtp)])
    ensures OnReport(Fed(e, reports), ntp, rtp) == (OnReport(FRESH, ntp, rtp).0, Rebuilt)
    decreases reports
  {
    var all := reports + [(ntp, rtp)];
    assert Rejects(Results(e, all)[0]);
    if reports == [] {
      assert all[0] == (ntp, rtp);
    } else {
      var next := OnReport(e, reports[0].0, reports[0].1).0;
      RejectedChangesNothing(e, reports[0].0, reports[0].1);
      assert all[1..] == reports[1..] + [(ntp, rtp)];
      forall i | 0 <= i < |all[1..]| ensures Rejects(Results(next, all[1..])[i]) {
        assert Rejects(Results(e, all)[i + 1]);
      }
      FifthRebuilds(next, reports[1..], ntp, rtp);
    }
  }

  lemma {:induction false} ContinuesAfresh(e: Estimator, reports: seq<Sample>)
    requires reports != []
    requires var (ntp, rtp) := (reports[0].ntp, Wire(reports[0].rtp));
      OnReport(e, ntp, rtp).0 == OnReport(FRESH, ntp, rtp).0
    ensures Continued(e, reports) == After(reports)
    decreases reports
  {
    var before := reports[..|reports| - 1];
    if before == [] {
      assert Continued(e, before) == e && Continued(FRESH, before) == FRESH;
    } else {
      ContinuesAfresh(e, before);
    }
  }

  /**
   * A clock that has stepped is followed: when five reports in a row are rejected, the fifth and those
   * after it being from a sender at one pace, then from the fourth of these on timestamps within 2^31
   * ticks of the last are mapped to the new line to the nanosecond.
   */
  lemma StepIsFollowed(e: Estimator, rejected: seq<(int, u32)>, reports: seq<Sample>, slope: real, base: real, x: int)
    requires e.outliers + |rejected| == MAX_CONSECUTIVE_OUTLIERS - 1
    requires Steady(reports, slope, base) && |reports| >= MIN_SAMPLES_READY
    requires AllRejected(e, rejected + [(reports[0].ntp, Wire(reports[0].rtp))])
    requires -TWO31 <= x - reports[|reports| - 1].rtp < TWO31
    ensures RtpToNtp(Continued(Fed(e, rejected), reports), Wire(x)) == Some(Round(slope * x as real + base))
  {
    FifthRebuilds(e, rejected, reports[0].ntp, Wire(reports[0].rtp));
    ContinuesAfresh(Fed(e, rejected), reports);
    SteadySenderIsMappedExactly(reports, slope, base, x);
  }
}
