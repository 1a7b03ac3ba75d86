/**
 * Mapping RTP timestamps to NTP time: unwrapping, the window of sender reports, and the line fitted
 * to them by least squares. Floating point is modelled by real numbers.
 */
module NtpRegression {
  import opened Machine

  const MAX_SAMPLES := 20
  const MIN_SAMPLES_READY := 4
  const MAX_CONSECUTIVE_OUTLIERS := 5
  const OUTLIER_STD_DEVS := 3.0
  const MIN_STD_NANOS := 100_000.0
  const NTP_EPOCH_OFFSET := 2208988800

  const TWO32 := 0x1_0000_0000
  const TWO31 := 0x8000_0000

  // ---- Unwrapping ----

  datatype Unwrap = Unwrap(last: u32, offset: int, seen: bool)

  /** The difference of two timestamps as a signed 32-bit number. */
  function Signed(to: u32, from: u32): int {
    var d := (to as int - from as int) % TWO32;
    if d >= TWO31 then d - TWO32 else d
  }

  function OffsetAt(u: Unwrap, rtp: u32): int {
    var diff := Signed(rtp, u.last);
    if diff > 0 && rtp < u.last then u.offset + TWO32
    else if diff < 0 && rtp > u.last then u.offset - TWO32
    else u.offset
  }

  /** What a query maps a timestamp to, without moving. */
  function Queried(u: Unwrap, rtp: u32): int {
    if !u.seen then rtp as int else OffsetAt(u, rtp) + rtp as int
  }

  function Moved(u: Unwrap, rtp: u32): Unwrap {
    Unwrap(rtp, if !u.seen then 0 else OffsetAt(u, rtp), true)
  }

  function Position(u: Unwrap): int {
    u.offset + u.last as int
  }

  /** Each step, and each query, is off the last timestamp by exactly the signed difference. */
  lemma UnwrapMovesByDifference(u: Unwrap, rtp: u32)
    requires u.seen
    ensures Queried(u, rtp) == Position(u) + Signed(rtp, u.last)
    ensures Position(Moved(u, rtp)) == Queried(u, rtp)
    ensures -TWO31 <= Signed(rtp, u.last) < TWO31
  {
  }

  /** A timestamp within 2^31 ticks of the last is unwrapped to itself. */
  lemma UnwrapIsExact(u: Unwrap, x: int)
    requires u.seen && u.offset % TWO32 == 0 && -TWO31 <= x - Position(u) < TWO31
    ensures Queried(u, x % TWO32) == x
    ensures Moved(u, x % TWO32).offset % TWO32 == 0 && Position(Moved(u, x % TWO32)) == x
  {
  }

  // ---- The window and its line ----

  datatype Sample = Sample(rtp: int, ntp: int)

  /** The fitted line; variance is the square of the residuals' standard deviation. */
  datatype Fit = Fit(slope: real, meanX: real, meanY: real, variance: real)

  function Sum(s: seq<Sample>, f: Sample -> real): real
    decreases s
  {
    if s == [] then 0.0 else Sum(s[..|s| - 1], f) + f(s[|s| - 1])
  }

  const X := (s: Sample) => s.rtp as real
  const Y := (s: Sample) => s.ntp as real

  function Square(x: real): real {
    x * x
  }

  /** The squared distance from the mean, the product of both distances, the squared residual. */
  function XX(meanX: real): Sample -> real {
    s => Square(X(s) - meanX)
  }

  function XY(meanX: real, meanY: real): Sample -> real {
    s => (X(s) - meanX) * (Y(s) - meanY)
  }

  function RR(f: Fit): Sample -> real {
    s => Square(Residual(f, s))
  }

  function Predicted(f: Fit, rtp: int): real {
    f.slope * (rtp as real - f.meanX) + f.meanY
  }

  function Residual(f: Fit, s: Sample): real {
    s.ntp as real - Predicted(f, s.rtp)
  }

  function Mean(s: seq<Sample>, f: Sample -> real): real
    requires s != []
  {
    Sum(s, f) / |s| as real
  }

  /** The fit of a window, or none when its RTP timestamps are all the same. */
  function FitOf(s: seq<Sample>): Option<Fit>
    requires s != []
  {
    var meanX, meanY := Mean(s, X), Mean(s, Y);
    var xx := Sum(s, XX(meanX));
    if xx == 0.0 then None
    else
      var line := Fit(Sum(s, XY(meanX, meanY)) / xx, meanX, meanY, 0.0);
      Some(Fit(line.slope, meanX, meanY, Sum(s, RR(line)) / (if |s| > 2 then |s| - 2 else |s|) as real))
  }

  /** More than three standard deviations off, a deviation counting as 100 microseconds at least. */
  predicate Outlying(f: Fit, s: Sample) {
    Residual(f, s) * Residual(f, s) >
    OUTLIER_STD_DEVS * OUTLIER_STD_DEVS *
    (if f.variance < MIN_STD_NANOS * MIN_STD_NANOS then MIN_STD_NANOS * MIN_STD_NANOS else f.variance)
  }

  // ---- Sender reports ----

  datatype Estimator = Estimator(unwrap: Unwrap, samples: seq<Sample>, fit: Fit, ready: bool, outliers: nat)

  datatype Result = Accepted | Duplicate | Outlier | Rebuilt

  const NO_FIT := Fit(0.0, 0.0, 0.0, 0.0)

  const FRESH := Estimator(Unwrap(0, 0, false), [], NO_FIT, false, 0)

  /** A sample joins the window, the oldest leaving a full one. */
  function Kept(samples: seq<Sample>, s: Sample): (r: seq<Sample>)
    ensures r != []
  {
    (if |samples| >= MAX_SAMPLES then samples[1..] else samples) + [s]
  }

  function Refitted(e: Estimator): Estimator
    requires e.samples != []
  {
    if |e.samples| < MIN_SAMPLES_READY then e
    else
      match FitOf(e.samples)
      case None => e
      case Some(fit) => e.(fit := fit, ready := true)
  }

  function Take(e: Estimator, s: Sample): Estimator {
    Refitted(e.(samples := Kept(e.samples, s), outliers := 0))
  }

  function OnReport(e: Estimator, ntp: int, rtp: u32): (Estimator, Result) {
    var s := Sample(Queried(e.unwrap, rtp), ntp);
    var moved := e.(unwrap := Moved(e.unwrap, rtp));
    if e.samples != [] && e.samples[|e.samples| - 1] == s then (moved, Duplicate)
    else if e.ready && Outlying(e.fit, s) then
      if e.outliers + 1 < MAX_CONSECUTIVE_OUTLIERS then (moved.(outliers := e.outliers + 1), Outlier)
      else (Take(FRESH.(unwrap := Moved(FRESH.unwrap, rtp)), Sample(rtp, ntp)), Rebuilt)
    else (Take(moved, s), Accepted)
  }

  /** Half away from zero, as a float is rounded before it becomes an integer. */
  function Round(x: real): int {
    if x >= 0.0 then (x + 0.5).Floor else -((0.5 - x).Floor)
  }

  /** The nearest integer, half way between two the one further from zero. */
  lemma RoundIsNearest(x: real)
    ensures -0.5 <= Round(x) as real - x <= 0.5 && Round(-x) == -Round(x)
    ensures x > 0.0 && x - x.Floor as real == 0.5 ==> Round(x) == x.Floor + 1
  {
  }

  function RtpToNtp(e: Estimator, rtp: u32): Option<int> {
    if e.ready then Some(Round(Predicted(e.fit, Queried(e.unwrap, rtp)))) else None
  }

  /** An NTP timestamp, 32.32 fixed point since 1900, in nanoseconds since 1970. */
  function NtpToNanos(ntp: nat): int {
    (ntp / TWO32 - NTP_EPOCH_OFFSET) * 1_000_000_000 + ntp % TWO32 * 1_000_000_000 / TWO32
  }

  lemma NtpToNanosIsFloor(ntp: nat)
    ensures NtpToNanos(ntp) * TWO32 <= (ntp - NTP_EPOCH_OFFSET * TWO32) * 1_000_000_000 < (NtpToNanos(ntp) + 1) * TWO32
  {
  }
}
