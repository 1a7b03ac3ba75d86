/** The estimator as an object: a circular buffer of reports and the regression over it. */
module NtpEstimator {
  import opened Machine
  import opened Circular
  import Spec = NtpRegression

  lemma SumNext(s: seq<Spec.Sample>, f: Spec.Sample -> real, i: nat)
    requires i < |s|
    ensures Spec.Sum(s[..i + 1], f) == Spec.Sum(s[..i], f) + f(s[i])
  {
    assert s[..i + 1][..i] == s[..i];
  }

  method Centered(s: Spec.Sample, meanX: real, meanY: real) returns (xx: real, xy: real)
    ensures xx == Spec.XX(meanX)(s) && xy == Spec.XY(meanX, meanY)(s)
  {
    var dx, dy := s.rtp as real - meanX, s.ntp as real - meanY;
    xx, xy := dx * dx, dx * dy;
    assert Spec.X(s) - meanX == dx && Spec.Y(s) - meanY == dy;
    assert Spec.XX(meanX)(s) == Spec.Square(dx);
  }

  class Estimator {
    var samples: array<Spec.Sample>
    var sampleLen: nat
    var sampleHead: nat
    var unwrap: Spec.Unwrap
    var fit: Spec.Fit
    var ready: bool
    var consecutiveOutliers: nat

    ghost predicate Valid()
      reads this
    {
      && samples.Length == Spec.MAX_SAMPLES && sampleHead < Spec.MAX_SAMPLES && sampleLen <= Spec.MAX_SAMPLES
      && (sampleLen < Spec.MAX_SAMPLES ==> sampleHead == sampleLen)
    }

    function Start(): nat
      requires Valid()
      reads this
    {
      if sampleLen == Spec.MAX_SAMPLES then sampleHead else 0
    }

    /** The reports in the buffer, oldest first. */
    ghost function Window(): seq<Spec.Sample>
      requires Valid()
      reads this, samples
    {
      Held(samples[..], Start(), sampleLen)
    }

    ghost function View(): Spec.Estimator
      requires Valid()
      reads this, samples
    {
      Spec.Estimator(unwrap, Window(), fit, ready, consecutiveOutliers)
    }

    constructor ()
      ensures Valid() && fresh(samples) && View() == Spec.FRESH
    {
      samples := new Spec.Sample[Spec.MAX_SAMPLES](_ => Spec.Sample(0, 0));
      sampleLen, sampleHead, unwrap, fit := 0, 0, Spec.Unwrap(0, 0, false), Spec.NO_FIT;
      ready, consecutiveOutliers := false, 0;
    }

    method Reset()
      requires Valid()
      modifies this
      ensures Valid() && samples == old(samples) && View() == Spec.FRESH
    {
      sampleLen, sampleHead, unwrap, fit := 0, 0, Spec.Unwrap(0, 0, false), Spec.NO_FIT;
      ready, consecutiveOutliers := false, 0;
    }

    method UnwrapRTP(rtp: u32) returns (unwrapped: int)
      modifies this`unwrap
      ensures unwrap == Spec.Moved(old(unwrap), rtp) && unwrapped == Spec.Queried(old(unwrap), rtp)
    {
      if !unwrap.seen {
        unwrap := Spec.Unwrap(rtp, 0, true);
        return rtp;
      }
      var offset := unwrap.offset;
      var diff := Spec.Signed(rtp, unwrap.last);
      if diff > 0 && rtp < unwrap.last {
        offset := offset + Spec.TWO32;
      } else if diff < 0 && rtp > unwrap.last {
        offset := offset - Spec.TWO32;
      }
      unwrap := Spec.Unwrap(rtp, offset, true);
      return offset + rtp;
    }

    /** Writes at the head; a full buffer loses its oldest report. */
    method Write(s: Spec.Sample)
      requires Valid()
      modifies this`sampleLen, this`sampleHead, samples
      ensures Valid() && Window() == Spec.Kept(old(Window()), s)
    {
      ghost var was := samples[..];
      if sampleLen == Spec.MAX_SAMPLES {
        Overwrite(was, sampleHead, s);
      } else {
        Put(was, 0, sampleLen, s);
      }
      samples[sampleHead] := s;
      assert samples[..] == was[sampleHead := s];
      sampleHead := At(Spec.MAX_SAMPLES, sampleHead, 1);
      if sampleLen < Spec.MAX_SAMPLES {
        sampleLen := sampleLen + 1;
      }
    }

    method Sums() returns (sumX: real, sumY: real)
      requires Valid()
      ensures sumX == Spec.Sum(Window(), Spec.X) && sumY == Spec.Sum(Window(), Spec.Y)
    {
      sumX, sumY := 0.0, 0.0;
      for i := 0 to sampleLen
        invariant sumX == Spec.Sum(Window()[..i], Spec.X) && sumY == Spec.Sum(Window()[..i], Spec.Y)
      {
        var s := samples[At(Spec.MAX_SAMPLES, Start(), i)];
        SumNext(Window(), Spec.X, i);
        SumNext(Window(), Spec.Y, i);
        sumX, sumY := sumX + s.rtp as real, sumY + s.ntp as real;
      }
      assert Window()[..sampleLen] == Window();
    }

    method CenteredSums(meanX: real, meanY: real) returns (sumXX: real, sumXY: real)
      requires Valid()
      ensures sumXX == Spec.Sum(Window(), Spec.XX(meanX)) && sumXY == Spec.Sum(Window(), Spec.XY(meanX, meanY))
    {
      sumXX, sumXY := 0.0, 0.0;
      for i := 0 to sampleLen
        invariant sumXX == Spec.Sum(Window()[..i], Spec.XX(meanX))
        invariant sumXY == Spec.Sum(Window()[..i], Spec.XY(meanX, meanY))
      {
        var s := samples[At(Spec.MAX_SAMPLES, Start(), i)];
        SumNext(Window(), Spec.XX(meanX), i);
        SumNext(Window(), Spec.XY(meanX, meanY), i);
        var xx, xy := Centered(s, meanX, meanY);
        sumXX, sumXY := sumXX + xx, sumXY + xy;
      }
      assert Window()[..sampleLen] == Window();
    }

    method Residuals(line: Spec.Fit) returns (sum: real)
      requires Valid()
      ensures sum == Spec.Sum(Window(), Spec.RR(line))
    {
      sum := 0.0;
      for i := 0 to sampleLen
        invariant sum == Spec.Sum(Window()[..i], Spec.RR(line))
      {
        var s := samples[At(Spec.MAX_SAMPLES, Start(), i)];
        SumNext(Window(), Spec.RR(line), i);
        var r := s.ntp as real - (line.slope * (s.rtp as real - line.meanX) + line.meanY);
        sum := sum + r * r;
      }
      assert Window()[..sampleLen] == Window();
    }

    /** Least squares over the buffer; false, with the fit kept, when all RTP timestamps are equal. */
    method ComputeRegression() returns (ok: bool)
      requires Valid() && sampleLen > 0
      modifies this`fit
      ensures ok == Spec.FitOf(Window()).Some?
      ensures fit == if ok then Spec.FitOf(Window()).value else old(fit)
    {
      var n := sampleLen as real;
      var sumX, sumY := Sums();
      var meanX, meanY := sumX / n, sumY / n;
      var sumXX, sumXY := CenteredSums(meanX, meanY);
      if sumXX == 0.0 {
        return false;
      }
      var line := Spec.Fit(sumXY / sumXX, meanX, meanY, 0.0);
      var sum := Residuals(line);
      var degrees := if sampleLen > 2 then sampleLen - 2 else sampleLen;
      fit := Spec.Fit(line.slope, meanX, meanY, sum / degrees as real);
      return true;
    }

    method Accept(s: Spec.Sample)
      requires Valid()
      modifies this, samples
      ensures Valid() && samples == old(samples) && View() == Spec.Take(old(View()), s)
    {
      consecutiveOutliers := 0;
      Write(s);
      Refit();
    }

    method Refit()
      requires Valid() && sampleLen > 0
      modifies this`fit, this`ready
      ensures Valid() && View() == Spec.Refitted(old(View()))
    {
      if sampleLen >= Spec.MIN_SAMPLES_READY {
        var ok := ComputeRegression();
        if ok {
          ready := true;
        }
      }
    }

    method OnSenderReport(ntp: int, rtp: u32) returns (result: Spec.Result)
      requires Valid()
      modifies this, samples
      ensures Valid() && samples == old(samples)
      ensures (View(), result) == Spec.OnReport(old(View()), ntp, rtp)
    {
      var unwrapped := UnwrapRTP(rtp);
      var s := Spec.Sample(unwrapped, ntp);
      var same := IsNewest(s);
      if same {
        return Spec.Duplicate;
      }
      var rebuilt := false;
      if ready && Spec.Outlying(fit, s) {
        consecutiveOutliers := consecutiveOutliers + 1;
        if consecutiveOutliers < Spec.MAX_CONSECUTIVE_OUTLIERS {
          return Spec.Outlier;
        }
        Reset();
        unwrapped := UnwrapRTP(rtp);
        s := Spec.Sample(unwrapped, ntp);
        rebuilt := true;
      }
      Accept(s);
      return if rebuilt then Spec.Rebuilt else Spec.Accepted;
    }

    method IsNewest(s: Spec.Sample) returns (same: bool)
      requires Valid()
      ensures same == (Window() != [] && Window()[|Window()| - 1] == s)
    {
      if sampleLen == 0 {
        return false;
      }
      var lastIdx := At(Spec.MAX_SAMPLES, sampleHead, Spec.MAX_SAMPLES - 1);
      return samples[lastIdx] == s;
    }

    method RtpToNtp(rtp: u32) returns (nanos: Option<int>)
      requires Valid()
      ensures nanos == Spec.RtpToNtp(View(), rtp)
    {
      if !ready {
        return None;
      }
      var unwrapped := Spec.Queried(unwrap, rtp);
      return Some(Spec.Round(Spec.Predicted(fit, unwrapped)));
    }
  }
}
