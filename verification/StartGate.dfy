/** The start gate as an object: the buffer and cadence it updates with every packet. */
module StartGate {
  import opened Machine
  import Spec = StartGating
  import N = NtpRegression

  /** What a gate is set up with for a track of the kind. */
  function ConfigFor(clockRate: u32, audio: bool): Spec.Config {
    Spec.Config(clockRate, 5, if audio then 200 else 1000, Spec.SECOND, 2 * Spec.SECOND)
  }

  class Gate {
    const config: Spec.Config
    var firstArrival: Option<int>
    var score: nat
    var lastTS: u32
    var lastArrival: int
    var hasLast: bool
    var done: bool
    var buffer: seq<Spec.Packet>
    var totalDropped: nat

    ghost function View(): Spec.Gate
      reads this
    {
      Spec.Gate(firstArrival, score, lastTS, lastArrival, hasLast, done, buffer, totalDropped)
    }

    constructor (clockRate: u32, audio: bool)
      ensures View() == Spec.FRESH && config == ConfigFor(clockRate, audio)
    {
      config := ConfigFor(clockRate, audio);
      firstArrival, score, lastTS, lastArrival, hasLast := None, 0, 0, 0, false;
      done, buffer, totalDropped := false, [], 0;
    }

    method Push(p: Spec.Packet, now: int) returns (out: Spec.Output)
      modifies this
      ensures (View(), out) == Spec.Push(config, old(View()), p, now)
    {
      if done {
        return Spec.Output([], 0, true);
      }
      var elapsed := 0;
      if firstArrival.Some? {
        elapsed := now - firstArrival.value;
      } else {
        firstArrival := Some(now);
      }
      if config.flushAfter > 0 && elapsed > config.flushAfter {
        var ready := buffer + [p];
        buffer, done := [], true;
        return Spec.Output(ready, 0, true);
      }
      if !hasLast {
        lastTS, lastArrival, hasLast := p.timestamp, Spec.ArrivalOf(p, now), true;
        buffer := [p];
        return Spec.Output([], 0, false);
      }
      var delta := N.Signed(p.timestamp, lastTS);
      if delta < 0 {
        totalDropped := totalDropped + 1;
        return Spec.Output([], 1, false);
      }
      if delta == 0 {
        var dropped := Join(p);
        return Spec.Output([], dropped, false);
      }
      out := Advance(p, delta, Spec.ArrivalOf(p, now));
    }

    method Advance(p: Spec.Packet, delta: nat, arrival: int) returns (out: Spec.Output)
      requires delta == N.Signed(p.timestamp, lastTS) > 0 && !done
      modifies this
      ensures (View(), out) == Spec.Advanced(config, old(View()), p, arrival)
    {
      var took := arrival - lastArrival;
      lastTS, lastArrival := p.timestamp, arrival;
      var ticks := Spec.Duration(config, delta);
      if took < ticks / 5 {
        var dropped := RestartSequence(p);
        return Spec.Output([], dropped, false);
      }
      var skew := if took - ticks < 0 then ticks - took else took - ticks;
      if skew > ticks * 3 / 10 {
        var dropped := RestartSequence(p);
        return Spec.Output([], dropped, false);
      }
      var dropped := Join(p);
      if dropped > 0 {
        return Spec.Output([], dropped, false);
      }
      out := Score();
    }

    method Score() returns (out: Spec.Output)
      requires !done
      modifies this`score, this`done, this`buffer
      ensures (View(), out) == Spec.Scored(config, old(View()), old(View()))
    {
      score := score + 1;
      if score >= config.scoreTarget || Spec.BufferedDuration(config, buffer) >= config.maxStable {
        var ready := buffer;
        buffer, done := [], true;
        return Spec.Output(ready, 0, true);
      }
      return Spec.Output([], 0, false);
    }

    method Join(p: Spec.Packet) returns (dropped: nat)
      modifies this`buffer, this`score, this`totalDropped
      ensures View() == Spec.Joined(config, old(View()), p) && dropped == totalDropped - old(totalDropped)
    {
      buffer := buffer + [p];
      dropped := EnforceWindow();
    }

    method EnforceWindow() returns (dropped: nat)
      modifies this`buffer, this`score, this`totalDropped
      ensures dropped ==
        if config.maxBuffer == 0 || |old(buffer)| <= config.maxBuffer then 0 else |old(buffer)| - config.maxBuffer
      ensures buffer == old(buffer)[dropped..] && totalDropped == old(totalDropped) + dropped
      ensures score == if dropped > 0 then 0 else old(score)
    {
      if config.maxBuffer == 0 || |buffer| <= config.maxBuffer {
        return 0;
      }
      dropped := |buffer| - config.maxBuffer;
      buffer := buffer[dropped..];
      score := 0;
      totalDropped := totalDropped + dropped;
    }

    method RestartSequence(seed: Spec.Packet) returns (dropped: nat)
      modifies this`buffer, this`score, this`totalDropped
      ensures View() == Spec.Restarted(old(View()), seed) && dropped == |old(buffer)|
    {
      dropped := |buffer|;
      buffer := [seed];
      score := 0;
      totalDropped := totalDropped + dropped;
    }
  }
}
