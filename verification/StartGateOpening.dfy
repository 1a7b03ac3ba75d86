/** When the gate opens: exactly which push completes it, and how long a steady stream waits. */
module StartGateOpening {
  import opened Machine
  import opened NtpRegression
  import opened StartGating

  /** Being in pace is arriving within three tenths of the RTP spacing: the test for a fifth never decides. */
  lemma InPaceIff(ticks: nat, took: int)
    ensures InPace(ticks, took) <==> ticks - ticks * 3 / 10 <= took <= ticks + ticks * 3 / 10
  {
  }

  /** The packet comes in pace, and the buffer has a place for it. */
  predicate Counts(c: Config, g: Gate, p: Packet, now: int) {
    && g.hasLast && Signed(p.timestamp, g.lastTS) > 0
    && InPace(Duration(c, Signed(p.timestamp, g.lastTS)), ArrivalOf(p, now) - g.lastArrival)
    && (c.maxBuffer == 0 || |g.buffer| < c.maxBuffer)
  }

  predicate TimedOut(c: Config, g: Gate, now: int) {
    c.flushAfter > 0 && g.firstArrival.Some? && now - g.firstArrival.value > c.flushAfter
  }

  /** A push in pace counts once; with the target reached, or enough time buffered, it completes the gate. */
  predicate Suffices(c: Config, g: Gate, p: Packet) {
    g.score + 1 >= c.scoreTarget || BufferedDuration(c, g.buffer + [p]) >= c.maxStable
  }

  /**
   * A push completes a waiting gate if and only if the time is out, or the packet counts and suffices;
   * either way everything buffered is handed over with it.
   */
  lemma CompletesIff(c: Config, g: Gate, p: Packet, now: int)
    requires !g.done && (c.maxBuffer == 0 || |g.buffer| <= c.maxBuffer)
    ensures var (r, o) := Push(c, g, p, now);
      && (o.done <==> TimedOut(c, g, now) || (Counts(c, g, p, now) && Suffices(c, g, p)))
      && (o.done ==> o.ready == g.buffer + [p] && o.dropped == 0 && r.done)
      && (!o.done ==> o.ready == [] && !r.done)
  {
  }

  /** What a push does to the score: counts, keeps it, or starts over. */
  lemma ScoreCounts(c: Config, g: Gate, p: Packet, now: int)
    requires !g.done && !Push(c, g, p, now).1.done && (c.maxBuffer == 0 || |g.buffer| <= c.maxBuffer)
    ensures var r := Push(c, g, p, now).0;
      r.score ==
        if Counts(c, g, p, now) then g.score + 1
        else if !g.hasLast || Signed(p.timestamp, g.lastTS) < 0 then g.score
        else if Signed(p.timestamp, g.lastTS) == 0 && (c.maxBuffer == 0 || |g.buffer| < c.maxBuffer) then g.score
        else 0
  {
  }

  /** A stretch of pushes, each counting, none timing out. */
  ghost predicate AllCount(c: Config, g: Gate, pushes: seq<(Packet, int)>)
    decreases pushes
  {
    pushes == [] ||
    (g.done || (Counts(c, g, pushes[0].0, pushes[0].1) && !TimedOut(c, g, pushes[0].1)
      && AllCount(c, Push(c, g, pushes[0].0, pushes[0].1).0, pushes[1..])))
  }

  function After(c: Config, g: Gate, pushes: seq<(Packet, int)>): Gate
    decreases pushes
  {
    if pushes == [] then g else After(c, Push(c, g, pushes[0].0, pushes[0].1).0, pushes[1..])
  }

  /** As many pushes that count as the target asks for open the gate, whatever it has buffered. */
  lemma {:induction false} TargetOpens(c: Config, g: Gate, pushes: seq<(Packet, int)>)
    requires AllCount(c, g, pushes) && (c.maxBuffer == 0 || |g.buffer| <= c.maxBuffer)
    requires !g.done ==> g.firstArrival.Some? && g.score + |pushes| >= c.scoreTarget && pushes != []
    ensures After(c, g, pushes).done
    decreases pushes
  {
    if g.done {
      StaysDone(c, g, pushes);
    } else {
      var (p, now) := pushes[0];
      CountedOnce(c, g, p, now);
      var r := Push(c, g, p, now).0;
      if r.done {
        StaysDone(c, r, pushes[1..]);
      } else {
        TargetOpens(c, r, pushes[1..]);
      }
    }
  }

  lemma CountedOnce(c: Config, g: Gate, p: Packet, now: int)
    requires !g.done && g.firstArrival.Some? && (c.maxBuffer == 0 || |g.buffer| <= c.maxBuffer)
    requires Counts(c, g, p, now) && !TimedOut(c, g, now)
    ensures var r := Push(c, g, p, now).0;
      if Suffices(c, g, p) then r.done
      else !r.done && r.score == g.score + 1 < c.scoreTarget && r.firstArrival.Some? && r.buffer == g.buffer + [p]
  {
  }

  lemma {:induction false} StaysDone(c: Config, g: Gate, pushes: seq<(Packet, int)>)
    requires g.done
    ensures After(c, g, pushes) == g
    decreases pushes
  {
    if pushes == [] {
    } else {
      StaysDone(c, g, pushes[1..]);
    }
  }
}
