/**
 * Waiting for a stream to settle: packets are held back until they arrive at the pace of their RTP
 * timestamps. Times and durations are in nanoseconds.
 */
module StartGating {
  import opened Machine
  import opened NtpRegression

  const SECOND := 1_000_000_000

  /** received is None for a packet without an arrival time. */
  datatype Packet = Packet(timestamp: u32, received: Option<int>, id: nat)

  /** maxBuffer zero means no limit, as flushAfter zero means no timeout. */
  datatype Config = Config(clockRate: u32, scoreTarget: nat, maxBuffer: nat, maxStable: nat, flushAfter: nat)

  datatype Gate = Gate(
    firstArrival: Option<int>, score: nat, lastTS: u32, lastArrival: int, hasLast: bool, done: bool,
    buffer: seq<Packet>, totalDropped: nat)

  const FRESH := Gate(None, 0, 0, 0, false, false, [], 0)

  /** The packets to start with, how many were given up, and whether the gate is done. */
  datatype Output = Output(ready: seq<Packet>, dropped: nat, done: bool)

  function Duration(c: Config, delta: nat): nat {
    if c.clockRate == 0 then 0 else delta * SECOND / c.clockRate
  }

  function BufferedDuration(c: Config, buffer: seq<Packet>): nat {
    if |buffer| < 2 then 0
    else Duration(c, (buffer[|buffer| - 1].timestamp - buffer[0].timestamp) % TWO32)
  }

  function ArrivalOf(p: Packet, now: int): int {
    if p.received.Some? then p.received.value else now
  }

  /** A timestamp advance is in pace if it took a fifth of its RTP time and is within three tenths of it. */
  predicate InPace(ticks: nat, took: int) {
    took >= ticks / 5 && -(ticks * 3 / 10) <= took - ticks <= ticks * 3 / 10
  }

  /** A packet joins the buffer; one too many drops the oldest. */
  function Joined(c: Config, g: Gate, p: Packet): Gate {
    var buffer := g.buffer + [p];
    if c.maxBuffer == 0 || |buffer| <= c.maxBuffer then g.(buffer := buffer)
    else
      var dropped := |buffer| - c.maxBuffer;
      g.(buffer := buffer[dropped..], score := 0, totalDropped := g.totalDropped + dropped)
  }

  function Restarted(g: Gate, p: Packet): Gate {
    g.(buffer := [p], score := 0, totalDropped := g.totalDropped + |g.buffer|)
  }

  /** What a step drops shows in the total. */
  function Waiting(was: Gate, g: Gate): (Gate, Output)
    requires g.totalDropped >= was.totalDropped
  {
    (g, Output([], g.totalDropped - was.totalDropped, false))
  }

  function Scored(c: Config, was: Gate, g: Gate): (Gate, Output)
    requires g.totalDropped >= was.totalDropped
  {
    if g.totalDropped > was.totalDropped then Waiting(was, g)
    else
      var s := g.(score := g.score + 1);
      if s.score >= c.scoreTarget || BufferedDuration(c, s.buffer) >= c.maxStable
      then (s.(buffer := [], done := true), Output(s.buffer, 0, true))
      else Waiting(was, s)
  }

  function Advanced(c: Config, g: Gate, p: Packet, arrival: int): (Gate, Output)
    requires Signed(p.timestamp, g.lastTS) > 0
  {
    var ticks := Duration(c, Signed(p.timestamp, g.lastTS));
    var moved := g.(lastTS := p.timestamp, lastArrival := arrival);
    if InPace(ticks, arrival - g.lastArrival) then Scored(c, g, Joined(c, moved, p))
    else Waiting(g, Restarted(moved, p))
  }

  function Push(c: Config, g: Gate, p: Packet, now: int): (Gate, Output) {
    if g.done then (g, Output([], 0, true))
    else
      var first := if g.firstArrival.Some? then g else g.(firstArrival := Some(now));
      if c.flushAfter > 0 && now - first.firstArrival.value > c.flushAfter
      then (first.(buffer := [], done := true), Output(g.buffer + [p], 0, true))
      else if !g.hasLast then
        Waiting(first, first.(lastTS := p.timestamp, lastArrival := ArrivalOf(p, now), hasLast := true, buffer := [p]))
      else if Signed(p.timestamp, g.lastTS) < 0 then
        Waiting(first, first.(totalDropped := g.totalDropped + 1))
      else if Signed(p.timestamp, g.lastTS) == 0 then Waiting(first, Joined(c, first, p))
      else Advanced(c, first, p, ArrivalOf(p, now))
  }

  // ---- What the gate has seen ----

  /** A timestamp advance: how far in RTP time, and how long it took. */
  datatype Advance = Advance(ticks: nat, took: int)

  /** accepted are the packets in timestamp order so far; dropped adds up what was reported. */
  datatype History = History(pushed: nat, accepted: seq<Packet>, advances: seq<Advance>, dropped: nat)

  const NOTHING := History(0, [], [], 0)

  predicate InOrder(g: Gate, p: Packet) {
    !g.hasLast || Signed(p.timestamp, g.lastTS) >= 0
  }

  function Seen(c: Config, g: Gate, h: History, p: Packet, now: int): History {
    if g.done then h
    else
      History(
        h.pushed + 1, if InOrder(g, p) then h.accepted + [p] else h.accepted,
        if g.hasLast && Signed(p.timestamp, g.lastTS) > 0
        then h.advances + [Advance(Duration(c, Signed(p.timestamp, g.lastTS)), ArrivalOf(p, now) - g.lastArrival)]
        else h.advances,
        h.dropped + Push(c, g, p, now).1.dropped)
  }

  ghost predicate Suffix<T>(s: seq<T>, all: seq<T>) {
    |s| <= |all| && s == all[|all| - |s|..]
  }

  ghost predicate Serial(s: seq<Packet>) {
    forall i :: 0 < i < |s| ==> Signed(s[i].timestamp, s[i - 1].timestamp) >= 0
  }

  ghost predicate LastInPace(advances: seq<Advance>, n: nat) {
    n <= |advances| && forall i :: |advances| - n <= i < |advances| ==> InPace(advances[i].ticks, advances[i].took)
  }

  ghost predicate Inv(c: Config, g: Gate, h: History) {
    && g.totalDropped == h.dropped
    && (!g.done ==>
      && h.pushed == |g.buffer| + h.dropped
      && Suffix(g.buffer, h.accepted) && Serial(h.accepted)
      && (g.hasLast <==> h.accepted != [])
      && (g.hasLast ==> h.accepted[|h.accepted| - 1].timestamp == g.lastTS)
      && (!g.hasLast ==> g.buffer == [])
      && LastInPace(h.advances, g.score)
      && (c.maxBuffer > 0 ==> |g.buffer| <= c.maxBuffer))
  }

  lemma SerialGrows(s: seq<Packet>, p: Packet)
    requires Serial(s) && (s != [] ==> Signed(p.timestamp, s[|s| - 1].timestamp) >= 0)
    ensures Serial(s + [p])
  {
  }

  lemma PaceGrows(advances: seq<Advance>, n: nat, a: Advance)
    requires LastInPace(advances, n)
    ensures LastInPace(advances + [a], 0)
    ensures InPace(a.ticks, a.took) ==> LastInPace(advances + [a], n + 1)
  {
  }

  lemma JoinedKeeps(c: Config, g: Gate, p: Packet, accepted: seq<Packet>)
    requires Suffix(g.buffer, accepted) && (c.maxBuffer > 0 ==> |g.buffer| <= c.maxBuffer)
    ensures var r := Joined(c, g, p);
      && Suffix(r.buffer, accepted + [p]) && (c.maxBuffer > 0 ==> |r.buffer| <= c.maxBuffer)
      && |r.buffer| + r.totalDropped == |g.buffer| + 1 + g.totalDropped && r.totalDropped >= g.totalDropped
      && r.score == (if r.totalDropped == g.totalDropped then g.score else 0)
      && r == g.(buffer := r.buffer, score := r.score, totalDropped := r.totalDropped)
  {
  }

  /** The gate and its history, without the clock it measures the timeout by. */
  predicate Starting(c: Config, g: Gate, now: int) {
    !g.done && g.firstArrival.Some? && !(c.flushAfter > 0 && now - g.firstArrival.value > c.flushAfter)
  }

  function Timed(g: Gate, now: int): Gate {
    if g.firstArrival.Some? then g else g.(firstArrival := Some(now))
  }

  lemma PushFirst(c: Config, g: Gate, h: History, p: Packet, now: int)
    requires Starting(c, g, now) && !g.hasLast
    ensures var r := g.(lastTS := p.timestamp, lastArrival := ArrivalOf(p, now), hasLast := true, buffer := [p]);
      && Push(c, g, p, now) == Waiting(g, r)
      && Seen(c, g, h, p, now) == History(h.pushed + 1, h.accepted + [p], h.advances, h.dropped)
  {
  }

  lemma FirstKeepsInv(c: Config, g: Gate, h: History, p: Packet, now: int)
    requires Inv(c, g, h) && Starting(c, g, now) && !g.hasLast
    ensures Inv(c, Push(c, g, p, now).0, Seen(c, g, h, p, now))
  {
    PushFirst(c, g, h, p, now);
    assert h.accepted == [] && h.accepted + [p] == [p];
  }

  lemma LateKeepsInv(c: Config, g: Gate, h: History, p: Packet, now: int)
    requires Inv(c, g, h) && Starting(c, g, now) && g.hasLast && Signed(p.timestamp, g.lastTS) < 0
    ensures Inv(c, Push(c, g, p, now).0, Seen(c, g, h, p, now))
  {
  }

  lemma SameKeepsInv(c: Config, g: Gate, h: History, p: Packet, now: int)
    requires Inv(c, g, h) && Starting(c, g, now) && g.hasLast && Signed(p.timestamp, g.lastTS) == 0
    ensures Inv(c, Push(c, g, p, now).0, Seen(c, g, h, p, now))
  {
    JoinedKeeps(c, g, p, h.accepted);
    SerialGrows(h.accepted, p);
    SameTimestamp(p.timestamp, g.lastTS);
  }

  lemma SameTimestamp(a: u32, b: u32)
    requires Signed(a, b) == 0
    ensures a == b
  {
  }

  /** The gate's clock and timestamp move to a packet that is later than all before. */
  function MovedTo(g: Gate, p: Packet, arrival: int): Gate {
    g.(lastTS := p.timestamp, lastArrival := arrival)
  }

  function Later(h: History, p: Packet, a: Advance, dropped: nat): History {
    History(h.pushed + 1, h.accepted + [p], h.advances + [a], h.dropped + dropped)
  }

  lemma InPaceKeepsInv(c: Config, g: Gate, h: History, p: Packet, arrival: int, a: Advance)
    requires Inv(c, g, h) && !g.done && g.hasLast && Signed(p.timestamp, g.lastTS) > 0 && InPace(a.ticks, a.took)
    ensures var (r, o) := Scored(c, g, Joined(c, MovedTo(g, p, arrival), p)); Inv(c, r, Later(h, p, a, o.dropped))
  {
    JoinedKeeps(c, MovedTo(g, p, arrival), p, h.accepted);
    SerialGrows(h.accepted, p);
    PaceGrows(h.advances, g.score, a);
  }

  lemma OutOfPaceKeepsInv(c: Config, g: Gate, h: History, p: Packet, arrival: int, a: Advance)
    requires Inv(c, g, h) && !g.done && g.hasLast && Signed(p.timestamp, g.lastTS) > 0
    ensures Inv(c, Restarted(MovedTo(g, p, arrival), p), Later(h, p, a, |g.buffer|))
  {
  }

  lemma AdvanceKeepsInv(c: Config, g: Gate, h: History, p: Packet, now: int)
    requires Inv(c, g, h) && Starting(c, g, now) && g.hasLast && Signed(p.timestamp, g.lastTS) > 0
    ensures Inv(c, Push(c, g, p, now).0, Seen(c, g, h, p, now))
  {
    var arrival := ArrivalOf(p, now);
    var a := Advance(Duration(c, Signed(p.timestamp, g.lastTS)), arrival - g.lastArrival);
    PushAdvances(c, g, h, p, now, a);
    if InPace(a.ticks, a.took) {
      InPaceKeepsInv(c, g, h, p, arrival, a);
    } else {
      OutOfPaceKeepsInv(c, g, h, p, arrival, a);
    }
  }

  lemma PushAdvances(c: Config, g: Gate, h: History, p: Packet, now: int, a: Advance)
    requires Starting(c, g, now) && g.hasLast && Signed(p.timestamp, g.lastTS) > 0
    requires a == Advance(Duration(c, Signed(p.timestamp, g.lastTS)), ArrivalOf(p, now) - g.lastArrival)
    ensures var m := MovedTo(g, p, ArrivalOf(p, now));
      && Push(c, g, p, now) ==
        (if InPace(a.ticks, a.took) then Scored(c, g, Joined(c, m, p)) else Waiting(g, Restarted(m, p)))
      && Seen(c, g, h, p, now) == Later(h, p, a, Push(c, g, p, now).1.dropped)
  {
  }

  lemma WaitingKeepsInv(c: Config, g: Gate, h: History, p: Packet, now: int)
    requires Inv(c, g, h) && Starting(c, g, now)
    ensures Inv(c, Push(c, g, p, now).0, Seen(c, g, h, p, now))
  {
    if !g.hasLast {
      FirstKeepsInv(c, g, h, p, now);
    } else if Signed(p.timestamp, g.lastTS) < 0 {
      LateKeepsInv(c, g, h, p, now);
    } else if Signed(p.timestamp, g.lastTS) == 0 {
      SameKeepsInv(c, g, h, p, now);
    } else {
      AdvanceKeepsInv(c, g, h, p, now);
    }
  }

  /** The first push only starts the clock. */
  lemma FirstStartsClock(c: Config, g: Gate, h: History, p: Packet, now: int)
    requires !g.done
    ensures Push(c, Timed(g, now), p, now) == Push(c, g, p, now)
    ensures Seen(c, Timed(g, now), h, p, now) == Seen(c, g, h, p, now)
  {
  }

  /** Every push keeps the count, the order and the pace. */
  lemma PushKeepsInv(c: Config, g: Gate, h: History, p: Packet, now: int)
    requires Inv(c, g, h)
    ensures Inv(c, Push(c, g, p, now).0, Seen(c, g, h, p, now))
  {
    var t := Timed(g, now);
    if !g.done {
      FirstStartsClock(c, g, h, p, now);
      if Starting(c, t, now) {
        WaitingKeepsInv(c, t, h, p, now);
      }
    }
  }

  // ---- How it ends ----

  /**
   * The push that ends the waiting: every packet pushed is handed over or was counted as dropped. It
   * ends by timeout, with the packet as it came; or with packets in timestamp order, the newest of
   * those accepted, after the target of advances in pace or enough time in the buffer.
   */
  lemma CompletionAccountsForAll(c: Config, g: Gate, h: History, p: Packet, now: int)
    requires Inv(c, g, h) && !g.done && Push(c, g, p, now).1.done
    ensures var (r, o) := Push(c, g, p, now); var s := Seen(c, g, h, p, now);
      && r.done && r.buffer == [] && s.pushed == |o.ready| + s.dropped && o.dropped == 0
      && (o.ready == g.buffer + [p] || Suffix(o.ready, s.accepted))
  {
  }

  /** Completion before the timeout: the last advances were in pace, or the buffer spans long enough. */
  lemma CompletionIsEarned(c: Config, g: Gate, h: History, p: Packet, now: int)
    requires Inv(c, g, h) && Starting(c, g, now) && Push(c, g, p, now).1.done
    ensures var (r, o) := Push(c, g, p, now); var s := Seen(c, g, h, p, now);
      && Suffix(o.ready, s.accepted) && Serial(s.accepted)
      && (LastInPace(s.advances, c.scoreTarget) || BufferedDuration(c, o.ready) >= c.maxStable)
  {
    var arrival := ArrivalOf(p, now);
    var a := Advance(Duration(c, Signed(p.timestamp, g.lastTS)), arrival - g.lastArrival);
    OnlyAdvancesComplete(c, g, p, now);
    PushAdvances(c, g, h, p, now, a);
    JoinedKeeps(c, MovedTo(g, p, arrival), p, h.accepted);
    SerialGrows(h.accepted, p);
    PaceIsEnough(c, g, h, a);
  }

  lemma OnlyAdvancesComplete(c: Config, g: Gate, p: Packet, now: int)
    requires Starting(c, g, now) && Push(c, g, p, now).1.done
    ensures g.hasLast && Signed(p.timestamp, g.lastTS) > 0
    ensures InPace(Duration(c, Signed(p.timestamp, g.lastTS)), ArrivalOf(p, now) - g.lastArrival)
  {
  }

  lemma PaceIsEnough(c: Config, g: Gate, h: History, a: Advance)
    requires LastInPace(h.advances, g.score) && InPace(a.ticks, a.took)
    ensures g.score + 1 >= c.scoreTarget ==> LastInPace(h.advances + [a], c.scoreTarget)
  {
  }

  function Feed(c: Config, g: Gate, h: History, pushes: seq<(Packet, int)>): (Gate, History)
    decreases pushes
  {
    if pushes == [] then (g, h)
    else
      var (p, now) := pushes[0];
      Feed(c, Push(c, g, p, now).0, Seen(c, g, h, p, now), pushes[1..])
  }

  /**
   * While the gate waits: packets pushed are buffered or were reported dropped, and the buffer is
   * the newest stretch, no longer than its limit, of the packets accepted in timestamp order.
   */
  lemma {:induction false} WaitingIsAccounted(c: Config, g: Gate, h: History, pushes: seq<(Packet, int)>)
    requires Inv(c, g, h)
    ensures var (r, s) := Feed(c, g, h, pushes);
      && Inv(c, r, s)
      && (!r.done ==>
        && s.pushed == |r.buffer| + s.dropped
        && Suffix(r.buffer, s.accepted) && Serial(s.accepted)
        && (c.maxBuffer > 0 ==> |r.buffer| <= c.maxBuffer))
    decreases pushes
  {
    if pushes == [] {
    } else {
      var (p, now) := pushes[0];
      PushKeepsInv(c, g, h, p, now);
      WaitingIsAccounted(c, Push(c, g, p, now).0, Seen(c, g, h, p, now), pushes[1..]);
    }
  }
}
