/**
 The reward accumulator: rewards flow at a rate until a finish time and are spread over
 the tickets in force, slice by slice along the checkpoint history.
 */
module GaugeReward {
  import opened FixedPoint
  import opened Results
  import opened GaugeHistory

  datatype Reward = Reward(rate: nat, finish: nat, lastUpdate: nat, cumulative: int)

  /** Reward seconds between two times: none count after the finish. */
  function Seconds(r: Reward, from: int, to: int): int {
    Min(to, r.finish) - Min(from, r.finish)
  }

  /** The per-ticket increment of one slice. */
  function PerTicket(r: Reward, from: nat, to: nat, amount: int): int
    requires amount > 0
  {
    r.rate * Seconds(r, from, to) / amount
  }

  /** Where an update stands: how far in time, the accumulator, and its own history. */
  datatype Progress = Progress(start: nat, cumulative: int, log: History)

  function Later(a: nat, b: nat): nat {
    if a > b then a else b
  }

  /** Account for the slice between two checkpoints; nothing flows while no ticket is in
      force. */
  function Advance(r: Reward, point: Checkpoint, next: Checkpoint, g: Progress): Progress {
    if point.amount <= 0 then g else
      var end := Later(next.timestamp, g.start);
      var c := g.cumulative + PerTicket(r, Later(point.timestamp, g.start), end, point.amount);
      Progress(end, c, Write(g.log, end, c))
  }

  function AdvanceAll(r: Reward, h: History, i: nat, n: nat, g: Progress): Progress
    requires 1 <= i && n < |h|
    decreases n - i
  {
    if i >= n then g else AdvanceAll(r, h, i + 1, n, Advance(r, h[i - 1], h[i], g))
  }

  /** The last slice runs from the latest checkpoint to the present. */
  function Conclude(r: Reward, point: Checkpoint, now: nat, g: Progress): Progress {
    if point.amount <= 0 then g else
      var c := g.cumulative + PerTicket(r, Later(point.timestamp, g.start), Later(Min(now, r.finish), g.start),
                                        point.amount);
      Progress(now, c, Write(g.log, now, c))
  }

  datatype Updated = Updated(reward: Reward, log: History)

  /** Bring the accumulator up to date.  The slices stop one short: the one between the
      last two checkpoints is left out.  When the last update predates the first of several
      checkpoints, the search finds none and the keeper reads a missing amount. */
  function Update(r: Reward, h: History, now: nat, log: History): Result<Updated>
    requires Increasing(h)
  {
    if h == [] then Ok(Updated(r, log))
    else if r.rate == 0 then Ok(Updated(r.(lastUpdate := now), log))
    else
      var first, start := Prior(h, r.lastUpdate), Progress(r.lastUpdate, r.cumulative, log);
      :- Need(first > 0 || |h| == 1, Panic);
      var g := if first == 0 then start else AdvanceAll(r, h, first, |h| - 1, start);
      var last := Conclude(r, h[|h| - 1], now, g);
      Ok(Updated(r.(cumulative := last.cumulative, lastUpdate := last.start), last.log))
  }

  // --- What an update adds --------------------------------------------------------

  /** The reward seconds between two times that lie after the last update, one by one. */
  function Live(r: Reward, from: nat, to: nat): nat
    decreases (to)
  {
    if to <= from then 0
    else Live(r, from, to - 1) + if r.lastUpdate <= to - 1 < r.finish then 1 else 0
  }

  /** Clamping both ends at the last update and the finish counts them. */
  lemma {:induction false} LiveIs(r: Reward, from: nat, to: nat)
    requires from <= to
    ensures Live(r, from, to) == Seconds(r, Later(from, r.lastUpdate), Later(to, r.lastUpdate))
    decreases (to)
  {
    if from < to { LiveIs(r, from, to - 1); }
  }

  lemma LiveAdds(r: Reward, a: nat, b: nat, c: nat)
    requires a <= b <= c
    ensures Live(r, a, c) == Live(r, a, b) + Live(r, b, c)
  {
    LiveIs(r, a, b);
    LiveIs(r, b, c);
    LiveIs(r, a, c);
  }

  /** What a ticket earns between two times with a number of tickets in force. */
  ghost function Gain(r: Reward, from: nat, to: nat, tickets: int): int {
    if tickets <= 0 then 0 else r.rate * Live(r, from, to) / tickets
  }

  /** What it earns in the interval before the i-th checkpoint, and since the last one. */
  ghost function GainAt(r: Reward, h: History, i: nat): int
    requires 1 <= i < |h|
  {
    Gain(r, h[i - 1].timestamp, h[i].timestamp, h[i - 1].amount)
  }

  ghost function TailGain(r: Reward, h: History, now: nat): int
    requires h != []
  {
    Gain(r, h[|h| - 1].timestamp, now, h[|h| - 1].amount)
  }

  /** What it earns in each interval. */
  ghost function GainList(r: Reward, h: History): (gains: seq<int>)
    ensures |gains| == |h| && forall i | 1 <= i < |h| :: gains[i] == GainAt(r, h, i)
  {
    seq(|h|, i requires 0 <= i < |h| => if i == 0 then 0 else GainAt(r, h, i))
  }

  /** What the gains before the n-th checkpoint add up to. */
  function Gains(gains: seq<int>, n: nat): int
    requires n <= |gains|
  {
    if n <= 1 then 0 else Gains(gains, n - 1) + gains[n - 1]
  }

  /** Whether the interval before the i-th checkpoint is credited: it has tickets and ends
      after the last update. */
  predicate CreditedAt(r: Reward, h: History, i: nat)
    requires 1 <= i < |h|
  {
    h[i - 1].amount > 0 && h[i].timestamp > r.lastUpdate
  }

  /** The end of the last credited interval, or the last update. */
  function CreditedUpTo(r: Reward, h: History, n: nat): nat
    requires n <= |h|
  {
    if n <= 1 then r.lastUpdate
    else if CreditedAt(r, h, n - 1) then h[n - 1].timestamp
    else CreditedUpTo(r, h, n - 1)
  }

  /** What is written down: at the end of each credited interval, the accumulator so far. */
  function Entries(r: Reward, h: History, gains: seq<int>, n: nat): seq<Checkpoint>
    requires n <= |h| == |gains|
  {
    if n <= 1 then []
    else Entries(r, h, gains, n - 1)
         + if CreditedAt(r, h, n - 1) then [Checkpoint(h[n - 1].timestamp, r.cumulative + Gains(gains, n))] else []
  }

  function WriteAll(log: History, entries: seq<Checkpoint>): History {
    if entries == [] then log else
      var n := |entries| - 1;
      Write(WriteAll(log, entries[..n]), entries[n].timestamp, entries[n].amount)
  }

  lemma WriteOneMore(log: History, entries: seq<Checkpoint>, e: Checkpoint)
    ensures WriteAll(log, entries + [e]) == Write(WriteAll(log, entries), e.timestamp, e.amount)
  {
    assert (entries + [e])[..|entries|] == entries;
  }

  /** Where an update stands after the intervals before the n-th checkpoint. */
  function Standing(r: Reward, h: History, gains: seq<int>, n: nat, log: History): Progress
    requires n <= |h| == |gains|
  {
    Progress(CreditedUpTo(r, h, n), r.cumulative + Gains(gains, n), WriteAll(log, Entries(r, h, gains, n)))
  }

  lemma NothingLive(r: Reward, from: nat, to: nat)
    requires from <= to <= r.lastUpdate
    ensures Live(r, from, to) == 0
  {
    LiveIs(r, from, to);
  }

  /** Intervals that ended by the last update add nothing. */
  lemma NoGainBefore(r: Reward, h: History, k: nat)
    requires Increasing(h) && 1 <= k < |h| && h[k].timestamp <= r.lastUpdate
    ensures GainAt(r, h, k) == 0
  {
    assert h[k - 1].timestamp < h[k].timestamp;
    NothingLive(r, h[k - 1].timestamp, h[k].timestamp);
  }

  lemma {:induction false} StandingFirst(r: Reward, h: History, gains: seq<int>, n: nat, log: History)
    requires n <= |h| == |gains|
    requires forall k | 0 <= k < n :: h[k].timestamp <= r.lastUpdate && (k > 0 ==> gains[k] == 0)
    ensures Standing(r, h, gains, n, log) == Progress(r.lastUpdate, r.cumulative, log)
    ensures Gains(gains, n) == 0 && Entries(r, h, gains, n) == []
  {
    if n > 1 { StandingFirst(r, h, gains, n - 1, log); }
  }

  lemma {:induction false} CreditedBefore(r: Reward, h: History, n: nat)
    requires Increasing(h) && 1 <= n <= |h|
    ensures r.lastUpdate <= CreditedUpTo(r, h, n) <= Later(h[n - 1].timestamp, r.lastUpdate)
  {
    if n > 1 {
      CreditedBefore(r, h, n - 1);
      assert h[n - 2].timestamp < h[n - 1].timestamp;
    }
  }

  /** The slice of an interval after the last update, from wherever the update stands before it. */
  lemma SliceGain(r: Reward, point: Checkpoint, next: Checkpoint, start: nat)
    requires point.amount > 0 && point.timestamp < next.timestamp && r.lastUpdate < next.timestamp
    requires r.lastUpdate <= start <= Later(point.timestamp, r.lastUpdate)
    ensures Later(next.timestamp, start) == next.timestamp
    ensures PerTicket(r, Later(point.timestamp, start), next.timestamp, point.amount)
              == Gain(r, point.timestamp, next.timestamp, point.amount)
  {
    LiveIs(r, point.timestamp, next.timestamp);
  }

  /** Credit a gain, and write it down, if there are tickets. */
  function Credited(g: Progress, tickets: int, t: nat, gain: int): Progress {
    if tickets <= 0 then g else Progress(t, g.cumulative + gain, Write(g.log, t, g.cumulative + gain))
  }

  /** Advancing over an interval credits its gain. */
  lemma AdvanceGains(r: Reward, point: Checkpoint, next: Checkpoint, g: Progress)
    requires point.timestamp < next.timestamp && r.lastUpdate < next.timestamp
    requires r.lastUpdate <= g.start <= Later(point.timestamp, r.lastUpdate)
    ensures Advance(r, point, next, g)
              == Credited(g, point.amount, next.timestamp, Gain(r, point.timestamp, next.timestamp, point.amount))
  {
    if point.amount > 0 { SliceGain(r, point, next, g.start); }
  }

  lemma EntriesNext(r: Reward, h: History, gains: seq<int>, i: nat, log: History)
    requires 1 <= i < |h| == |gains|
    ensures WriteAll(log, Entries(r, h, gains, i + 1))
              == if CreditedAt(r, h, i)
                 then Write(WriteAll(log, Entries(r, h, gains, i)), h[i].timestamp, r.cumulative + Gains(gains, i + 1))
                 else WriteAll(log, Entries(r, h, gains, i))
  {
    if CreditedAt(r, h, i) {
      WriteOneMore(log, Entries(r, h, gains, i), Checkpoint(h[i].timestamp, r.cumulative + Gains(gains, i + 1)));
    } else {
      assert Entries(r, h, gains, i) + [] == Entries(r, h, gains, i);
    }
  }

  lemma StandingGrows(r: Reward, h: History, gains: seq<int>, i: nat, log: History)
    requires 1 <= i < |h| == |gains| && r.lastUpdate < h[i].timestamp && (h[i - 1].amount <= 0 ==> gains[i] == 0)
    ensures Standing(r, h, gains, i + 1, log)
              == Credited(Standing(r, h, gains, i, log), h[i - 1].amount, h[i].timestamp, gains[i])
  {
    EntriesNext(r, h, gains, i, log);
    assert r.cumulative + Gains(gains, i + 1) == r.cumulative + Gains(gains, i) + gains[i];
  }

  lemma StandingNext(r: Reward, h: History, gains: seq<int>, i: nat, log: History)
    requires Increasing(h) && 1 <= i < |h| == |gains| && r.lastUpdate < h[i].timestamp && gains[i] == GainAt(r, h, i)
    ensures Advance(r, h[i - 1], h[i], Standing(r, h, gains, i, log)) == Standing(r, h, gains, i + 1, log)
  {
    assert h[i - 1].timestamp < h[i].timestamp;
    CreditedBefore(r, h, i);
    AdvanceGains(r, h[i - 1], h[i], Standing(r, h, gains, i, log));
    StandingGrows(r, h, gains, i, log);
  }

  /** Advancing interval by interval goes through every stand. */
  lemma {:induction false} AdvanceThrough(r: Reward, h: History, i: nat, n: nat, stands: seq<Progress>)
    requires 1 <= i <= n < |h| && |stands| == |h|
    requires forall k | i <= k < n :: Advance(r, h[k - 1], h[k], stands[k]) == stands[k + 1]
    ensures AdvanceAll(r, h, i, n, stands[i]) == stands[n]
    decreases n - i
  {
    if i < n { AdvanceThrough(r, h, i + 1, n, stands); }
  }

  lemma {:induction false} StandingAll(r: Reward, h: History, gains: seq<int>, i: nat, n: nat, log: History,
                                       stands: seq<Progress>)
    requires Increasing(h) && 1 <= i <= n < |h| == |gains| == |stands|
    requires forall k | i <= k < |h| :: r.lastUpdate < h[k].timestamp && gains[k] == GainAt(r, h, k)
    requires forall k | 0 <= k < |h| :: stands[k] == Standing(r, h, gains, k, log)
    ensures AdvanceAll(r, h, i, n, stands[i]) == stands[n]
  {
    forall k | i <= k < n
      ensures Advance(r, h[k - 1], h[k], stands[k]) == stands[k + 1]
    {
      StandingNext(r, h, gains, k, log);
    }
    AdvanceThrough(r, h, i, n, stands);
  }

  lemma Concludes(r: Reward, h: History, now: nat, log: History)
    requires Increasing(h) && h != [] && Before(h, now) && r.lastUpdate <= now
    ensures var n, point := |h| - 1, h[|h| - 1];
            var g := Standing(r, h, GainList(r, h), n, log);
            Conclude(r, point, now, g) ==
              if point.amount <= 0 then g
              else Progress(now, g.cumulative + TailGain(r, h, now),
                            Write(g.log, now, g.cumulative + TailGain(r, h, now)))
  {
    var n, point := |h| - 1, h[|h| - 1];
    if n > 0 {
      CreditedBefore(r, h, n);
      assert h[n - 1].timestamp < h[n].timestamp;
    }
    var g := Standing(r, h, GainList(r, h), n, log);
    var from, to := Later(point.timestamp, g.start), Later(Min(now, r.finish), g.start);
    assert from == Later(point.timestamp, r.lastUpdate);
    LiveIs(r, point.timestamp, now);
    assert Seconds(r, from, to) == Seconds(r, from, now);
  }

  /** What an update leaves, over the checkpoints and the times alone: the accumulator grows by
      the gain of every interval but the last and of the time since the last checkpoint, the
      update time moves to now or to the end of the last credited interval, and each
      credited interval leaves an entry.  A reward that does not run only moves on. */
  ghost function Expected(r: Reward, h: History, now: nat, log: History): Updated {
    if h == [] then Updated(r, log)
    else if r.rate == 0 then Updated(r.(lastUpdate := now), log)
    else
      var n, point := |h| - 1, h[|h| - 1];
      var gains := GainList(r, h);
      var c := r.cumulative + Gains(gains, n) + TailGain(r, h, now);
      var written := WriteAll(log, Entries(r, h, gains, n));
      if point.amount > 0 then Updated(r.(cumulative := c, lastUpdate := now), Write(written, now, c))
      else Updated(r.(cumulative := c, lastUpdate := CreditedUpTo(r, h, n)), written)
  }

  lemma StandsBeforeLast(r: Reward, h: History, first: nat, log: History)
    requires Increasing(h) && h != [] && first == Prior(h, r.lastUpdate) && (first > 0 || |h| == 1)
    ensures var n, start := |h| - 1, Progress(r.lastUpdate, r.cumulative, log);
            (if first == 0 then start else AdvanceAll(r, h, first, n, start)) == Standing(r, h, GainList(r, h), n, log)
  {
    var n, gains := |h| - 1, GainList(r, h);
    forall k | 0 < k < first
      ensures gains[k] == 0
    {
      NoGainBefore(r, h, k);
    }
    if first == 0 || first >= n {
      StandingFirst(r, h, gains, n, log);
    } else {
      StandingFirst(r, h, gains, first, log);
      StandingAll(r, h, gains, first, n, log, seq(|h|, k requires 0 <= k < |h| => Standing(r, h, gains, k, log)));
    }
  }

  lemma UpdateConcludes(r: Reward, h: History, now: nat, log: History)
    requires Increasing(h) && h != [] && r.rate > 0
    ensures Update(r, h, now, log).Ok? ==>
              var last := Conclude(r, h[|h| - 1], now, Standing(r, h, GainList(r, h), |h| - 1, log));
              Update(r, h, now, log).value
                == Updated(r.(cumulative := last.cumulative, lastUpdate := last.start), last.log)
  {
    var first := Prior(h, r.lastUpdate);
    if first > 0 || |h| == 1 { StandsBeforeLast(r, h, first, log); }
  }

  lemma UpdateExact(r: Reward, h: History, now: nat, log: History)
    requires Increasing(h) && Before(h, now) && r.lastUpdate <= now
    ensures Update(r, h, now, log).Ok? ==> Update(r, h, now, log).value == Expected(r, h, now, log)
  {
    if h != [] && r.rate > 0 && Update(r, h, now, log).Ok? {
      UpdateConcludes(r, h, now, log);
      Concludes(r, h, now, log);
    }
  }

  // --- The reward's own history ---------------------------------------------------

  predicate Ahead(log: History, entries: seq<Checkpoint>) {
    Increasing(log) && Increasing(entries) && (entries != [] ==> Before(log, entries[0].timestamp))
  }

  lemma {:induction false} WrittenInOrder(log: History, entries: seq<Checkpoint>)
    requires Ahead(log, entries)
    ensures Increasing(WriteAll(log, entries))
    ensures entries != [] ==> Before(WriteAll(log, entries), entries[|entries| - 1].timestamp)
    decreases |entries|
  {
    if entries != [] {
      var n := |entries| - 1;
      assert n > 0 ==> entries[..n][0] == entries[0] && entries[n - 1].timestamp < entries[n].timestamp;
      WrittenInOrder(log, entries[..n]);
      WriteKeeps(WriteAll(log, entries[..n]), entries[n].timestamp, entries[n].amount);
    }
  }

  /** Entries written in order are in force from their times on, each until the next. */
  lemma {:induction false} WrittenInForce(log: History, entries: seq<Checkpoint>, t: nat)
    requires Ahead(log, entries)
    ensures Increasing(WriteAll(log, entries))
    ensures InForce(WriteAll(log, entries), t) == WrittenBy(log, entries, t)
    decreases |entries|
  {
    WrittenInOrder(log, entries);
    if entries != [] {
      var n := |entries| - 1;
      AheadRest(log, entries);
      WrittenInOrder(log, entries[..n]);
      WrittenInForce(log, entries[..n], t);
      WriteInForce(WriteAll(log, entries[..n]), entries[n].timestamp, entries[n].amount, t);
    }
  }

  /** The last entry not after a time, or what was in force before. */
  function WrittenBy(log: History, entries: seq<Checkpoint>, t: nat): Option<int>
    requires Increasing(log)
  {
    if entries == [] then InForce(log, t)
    else if entries[|entries| - 1].timestamp <= t then Some(entries[|entries| - 1].amount)
    else WrittenBy(log, entries[..|entries| - 1], t)
  }

  lemma AheadRest(log: History, entries: seq<Checkpoint>)
    requires Ahead(log, entries) && entries != []
    ensures var n := |entries| - 1;
            Ahead(log, entries[..n]) && (n > 0 ==> entries[..n][n - 1].timestamp < entries[n].timestamp)
    ensures var n := |entries| - 1;
            n > 0 ==> entries[..n][|entries[..n]| - 1] == entries[n - 1]
  {
    var n := |entries| - 1;
    assert n > 0 ==> entries[..n][0] == entries[0];
  }

  // --- What an update pays out ----------------------------------------------------

  lemma DivideWithin(total: nat, amount: int)
    requires amount > 0
    ensures 0 <= total / amount && amount * (total / amount) <= total < amount * (total / amount) + amount
  {
    DivMod(total, amount);
    MulMono(0, total / amount, amount);
  }

  /** A slice with an end not before its beginning counts no negative seconds, never lowers
      the accumulator, and pays out the rate times its reward seconds, less a remainder that
      does not reach one per ticket. */
  lemma SliceBound(r: Reward, from: nat, to: nat, amount: int)
    requires amount > 0 && Min(from, r.finish) <= Min(to, r.finish)
    ensures 0 <= Seconds(r, from, to) && 0 <= PerTicket(r, from, to, amount)
    ensures amount * PerTicket(r, from, to, amount) <= r.rate * Seconds(r, from, to)
              < amount * PerTicket(r, from, to, amount) + amount
  {
    MulMono(0, r.rate, Seconds(r, from, to));
    DivideWithin(r.rate * Seconds(r, from, to), amount);
  }

  /** What all tickets in force earn between two times, and what rounding may withhold. */
  ghost function Pay(r: Reward, from: nat, to: nat, tickets: int): int {
    Max(tickets, 0) * Gain(r, from, to, tickets)
  }

  lemma PayBound(r: Reward, from: nat, to: nat, tickets: int)
    ensures 0 <= Gain(r, from, to, tickets) && 0 <= Pay(r, from, to, tickets)
    ensures tickets > 0 ==>
              Pay(r, from, to, tickets) <= r.rate * Live(r, from, to) < Pay(r, from, to, tickets) + tickets
  {
    if tickets > 0 {
      MulMono(0, r.rate, Live(r, from, to));
      DivideWithin(r.rate * Live(r, from, to), tickets);
      MulMono(0, Gain(r, from, to, tickets), tickets);
    }
  }

  /** Seconds that earn nothing, for want of a ticket. */
  ghost function Idle(r: Reward, from: nat, to: nat, tickets: int): nat {
    if tickets > 0 then 0 else Live(r, from, to)
  }

  /** The same over the intervals before the n-th checkpoint: what is paid out, the seconds that
      earn nothing, and the tickets, each of which rounding may cost less than one. */
  ghost function PaidUpTo(r: Reward, h: History, n: nat): int
    requires n <= |h|
  {
    if n <= 1 then 0
    else PaidUpTo(r, h, n - 1) + Pay(r, h[n - 2].timestamp, h[n - 1].timestamp, h[n - 2].amount)
  }

  ghost function IdleUpTo(r: Reward, h: History, n: nat): nat
    requires n <= |h|
  {
    if n <= 1 then 0
    else IdleUpTo(r, h, n - 1) + Idle(r, h[n - 2].timestamp, h[n - 1].timestamp, h[n - 2].amount)
  }

  function TicketsUpTo(h: History, n: nat): nat
    requires n <= |h|
  {
    if n <= 1 then 0 else TicketsUpTo(h, n - 1) + if h[n - 2].amount > 0 then h[n - 2].amount else 0
  }

  lemma TwoAccounts(rate: int, a: int, b: int, paid: int, idle: int, loose: int,
                    paid': int, idle': int, loose': int)
    requires paid + rate * idle <= a <= paid + rate * idle + loose
    requires paid' + rate * idle' <= b <= paid' + rate * idle' + loose'
    ensures var known := paid + paid' + rate * (idle + idle'); known <= a + b <= known + loose + loose'
  {
    Distribute(rate, idle, idle');
  }

  lemma Distribute(a: int, b: int, c: int)
    ensures a * (b + c) == a * b + a * c
  {
  }

  /** One interval: paid out or idle, but for less than one per ticket. */
  lemma IntervalAccounts(r: Reward, from: nat, to: nat, tickets: int)
    ensures var known := Pay(r, from, to, tickets) + r.rate * Idle(r, from, to, tickets);
            known <= r.rate * Live(r, from, to) <= known + Max(tickets, 0)
  {
    PayBound(r, from, to, tickets);
  }

  lemma {:induction false} IntervalsAccount(r: Reward, h: History, n: nat)
    requires Increasing(h) && 1 <= n <= |h|
    ensures var known := PaidUpTo(r, h, n) + r.rate * IdleUpTo(r, h, n);
            known <= r.rate * Live(r, h[0].timestamp, h[n - 1].timestamp) <= known + TicketsUpTo(h, n)
    ensures 0 <= PaidUpTo(r, h, n) && 0 <= Gains(GainList(r, h), n)
  {
    if n == 1 {
      LiveIs(r, h[0].timestamp, h[0].timestamp);
    } else {
      var a, b, c, tickets := h[0].timestamp, h[n - 2].timestamp, h[n - 1].timestamp, h[n - 2].amount;
      assert a <= b < c;
      IntervalsAccount(r, h, n - 1);
      IntervalAccounts(r, b, c, tickets);
      PayBound(r, b, c, tickets);
      LiveAdds(r, a, b, c);
      Distribute(r.rate, Live(r, a, b), Live(r, b, c));
      TwoAccounts(r.rate, r.rate * Live(r, a, b), r.rate * Live(r, b, c),
                  PaidUpTo(r, h, n - 1), IdleUpTo(r, h, n - 1), TicketsUpTo(h, n - 1),
                  Pay(r, b, c, tickets), Idle(r, b, c, tickets), Max(tickets, 0));
    }
  }

  /** What one update pays out over all credited intervals. */
  ghost function PaidOut(r: Reward, h: History, now: nat): int
    requires h != []
  {
    PaidUpTo(r, h, |h| - 1) + Pay(r, h[|h| - 1].timestamp, now, h[|h| - 1].amount)
  }

  /** The interval between the last two checkpoints, which no update credits. */
  ghost function Skipped(r: Reward, h: History): nat
    requires h != []
  {
    if |h| == 1 then 0 else Live(r, h[|h| - 2].timestamp, h[|h| - 1].timestamp)
  }

  /** All reward seconds that earn nothing in one update: before the first checkpoint, while no
      ticket is in force, and between the last two checkpoints. */
  ghost function IdleSeconds(r: Reward, h: History, now: nat): nat
    requires h != []
  {
    Live(r, 0, h[0].timestamp) + IdleUpTo(r, h, |h| - 1) + Skipped(r, h)
      + Idle(r, h[|h| - 1].timestamp, now, h[|h| - 1].amount)
  }

  function LooseTickets(h: History): nat
    requires h != []
  {
    TicketsUpTo(h, |h| - 1) + if h[|h| - 1].amount > 0 then h[|h| - 1].amount else 0
  }

  /** Up to the last checkpoint. */
  lemma BodyAccounts(r: Reward, h: History)
    requires Increasing(h) && h != []
    ensures var n := |h| - 1;
            var known := PaidUpTo(r, h, n) + r.rate * (Live(r, 0, h[0].timestamp) + IdleUpTo(r, h, n) + Skipped(r, h));
            known <= r.rate * Live(r, 0, h[n].timestamp) <= known + TicketsUpTo(h, n)
    ensures 0 <= PaidUpTo(r, h, |h| - 1)
  {
    var n := |h| - 1;
    if n > 0 {
      var a, b, c := h[0].timestamp, h[n - 1].timestamp, h[n].timestamp;
      assert a <= b < c;
      IntervalsAccount(r, h, n);
      LiveAdds(r, 0, a, b);
      LiveAdds(r, 0, b, c);
      BodyArithmetic(r.rate, Live(r, 0, a), Live(r, a, b), Live(r, b, c), IdleUpTo(r, h, n));
    }
  }

  lemma BodyArithmetic(rate: int, lead: int, middle: int, last: int, idle: int)
    ensures rate * (lead + middle + last) == rate * lead + rate * middle + rate * last
    ensures rate * (lead + idle + last) == rate * lead + rate * idle + rate * last
  {
    Distribute(rate, lead + middle, last);
    Distribute(rate, lead, middle);
    Distribute(rate, lead + idle, last);
    Distribute(rate, lead, idle);
  }

  /** One update accounts for every reward second since the last: it is paid out to the tickets
      in force or idle, but for less than one per ticket and interval. */
  lemma UpdateAccounts(r: Reward, h: History, now: nat)
    requires Increasing(h) && Before(h, now) && h != []
    ensures var known, all := PaidOut(r, h, now) + r.rate * IdleSeconds(r, h, now), r.rate * Live(r, 0, now);
            known <= all <= known + LooseTickets(h)
    ensures 0 <= PaidOut(r, h, now)
  {
    var n, point := |h| - 1, h[|h| - 1];
    BodyAccounts(r, h);
    IntervalAccounts(r, point.timestamp, now, point.amount);
    PayBound(r, point.timestamp, now, point.amount);
    LiveAdds(r, 0, point.timestamp, now);
    Distribute(r.rate, Live(r, 0, point.timestamp), Live(r, point.timestamp, now));
    TwoAccounts(r.rate, r.rate * Live(r, 0, point.timestamp), r.rate * Live(r, point.timestamp, now),
                PaidUpTo(r, h, n), Live(r, 0, h[0].timestamp) + IdleUpTo(r, h, n) + Skipped(r, h), TicketsUpTo(h, n),
                Pay(r, point.timestamp, now, point.amount), Idle(r, point.timestamp, now, point.amount),
                Max(point.amount, 0));
  }

  /** One update never lowers the accumulator nor moves time back; it adds the gains of the
      credited intervals, and those gains times the tickets that earn them come to at most
      the rate times the reward seconds since the last update. */
  lemma UpdateBound(r: Reward, h: History, now: nat, log: History)
    requires Increasing(h) && Before(h, now) && r.lastUpdate <= now && h != [] && r.rate > 0
    requires Update(r, h, now, log).Ok?
    ensures var r' := Update(r, h, now, log).value.reward;
            && r.lastUpdate <= r'.lastUpdate <= now && r.cumulative <= r'.cumulative
            && r'.rate == r.rate && r'.finish == r.finish
            && r'.cumulative == r.cumulative + Gains(GainList(r, h), |h| - 1) + TailGain(r, h, now)
            && 0 <= PaidOut(r, h, now) <= r.rate * Live(r, 0, now)
  {
    var n, point := |h| - 1, h[|h| - 1];
    UpdateExact(r, h, now, log);
    UpdateAccounts(r, h, now);
    MulMono(0, r.rate, IdleSeconds(r, h, now));
    PayBound(r, point.timestamp, now, point.amount);
    if n > 0 {
      CreditedBefore(r, h, n);
      IntervalsAccount(r, h, n);
      assert h[n - 1].timestamp < h[n].timestamp;
    }
  }

  lemma NoGainsYet(r: Reward, h: History, n: nat)
    requires Increasing(h) && n < |h| && forall k | 0 <= k < n :: h[k].timestamp <= r.lastUpdate
    ensures Gains(GainList(r, h), n) == 0
  {
    forall k | 0 < k < n
      ensures GainAt(r, h, k) == 0
    {
      NoGainBefore(r, h, k);
    }
    StandingFirst(r, h, GainList(r, h), n, []);
  }

  lemma QuietUpdate(r: Reward, h: History, now: nat, log: History)
    requires Increasing(h) && h != [] && r.rate > 0 && h[|h| - 1].amount > 0
    requires h[|h| - 1].timestamp <= r.lastUpdate <= now
    ensures var u := Update(r, h, now, log);
            && u.Ok? && u.value.reward.lastUpdate == now
            && u.value.reward.cumulative == r.cumulative + TailGain(r, h, now)
  {
    var point := h[|h| - 1];
    assert forall k | 0 <= k < |h| :: h[k].timestamp <= point.timestamp;
    assert Prior(h, r.lastUpdate) == |h|;
    UpdateExact(r, h, now, log);
    NoGainsYet(r, h, |h| - 1);
  }

  /** When the tickets have not changed since the last update, everything since then is paid
      out but for a remainder below one per ticket. */
  lemma UpdatePaysOut(r: Reward, h: History, now: nat, log: History)
    requires Increasing(h) && h != [] && r.rate > 0 && h[|h| - 1].amount > 0
    requires h[|h| - 1].timestamp <= r.lastUpdate <= now
    ensures Update(r, h, now, log).Ok? && Update(r, h, now, log).value.reward.lastUpdate == now
    ensures var amount, added := h[|h| - 1].amount, Update(r, h, now, log).value.reward.cumulative - r.cumulative;
            amount * added <= r.rate * Live(r, 0, now) < amount * added + amount
  {
    var point := h[|h| - 1];
    QuietUpdate(r, h, now, log);
    PayBound(r, point.timestamp, now, point.amount);
    LiveAdds(r, 0, point.timestamp, now);
    NothingLive(r, 0, point.timestamp);
  }

  /** When an update reads a missing checkpoint. */
  lemma UpdateWhen(r: Reward, h: History, now: nat, log: History)
    requires Increasing(h) && |h| >= 2 && r.rate > 0
    ensures Update(r, h, now, log).Ok? <==> h[0].timestamp <= r.lastUpdate
  {
    assert h[0].timestamp <= r.lastUpdate ==> Prior(h, r.lastUpdate) > 0;
  }

  /** The interval between the last two checkpoints is skipped: an update at the second of
      the latest checkpoint, when the last one fell in that interval, credits nothing and
      still moves on. */
  lemma LastIntervalSkipped(r: Reward, h: History, now: nat, log: History)
    requires Increasing(h) && |h| >= 2 && r.rate > 0 && h[|h| - 1].amount > 0
    requires h[|h| - 2].timestamp <= r.lastUpdate < now == h[|h| - 1].timestamp
    ensures Update(r, h, now, log).Ok?
    ensures Update(r, h, now, log).value.reward == r.(lastUpdate := now)
  {
    var first := |h| - 1;
    assert IsPrior(h, r.lastUpdate, first) by {
      assert forall k | 0 <= k < first :: h[k].timestamp <= h[|h| - 2].timestamp;
    }
    PriorUnique(h, r.lastUpdate, first, Prior(h, r.lastUpdate));
  }
}
