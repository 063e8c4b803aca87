/**
 Checkpoint histories: amounts written down as they change, at most one entry per second,
 and looked up by time with a binary search.
 */
module GaugeHistory {
  import opened Results

  datatype Checkpoint = Checkpoint(timestamp: nat, amount: int)

  /** Epochs count from one; epoch zero means none. */
  type History = seq<Checkpoint>

  predicate Increasing(h: History) {
    forall i, j | 0 <= i < j < |h| :: h[i].timestamp < h[j].timestamp
  }

  /** Nothing in the history is later than a time. */
  predicate Before(h: History, now: nat) {
    h != [] ==> h[|h| - 1].timestamp <= now
  }

  /** Write an amount down: a second write in the same second replaces the first. */
  function Write(h: History, now: nat, amount: int): History {
    if h != [] && h[|h| - 1].timestamp == now then h[..|h| - 1] + [Checkpoint(now, amount)]
    else h + [Checkpoint(now, amount)]
  }

  lemma WriteKeeps(h: History, now: nat, amount: int)
    requires Increasing(h) && Before(h, now)
    ensures Increasing(Write(h, now, amount)) && Before(Write(h, now, amount), now)
    ensures var w := Write(h, now, amount); w != [] && w[|w| - 1] == Checkpoint(now, amount)
  {
    var w := Write(h, now, amount);
    forall i, j | 0 <= i < j < |w|
      ensures w[i].timestamp < w[j].timestamp
    {
      assert w[i] == h[i];
      assert j < |w| - 1 ==> w[j] == h[j];
      assert h[i].timestamp <= h[|h| - 1].timestamp;
    }
  }

  // --- Looking up -----------------------------------------------------------------

  /** The last epoch not after a time. */
  predicate IsPrior(h: History, t: nat, epoch: nat) {
    && epoch <= |h|
    && (forall k | 0 <= k < epoch :: h[k].timestamp <= t)
    && (forall k | epoch <= k < |h| :: h[k].timestamp > t)
  }

  lemma PriorUnique(h: History, t: nat, a: nat, b: nat)
    requires IsPrior(h, t, a) && IsPrior(h, t, b)
    ensures a == b
  {
    assert a < |h| ==> h[a].timestamp > t;
    assert b < |h| ==> h[b].timestamp > t;
  }

  function Prior(h: History, t: nat): (epoch: nat)
    requires Increasing(h)
    ensures IsPrior(h, t, epoch)
  {
    if h == [] then 0
    else if h[|h| - 1].timestamp <= t then |h|
    else Prior(h[..|h| - 1], t)
  }

  /** The amount in force at the end of a second. */
  function InForce(h: History, t: nat): Option<int>
    requires Increasing(h)
  {
    var epoch := Prior(h, t);
    if epoch == 0 then None else Some(h[epoch - 1].amount)
  }

  /** The keeper's search: the newest entry first, then the oldest, then by halving. */
  method FindPriorEpoch(h: History, t: nat) returns (epoch: nat)
    requires Increasing(h)
    ensures IsPrior(h, t, epoch) && epoch == Prior(h, t)
  {
    if |h| == 0 { return 0; }
    if h[|h| - 1].timestamp <= t {
      return |h|;
    }
    if h[0].timestamp > t {
      PriorUnique(h, t, 0, Prior(h, t));
      return 0;
    }
    var lower, upper := 0, |h|;
    while upper > lower
      invariant 0 <= lower <= upper <= |h|
      invariant forall k | 0 <= k < lower :: h[k].timestamp <= t
      invariant forall k | upper <= k < |h| :: h[k].timestamp > t
    {
      var mid := (lower + upper + 1) / 2;
      var point := h[mid - 1];
      if point.timestamp == t {
        PriorUnique(h, t, mid, Prior(h, t));
        return mid;
      } else if point.timestamp < t {
        lower := mid;
      } else {
        upper := mid - 1;
      }
    }
    PriorUnique(h, t, lower, Prior(h, t));
    epoch := lower;
  }

  /** A write is in force from its second on, and changes nothing before. */
  lemma WriteInForce(h: History, now: nat, amount: int, t: nat)
    requires Increasing(h) && Before(h, now)
    ensures Increasing(Write(h, now, amount))
    ensures InForce(Write(h, now, amount), t) == if now <= t then Some(amount) else InForce(h, t)
  {
    WriteKeeps(h, now, amount);
    var w := Write(h, now, amount);
    if now > t {
      var e := Prior(h, t);
      assert forall k | 0 <= k < |w| - 1 :: w[k] == h[k];
      assert IsPrior(w, t, e);
      PriorUnique(w, t, e, Prior(w, t));
    }
  }

  /** The latest entry is in force now. */
  lemma LatestInForce(h: History, t: nat)
    requires Increasing(h) && Before(h, t)
    ensures InForce(h, t) == if h == [] then None else Some(h[|h| - 1].amount)
  {
  }
}
