/**
 A gauge or a bribe as the keeper runs it: deposits, withdrawals, tickets, checkpoints and
 the reward accumulator, updated in place and proved against the pool's steps.
 */
module GaugeKeeper {
  import opened FixedPoint
  import opened Results
  import opened Bank
  import opened GaugeHistory
  import opened GaugePool
  import opened GaugeReward
  import opened GaugeStream

  class Base {
    const isGauge: bool
    const denom: Denom
    const escrow: Address
    var deposited: map<VeId, int>
    var totalDeposited: int
    var derived: map<VeId, int>
    var totalDerived: int
    var history: History
    var users: map<VeId, History>
    var bank: Bank
    var rewards: map<Denom, Reward>
    var logs: map<Denom, History>

    function View(): Pool
      reads this
    {
      Pool(isGauge, denom, escrow, deposited, totalDeposited, derived, totalDerived, history, users, bank)
    }

    constructor (p: Pool)
      ensures View() == p && rewards == map[] && logs == map[]
    {
      isGauge, denom, escrow := p.isGauge, p.denom, p.escrow;
      deposited, totalDeposited, derived, totalDerived := p.deposited, p.totalDeposited, p.derived, p.totalDerived;
      history, users, bank := p.history, p.users, p.bank;
      rewards, logs := map[], map[];
    }

    // --- Checkpoints --------------------------------------------------------------

    /** Append an entry, or overwrite the latest when it is of the same second. */
    method Record(h: History, now: nat, amount: int) returns (h': History)
      ensures h' == Write(h, now, amount)
    {
      if |h| > 0 && h[|h| - 1].timestamp == now {
        h' := h[|h| - 1 := Checkpoint(now, amount)];
        assert h' == h[..|h| - 1] + [Checkpoint(now, amount)];
      } else {
        h' := h + [Checkpoint(now, amount)];
      }
    }

    method WriteUserCheckpoint(now: nat, ve: VeId, amount: int)
      modifies `users
      ensures users == old(users)[ve := Write(UserHistory(old(View()), ve), now, amount)]
    {
      var h := if ve in users then users[ve] else [];
      h := Record(h, now, amount);
      users := users[ve := h];
    }

    method WriteCheckpoint(now: nat)
      modifies `history
      ensures history == Write(old(history), now, TotalWeight(old(View())))
    {
      var amount := if isGauge then totalDerived else totalDeposited;
      history := Record(history, now, amount);
    }

    /** Recompute a user's tickets in a gauge. */
    method DeriveAmountForUser(now: nat, ve: VeId, power: Power)
      modifies `derived, `totalDerived, `users, `history
      ensures View() == Derive(old(View()), now, ve, power)
    {
      if isGauge {
        var tickets := TicketsOf(ve, power);
        ReplaceTickets(ve, tickets);
        WriteUserCheckpoint(now, ve, tickets);
        WriteCheckpoint(now);
      }
    }

    /** Put a user's new tickets in place of the old in the sum. */
    method ReplaceTickets(ve: VeId, tickets: int)
      modifies `derived, `totalDerived
      ensures View() == WithTickets(old(View()), ve, tickets) && derived[ve := tickets] == derived
    {
      var was := if ve in derived then derived[ve] else 0;
      var total := totalDerived - was;
      derived := derived[ve := tickets];
      total := total + tickets;
      totalDerived := total;
    }

    method TicketsOf(ve: VeId, power: Power) returns (tickets: int)
      ensures tickets == DerivedTickets(Of(deposited, ve), totalDeposited, power)
    {
      var amount := if ve in deposited then deposited[ve] else 0;
      var base, adjusted := amount * 40 / 100, 0;
      if power.total > 0 {
        adjusted := totalDeposited * power.user / power.total * 60 / 100;
      }
      tickets := base + adjusted;
      if tickets >= amount { tickets := amount; }
    }

    // --- Deposits -----------------------------------------------------------------

    method GaugeDeposit(now: nat, ve: VeId, owner: Address, amount: nat, power: Power) returns (r: Check)
      requires isGauge
      modifies `bank, `deposited, `totalDeposited, `derived, `totalDerived, `users, `history
      ensures Did(r, View(), DepositStep(old(View()), now, ve, owner, amount, power))
    {
      var sent := SendCoins(bank, owner, escrow, [Coin(denom, amount)]);
      if sent.Err? { return Fail(sent.error); }
      bank := sent.value;
      AddDeposit(ve, amount);
      DeriveAmountForUser(now, ve, power);
      r := Pass;
    }

    method AddDeposit(ve: VeId, amount: nat)
      modifies `deposited, `totalDeposited
      ensures View() == Deposited(old(View()), bank, ve, amount)
    {
      var user := if ve in deposited then deposited[ve] else 0;
      totalDeposited := totalDeposited + amount;
      deposited := deposited[ve := user + amount];
    }

    method GaugeWithdraw(now: nat, ve: VeId, owner: Address, amount: nat, power: Power) returns (r: Check)
      requires isGauge
      modifies `bank, `deposited, `totalDeposited, `derived, `totalDerived, `users, `history
      ensures Did(r, View(), WithdrawStep(old(View()), now, ve, owner, amount, power))
    {
      r := TakeDeposit(ve, amount);
      if r.Fail? { return; }
      r := PayAndDerive(old(View()), now, ve, owner, amount, power);
    }

    /** Pay a withdrawal out of the escrow and recompute the tickets left. */
    method PayAndDerive(ghost p: Pool, now: nat, ve: VeId, owner: Address, amount: nat, power: Power) returns (r: Check)
      requires isGauge && View() == Withdrawn(p, bank, ve, amount)
      modifies `bank, `derived, `totalDerived, `users, `history
      ensures match SendCoins(old(bank), escrow, owner, [Coin(denom, amount)])
              case Err(e) => r == Fail(e)
              case Ok(b) => r == Pass && View() == Derive(Withdrawn(p, b, ve, amount), now, ve, power)
    {
      var sent := SendCoins(bank, escrow, owner, [Coin(denom, amount)]);
      if sent.Err? { return Fail(sent.error); }
      bank := sent.value;
      assert View() == Withdrawn(p, bank, ve, amount);
      DeriveAmountForUser(now, ve, power);
      r := Pass;
    }

    method TakeDeposit(ve: VeId, amount: nat) returns (r: Check)
      modifies `deposited, `totalDeposited
      ensures r == Need(amount <= Of(old(deposited), ve), TooLargeAmount)
      ensures r.Pass? ==> View() == Withdrawn(old(View()), bank, ve, amount)
    {
      var user := if ve in deposited then deposited[ve] else 0;
      if amount > user { return Fail(TooLargeAmount); }
      totalDeposited := totalDeposited - amount;
      var left := user - amount;
      if left > 0 {
        deposited := deposited[ve := left];
      } else {
        deposited := deposited - {ve};
      }
      r := Pass;
    }

    method BribeDeposit(now: nat, ve: VeId, amount: nat, ghost owner: Address, ghost power: Power)
      requires !isGauge
      modifies `deposited, `totalDeposited, `users, `history
      ensures DepositStep(old(View()), now, ve, owner, amount, power) == Ok(View())
    {
      AddDeposit(ve, amount);
      WriteUserCheckpoint(now, ve, deposited[ve]);
      WriteCheckpoint(now);
    }

    method BribeWithdraw(now: nat, ve: VeId, amount: nat, ghost owner: Address, ghost power: Power) returns (r: Check)
      requires !isGauge
      modifies `deposited, `totalDeposited, `users, `history
      ensures Did(r, View(), WithdrawStep(old(View()), now, ve, owner, amount, power))
    {
      r := TakeDeposit(ve, amount);
      if r.Fail? { return; }
      WriteUserCheckpoint(now, ve, if ve in deposited then deposited[ve] else 0);
      WriteCheckpoint(now);
    }

    // --- Rewards ------------------------------------------------------------------

    function RewardOf(d: Denom): Reward
      reads this
    {
      if d in rewards then rewards[d] else Reward(0, 0, 0, 0)
    }

    function LogOf(d: Denom): History
      reads this
    {
      if d in logs then logs[d] else []
    }

    /** The increment of one slice; the seconds are unsigned, so they must not underflow. */
    method CalculateRewardPerTicket(r: Reward, t0: nat, t1: nat, start: nat, amount: int) returns (per: int, end: nat)
      requires amount > 0 && Min(Later(t0, start), r.finish) <= Min(Later(t1, start), r.finish)
      ensures end == Later(t1, start) && per == PerTicket(r, Later(t0, start), end, amount)
    {
      end := Later(t1, start);
      var seconds: nat := Min(end, r.finish) - Min(Later(t0, start), r.finish);
      per := r.rate * seconds / amount;
    }

    /** Bring a reward's accumulator up to date. */
    method UpdateRewardPerTicket(d: Denom, now: nat) returns (r: Check)
      requires Increasing(history) && Before(history, now) && RewardOf(d).lastUpdate <= now
      modifies `rewards, `logs
      ensures var spec := Update(old(RewardOf(d)), history, now, old(LogOf(d)));
              match r
              case Pass => spec == Ok(Updated(RewardOf(d), LogOf(d)))
              case Fail(e) => spec == Err(e)
    {
      if history == [] { return Pass; }
      var reward, log := RewardOf(d), LogOf(d);
      if reward.rate == 0 {
        rewards := rewards[d := reward.(lastUpdate := now)];
        return Pass;
      }
      var first := FindPriorEpoch(history, reward.lastUpdate);
      if first == 0 && |history| > 1 { return Fail(Panic); }
      var start, cumulative := reward.lastUpdate, reward.cumulative;
      if first > 0 {
        start, cumulative, log := AdvanceSlices(reward, first, now, start, cumulative, log);
      }
      start, cumulative, log := ConcludeSlices(reward, now, start, cumulative, log);
      rewards := rewards[d := reward.(cumulative := cumulative, lastUpdate := start)];
      logs := logs[d := log];
      r := Pass;
    }

    /** The loop over earlier slices. */
    method AdvanceSlices(reward: Reward, first: nat, now: nat, start0: nat, cumulative0: int, log0: History)
      returns (start: nat, cumulative: int, log: History)
      requires 1 <= first <= |history| && Increasing(history) && Before(history, now) && start0 <= now
      ensures Progress(start, cumulative, log)
                == AdvanceAll(reward, history, first, |history| - 1, Progress(start0, cumulative0, log0))
      ensures start <= now
    {
      start, cumulative, log := start0, cumulative0, log0;
      var i := first;
      while i < |history| - 1
        invariant first <= i && start <= now
        invariant AdvanceAll(reward, history, i, |history| - 1, Progress(start, cumulative, log))
                    == AdvanceAll(reward, history, first, |history| - 1, Progress(start0, cumulative0, log0))
      {
        var point := history[i - 1];
        if point.amount > 0 {
          var next := history[i];
          assert next.timestamp <= history[|history| - 1].timestamp;
          var per, end := CalculateRewardPerTicket(reward, point.timestamp, next.timestamp, start, point.amount);
          cumulative := cumulative + per;
          log := Record(log, end, cumulative);
          start := end;
        }
        i := i + 1;
      }
    }

    /** The slice from the latest checkpoint to now. */
    method ConcludeSlices(reward: Reward, now: nat, start0: nat, cumulative0: int, log0: History)
      returns (start: nat, cumulative: int, log: History)
      requires history != [] && Before(history, now) && start0 <= now
      ensures Progress(start, cumulative, log)
                == Conclude(reward, history[|history| - 1], now, Progress(start0, cumulative0, log0))
    {
      start, cumulative, log := start0, cumulative0, log0;
      var point := history[|history| - 1];
      if point.amount > 0 {
        var per, end := CalculateRewardPerTicket(reward, Later(point.timestamp, start), Min(now, reward.finish), start,
                                                 point.amount);
        cumulative := cumulative + per;
        log := Record(log, now, cumulative);
        start := now;
      }
    }

    /** Take a reward's coins and stream them over the coming week. */
    method DepositReward(now: nat, sender: Address, coin: Coin) returns (r: Check)
      requires Increasing(history) && Before(history, now) && RewardOf(coin.denom).lastUpdate <= now
      modifies `rewards, `logs, `bank
      ensures var d := coin.denom;
              var spec := FundStep(old(RewardOf(d)), history, old(LogOf(d)), now, old(bank), sender, escrow, denom,
                                   coin);
              match r
              case Pass => spec == Ok(Funded(Updated(RewardOf(d), LogOf(d)), bank))
              case Fail(e) => spec == Err(e)
    {
      var d := coin.denom;
      if d == denom { return Fail(InvalidDepositDenom); }
      if coin.amount <= 0 { return Fail(InvalidAmount); }
      if RewardOf(d).rate == 0 {
        var log := Record(LogOf(d), now, 0);
        logs := logs[d := log];
      }
      r := UpdateRewardPerTicket(d, now);
      if r.Fail? { return; }
      var sent := SendCoins(bank, sender, escrow, [coin]);
      if sent.Err? { return Fail(sent.error); }
      bank := sent.value;
      r := StartStream(d, now, coin.amount);
    }

    method StartStream(d: Denom, now: nat, amount: nat) returns (r: Check)
      modifies `rewards
      ensures var spec := Streamed(old(RewardOf(d)), now, amount, bank.Balance(escrow, d));
              match r
              case Pass => spec == Ok(RewardOf(d))
              case Fail(e) => spec == Err(e)
    {
      var reward := RewardOf(d);
      if reward.finish > now && amount <= reward.rate * (reward.finish - now) { return Fail(TooSmallRewardAmount); }
      var total := TotalToStream(reward, now, amount);
      var balance := bank.Balance(escrow, d);
      reward := reward.(rate := total / WEEK, finish := now + WEEK);
      if reward.rate <= 0 { return Fail(TooSmallRewardAmount); }
      if balance < total { return Fail(Panic); }
      rewards := rewards[d := reward];
      r := Pass;
    }

    /** A deposit together with what a running reward still owes. */
    method TotalToStream(reward: Reward, now: nat, amount: nat) returns (total: nat)
      ensures total == amount + Remaining(reward, now)
    {
      total := amount;
      if reward.finish > now {
        total := total + reward.rate * (reward.finish - now);
      }
    }
  }
}
