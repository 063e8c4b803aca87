/**
 Rewards over time: what a deposit of rewards streams out, and how a reward deposited
 before the first ticket comes to a halt for good.
 */
module GaugeStream {
  import opened FixedPoint
  import opened Results
  import opened Bank
  import opened GaugeHistory
  import opened GaugePool
  import opened GaugeReward
  import opened Runs

  /** A reward runs for a week. */
  const WEEK: nat := 604800

  // --- Depositing rewards ---------------------------------------------------------

  /** What a running reward still owes. */
  function Remaining(r: Reward, now: nat): nat {
    if r.finish > now then r.rate * (r.finish - now) else 0
  }

  /** A reward that is not running starts its own history at zero. */
  function StartLog(r: Reward, log: History, now: nat): History {
    if r.rate == 0 then Write(log, now, 0) else log
  }

  /** Stream an amount, with what is still owed, over the coming week. */
  function Streamed(r: Reward, now: nat, amount: nat, balance: nat): Result<Reward> {
    var total := amount + Remaining(r, now);
    :- Need(r.finish > now ==> amount > Remaining(r, now), TooSmallRewardAmount);
    :- Need(total / WEEK > 0, TooSmallRewardAmount);
    :- Need(balance >= total, Panic);
    Ok(r.(rate := total / WEEK, finish := now + WEEK))
  }

  datatype Funded = Funded(updated: Updated, bank: Bank)

  /** Deposit a reward: bring the accumulator up to date, take the coins, and stream them. */
  function FundStep(r: Reward, h: History, log: History, now: nat, bank: Bank,
                    sender: Address, escrow: Address, own: Denom, coin: Coin): Result<Funded>
    requires Increasing(h)
  {
    var log1 := StartLog(r, log, now);
    :- Need(coin.denom != own, InvalidDepositDenom);
    :- Need(coin.amount > 0, InvalidAmount);
    var u :- Update(r, h, now, log1);
    var bank1 :- SendCoins(bank, sender, escrow, [coin]);
    var streamed :- Streamed(u.reward, now, coin.amount, bank1.Balance(escrow, coin.denom));
    Ok(Funded(Updated(streamed, u.log), bank1))
  }

  /** The week's stream is the deposit and what was still owed, less what does not divide by
      the week, and the pool can pay it. */
  lemma StreamConserves(r: Reward, now: nat, amount: nat, balance: nat)
    ensures Streamed(r, now, amount, balance).Ok? ==>
              var r', due := Streamed(r, now, amount, balance).value, amount + Remaining(r, now);
              && 0 < r'.rate && due - WEEK < Remaining(r', now) <= due <= balance
              && r'.lastUpdate == r.lastUpdate && r'.cumulative == r.cumulative
  {
    DivMod(amount + Remaining(r, now), WEEK);
  }

  /** A deposit takes its coin from the sender to the escrow and streams it at once. */
  lemma FundMoves(r: Reward, h: History, log: History, now: nat, bank: Bank,
                  sender: Address, escrow: Address, own: Denom, coin: Coin, who: Address, d: Denom)
    requires Increasing(h)
    ensures var f := FundStep(r, h, log, now, bank, sender, escrow, own, coin);
            f.Ok? ==>
              && f.value.bank.Balance(who, d) == bank.Balance(who, d)
                  + (if who == escrow && d == coin.denom then coin.amount else 0)
                   - (if who == sender && d == coin.denom then coin.amount else 0)
              && f.value.updated.reward.finish == now + WEEK && coin.denom != own
  {
    if FundStep(r, h, log, now, bank, sender, escrow, own, coin).Ok? {
      OneCoinSent(bank, sender, escrow, coin, who, d);
    }
  }

  lemma UpdateKeepsStream(r: Reward, h: History, now: nat, log: History)
    requires Increasing(h)
    ensures var u := Update(r, h, now, log);
            u.Ok? ==> u.value.reward.rate == r.rate && u.value.reward.finish == r.finish
  {
  }

  lemma FundShape(r: Reward, h: History, log: History, now: nat, bank: Bank,
                  sender: Address, escrow: Address, own: Denom, coin: Coin)
    requires Increasing(h) && FundStep(r, h, log, now, bank, sender, escrow, own, coin).Ok?
    ensures var u := Update(r, h, now, StartLog(r, log, now));
            && u.Ok?
            && FundStep(r, h, log, now, bank, sender, escrow, own, coin).value.updated
                 == Updated(u.value.reward.(rate := (coin.amount + Remaining(r, now)) / WEEK, finish := now + WEEK),
                            u.value.log)
  {
    UpdateKeepsStream(r, h, now, StartLog(r, log, now));
  }

  /** What a deposit leaves of a reward: the accumulator and its history brought up to date, the
      history started at zero if the reward was not running, and the deposit with what was
      still owed streamed over a week from now. */
  lemma FundStreams(r: Reward, h: History, log: History, now: nat, bank: Bank,
                    sender: Address, escrow: Address, own: Denom, coin: Coin)
    requires Increasing(h) && Before(h, now) && r.lastUpdate <= now
    ensures var f := FundStep(r, h, log, now, bank, sender, escrow, own, coin);
            f.Ok? ==>
              var u := Expected(r, h, now, if r.rate == 0 then Write(log, now, 0) else log);
              var r', owed := f.value.updated.reward, if now < r.finish then r.rate * (r.finish - now) else 0;
              && f.value.updated.log == u.log && r' == u.reward.(rate := r'.rate, finish := now + WEEK)
              && WEEK * r'.rate <= coin.amount + owed < WEEK * (r'.rate + 1)
  {
    if FundStep(r, h, log, now, bank, sender, escrow, own, coin).Ok? {
      FundShape(r, h, log, now, bank, sender, escrow, own, coin);
      UpdateExact(r, h, now, StartLog(r, log, now));
      DivMod(coin.amount + Remaining(r, now), WEEK);
    }
  }

  lemma SendOneWhen(bank: Bank, from: Address, to: Address, coin: Coin)
    ensures SendCoins(bank, from, to, [coin]).Ok? <==> coin.amount <= bank.Balance(from, coin.denom)
  {
    assert [coin][1..] == [];
    var b1 := Debit(bank, from, coin);
    assert b1.Ok? ==> DebitAll(bank, from, [coin]) == b1;
  }

  /** A deposit succeeds exactly when its coin is not the pool's own, the reward can be brought up
      to date, the sender has the coin, it adds more than is still owed, and with what is owed it
      makes at least one unit a second and is on the escrow. */
  lemma FundWhen(r: Reward, h: History, log: History, now: nat, bank: Bank,
                 sender: Address, escrow: Address, own: Denom, coin: Coin)
    requires Increasing(h) && sender != escrow
    ensures var owed := if now < r.finish then r.rate * (r.finish - now) else 0;
            FundStep(r, h, log, now, bank, sender, escrow, own, coin).Ok? <==>
              && coin.denom != own && 0 < coin.amount <= bank.Balance(sender, coin.denom)
              && Update(r, h, now, StartLog(r, log, now)).Ok?
              && (now < r.finish ==> owed < coin.amount)
              && WEEK <= coin.amount + owed <= bank.Balance(escrow, coin.denom) + coin.amount
  {
    UpdateKeepsStream(r, h, now, StartLog(r, log, now));
    DivMod(coin.amount + Remaining(r, now), WEEK);
    if SendCoins(bank, sender, escrow, [coin]).Ok? { OneCoinSent(bank, sender, escrow, coin, escrow, coin.denom); }
    SendOneWhen(bank, sender, escrow, coin);
  }

  // --- A reward and its pool over time --------------------------------------------

  /** Histories in time order. */
  type Timeline = h: History | Increasing(h) witness []

  datatype Stream = Stream(reward: Reward, log: History, history: Timeline, bank: Bank)

  datatype Happening =
    | Tickets(now: nat, amount: int)
    | Refresh(now: nat)
    | Fund(now: nat, sender: Address, escrow: Address, own: Denom, coin: Coin)

  /** The tickets in force change, a claim brings the accumulator up to date, or a reward is
      deposited; nothing happens before what is already written down. */
  function StreamStep(s: Stream, e: Happening): Result<Stream> {
    var orderly := Before(s.history, e.now);
    :- Need(orderly, InvalidMessage);
    match e
    case Tickets(now, amount) =>
      WriteKeeps(s.history, now, amount);
      Ok(s.(history := Write(s.history, now, amount)))
    case Refresh(now) =>
      var u :- Update(s.reward, s.history, now, s.log);
      Ok(s.(reward := u.reward, log := u.log))
    case Fund(now, sender, escrow, own, coin) =>
      var f :- FundStep(s.reward, s.history, s.log, now, s.bank, sender, escrow, own, coin);
      Ok(Stream(f.updated.reward, f.updated.log, s.history, f.bank))
  }

  function StreamNext(s: Stream, e: Happening): Stream {
    var r := StreamStep(s, e);
    if r.Ok? then r.value else s
  }

  // --- Halted for good ------------------------------------------------------------

  /** A running reward last updated before the first of several checkpoints. */
  predicate Halted(s: Stream) {
    |s.history| >= 2 && s.reward.rate > 0 && s.reward.lastUpdate < s.history[0].timestamp
  }

  /** A halted reward can be neither updated nor topped up. */
  lemma HaltedFails(s: Stream, e: Happening)
    requires Halted(s) && !e.Tickets?
    ensures StreamStep(s, e).Err?
  {
    UpdateWhen(s.reward, s.history, e.now, s.log);
    UpdateWhen(s.reward, s.history, e.now, StartLog(s.reward, s.log, e.now));
  }

  lemma HaltedStep(s: Stream, e: Happening)
    requires Halted(s)
    ensures Halted(StreamNext(s, e)) && StreamNext(s, e).reward == s.reward
  {
    if !e.Tickets? { HaltedFails(s, e); }
  }

  ghost predicate HaltedAt(r: Reward, s: Stream) {
    Halted(s) && s.reward == r
  }

  ghost predicate AnyHappening(s: Stream, e: Happening) {
    true
  }

  /** Once halted, whatever happens to the pool, the reward stays as it is and halted. */
  lemma HaltedForGood(s: Stream, events: seq<Happening>)
    requires Halted(s)
    ensures Always(StreamNext, (s': Stream) => HaltedAt(s.reward, s'), s, events)
  {
    var holds := (s': Stream) => HaltedAt(s.reward, s');
    forall s', e | holds(s') && AnyHappening(s', e)
      ensures holds(StreamNext(s', e)) <==> AnyHappening(s', e)
    {
      HaltedStep(s', e);
    }
    RunIff(StreamNext, holds, AnyHappening, AnyHappening, s, events);
  }

  /** How a reward comes to a halt: deposited before the first checkpoint, it keeps the
      update time it had. */
  lemma DepositBeforeTickets(s: Stream, e: Happening)
    requires e.Fund? && s.history == [] && StreamStep(s, e).Ok?
    ensures StreamNext(s, e).reward.lastUpdate == s.reward.lastUpdate && StreamNext(s, e).reward.rate > 0
  {
  }

  /** Two checkpoints later it is halted, unless an update comes between them while tickets
      are in force. */
  lemma TwoCheckpoints(s: Stream, t0: nat, a0: int, t1: nat, a1: int)
    requires s.history == [] && s.reward.rate > 0 && s.reward.lastUpdate < t0 < t1
    ensures Halted(StreamNext(StreamNext(s, Tickets(t0, a0)), Tickets(t1, a1)))
    ensures a0 > 0 ==> !Halted(StreamNext(StreamNext(StreamNext(s, Tickets(t0, a0)), Refresh(t0)), Tickets(t1, a1)))
  {
    var s0 := StreamNext(s, Tickets(t0, a0));
    assert s0.history == [Checkpoint(t0, a0)];
    if a0 > 0 {
      assert Prior(s0.history, s.reward.lastUpdate) == 0;
      assert StreamNext(s0, Refresh(t0)).reward.lastUpdate == t0;
    }
  }

  // --- An example -----------------------------------------------------------------

  const ALICE: Address := "alice"
  const POOL: Address := "pool"
  const START := Stream(Reward(0, 0, 0, 0), [], [], Bank(map[(ALICE, "uusm") := WEEK], map["uusm" := WEEK]))
  const HALTING: seq<Happening> :=
    [Fund(1000, ALICE, POOL, "ulp", Coin("uusm", WEEK)), Tickets(2000, 7), Tickets(3000, 8)]

  lemma ExampleFunded()
    ensures StreamStep(START, HALTING[0]).Ok?
    ensures var s := StreamNext(START, HALTING[0]); s.reward == Reward(1, 1000 + WEEK, 0, 0) && s.history == []
  {
    var coin := Coin("uusm", WEEK);
    assert [coin][1..] == [] && ALICE[0] != POOL[0] && "uusm"[1] != "ulp"[1];
    var b1 := Debit(START.bank, ALICE, coin).value;
    assert DebitAll(START.bank, ALICE, [coin]) == Ok(b1);
    assert CreditAll(b1, POOL, [coin]) == Credit(b1, POOL, coin);
    assert Credit(b1, POOL, coin).Balance(POOL, "uusm") == WEEK;
  }

  /** A week's reward deposited before any ticket, followed by two checkpoints: every later
      claim and deposit fails. */
  lemma RewardCanHalt(e: Happening)
    requires !e.Tickets?
    ensures Halted(Reached(StreamNext, START, HALTING, 3))
    ensures StreamStep(Reached(StreamNext, START, HALTING, 3), e).Err?
  {
    ExampleFunded();
    var s := StreamNext(START, HALTING[0]);
    assert s == Reached(StreamNext, START, HALTING, 1);
    TwoCheckpoints(s, 2000, 7, 3000, 8);
    assert StreamNext(s, HALTING[1]) == Reached(StreamNext, START, HALTING, 2);
    assert StreamNext(StreamNext(s, HALTING[1]), HALTING[2]) == Reached(StreamNext, START, HALTING, 3);
    HaltedFails(Reached(StreamNext, START, HALTING, 3), e);
  }
}
