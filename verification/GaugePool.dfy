/**
 Deposits in a gauge or a bribe: totals that are sums over users, tickets derived from a
 deposit and its owner's voting power, and the histories of both.
 */
module GaugePool {
  import opened FixedPoint
  import opened Results
  import opened MapSum
  import opened Bank
  import opened GaugeHistory

  type VeId = nat

  datatype Pool = Pool(
    isGauge: bool,
    denom: Denom,
    escrow: Address,
    deposited: map<VeId, int>,
    totalDeposited: int,
    derived: map<VeId, int>,
    totalDerived: int,
    history: History,
    users: map<VeId, History>,
    bank: Bank)

  function Of(m: map<VeId, int>, ve: VeId): int {
    if ve in m then m[ve] else 0
  }

  function UserHistory(p: Pool, ve: VeId): History {
    if ve in p.users then p.users[ve] else []
  }

  /** Voting power at the time of an operation, as the ve module reports it. */
  datatype Power = Power(user: nat, total: nat)

  /** Two fifths of the deposit, plus three fifths of the voting share of all deposits, but
      no more than the deposit. */
  function DerivedTickets(deposited: int, totalDeposited: int, power: Power): int {
    var derived := deposited * 40 / 100;
    var adjusted := if power.total > 0 then totalDeposited * power.user / power.total * 60 / 100 else 0;
    if derived + adjusted < deposited then derived + adjusted else deposited
  }

  lemma DerivedRange(deposited: int, totalDeposited: int, power: Power)
    requires 0 <= deposited && 0 <= totalDeposited
    ensures deposited * 40 / 100 <= DerivedTickets(deposited, totalDeposited, power) <= deposited
  {
  }

  /** Without voting power a deposit counts two fifths; with at least its share of the
      power it counts in full, but for one unit of rounding. */
  lemma DerivedBoost(deposited: int, totalDeposited: int, power: Power)
    requires 0 <= deposited && 0 <= totalDeposited
    ensures power.user == 0 || power.total == 0 ==>
              DerivedTickets(deposited, totalDeposited, power) == deposited * 40 / 100
    ensures power.total > 0 && deposited * power.total <= totalDeposited * power.user ==>
              deposited - 1 <= DerivedTickets(deposited, totalDeposited, power)
  {
    if power.total > 0 && power.user > 0 && deposited * power.total <= totalDeposited * power.user {
      QuotientAtLeast(totalDeposited * power.user, power.total, deposited);
    }
  }

  /** The exact share, and what is made of it, both times five times the total power. */
  predicate SharedOut(deposited: int, votes: int, total: int, t: int) {
    var exact := 2 * (deposited * total) + 3 * votes;
    t <= deposited && 5 * (total * t) <= exact && (t == deposited || exact < 5 * (total * t) + 11 * total)
  }

  lemma TwoFifths(d: int, k: int)
    ensures 5 * (d * 40 / 100) <= 2 * d <= 5 * (d * 40 / 100) + 4
    ensures 5 * (k * 60 / 100) <= 3 * k <= 5 * (k * 60 / 100) + 4
  {
  }

  lemma ShareArithmetic(d: int, votes: int, total: int, a: int, b: int, k: int)
    requires total > 0 && 5 * a <= 2 * d <= 5 * a + 4 && 5 * b <= 3 * k <= 5 * b + 4
    requires total * k <= votes < total * k + total
    ensures 5 * (total * (a + b)) <= 2 * (d * total) + 3 * votes < 5 * (total * (a + b)) + 11 * total
  {
    MulMono(5 * a + 5 * b, 2 * d + 3 * k, total);
    MulMono(2 * d + 3 * k, 5 * a + 5 * b + 8, total);
    assert total * (5 * a + 5 * b) == 5 * (total * (a + b));
    assert total * (2 * d + 3 * k) == 2 * (d * total) + 3 * (total * k);
    assert total * (5 * a + 5 * b + 8) == 5 * (total * (a + b)) + 8 * total;
  }

  lemma SharesOut(d: int, votes: int, total: int, k: int, t: int)
    requires total > 0 && k == votes / total
    requires var sum := d * 40 / 100 + k * 60 / 100; t == if sum < d then sum else d
    ensures SharedOut(d, votes, total, t)
  {
    var a, b := d * 40 / 100, k * 60 / 100;
    DivMod(votes, total);
    TwoFifths(d, k);
    ShareArithmetic(d, votes, total, a, b, k);
    MulMono(t, a + b, total);
  }

  /** For any voting power: two fifths of the deposit and three fifths of the voting share of all
      deposits, rounded down by less than eleven fifths of a unit, or else the deposit. */
  lemma DerivedShare(deposited: int, totalDeposited: int, power: Power)
    requires 0 <= deposited && 0 <= totalDeposited && power.total > 0
    ensures SharedOut(deposited, totalDeposited * power.user, power.total,
                      DerivedTickets(deposited, totalDeposited, power))
  {
    var votes := totalDeposited * power.user;
    SharesOut(deposited, votes, power.total, votes / power.total, DerivedTickets(deposited, totalDeposited, power));
  }

  lemma QuotientAtLeast(n: int, d: int, q: int)
    requires d > 0 && q * d <= n
    ensures q <= n / d
  {
    DivMod(n, d);
    if n / d < q { MulMono(n / d + 1, q, d); }
  }

  // --- Operations -----------------------------------------------------------------

  /** What is checkpointed: tickets in a gauge, deposits in a bribe. */
  function Weight(p: Pool, ve: VeId): int {
    if p.isGauge then Of(p.derived, ve) else Of(p.deposited, ve)
  }

  function TotalWeight(p: Pool): int {
    if p.isGauge then p.totalDerived else p.totalDeposited
  }

  function WriteCheckpoints(p: Pool, now: nat, ve: VeId): Pool {
    p.(users := p.users[ve := Write(UserHistory(p, ve), now, Weight(p, ve))],
       history := Write(p.history, now, TotalWeight(p)))
  }

  /** Replace a user's tickets. */
  function WithTickets(p: Pool, ve: VeId, tickets: int): Pool {
    p.(totalDerived := p.totalDerived - Of(p.derived, ve) + tickets, derived := p.derived[ve := tickets])
  }

  function SetTickets(p: Pool, now: nat, ve: VeId, tickets: int): Pool {
    WriteCheckpoints(WithTickets(p, ve, tickets), now, ve)
  }

  /** Recompute a user's tickets; a bribe has none. */
  function Derive(p: Pool, now: nat, ve: VeId, power: Power): Pool {
    if p.isGauge then SetTickets(p, now, ve, DerivedTickets(Of(p.deposited, ve), p.totalDeposited, power)) else p
  }

  function Checkpointed(p: Pool, now: nat, ve: VeId, power: Power): Pool {
    if p.isGauge then Derive(p, now, ve, power) else WriteCheckpoints(p, now, ve)
  }

  /** A gauge takes the coins into escrow and pays them from there; a bribe only counts
      them. */
  function MoveDeposit(p: Pool, from: Address, to: Address, amount: nat): Result<Bank> {
    if p.isGauge then SendCoins(p.bank, from, to, [Coin(p.denom, amount)]) else Ok(p.bank)
  }

  function Deposited(p: Pool, bank: Bank, ve: VeId, amount: nat): Pool {
    p.(bank := bank, totalDeposited := p.totalDeposited + amount,
       deposited := p.deposited[ve := Of(p.deposited, ve) + amount])
  }

  /** An emptied deposit is deleted. */
  function Withdrawn(p: Pool, bank: Bank, ve: VeId, amount: nat): Pool {
    var left := Of(p.deposited, ve) - amount;
    p.(bank := bank, totalDeposited := p.totalDeposited - amount,
       deposited := if left > 0 then p.deposited[ve := left] else p.deposited - {ve})
  }

  function DepositStep(p: Pool, now: nat, ve: VeId, owner: Address, amount: nat, power: Power): Result<Pool>
  {
    var bank :- MoveDeposit(p, owner, p.escrow, amount);
    Ok(Checkpointed(Deposited(p, bank, ve, amount), now, ve, power))
  }

  function WithdrawStep(p: Pool, now: nat, ve: VeId, owner: Address, amount: nat, power: Power): Result<Pool>
  {
    var deposited := Of(p.deposited, ve);
    :- Need(amount <= deposited, TooLargeAmount);
    var bank :- MoveDeposit(p, p.escrow, owner, amount);
    Ok(Checkpointed(Withdrawn(p, bank, ve, amount), now, ve, power))
  }

  datatype Op =
    | Deposit(time: nat, ve: VeId, owner: Address, amount: nat, power: Power)
    | Withdraw(time: nat, ve: VeId, owner: Address, amount: nat, power: Power)
    | Rederive(time: nat, ve: VeId, power: Power)
    | Elsewhere(time: nat, moves: seq<Move>)

  /** Nobody else takes the escrowed coin; anyone may bring more of it. */
  predicate SparesEscrow(p: Pool, m: Move) {
    m.coin.denom == p.denom ==>
      match m
      case Transfer(from, _, _) => from != p.escrow
      case Mint(_, _) => true
      case Burn(from, _) => from != p.escrow
  }

  function OpStep(p: Pool, op: Op): Result<Pool>
  {
    match op
    case Deposit(now, ve, owner, amount, power) => DepositStep(p, now, ve, owner, amount, power)
    case Withdraw(now, ve, owner, amount, power) => WithdrawStep(p, now, ve, owner, amount, power)
    case Rederive(now, ve, power) => Ok(Derive(p, now, ve, power))
    case Elsewhere(_, moves) =>
      :- Need(forall m | m in moves :: SparesEscrow(p, m), Unauthorized);
      var bank :- ApplyAll(p.bank, moves);
      Ok(p.(bank := bank))
  }

  // --- What every operation keeps -------------------------------------------------

  /** The histories are in order, not ahead of time, and end with the current amounts. */
  predicate HistoryOk(h: History, now: nat, current: int) {
    Increasing(h) && Before(h, now) && (h != [] ==> h[|h| - 1].amount == current)
  }

  ghost predicate SumsOk(p: Pool) {
    && p.totalDeposited == Sum(p.deposited) && p.totalDerived == Sum(p.derived)
    && (forall ve | ve in p.deposited :: 0 <= p.deposited[ve])
  }

  predicate HistoriesOk(p: Pool, now: nat) {
    && HistoryOk(p.history, now, TotalWeight(p))
    && (forall ve | ve in p.users :: HistoryOk(p.users[ve], now, Weight(p, ve)))
  }

  /** What the escrow holds beyond the deposits. */
  function Surplus(p: Pool): int {
    if p.isGauge then p.bank.Balance(p.escrow, p.denom) - p.totalDeposited else 0
  }

  /** Tickets lie between two fifths of the deposit, rounded down, and the deposit. */
  predicate InRange(p: Pool, ve: VeId) {
    Of(p.deposited, ve) * 40 / 100 <= Of(p.derived, ve) <= Of(p.deposited, ve)
  }

  ghost predicate TicketsOk(p: Pool) {
    p.isGauge ==> forall ve :: InRange(p, ve)
  }

  ghost predicate PoolOk(p: Pool, now: nat) {
    SumsOk(p) && HistoriesOk(p, now) && TicketsOk(p) && 0 <= Surplus(p)
  }

  lemma TotalNonneg(p: Pool)
    requires SumsOk(p)
    ensures 0 <= p.totalDeposited && forall ve :: 0 <= Of(p.deposited, ve) <= p.totalDeposited
  {
    SumBound(p.deposited);
  }

  lemma WriteHistory(h: History, now: nat, amount: int)
    requires Increasing(h) && Before(h, now)
    ensures HistoryOk(Write(h, now, amount), now, amount)
  {
    WriteKeeps(h, now, amount);
  }

  /** The histories may trail the amounts only where a checkpoint is about to be written. */
  predicate HistoriesOkBut(p: Pool, now: nat, ve: VeId) {
    && Increasing(p.history) && Before(p.history, now)
    && (forall u | u in p.users :: Increasing(p.users[u]) && Before(p.users[u], now))
    && (forall u | u in p.users && u != ve :: HistoryOk(p.users[u], now, Weight(p, u)))
  }

  lemma CheckpointsKeep(p: Pool, now: nat, ve: VeId)
    requires HistoriesOkBut(p, now, ve)
    ensures HistoriesOk(WriteCheckpoints(p, now, ve), now)
  {
    WriteHistory(p.history, now, TotalWeight(p));
    WriteHistory(UserHistory(p, ve), now, Weight(p, ve));
  }

  lemma TicketsKeep(p: Pool, now: nat, ve: VeId, tickets: int)
    requires p.isGauge && SumsOk(p) && HistoriesOkBut(p, now, ve)
    ensures SumsOk(SetTickets(p, now, ve, tickets)) && HistoriesOk(SetTickets(p, now, ve, tickets), now)
  {
    SumPut(p.derived, ve, tickets);
    var q := WithTickets(p, ve, tickets);
    forall u | u in q.users && u != ve
      ensures HistoryOk(q.users[u], now, Weight(q, u))
    {
      assert Weight(q, u) == Weight(p, u);
    }
    CheckpointsKeep(q, now, ve);
  }

  /** Tickets when written lie between two fifths of the deposit and the deposit. */
  lemma DeriveKeeps(p: Pool, now: nat, ve: VeId, power: Power)
    requires p.isGauge && SumsOk(p) && HistoriesOkBut(p, now, ve)
    ensures var q := Derive(p, now, ve, power);
            && SumsOk(q) && HistoriesOk(q, now) && q.deposited == p.deposited
            && InRange(q, ve) && (forall u | u != ve :: InRange(q, u) <==> InRange(p, u)) && Surplus(q) == Surplus(p)
  {
    TotalNonneg(p);
    DerivedRange(Of(p.deposited, ve), p.totalDeposited, power);
    TicketsKeep(p, now, ve, DerivedTickets(Of(p.deposited, ve), p.totalDeposited, power));
  }

  lemma CheckpointedKeeps(p: Pool, now: nat, ve: VeId, power: Power)
    requires SumsOk(p) && HistoriesOkBut(p, now, ve) && 0 <= Surplus(p)
    requires p.isGauge ==> forall u | u != ve :: InRange(p, u)
    ensures PoolOk(Checkpointed(p, now, ve, power), now) && Surplus(Checkpointed(p, now, ve, power)) == Surplus(p)
  {
    if p.isGauge { DeriveKeeps(p, now, ve, power); } else { CheckpointsKeep(p, now, ve); }
  }

  lemma EscrowMoves(p: Pool, from: Address, to: Address, amount: nat)
    requires from != to && MoveDeposit(p, from, to, amount).Ok?
    ensures var b' := MoveDeposit(p, from, to, amount).value;
            p.isGauge ==>
              && b'.Balance(to, p.denom) == p.bank.Balance(to, p.denom) + amount
              && b'.Balance(from, p.denom) == p.bank.Balance(from, p.denom) - amount
  {
    if p.isGauge {
      var c := Coin(p.denom, amount);
      assert [c][1..] == [];
      var b1 := Debit(p.bank, from, c).value;
      assert DebitAll(b1, from, []) == Ok(b1) && DebitAll(p.bank, from, [c]) == Ok(b1);
      assert CreditAll(Credit(b1, to, c), to, []) == Credit(b1, to, c) && CreditAll(b1, to, [c]) == Credit(b1, to, c);
    }
  }

  lemma OneCoinSent(b: Bank, from: Address, to: Address, c: Coin, who: Address, d: Denom)
    requires SendCoins(b, from, to, [c]).Ok?
    ensures SendCoins(b, from, to, [c]).value.Balance(who, d) == b.Balance(who, d)
              + (if who == to && d == c.denom then c.amount else 0)
                  - (if who == from && d == c.denom then c.amount else 0)
  {
    assert [c][1..] == [];
    var b1 := Debit(b, from, c).value;
    assert DebitAll(b, from, [c]) == Ok(b1);
    assert CreditAll(b1, to, [c]) == Credit(b1, to, c);
  }

  /** The weight of a user, and of everyone, at a time: tickets in a gauge, deposits in a bribe. */
  predicate WrittenDown(p: Pool, q: Pool, now: nat, ve: VeId) {
    && UserHistory(q, ve) == Write(UserHistory(p, ve), now,
                                   if p.isGauge then Of(q.derived, ve) else Of(q.deposited, ve))
    && q.history == Write(p.history, now, if p.isGauge then q.totalDerived else q.totalDeposited)
    && (forall u | u in p.users && u != ve :: u in q.users && q.users[u] == p.users[u])
  }

  /** A user of a gauge has the tickets its deposit and voting power come to; nobody else's, and
      none of a bribe's, have changed. */
  ghost predicate Ticketed(p: Pool, q: Pool, ve: VeId, power: Power) {
    && q.isGauge == p.isGauge && q.escrow == p.escrow && q.denom == p.denom
    && (forall u | u != ve || !p.isGauge :: Of(q.derived, u) == Of(p.derived, u))
    && (p.isGauge ==> Of(q.derived, ve) == DerivedTickets(Of(q.deposited, ve), q.totalDeposited, power))
    && q.totalDerived == p.totalDerived + Of(q.derived, ve) - Of(p.derived, ve)
  }

  /** What a deposit or withdrawal changes: one user's deposit and the total, that user's tickets,
      the checkpoints of both, and the coin between owner and escrow. */
  ghost predicate Changed(p: Pool, q: Pool, now: nat, ve: VeId, owner: Address, amount: int, power: Power) {
    && q.totalDeposited == p.totalDeposited + amount
    && (forall u :: Of(q.deposited, u) == Of(p.deposited, u) + if u == ve then amount else 0)
    && Ticketed(p, q, ve, power) && WrittenDown(p, q, now, ve)
    && (forall who, d :: q.bank.Balance(who, d) == p.bank.Balance(who, d)
          + if p.isGauge && d == p.denom
            then (if who == p.escrow then amount else 0) - (if who == owner then amount else 0) else 0)
  }

  lemma DepositChanges(p: Pool, now: nat, ve: VeId, owner: Address, amount: nat, power: Power)
    ensures DepositStep(p, now, ve, owner, amount, power).Ok? ==>
              Changed(p, DepositStep(p, now, ve, owner, amount, power).value, now, ve, owner, amount, power)
  {
    if DepositStep(p, now, ve, owner, amount, power).Ok? && p.isGauge {
      forall who, d
        ensures MoveDeposit(p, owner, p.escrow, amount).value.Balance(who, d) == p.bank.Balance(who, d)
                  + if d == p.denom then (if who == p.escrow then amount else 0) - (if who == owner then amount else 0)
                      else 0
      {
        OneCoinSent(p.bank, owner, p.escrow, Coin(p.denom, amount), who, d);
      }
    }
  }

  lemma WithdrawChanges(p: Pool, now: nat, ve: VeId, owner: Address, amount: nat, power: Power)
    ensures WithdrawStep(p, now, ve, owner, amount, power).Ok? ==>
              Changed(p, WithdrawStep(p, now, ve, owner, amount, power).value, now, ve, owner, 0 - amount, power)
  {
    if WithdrawStep(p, now, ve, owner, amount, power).Ok? && p.isGauge {
      forall who, d
        ensures MoveDeposit(p, p.escrow, owner, amount).value.Balance(who, d) == p.bank.Balance(who, d)
                  + if d == p.denom then (if who == owner then amount else 0) - (if who == p.escrow then amount else 0)
                      else 0
      {
        OneCoinSent(p.bank, p.escrow, owner, Coin(p.denom, amount), who, d);
      }
    }
  }

  /** Recomputing a user's tickets moves no coin and no deposit; in a bribe it does nothing. */
  lemma DeriveChanges(p: Pool, now: nat, ve: VeId, power: Power)
    ensures var q := Derive(p, now, ve, power);
            && q.deposited == p.deposited && q.totalDeposited == p.totalDeposited && q.bank == p.bank
            && (if p.isGauge then Ticketed(p, q, ve, power) && WrittenDown(p, q, now, ve) else q == p)
            && OpStep(p, Rederive(now, ve, power)) == Ok(q)
  {
  }

  /** A change to one deposit leaves everyone else's tickets in range. */
  lemma OthersInRange(p: Pool, q: Pool, ve: VeId)
    requires TicketsOk(p) && q.isGauge == p.isGauge && q.derived == p.derived
    requires forall u | u != ve :: Of(q.deposited, u) == Of(p.deposited, u)
    ensures q.isGauge ==> forall u | u != ve :: InRange(q, u)
  {
    forall u | q.isGauge && u != ve
      ensures InRange(q, u)
    {
      assert InRange(p, u);
    }
  }

  lemma DepositKeeps(p: Pool, now: nat, ve: VeId, owner: Address, amount: nat, power: Power)
    requires PoolOk(p, now) && owner != p.escrow && DepositStep(p, now, ve, owner, amount, power).Ok?
    ensures PoolOk(DepositStep(p, now, ve, owner, amount, power).value, now)
    ensures Surplus(DepositStep(p, now, ve, owner, amount, power).value) == Surplus(p)
  {
    TotalNonneg(p);
    SumPut(p.deposited, ve, Of(p.deposited, ve) + amount);
    EscrowMoves(p, owner, p.escrow, amount);
    var bank := MoveDeposit(p, owner, p.escrow, amount).value;
    var q := Deposited(p, bank, ve, amount);
    assert SumsOk(q) && Surplus(q) == Surplus(p);
    OthersInRange(p, q, ve);
    CheckpointedKeeps(q, now, ve, power);
  }

  lemma WithdrawSums(p: Pool, bank: Bank, ve: VeId, amount: nat)
    requires SumsOk(p) && amount <= Of(p.deposited, ve)
    ensures SumsOk(Withdrawn(p, bank, ve, amount))
  {
    var left := Of(p.deposited, ve) - amount;
    if left > 0 {
      SumPut(p.deposited, ve, left);
    } else if ve in p.deposited {
      SumRemove(p.deposited, ve);
    } else {
      assert p.deposited - {ve} == p.deposited;
    }
  }

  lemma WithdrawKeeps(p: Pool, now: nat, ve: VeId, owner: Address, amount: nat, power: Power)
    requires PoolOk(p, now) && owner != p.escrow && WithdrawStep(p, now, ve, owner, amount, power).Ok?
    ensures PoolOk(WithdrawStep(p, now, ve, owner, amount, power).value, now)
    ensures Surplus(WithdrawStep(p, now, ve, owner, amount, power).value) == Surplus(p)
  {
    EscrowMoves(p, p.escrow, owner, amount);
    var bank := MoveDeposit(p, p.escrow, owner, amount).value;
    var q := Withdrawn(p, bank, ve, amount);
    WithdrawSums(p, bank, ve, amount);
    OthersInRange(p, q, ve);
    CheckpointedKeeps(q, now, ve, power);
  }

  /** A withdrawal within the deposit never fails: the escrow holds every deposit. */
  lemma WithdrawFunded(p: Pool, now: nat, ve: VeId, owner: Address, amount: nat, power: Power)
    requires PoolOk(p, now)
    ensures WithdrawStep(p, now, ve, owner, amount, power).Ok? <==> amount <= Of(p.deposited, ve)
  {
    TotalNonneg(p);
    if p.isGauge && amount <= Of(p.deposited, ve) {
      var c := Coin(p.denom, amount);
      assert [c][1..] == [];
      var b1 := Debit(p.bank, p.escrow, c).value;
      assert DebitAll(b1, p.escrow, []) == Ok(b1) && DebitAll(p.bank, p.escrow, [c]) == Ok(b1);
    }
  }

  /** How much of the escrowed coin moves bring to the escrow. */
  function Gift(p: Pool, moves: seq<Move>): nat {
    if moves == [] then 0 else
      var m := moves[0];
      (if m.coin.denom == p.denom && (m.Transfer? || m.Mint?) && m.to == p.escrow then m.coin.amount else 0)
        + Gift(p, moves[1..])
  }

  lemma {:induction false} ElsewhereMoves(p: Pool, b: Bank, moves: seq<Move>)
    requires (forall m | m in moves :: SparesEscrow(p, m)) && ApplyAll(b, moves).Ok?
    ensures ApplyAll(b, moves).value.Balance(p.escrow, p.denom) == b.Balance(p.escrow, p.denom) + Gift(p, moves)
    decreases moves
  {
    if moves != [] {
      assert SparesEscrow(p, moves[0]);
      ApplyExact(b, moves[0], p.escrow, p.denom);
      ElsewhereMoves(p, Apply(b, moves[0]).value, moves[1..]);
    }
  }

  predicate OpOk(p: Pool, op: Op) {
    match op
    case Deposit(_, _, owner, _, _) => owner != p.escrow
    case Withdraw(_, _, owner, _, _) => owner != p.escrow
    case Rederive(_, _, _) => true
    case Elsewhere(_, _) => true
  }

  /** What an operation brings the escrow beyond deposits. */
  function Brings(p: Pool, op: Op): nat {
    if op.Elsewhere? && p.isGauge && OpStep(p, op).Ok? then Gift(p, op.moves) else 0
  }

  lemma OpKeeps(p: Pool, op: Op)
    requires PoolOk(p, op.time) && OpOk(p, op) && OpStep(p, op).Ok?
    ensures PoolOk(OpStep(p, op).value, op.time)
    ensures Surplus(OpStep(p, op).value) == Surplus(p) + Brings(p, op)
  {
    match op
    case Deposit(now, ve, owner, amount, power) => DepositKeeps(p, now, ve, owner, amount, power);
    case Withdraw(now, ve, owner, amount, power) => WithdrawKeeps(p, now, ve, owner, amount, power);
    case Rederive(now, ve, power) => RederiveKeeps(p, now, ve, power);
    case Elsewhere(now, moves) => GiftKeeps(p, now, moves);
  }

  lemma RederiveKeeps(p: Pool, now: nat, ve: VeId, power: Power)
    requires PoolOk(p, now)
    ensures PoolOk(Derive(p, now, ve, power), now) && Surplus(Derive(p, now, ve, power)) == Surplus(p)
  {
    if p.isGauge {
      OthersInRange(p, p, ve);
      CheckpointedKeeps(p, now, ve, power);
    }
  }

  lemma GiftKeeps(p: Pool, now: nat, moves: seq<Move>)
    requires PoolOk(p, now) && OpStep(p, Elsewhere(now, moves)).Ok?
    ensures var q := OpStep(p, Elsewhere(now, moves)).value;
            PoolOk(q, now) && Surplus(q) == Surplus(p) + Brings(p, Elsewhere(now, moves))
  {
    ElsewhereMoves(p, p.bank, moves);
    var q := OpStep(p, Elsewhere(now, moves)).value;
    assert forall ve :: InRange(q, ve) <==> InRange(p, ve);
  }

  // --- Runs -----------------------------------------------------------------------

  function Next(p: Pool, op: Op): Pool {
    var r := OpStep(p, op);
    if r.Ok? then r.value else p
  }

  function After(p: Pool, ops: seq<Op>): Pool {
    if ops == [] then p else Next(After(p, ops[..|ops| - 1]), ops[|ops| - 1])
  }

  /** Block time never goes back, and nobody but the pool acts for the escrow. */
  predicate Chronicle(p: Pool, start: nat, ops: seq<Op>) {
    && (forall i | 0 <= i < |ops| :: start <= ops[i].time && OpOk(p, ops[i]))
    && (forall i, j | 0 <= i < j < |ops| :: ops[i].time <= ops[j].time)
  }

  function Clock(start: nat, ops: seq<Op>): nat {
    if ops == [] then start else ops[|ops| - 1].time
  }

  /** The pool's kind, coin and escrow never change. */
  lemma NextFixed(p: Pool, op: Op)
    ensures var q := Next(p, op); q.isGauge == p.isGauge && q.denom == p.denom && q.escrow == p.escrow
  {
  }

  lemma LaterOk(p: Pool, before: nat, now: nat)
    requires PoolOk(p, before) && before <= now
    ensures PoolOk(p, now)
  {
  }

  function SumOf(xs: seq<nat>): nat {
    if xs == [] then 0 else SumOf(xs[..|xs| - 1]) + xs[|xs| - 1]
  }

  lemma {:induction false} SumOfZero(xs: seq<nat>)
    ensures SumOf(xs) == 0 <==> forall i | 0 <= i < |xs| :: xs[i] == 0
    decreases |xs|
  {
    if xs != [] {
      var n := |xs| - 1;
      SumOfZero(xs[..n]);
      assert forall i | 0 <= i < n :: xs[..n][i] == xs[i];
    }
  }

  /** What the i-th operation of a run brings the escrow beyond deposits, and what all do. */
  function BringsAt(p: Pool, ops: seq<Op>, i: nat): nat
    requires i < |ops|
  {
    Brings(After(p, ops[..i]), ops[i])
  }

  function Brought(p: Pool, ops: seq<Op>): (xs: seq<nat>)
    ensures |xs| == |ops| && forall i | 0 <= i < |ops| :: xs[i] == BringsAt(p, ops, i)
  {
    seq(|ops|, i requires 0 <= i < |ops| => BringsAt(p, ops, i))
  }

  function BroughtIn(p: Pool, ops: seq<Op>): nat {
    SumOf(Brought(p, ops))
  }

  lemma BringsBefore(p: Pool, ops: seq<Op>, n: nat, i: nat)
    requires i < n <= |ops|
    ensures BringsAt(p, ops[..n], i) == BringsAt(p, ops, i)
  {
    assert ops[..n][..i] == ops[..i] && ops[..n][i] == ops[i];
  }

  lemma SumOfGrows(xs: seq<nat>, ys: seq<nat>)
    requires |xs| == |ys| + 1 && forall i | 0 <= i < |ys| :: xs[i] == ys[i]
    ensures SumOf(xs) == SumOf(ys) + xs[|ys|]
  {
    assert xs[..|ys|] == ys;
  }

  lemma BroughtGrows(p: Pool, ops: seq<Op>)
    requires ops != []
    ensures var n := |ops| - 1; BroughtIn(p, ops) == BroughtIn(p, ops[..n]) + BringsAt(p, ops, n)
  {
    var n := |ops| - 1;
    var xs, ys := Brought(p, ops), Brought(p, ops[..n]);
    forall i | 0 <= i < n
      ensures xs[i] == ys[i]
    {
      BringsBefore(p, ops, n, i);
    }
    SumOfGrows(xs, ys);
  }

  /** Every run keeps the sums, the histories' order and latest amounts, everyone's tickets in
      range, and the escrow at the deposits and what others brought. */
  lemma {:induction false} RunKeeps(p: Pool, start: nat, ops: seq<Op>)
    requires PoolOk(p, start) && Chronicle(p, start, ops)
    ensures PoolOk(After(p, ops), Clock(start, ops))
    ensures Surplus(After(p, ops)) == Surplus(p) + BroughtIn(p, ops)
    ensures After(p, ops).escrow == p.escrow && After(p, ops).isGauge == p.isGauge && After(p, ops).denom == p.denom
    decreases |ops|
  {
    if ops != [] {
      var n := |ops| - 1;
      var before, op := After(p, ops[..n]), ops[n];
      RunKeeps(p, start, ops[..n]);
      NextFixed(before, op);
      LaterOk(before, Clock(start, ops[..n]), op.time);
      BroughtGrows(p, ops);
      if OpStep(before, op).Ok? { OpKeeps(before, op); }
    }
  }

  /** The escrow always holds the deposits, and from an exact start it holds exactly them if
      and only if nobody else brought any of their coin. */
  lemma EscrowExact(p: Pool, start: nat, ops: seq<Op>)
    requires PoolOk(p, start) && Chronicle(p, start, ops) && p.isGauge && Surplus(p) == 0
    ensures var q := After(p, ops);
            && q.totalDeposited <= q.bank.Balance(p.escrow, p.denom)
            && (q.totalDeposited == q.bank.Balance(p.escrow, p.denom) <==>
                  forall i | 0 <= i < |ops| :: BringsAt(p, ops, i) == 0)
  {
    RunKeeps(p, start, ops);
    SumOfZero(Brought(p, ops));
  }

  // --- Replay ---------------------------------------------------------------------

  /** The operations up to the end of a second. */
  function Until(ops: seq<Op>, t: nat): seq<Op> {
    if ops == [] then []
    else if ops[|ops| - 1].time <= t then ops
    else Until(ops[..|ops| - 1], t)
  }

  /** A history is left alone or gets one entry, the current amount. */
  predicate Wrote(h: History, h': History, now: nat, amount: int) {
    h' == h || h' == Write(h, now, amount)
  }

  predicate WroteAll(p: Pool, q: Pool, now: nat, u: VeId) {
    Wrote(p.history, q.history, now, TotalWeight(q)) && Wrote(UserHistory(p, u), UserHistory(q, u), now, Weight(q, u))
  }

  lemma CheckpointedWrites(p: Pool, now: nat, ve: VeId, power: Power, u: VeId)
    ensures WroteAll(p, Checkpointed(p, now, ve, power), now, u)
    ensures WroteAll(p, Derive(p, now, ve, power), now, u)
  {
  }

  lemma OpWrites(p: Pool, op: Op, u: VeId)
    requires OpStep(p, op).Ok?
    ensures WroteAll(p, OpStep(p, op).value, op.time, u)
  {
    match op
    case Deposit(now, ve, owner, amount, power) =>
      CheckpointedWrites(Deposited(p, MoveDeposit(p, owner, p.escrow, amount).value, ve, amount), now, ve, power, u);
    case Withdraw(now, ve, owner, amount, power) =>
      CheckpointedWrites(Withdrawn(p, MoveDeposit(p, p.escrow, owner, amount).value, ve, amount), now, ve, power, u);
    case Rederive(now, ve, power) => CheckpointedWrites(p, now, ve, power, u);
    case Elsewhere(_, _) =>
  }

  /** An operation's checkpoints do not change what was in force before its second. */
  lemma NextInForce(p: Pool, op: Op, t: nat, ve: VeId)
    requires HistoriesOk(p, op.time) && HistoriesOk(Next(p, op), op.time) && t < op.time
    ensures InForce(Next(p, op).history, t) == InForce(p.history, t)
    ensures InForce(UserHistory(Next(p, op), ve), t) == InForce(UserHistory(p, ve), t)
  {
    if OpStep(p, op).Ok? {
      OpWrites(p, op, ve);
      var q := OpStep(p, op).value;
      WroteInForce(p.history, q.history, op.time, TotalWeight(q), t);
      WroteInForce(UserHistory(p, ve), UserHistory(q, ve), op.time, Weight(q, ve), t);
    }
  }

  lemma WroteInForce(h: History, h': History, now: nat, amount: int, t: nat)
    requires Increasing(h) && Before(h, now) && Increasing(h') && Wrote(h, h', now, amount) && t < now
    ensures InForce(h', t) == InForce(h, t)
  {
    WriteInForce(h, now, amount, t);
  }

  /** What the histories say is in force is what a pool holds. */
  predicate Tells(p: Pool, h: History, user: History, t: nat, ve: VeId)
    requires Increasing(h) && Increasing(user)
  {
    && InForce(h, t) == (if p.history == [] then None else Some(TotalWeight(p)))
    && InForce(user, t) == (if UserHistory(p, ve) == [] then None else Some(Weight(p, ve)))
  }

  lemma TellsNow(p: Pool, now: nat, t: nat, ve: VeId)
    requires HistoriesOk(p, now) && now <= t
    ensures Tells(p, p.history, UserHistory(p, ve), t, ve)
  {
    LatestInForce(p.history, t);
    LatestInForce(UserHistory(p, ve), t);
  }

  /** The index agrees with replay: what the search finds for a second is what the pool
      held when only the operations up to the end of that second had happened. */
  lemma {:induction false} IndexIsReplay(p: Pool, start: nat, ops: seq<Op>, t: nat, ve: VeId)
    requires PoolOk(p, start) && Chronicle(p, start, ops) && start <= t
    ensures HistoriesOk(After(p, ops), Clock(start, ops))
    ensures Tells(After(p, Until(ops, t)), After(p, ops).history, UserHistory(After(p, ops), ve), t, ve)
    decreases |ops|
  {
    RunKeeps(p, start, ops);
    if Clock(start, ops) <= t {
      TellsNow(After(p, ops), Clock(start, ops), t, ve);
    } else {
      var n := |ops| - 1;
      var before := After(p, ops[..n]);
      RunKeeps(p, start, ops[..n]);
      LaterOk(before, Clock(start, ops[..n]), ops[n].time);
      NextInForce(before, ops[n], t, ve);
      IndexIsReplay(p, start, ops[..n], t, ve);
    }
  }
}
