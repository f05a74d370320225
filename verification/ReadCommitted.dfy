/**
 * The money transactions statement by statement. Statements of many transactions interleave, a row lock is held
 * until its transaction ends, and every statement reads what is committed plus what its own transaction wrote.
 */
module ReadCommitted {
  import opened Sums
  import opened Domain
  import opened Payout
  import opened BankOps
  import opened Ledger
  import opened Plans
  import opened Settlement

  datatype Res = EventRow(id: nat) | MarketRow(id: nat) | OutcomeRow(id: nat) | WalletRow(id: nat) | BetRow(id: nat)

  /** What a transaction is for. A settlement carries an arbitrary plan; the price of a stake is the one it read. */
  datatype Job =
    | SettleJob(event: nat, marks: seq<nat>, ruling: seq<OutcomePlan>)
    | StakeJob(user: nat, outcome: nat, eventOf: nat, stake: int, odds: int)
    | AdjustJob(user: nat, amount: int)
    | EnrollJob(bonus: int)

  datatype Move = Move(user: nat, amount: int, kind: TxType, betId: Option<nat>)

  datatype Listed = Listed(id: nat, bet: Bet)

  /** The next statement of a transaction. */
  datatype Pc =
    | Marking(next: nat) | Ruling(next: nat) | Listing | Paying | Deciding | Closing
    | Guarding | Inserting
    | Crediting(move: Move) | Recording(move: Move, after: int)
    | Committing

  /** An open transaction: its own wallet and bet rows, the ledger rows it inserted, the bets it listed and has still to
   * settle, and the id of the user or bet it inserted. */
  datatype Tx = Tx(job: Job, pc: Pc, w: map<nat, int>, written: map<nat, Bet>, rows: seq<LedgerRow>,
                   todo: seq<Listed>, listed: seq<Listed>, newId: nat)

  /** Committed tables, sequences, row locks by owner, and open transactions. */
  datatype Sys = Sys(wallets: map<nat, int>, bets: map<nat, Bet>, ledger: seq<LedgerRow>,
                     nextUser: nat, nextBet: nat, locks: map<Res, nat>, txs: map<nat, Tx>)

  // ---------- statements ----------

  predicate Free(s: Sys, t: nat, r: Res) {
    r in s.locks ==> s.locks[r] == t
  }

  predicate Held(s: Sys, t: nat, r: Res) {
    r in s.locks && s.locks[r] == t
  }

  predicate SameTables(s: Sys, next: Sys) {
    next.wallets == s.wallets && next.bets == s.bets && next.ledger == s.ledger
  }

  function Unlocked(locks: map<Res, nat>, t: nat): map<Res, nat> {
    map r | r in locks && locks[r] != t :: locks[r]
  }

  /** No other transaction appears, ends, moves, or gains or loses a lock. */
  predicate SameOthers(s: Sys, next: Sys, t: nat) {
    next.txs - {t} == s.txs - {t} && Unlocked(next.locks, t) == Unlocked(s.locks, t)
  }

  function Put(s: Sys, t: nat, tx: Tx): (next: Sys)
    ensures SameTables(s, next) && SameOthers(s, next, t) && next.txs == s.txs[t := tx]
  {
    s.(txs := s.txs[t := tx])
  }

  /** Take the row lock and go on, or wait. */
  function Take(s: Sys, t: nat, r: Res, tx: Tx): (next: Sys)
    ensures SameTables(s, next) && SameOthers(s, next, t)
    ensures if Free(s, t, r) then next.txs == s.txs[t := tx] else next == s
  {
    if Free(s, t, r) then Put(s.(locks := s.locks[r := t]), t, tx) else s
  }

  function Rollback(s: Sys, t: nat): (next: Sys)
    ensures SameTables(s, next) && SameOthers(s, next, t) && t !in next.txs
  {
    s.(txs := s.txs - {t}, locks := Unlocked(s.locks, t))
  }

  function Commit(s: Sys, t: nat, tx: Tx): Sys {
    Rollback(s, t).(wallets := s.wallets + tx.w, bets := s.bets + tx.written, ledger := s.ledger + tx.rows)
  }

  function Base(wallets: map<nat, int>, u: nat): int {
    if u in wallets then wallets[u] else 0
  }

  predicate Visible(s: Sys, tx: Tx, u: nat) {
    u in tx.w || u in s.wallets
  }

  /** The balance a statement of the transaction reads. */
  function Balance(s: Sys, tx: Tx, u: nat): int {
    if u in tx.w then tx.w[u] else Base(s.wallets, u)
  }

  function Results(job: Job): map<nat, Result> {
    if job.SettleJob? then ResultsIn(job.ruling) else map[]
  }

  function ListOne(bets: map<nat, Bet>, results: map<nat, Result>, b: nat): seq<Listed> {
    if b in bets && PendingOn(results)(bets[b]) then [Listed(b, bets[b])] else []
  }

  /** ListPendingByOutcomes over ids below n, ORDER BY id. */
  function ListPending(bets: map<nat, Bet>, results: map<nat, Result>, n: nat): seq<Listed> {
    if n == 0 then []
    else
      ListPending(bets, results, n - 1)
      + ListOne(bets, results, n - 1)
  }

  function Ids(todo: seq<Listed>): set<nat> {
    set i | 0 <= i < |todo| :: todo[i].id
  }

  function CreditOf(item: Listed, result: Result): Move {
    if result == ResultWon then Move(item.bet.userId, item.bet.payout, TxBetPayout, Some(item.id))
    else Move(item.bet.userId, item.bet.stake, TxBetRefund, Some(item.id))
  }

  function Pay(s: Sys, t: nat, tx: Tx): Sys {
    if |tx.todo| == 0 then Put(s, t, tx.(pc := Closing))
    else
      var item := tx.todo[0];
      var results := Results(tx.job);
      if item.bet.outcomeId !in results then Put(s, t, tx.(todo := tx.todo[1..]))
      else
        var result := results[item.bet.outcomeId];
        if result == ResultLost then Put(s, t, tx.(pc := Deciding))
        else if !Visible(s, tx, item.bet.userId) then Rollback(s, t)
        else Take(s, t, WalletRow(item.bet.userId), tx.(pc := Crediting(CreditOf(item, result))))
  }

  /** UpdateStatusSettled. */
  function Decide(s: Sys, t: nat, tx: Tx): Sys {
    if |tx.todo| == 0 || tx.todo[0].bet.outcomeId !in Results(tx.job) || tx.todo[0].id !in s.bets then Rollback(s, t)
    else
      var b := tx.todo[0].id;
      var status := BetStatusFromResult(Results(tx.job)[tx.todo[0].bet.outcomeId]);
      Take(s, t, BetRow(b),
           tx.(pc := Paying, todo := tx.todo[1..], written := tx.written[b := s.bets[b].(status := status)]))
  }

  /** GetByUserIDForUpdate and the balance guard; a registration inserts its user's wallet instead. */
  function Guard(s: Sys, t: nat, tx: Tx): Sys {
    match tx.job
    case SettleJob(_, _, _) => Rollback(s, t)
    case EnrollJob(bonus) =>
      var u := s.nextUser;
      Take(s.(nextUser := u + 1), t, WalletRow(u),
           tx.(pc := Crediting(Move(u, bonus, TxSignupBonus, None)), w := tx.w[u := 0], newId := u))
    case StakeJob(u, _, _, stake, _) =>
      if u !in s.wallets then Rollback(s, t)
      else if !Free(s, t, WalletRow(u)) then s
      else if s.wallets[u] < stake then Rollback(s, t)
      else Take(s, t, WalletRow(u), tx.(pc := Inserting))
    case AdjustJob(u, amount) =>
      if u !in s.wallets then Rollback(s, t)
      else if !Free(s, t, WalletRow(u)) then s
      else if s.wallets[u] + amount < 0 then Rollback(s, t)
      else Take(s, t, WalletRow(u), tx.(pc := Crediting(Move(u, amount, TxAdminAdjust, None))))
  }

  /** bets.Create: the new row is the transaction's own until it ends. */
  function Insert(s: Sys, t: nat, tx: Tx): Sys {
    match tx.job
    case StakeJob(u, o, e, stake, odds) =>
      if stake <= 0 || odds <= 1000 then Rollback(s, t)
      else
        var b := s.nextBet;
        var bet := Bet(u, o, e, stake, odds, ComputePotentialPayout(stake, odds), BetPending);
        Take(s.(nextBet := b + 1), t, BetRow(b),
             tx.(pc := Crediting(Move(u, -stake, TxBetStake, Some(b))), written := tx.written[b := bet], newId := b))
    case _ => Rollback(s, t)
  }

  /** UpdateBalance: balance = balance + amount, refused below zero. */
  function Credit(s: Sys, t: nat, tx: Tx, move: Move): Sys {
    var after := Balance(s, tx, move.user) + move.amount;
    if !Visible(s, tx, move.user) || after < 0 then Rollback(s, t)
    else Take(s, t, WalletRow(move.user), tx.(pc := Recording(move, after), w := tx.w[move.user := after]))
  }

  function RowFor(move: Move, after: int): LedgerRow {
    LedgerRow(move.user, move.amount, move.kind, move.betId, after)
  }

  function Record(s: Sys, t: nat, tx: Tx, move: Move, after: int): Sys {
    Put(s, t, tx.(rows := tx.rows + [RowFor(move, after)],
                  pc := if tx.job.SettleJob? then Deciding else Committing))
  }

  function Mark(s: Sys, t: nat, tx: Tx, i: nat): Sys {
    if tx.job.SettleJob? && i < |tx.job.marks| then Take(s, t, MarketRow(tx.job.marks[i]), tx.(pc := Marking(i + 1)))
    else Put(s, t, tx.(pc := Ruling(0)))
  }

  function Rule(s: Sys, t: nat, tx: Tx, i: nat): Sys {
    if tx.job.SettleJob? && i < |tx.job.ruling| then
      Take(s, t, OutcomeRow(tx.job.ruling[i].outcomeId), tx.(pc := Ruling(i + 1)))
    else Put(s, t, tx.(pc := Listing))
  }

  function List(s: Sys, t: nat, tx: Tx): Sys {
    var todo := ListPending(s.bets, Results(tx.job), s.nextBet);
    Put(s, t, tx.(pc := Paying, todo := todo, listed := todo))
  }

  function Statement(s: Sys, t: nat, tx: Tx): Sys {
    match tx.pc
    case Marking(i) => Mark(s, t, tx, i)
    case Ruling(i) => Rule(s, t, tx, i)
    case Listing => List(s, t, tx)
    case Paying => Pay(s, t, tx)
    case Deciding => Decide(s, t, tx)
    case Closing =>
      if tx.job.SettleJob? then Take(s, t, EventRow(tx.job.event), tx.(pc := Committing)) else Rollback(s, t)
    case Guarding => Guard(s, t, tx)
    case Inserting => Insert(s, t, tx)
    case Crediting(move) => Credit(s, t, tx, move)
    case Recording(move, after) => Record(s, t, tx, move, after)
    case Committing => Commit(s, t, tx)
  }

  /** The scheduler: a transaction starts, runs its next statement, or fails (error, lost connection, deadlock). */
  datatype Turn = Start(t: nat, job: Job) | Go(t: nat) | Fail(t: nat)

  function Begin(job: Job): Tx {
    Tx(job, if job.SettleJob? then Marking(0) else Guarding, map[], map[], [], [], [], 0)
  }

  function Next(s: Sys, turn: Turn): Sys {
    match turn
    case Start(t, job) => if t in s.txs then s else Put(s, t, Begin(job))
    case Go(t) => if t in s.txs then Statement(s, t, s.txs[t]) else s
    case Fail(t) => Rollback(s, t)
  }

  function Schedule(s: Sys, turns: seq<Turn>): Sys
    decreases |turns|
  {
    if |turns| == 0 then s else Schedule(Next(s, turns[0]), turns[1..])
  }

  // ---------- what is committed is always a sound bank ----------

  function Due(bets: map<nat, Bet>, b: nat): seq<(nat, TxType, int)> {
    if b in bets then RowsDue(bets[b]) else []
  }

  predicate BetRowFits(wallets: map<nat, int>, nextBet: nat, b: nat, bet: Bet) {
    b < nextBet && SoundBet(bet) && bet.userId in wallets
  }

  /**
   * Balances are ledger sums, the ledger is one serial chain per wallet and never negative,
   * and every bet owns exactly the rows its status dictates.
   */
  ghost predicate Books(wallets: map<nat, int>, bets: map<nat, Bet>, ledger: seq<LedgerRow>, nextUser: nat, nextBet: nat) {
    && (forall u: nat :: Base(wallets, u) == Total(ledger, AmountOf(u)))
    && (forall u: nat :: u in wallets ==> u < nextUser && wallets[u] >= 0)
    && Chained(ledger)
    && (forall b: nat :: b in bets ==> BetRowFits(wallets, nextBet, b, bets[b]))
    && (forall b: nat :: RowsOf(ledger, b) == Due(bets, b))
  }

  // ---------- what an open transaction may rely on ----------

  function InFlight(tx: Tx, u: nat): int {
    if tx.pc.Recording? && tx.pc.move.user == u then tx.pc.move.amount else 0
  }

  /** A written wallet row is locked, and is the committed balance plus the transaction's own ledger rows. */
  ghost predicate Funds(s: Sys, t: nat, tx: Tx) {
    && (forall u: nat :: u in tx.w ==>
          && Held(s, t, WalletRow(u)) && u < s.nextUser && tx.w[u] >= 0
          && (u in s.wallets <==> !tx.job.EnrollJob?)
          && tx.w[u] == Base(s.wallets, u) + Total(tx.rows, AmountOf(u)) + InFlight(tx, u))
    && (forall k :: 0 <= k < |tx.rows| ==> FundedRow(s.wallets, tx, k))
  }

  predicate FundedRow(wallets: map<nat, int>, tx: Tx, k: nat)
    requires k < |tx.rows|
  {
    var row := tx.rows[k];
    row.userId in tx.w
    && 0 <= row.balanceAfter == Base(wallets, row.userId) + Total(tx.rows[..k + 1], AmountOf(row.userId))
  }

  /** A written bet row is locked: either the transaction's own new pending bet, or a committed pending bet it decided. */
  ghost predicate WrittenFits(s: Sys, t: nat, tx: Tx, b: nat)
    requires b in tx.written
  {
    && Held(s, t, BetRow(b)) && b < s.nextBet && SoundBet(tx.written[b])
    && (tx.written[b].userId in s.wallets)
    && if b in s.bets then
         && tx.job.SettleJob? && s.bets[b].status == BetPending && s.bets[b].outcomeId in Results(tx.job)
         && tx.written[b] == s.bets[b].(status := BetStatusFromResult(Results(tx.job)[s.bets[b].outcomeId]))
       else tx.job.StakeJob? && tx.written[b].status == BetPending
  }

  /** A listed bet is still committed exactly as it was listed. */
  predicate Stays(s: Sys, tx: Tx, item: Listed) {
    && item.id in s.bets && s.bets[item.id] == item.bet && item.bet.status == BetPending
    && item.bet.outcomeId in Results(tx.job)
  }

  ghost predicate TodoFits(s: Sys, tx: Tx, i: nat)
    requires i < |tx.todo|
  {
    Stays(s, tx, tx.todo[i]) && tx.todo[i].id !in tx.written
  }

  ghost predicate Claims(s: Sys, t: nat, tx: Tx) {
    && (forall b: nat :: b in tx.written ==> WrittenFits(s, t, tx, b))
    && (forall i :: 0 <= i < |tx.todo| ==> TodoFits(s, tx, i))
    && (forall i, j :: 0 <= i < j < |tx.todo| ==> tx.todo[i].id != tx.todo[j].id)
    && (forall i :: 0 <= i < |tx.listed| ==> Stays(s, tx, tx.listed[i]))
    && (tx.job.SettleJob? ==> Ids(tx.listed) == Ids(tx.todo) + tx.written.Keys)
    && (forall o: nat :: PlanWritten(tx) && o in Results(tx.job) ==> Held(s, t, OutcomeRow(o)))
  }

  /** All outcome rows of the plan are written. */
  predicate PlanWritten(tx: Tx) {
    !tx.pc.Marking? && !tx.pc.Ruling?
  }

  /** The ledger rows the transaction has inserted for a bet so far. */
  function RowsSoFar(s: Sys, tx: Tx, b: nat): seq<(nat, TxType, int)> {
    if b in tx.written then
      if b in s.bets then CreditRows(tx.written[b], tx.written[b].status)
      else if tx.pc.Committing? then RowsDue(tx.written[b]) else []
    else if tx.pc.Deciding? && |tx.todo| > 0 && tx.todo[0].id == b && tx.todo[0].bet.outcomeId in Results(tx.job) then
      CreditRows(tx.todo[0].bet, BetStatusFromResult(Results(tx.job)[tx.todo[0].bet.outcomeId]))
    else []
  }

  ghost predicate RowsFit(s: Sys, tx: Tx) {
    forall b: nat :: RowsOf(tx.rows, b) == RowsSoFar(s, tx, b)
  }

  predicate Untouched(tx: Tx) {
    tx.w == map[] && tx.written == map[] && tx.rows == [] && tx.todo == []
  }

  /** The wallet movement under way belongs to the job. */
  predicate MoveFits(s: Sys, tx: Tx, move: Move) {
    Visible(s, tx, move.user) &&
    match tx.job
    case SettleJob(_, _, _) =>
      |tx.todo| > 0 && tx.todo[0].bet.outcomeId in Results(tx.job)
      && Results(tx.job)[tx.todo[0].bet.outcomeId] != ResultLost
      && move == CreditOf(tx.todo[0], Results(tx.job)[tx.todo[0].bet.outcomeId])
    case StakeJob(_, _, _, _, _) =>
      && move.betId.Some? && tx.written.Keys == {move.betId.value} && tx.rows == []
      && move.betId.value !in s.bets
      && move == Move(tx.written[move.betId.value].userId, -tx.written[move.betId.value].stake, TxBetStake, move.betId)
    case AdjustJob(_, _) => move.betId == None
    case EnrollJob(_) => move.betId == None && move.user in tx.w
  }

  ghost predicate PcFits(s: Sys, t: nat, tx: Tx) {
    match tx.pc
    case Marking(_) => tx.job.SettleJob? && Untouched(tx) && tx.listed == []
    case Ruling(i) =>
      && tx.job.SettleJob? && Untouched(tx) && tx.listed == [] && i <= |tx.job.ruling|
      && (forall j :: 0 <= j < i ==> Held(s, t, OutcomeRow(tx.job.ruling[j].outcomeId)))
    case Listing => tx.job.SettleJob? && Untouched(tx) && tx.listed == []
    case Paying => tx.job.SettleJob?
    case Deciding =>
      tx.job.SettleJob? && |tx.todo| > 0
    case Closing => tx.job.SettleJob? && tx.todo == []
    case Guarding => !tx.job.SettleJob? && Untouched(tx)
    case Inserting => tx.job.StakeJob? && Untouched(tx) && Held(s, t, WalletRow(tx.job.user)) && tx.job.user in s.wallets
    case Crediting(move) => MoveFits(s, tx, move) && Held(s, t, WalletRow(move.user)) && (tx.job.StakeJob? ==> move.user in s.wallets)
    case Recording(move, after) => MoveFits(s, tx, move) && move.user in tx.w && tx.w[move.user] == after
    case Committing => tx.todo == []
  }

  ghost predicate TxInv(s: Sys, t: nat, tx: Tx) {
    Funds(s, t, tx) && Claims(s, t, tx) && RowsFit(s, tx) && PcFits(s, t, tx)
  }

  /** No row lock names a row that does not exist yet. */
  ghost predicate LocksFit(s: Sys) {
    && (forall u: nat :: WalletRow(u) in s.locks ==> u < s.nextUser)
    && (forall b: nat :: BetRow(b) in s.locks ==> b < s.nextBet)
  }

  ghost predicate Inv(s: Sys) {
    && Books(s.wallets, s.bets, s.ledger, s.nextUser, s.nextBet)
    && LocksFit(s)
    && forall t: nat :: t in s.txs ==> TxInv(s, t, s.txs[t])
  }
}
