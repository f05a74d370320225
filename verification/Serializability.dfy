/**
 * Every interleaving of money transactions commits exactly what their atomic versions would,
 * run one after another in commit order.
 */
module Serializability {
  import opened Sums
  import opened Domain
  import opened Payout
  import BankOps
  import opened Ledger
  import Settlement
  import opened ReadCommitted
  import opened Interleaving

  datatype Tables = Tables(wallets: map<nat, int>, bets: map<nat, Bet>, ledger: seq<LedgerRow>)

  function TablesOf(s: Sys): Tables { Tables(s.wallets, s.bets, s.ledger) }

  // ---------- the atomic versions, on committed tables ----------

  /** Lock, add, record. */
  function Post(db: Tables, move: Move): Try<Tables> {
    if move.user !in db.wallets then Err(ErrNotFound)
    else
      var after := db.wallets[move.user] + move.amount;
      if after < 0 then Err(ErrCheckViolation)
      else Ok(db.(wallets := db.wallets[move.user := after], ledger := db.ledger + [RowFor(move, after)]))
  }

  function PayItem(results: map<nat, Result>, item: Listed): seq<Move> {
    if item.bet.outcomeId in results && results[item.bet.outcomeId] != ResultLost
    then [CreditOf(item, results[item.bet.outcomeId])] else []
  }

  function DecideItem(bets: map<nat, Bet>, results: map<nat, Result>, item: Listed): map<nat, Bet> {
    if item.id in bets && item.bet.outcomeId in results
    then bets[item.id := bets[item.id].(status := BetStatusFromResult(results[item.bet.outcomeId]))] else bets
  }

  /** Pay or refund one listed bet and give it its final status. */
  function SettleItem(db: Tables, results: map<nat, Result>, item: Listed): Try<Tables> {
    match PostAll(db, PayItem(results, item))
    case Err(error) => Err(error)
    case Ok(next) => Ok(next.(bets := DecideItem(next.bets, results, item)))
  }

  function SettleItems(db: Tables, results: map<nat, Result>, items: seq<Listed>): Try<Tables> {
    if |items| == 0 then Ok(db)
    else
      match SettleItems(db, results, items[..|items| - 1])
      case Err(error) => Err(error)
      case Ok(next) => SettleItem(next, results, items[|items| - 1])
  }

  function PostAll(db: Tables, moves: seq<Move>): Try<Tables> {
    if |moves| == 0 then Ok(db)
    else
      match PostAll(db, moves[..|moves| - 1])
      case Err(error) => Err(error)
      case Ok(next) => Post(next, moves[|moves| - 1])
  }

  /** What one committed transaction did. */
  datatype Effect =
    | Adjusted(user: nat, amount: int)
    | Staked(id: nat, bet: Bet)
    | Enrolled(newUser: nat, bonus: int)
    | Decided(results: map<nat, Result>, items: seq<Listed>)

  function Apply(db: Tables, effect: Effect): Try<Tables> {
    match effect
    case Adjusted(u, amount) => Post(db, Move(u, amount, TxAdminAdjust, None))
    case Staked(b, bet) =>
      if b in db.bets then Err(ErrConflict)
      else Post(db.(bets := db.bets[b := bet]), Move(bet.userId, -bet.stake, TxBetStake, Some(b)))
    case Enrolled(u, bonus) =>
      if u in db.wallets then Err(ErrConflict)
      else Post(db.(wallets := db.wallets[u := 0]), Move(u, bonus, TxSignupBonus, None))
    case Decided(results, items) => SettleItems(db, results, items)
  }

  // ---------- what a transaction has done so far, in order ----------

  function MoveOf(row: LedgerRow): Move { Move(row.userId, row.amount, row.kind, row.betId) }

  function MovesOf(rows: seq<LedgerRow>): seq<Move> {
    seq(|rows|, i requires 0 <= i < |rows| => MoveOf(rows[i]))
  }

  function PayItems(results: map<nat, Result>, items: seq<Listed>): seq<Move> {
    if |items| == 0 then [] else PayItems(results, items[..|items| - 1]) + PayItem(results, items[|items| - 1])
  }

  function BetOf(job: Job): Bet
    requires job.StakeJob?
  {
    Bet(job.user, job.outcome, job.eventOf, job.stake, job.odds, ComputePotentialPayout(job.stake, job.odds), BetPending)
  }

  /** How many listed bets are behind the transaction. */
  function Behind(tx: Tx): int { |tx.listed| - |tx.todo| }

  predicate SettlesInOrder(tx: Tx) {
    && 0 <= Behind(tx) && tx.todo == tx.listed[Behind(tx)..]
    && MovesOf(tx.rows) == PayItems(Results(tx.job), tx.listed[..Behind(tx)])
         + (if tx.pc.Deciding? && |tx.todo| > 0 then PayItem(Results(tx.job), tx.todo[0]) else [])
  }

  /** The one movement of a job that is not a settlement. */
  predicate OneMove(tx: Tx, move: Move) {
    match tx.pc
    case Crediting(m) => m == move && tx.rows == []
    case Recording(m, _) => m == move && tx.rows == []
    case Committing => MovesOf(tx.rows) == [move]
    case _ => tx.rows == []
  }

  predicate StakesOnce(tx: Tx)
    requires tx.job.StakeJob?
  {
    if tx.pc.Guarding? || tx.pc.Inserting? then Untouched(tx)
    else
      && tx.written == map[tx.newId := BetOf(tx.job)]
      && OneMove(tx, Move(tx.job.user, -tx.job.stake, TxBetStake, Some(tx.newId)))
  }

  predicate EnrollsOnce(tx: Tx)
    requires tx.job.EnrollJob?
  {
    if tx.pc.Guarding? then Untouched(tx)
    else tx.w.Keys == {tx.newId} && OneMove(tx, Move(tx.newId, tx.job.bonus, TxSignupBonus, None))
  }

  predicate InOrder(tx: Tx) {
    match tx.job
    case SettleJob(_, _, _) => SettlesInOrder(tx)
    case StakeJob(_, _, _, _, _) => StakesOnce(tx)
    case AdjustJob(u, amount) => OneMove(tx, Move(u, amount, TxAdminAdjust, None))
    case EnrollJob(_) => EnrollsOnce(tx)
  }

  ghost predicate AllInOrder(s: Sys) {
    forall t: nat :: t in s.txs ==> InOrder(s.txs[t])
  }

  // ---------- every statement keeps the order ----------

  lemma MovesAppend(rows: seq<LedgerRow>, row: LedgerRow)
    ensures MovesOf(rows + [row]) == MovesOf(rows) + [MoveOf(row)]
  {
  }

  lemma PayItemsStep(results: map<nat, Result>, items: seq<Listed>, k: nat)
    requires k < |items|
    ensures PayItems(results, items[..k + 1]) == PayItems(results, items[..k]) + PayItem(results, items[k])
  {
    assert items[..k + 1][..k] == items[..k];
  }

  /** Moving a settlement on without touching its list or its rows. */
  lemma RelabelInOrder(tx: Tx, pc: Pc)
    requires InOrder(tx) && tx.job.SettleJob? && !tx.pc.Deciding?
    requires pc.Deciding? ==> |tx.todo| > 0 && PayItem(Results(tx.job), tx.todo[0]) == []
    ensures InOrder(tx.(pc := pc))
  {
    hide Settlement.ResultsIn, PayItems, MovesOf, PayItem;
  }

  lemma LockInOrder(s: Sys, t: nat, tx: Tx)
    requires InOrder(tx) && t in s.txs && s.txs[t] == tx && tx.job.SettleJob? && (tx.pc.Marking? || tx.pc.Ruling? || tx.pc.Closing?)
    ensures var next := Statement(s, t, tx); t in next.txs ==> InOrder(next.txs[t])
  {
    hide InOrder;
    match tx.pc
    case Marking(i) =>
      RelabelInOrder(tx, Marking(i + 1));
      RelabelInOrder(tx, Ruling(0));
    case Ruling(i) =>
      RelabelInOrder(tx, Ruling(i + 1));
      RelabelInOrder(tx, Listing);
    case Closing => RelabelInOrder(tx, Committing);
  }

  lemma PayInOrder(s: Sys, t: nat, tx: Tx)
    requires InOrder(tx) && t in s.txs && s.txs[t] == tx && tx.job.SettleJob? && tx.pc.Paying?
    requires |tx.todo| > 0 ==> tx.todo[0].bet.outcomeId in Results(tx.job)
    ensures var next := Statement(s, t, tx); t in next.txs ==> InOrder(next.txs[t])
  {
    hide InOrder, Settlement.ResultsIn, CreditOf;
    if |tx.todo| == 0 {
      RelabelInOrder(tx, Closing);
    } else {
      var result := Results(tx.job)[tx.todo[0].bet.outcomeId];
      if result == ResultLost {
        RelabelInOrder(tx, Deciding);
      } else {
        RelabelInOrder(tx, Crediting(CreditOf(tx.todo[0], result)));
      }
    }
  }

  lemma StartingInOrder(tx: Tx, b: nat)
    requires InOrder(tx)
    ensures tx.job.StakeJob? && tx.pc.Guarding? ==> InOrder(tx.(pc := Inserting))
    ensures tx.job.StakeJob? && tx.pc.Inserting? ==>
      InOrder(tx.(pc := Crediting(Move(tx.job.user, -tx.job.stake, TxBetStake, Some(b))), written := tx.written[b := BetOf(tx.job)], newId := b))
    ensures tx.job.AdjustJob? && tx.pc.Guarding? ==>
      InOrder(tx.(pc := Crediting(Move(tx.job.user, tx.job.amount, TxAdminAdjust, None))))
    ensures tx.job.EnrollJob? && tx.pc.Guarding? ==>
      InOrder(tx.(pc := Crediting(Move(b, tx.job.bonus, TxSignupBonus, None)), w := tx.w[b := 0], newId := b))
  {
    hide MovesOf, ComputePotentialPayout;
  }

  lemma GuardInOrder(s: Sys, t: nat, tx: Tx)
    requires InOrder(tx) && t in s.txs && s.txs[t] == tx && tx.pc.Guarding?
    ensures var next := Statement(s, t, tx); t in next.txs ==> InOrder(next.txs[t])
  {
    hide InOrder;
    StartingInOrder(tx, s.nextUser);
  }

  lemma InsertInOrder(s: Sys, t: nat, tx: Tx)
    requires InOrder(tx) && t in s.txs && s.txs[t] == tx && tx.pc.Inserting?
    ensures var next := Statement(s, t, tx); t in next.txs ==> InOrder(next.txs[t])
  {
    hide InOrder, ComputePotentialPayout;
    StartingInOrder(tx, s.nextBet);
  }

  lemma CreditedInOrder(tx: Tx, move: Move, after: int)
    requires InOrder(tx) && tx.pc == Crediting(move)
    ensures InOrder(tx.(pc := Recording(move, after), w := tx.w[move.user := after]))
  {
    hide Settlement.ResultsIn, PayItems, MovesOf, ComputePotentialPayout;
  }

  lemma CreditInOrder(s: Sys, t: nat, tx: Tx)
    requires InOrder(tx) && t in s.txs && s.txs[t] == tx && tx.pc.Crediting?
    ensures var next := Statement(s, t, tx); t in next.txs ==> InOrder(next.txs[t])
  {
    hide InOrder;
    CreditedInOrder(tx, tx.pc.move, Balance(s, tx, tx.pc.move.user) + tx.pc.move.amount);
  }

  lemma HeadHasResult(s: Sys, tx: Tx, t: nat)
    requires TxInv(s, t, tx) && |tx.todo| > 0
    ensures tx.todo[0].bet.outcomeId in Results(tx.job)
  {
    hide Settlement.ResultsIn, Funds, RowsFit, PcFits;
    assert TodoFits(s, tx, 0);
  }

  lemma ListInOrder(s: Sys, t: nat, tx: Tx)
    requires TxInv(s, t, tx) && InOrder(tx) && tx.pc.Listing?
    ensures var next := Statement(s, t, tx); t in next.txs && InOrder(next.txs[t])
  {
    hide Settlement.ResultsIn, Funds, RowsFit, Claims, ListPending;
  }

  lemma RecordInOrder(s: Sys, t: nat, tx: Tx)
    requires TxInv(s, t, tx) && InOrder(tx) && tx.pc.Recording?
    ensures var next := Statement(s, t, tx); t in next.txs && InOrder(next.txs[t])
  {
    hide Settlement.ResultsIn, Funds, RowsFit, Claims, PayItems, ComputePotentialPayout;
    MovesAppend(tx.rows, RowFor(tx.pc.move, tx.pc.after));
  }

  lemma DecidedInOrder(tx: Tx, written: map<nat, Bet>)
    requires SettlesInOrder(tx) && tx.pc.Deciding? && |tx.todo| > 0
    ensures SettlesInOrder(tx.(pc := Paying, todo := tx.todo[1..], written := written))
  {
    hide Settlement.ResultsIn, PayItem, MovesOf;
    var next := tx.(pc := Paying, todo := tx.todo[1..], written := written);
    PayItemsStep(Results(tx.job), tx.listed, Behind(tx));
    assert tx.listed[Behind(tx)] == tx.todo[0];
    assert next.todo == tx.listed[Behind(next)..];
    hide PayItems;
  }

  lemma DecideInOrder(s: Sys, t: nat, tx: Tx)
    requires InOrder(tx) && tx.job.SettleJob? && tx.pc.Deciding? && t in s.txs && s.txs[t] == tx
    ensures var next := Statement(s, t, tx); t in next.txs ==> InOrder(next.txs[t])
  {
    hide SettlesInOrder, Settlement.ResultsIn;
    if |tx.todo| > 0 && tx.todo[0].bet.outcomeId in Results(tx.job) && tx.todo[0].id in s.bets {
      DecidedInOrder(tx, AfterDeciding(s, tx).written);
    }
  }

  lemma StatementInOrder(s: Sys, t: nat)
    requires Inv(s) && AllInOrder(s) && t in s.txs
    ensures AllInOrder(Statement(s, t, s.txs[t]))
  {
    hide Inv, TxInv, Statement, InOrder;
    var tx, next := s.txs[t], Statement(s, t, s.txs[t]);
    JobOfPc(s, t);
    OthersStay(s, t, tx);
    forall q: nat | q in next.txs && q != t ensures InOrder(next.txs[q]) {
      assert q in next.txs - {t} && (next.txs - {t})[q] == (s.txs - {t})[q];
    }
    match tx.pc
    case Listing => ListInOrder(s, t, tx);
    case Recording(_, _) => RecordInOrder(s, t, tx);
    case Deciding => DecideInOrder(s, t, tx);
    case Committing => CommitEnds(s, t, tx);
    case Paying =>
      if |tx.todo| > 0 {
        HeadHasResult(s, tx, t);
      }
      PayInOrder(s, t, tx);
    case Guarding => GuardInOrder(s, t, tx);
    case Inserting => InsertInOrder(s, t, tx);
    case Crediting(_) => CreditInOrder(s, t, tx);
    case _ => LockInOrder(s, t, tx);
  }

  lemma CommitEnds(s: Sys, t: nat, tx: Tx)
    requires tx.pc.Committing?
    ensures t !in Statement(s, t, tx).txs
  {
  }

  lemma NextInOrder(s: Sys, turn: Turn)
    requires Inv(s) && AllInOrder(s)
    ensures AllInOrder(Next(s, turn))
  {
    hide Inv, Statement, InOrder;
    match turn
    case Start(t, job) => BeginInOrder(job);
    case Go(t) => if t in s.txs { StatementInOrder(s, t); }
    case Fail(t) =>
  }

  lemma BeginInOrder(job: Job)
    ensures InOrder(Begin(job))
  {
    hide Settlement.ResultsIn;
  }

  // ---------- a commit is its atomic version ----------

  function Paid(wallets: map<nat, int>, rows: seq<LedgerRow>): map<nat, int> {
    map u: nat | u in wallets :: wallets[u] + Total(rows, AmountOf(u))
  }

  ghost predicate Backs(wallets: map<nat, int>, rows: seq<LedgerRow>) {
    forall k :: 0 <= k < |rows| ==> BacksRow(wallets, rows, k)
  }

  predicate BacksRow(wallets: map<nat, int>, rows: seq<LedgerRow>, k: nat)
    requires k < |rows|
  {
    rows[k].userId in wallets
    && 0 <= rows[k].balanceAfter == wallets[rows[k].userId] + Total(rows[..k + 1], AmountOf(rows[k].userId))
  }

  lemma LastRowReplays(db: Tables, rows: seq<LedgerRow>)
    requires |rows| > 0 && BacksRow(db.wallets, rows, |rows| - 1)
    ensures var front, last := rows[..|rows| - 1], rows[|rows| - 1];
      Post(db.(wallets := Paid(db.wallets, front), ledger := db.ledger + front), MoveOf(last))
      == Ok(db.(wallets := Paid(db.wallets, rows), ledger := db.ledger + rows))
  {
    var n := |rows| - 1;
    var front, last := rows[..n], rows[n];
    assert rows[..n + 1] == rows;
    assert Paid(db.wallets, front)[last.userId := last.balanceAfter] == Paid(db.wallets, rows);
    assert db.ledger + front + [last] == db.ledger + rows;
  }

  /** Rows written against locked wallets replay as atomic movements. */
  lemma {:induction false} RowsReplay(db: Tables, rows: seq<LedgerRow>)
    requires Backs(db.wallets, rows)
    ensures PostAll(db, MovesOf(rows)) == Ok(db.(wallets := Paid(db.wallets, rows), ledger := db.ledger + rows))
  {
    if |rows| == 0 {
      assert Paid(db.wallets, rows) == db.wallets && db.ledger + rows == db.ledger;
    } else {
      var n := |rows| - 1;
      var front := rows[..n];
      forall k | 0 <= k < n ensures BacksRow(db.wallets, front, k) {
        assert BacksRow(db.wallets, rows, k) && front[..k + 1] == rows[..k + 1];
      }
      RowsReplay(db, front);
      assert BacksRow(db.wallets, rows, n);
      LastRowReplays(db, rows);
      assert MovesOf(rows)[..n] == MovesOf(front) && MovesOf(rows)[n] == MoveOf(rows[n]);
      hide Paid, Post, MovesOf, BacksRow;
    }
  }

  lemma OverlayIsPaid(s: Sys, t: nat, tx: Tx, wallets: map<nat, int>)
    requires Funds(s, t, tx) && tx.pc.Committing?
    requires wallets == if tx.job.EnrollJob? then s.wallets + map u | u in tx.w :: 0 else s.wallets
    ensures Backs(wallets, tx.rows) && Paid(wallets, tx.rows) == s.wallets + tx.w
  {
    forall k | 0 <= k < |tx.rows| ensures BacksRow(wallets, tx.rows, k) {
      assert FundedRow(s.wallets, tx, k);
    }
    forall u: nat | u in wallets && u !in tx.w ensures Total(tx.rows, AmountOf(u)) == 0 {
      forall k | 0 <= k < |tx.rows| ensures AmountOf(u)(tx.rows[k]) == 0 {
        assert FundedRow(s.wallets, tx, k);
      }
      TotalZero(tx.rows, AmountOf(u));
    }
  }

  lemma OnePost(db: Tables, move: Move)
    ensures PostAll(db, [move]) == Post(db, move)
  {
    hide Post;
    assert [move][..0] == [];
    assert PostAll(db, [move][..0]) == Ok(db);
  }

  lemma {:induction false} PostAllConcat(db: Tables, a: seq<Move>, b: seq<Move>)
    ensures PostAll(db, a + b) == match PostAll(db, a)
                                  case Err(error) => Err(error)
                                  case Ok(next) => PostAll(next, b)
  {
    hide Post;
    if |b| == 0 {
      assert a + b == a;
    } else {
      PostAllConcat(db, a, b[..|b| - 1]);
      assert (a + b)[..|a + b| - 1] == a + b[..|b| - 1];
    }
  }

  lemma {:induction false} PostAllIgnoresBets(db: Tables, bets: map<nat, Bet>, moves: seq<Move>)
    ensures PostAll(db.(bets := bets), moves) == match PostAll(db, moves)
                                                 case Err(error) => Err(error)
                                                 case Ok(next) => Ok(next.(bets := bets))
  {
    if |moves| > 0 {
      PostAllIgnoresBets(db, bets, moves[..|moves| - 1]);
    }
  }

  function DecideItems(bets: map<nat, Bet>, results: map<nat, Result>, items: seq<Listed>): map<nat, Bet> {
    if |items| == 0 then bets
    else DecideItem(DecideItems(bets, results, items[..|items| - 1]), results, items[|items| - 1])
  }

  /** Movements and statuses of a settlement do not depend on each other. */
  lemma {:induction false} SettleItemsSplit(db: Tables, results: map<nat, Result>, items: seq<Listed>)
    requires PostAll(db, PayItems(results, items)).Ok?
    ensures SettleItems(db, results, items)
         == Ok(PostAll(db, PayItems(results, items)).value.(bets := DecideItems(db.bets, results, items)))
  {
    hide PostAll, DecideItem, PayItem;
    if |items| == 0 {
      assert PostAll(db, []) == Ok(db) by {
        NothingPosted(db);
      }
      assert DecideItems(db.bets, results, items) == db.bets;
    } else {
      var front, last := items[..|items| - 1], items[|items| - 1];
      var moves, pay := PayItems(results, front), PayItem(results, last);
      PostAllConcat(db, moves, pay);
      SettleItemsSplit(db, results, front);
      PostAllIgnoresBets(PostAll(db, moves).value, DecideItems(db.bets, results, front), pay);
    }
  }

  lemma NothingPosted(db: Tables)
    ensures PostAll(db, []) == Ok(db)
  {
  }

  ghost predicate FromBets(bets: map<nat, Bet>, results: map<nat, Result>, items: seq<Listed>) {
    forall i :: 0 <= i < |items| ==>
      items[i].id in bets && bets[items[i].id] == items[i].bet && items[i].bet.outcomeId in results
  }

  lemma {:induction false} DecideItemsIs(bets: map<nat, Bet>, results: map<nat, Result>, items: seq<Listed>, b: nat)
    requires FromBets(bets, results, items)
    ensures var next := DecideItems(bets, results, items);
      && (b in next <==> b in bets)
      && (b in bets && b !in Ids(items) ==> next[b] == bets[b])
      && (b in Ids(items) ==>
            b in bets && bets[b].outcomeId in results
            && next[b] == bets[b].(status := BetStatusFromResult(results[bets[b].outcomeId])))
  {
    if |items| > 0 {
      var front, last := items[..|items| - 1], items[|items| - 1];
      DecideItemsIs(bets, results, front, b);
      assert items == front + [last];
      IdsOfSnoc(front, last);
    }
  }

  lemma IdsOfSnoc(front: seq<Listed>, last: Listed)
    ensures Ids(front + [last]) == Ids(front) + {last.id}
  {
    var items := front + [last];
    forall i | 0 <= i < |front| ensures front[i].id in Ids(items) {
      assert items[i] == front[i];
    }
    assert items[|front|] == last;
  }

  lemma DecidedIsOverlay(s: Sys, t: nat, tx: Tx)
    requires Claims(s, t, tx) && tx.job.SettleJob? && tx.todo == []
    ensures DecideItems(s.bets, Results(tx.job), tx.listed) == s.bets + tx.written
  {
    hide Settlement.ResultsIn, BankOps.SoundBet, DecideItems;
    assert Ids(tx.todo) == {};
    assert forall i :: 0 <= i < |tx.listed| ==> Stays(s, tx, tx.listed[i]);
    var next := DecideItems(s.bets, Results(tx.job), tx.listed);
    forall b: nat ensures (b in next <==> b in s.bets + tx.written) && (b in next ==> next[b] == (s.bets + tx.written)[b]) {
      DecideItemsIs(s.bets, Results(tx.job), tx.listed, b);
      assert b in tx.written ==> WrittenFits(s, t, tx, b);
    }
  }

  function EffectOf(tx: Tx): Effect {
    match tx.job
    case SettleJob(_, _, _) => Decided(Results(tx.job), tx.listed)
    case StakeJob(_, _, _, _, _) => Staked(tx.newId, BetOf(tx.job))
    case AdjustJob(u, amount) => Adjusted(u, amount)
    case EnrollJob(bonus) => Enrolled(tx.newId, bonus)
  }

  /** A transaction with one movement commits it as one atomic posting. */
  lemma OneMoveReplays(s: Sys, t: nat, tx: Tx, db: Tables, move: Move)
    requires Funds(s, t, tx) && tx.pc.Committing? && MovesOf(tx.rows) == [move]
    requires db.ledger == s.ledger
    requires db.wallets == if tx.job.EnrollJob? then s.wallets + map u | u in tx.w :: 0 else s.wallets
    ensures Post(db, move) == Ok(Tables(s.wallets + tx.w, db.bets, s.ledger + tx.rows))
  {
    hide Funds, Post;
    OverlayIsPaid(s, t, tx, db.wallets);
    RowsReplay(db, tx.rows);
    OnePost(db, move);
  }

  lemma AdjustCommit(s: Sys, t: nat, tx: Tx)
    requires TxInv(s, t, tx) && InOrder(tx) && tx.pc.Committing? && tx.job.AdjustJob?
    ensures Apply(TablesOf(s), EffectOf(tx)) == Ok(TablesOf(Commit(s, t, tx)))
  {
    NothingToDo(s, t, tx);
    hide Funds, Claims, RowsFit, PcFits, Post;
    OneMoveReplays(s, t, tx, TablesOf(s), Move(tx.job.user, tx.job.amount, TxAdminAdjust, None));
    assert s.bets + tx.written == s.bets;
  }

  lemma StakeCommit(s: Sys, t: nat, tx: Tx)
    requires TxInv(s, t, tx) && InOrder(tx) && tx.pc.Committing? && tx.job.StakeJob?
    ensures Apply(TablesOf(s), EffectOf(tx)) == Ok(TablesOf(Commit(s, t, tx)))
  {
    hide Funds, RowsFit, PcFits, ComputePotentialPayout, BankOps.SoundBet, Post;
    var b := tx.newId;
    assert WrittenFits(s, t, tx, b);
    hide Claims;
    assert s.bets + tx.written == s.bets[b := BetOf(tx.job)];
    OneMoveReplays(s, t, tx, TablesOf(s).(bets := s.bets[b := BetOf(tx.job)]),
                   Move(tx.job.user, -tx.job.stake, TxBetStake, Some(b)));
  }

  lemma EnrollCommit(s: Sys, t: nat, tx: Tx)
    requires TxInv(s, t, tx) && InOrder(tx) && tx.pc.Committing? && tx.job.EnrollJob?
    ensures Apply(TablesOf(s), EffectOf(tx)) == Ok(TablesOf(Commit(s, t, tx)))
  {
    NothingToDo(s, t, tx);
    hide Claims, RowsFit, PcFits, Post;
    var u := tx.newId;
    assert u in tx.w && u !in s.wallets;
    hide Funds;
    assert s.wallets + (map v | v in tx.w :: 0) == s.wallets[u := 0];
    assert s.bets + tx.written == s.bets;
    OneMoveReplays(s, t, tx, TablesOf(s).(wallets := s.wallets[u := 0]), Move(u, tx.job.bonus, TxSignupBonus, None));
  }

  lemma SettledInOrder(tx: Tx)
    requires SettlesInOrder(tx) && tx.pc.Committing? && tx.todo == []
    ensures MovesOf(tx.rows) == PayItems(Results(tx.job), tx.listed)
  {
    hide Settlement.ResultsIn, PayItems, MovesOf;
    assert tx.listed[..Behind(tx)] == tx.listed;
  }

  lemma SettleCommit(s: Sys, t: nat, tx: Tx)
    requires TxInv(s, t, tx) && InOrder(tx) && tx.pc.Committing? && tx.job.SettleJob?
    ensures Apply(TablesOf(s), EffectOf(tx)) == Ok(TablesOf(Commit(s, t, tx)))
  {
    assert tx.todo == [];
    hide RowsFit, PcFits, Results, PayItems, MovesOf, Funds, Claims, SettleItems, PostAll, DecideItems, Paid, Backs, SettlesInOrder;
    SettledInOrder(tx);
    DecidedIsOverlay(s, t, tx);
    OverlayIsPaid(s, t, tx, s.wallets);
    RowsReplay(TablesOf(s), tx.rows);
    SettledTables(TablesOf(s), Results(tx.job), tx.listed, s.wallets + tx.w, s.bets + tx.written, s.ledger + tx.rows);
  }

  /** The wallets and rows of the movements, and the statuses. */
  lemma SettledTables(db: Tables, results: map<nat, Result>, items: seq<Listed>,
                      wallets: map<nat, int>, bets: map<nat, Bet>, ledger: seq<LedgerRow>)
    requires PostAll(db, PayItems(results, items)) == Ok(Tables(wallets, db.bets, ledger))
    requires DecideItems(db.bets, results, items) == bets
    ensures SettleItems(db, results, items) == Ok(Tables(wallets, bets, ledger))
  {
    hide PostAll, PayItems, DecideItems, SettleItems;
    SettleItemsSplit(db, results, items);
  }

  /** The moment a transaction commits, the tables change exactly as its atomic version changes them. */
  lemma CommitIsAtomic(s: Sys, t: nat)
    requires Inv(s) && AllInOrder(s) && t in s.txs && s.txs[t].pc.Committing?
    ensures Apply(TablesOf(s), EffectOf(s.txs[t])) == Ok(TablesOf(Next(s, Go(t))))
  {
    hide Inv, TxInv, InOrder, Apply;
    JobOfPc(s, t);
    match s.txs[t].job
    case SettleJob(_, _, _) => SettleCommit(s, t, s.txs[t]);
    case StakeJob(_, _, _, _, _) => StakeCommit(s, t, s.txs[t]);
    case AdjustJob(_, _) => AdjustCommit(s, t, s.txs[t]);
    case EnrollJob(_) => EnrollCommit(s, t, s.txs[t]);
  }

  predicate Commits(s: Sys, turn: Turn) {
    turn.Go? && turn.t in s.txs && s.txs[turn.t].pc.Committing?
  }

  /** What the schedule's transactions did, in commit order. */
  function History(s: Sys, turns: seq<Turn>): seq<Effect>
    decreases |turns|
  {
    if |turns| == 0 then []
    else
      (if Commits(s, turns[0]) then [EffectOf(s.txs[turns[0].t])] else [])
      + History(Next(s, turns[0]), turns[1..])
  }

  function ApplyAll(db: Tables, effects: seq<Effect>): Try<Tables>
    decreases |effects|
  {
    if |effects| == 0 then Ok(db)
    else
      match Apply(db, effects[0])
      case Err(error) => Err(error)
      case Ok(next) => ApplyAll(next, effects[1..])
  }

  lemma QuietTurn(s: Sys, turn: Turn)
    requires !Commits(s, turn)
    ensures TablesOf(Next(s, turn)) == TablesOf(s)
  {
    hide Statement;
    if turn.Go? && turn.t in s.txs {
      OnlyCommitsCommit(s, turn.t, s.txs[turn.t]);
    }
  }

  /**
   * Every interleaving is serial: the committed wallets, bets and ledger are those of running the committed
   * transactions one at a time, atomically, in commit order. A settlement settles the bets it listed.
   */
  lemma {:induction false} ScheduleIsSerial(s: Sys, turns: seq<Turn>)
    requires Inv(s) && AllInOrder(s)
    ensures ApplyAll(TablesOf(s), History(s, turns)) == Ok(TablesOf(Schedule(s, turns)))
    decreases |turns|
  {
    hide Inv, AllInOrder, Next, Apply, EffectOf;
    if |turns| > 0 {
      var next := Next(s, turns[0]);
      NextKeepsInv(s, turns[0]);
      NextInOrder(s, turns[0]);
      ScheduleIsSerial(next, turns[1..]);
      var rest := History(next, turns[1..]);
      if Commits(s, turns[0]) {
        CommitIsAtomic(s, turns[0].t);
        assert ([EffectOf(s.txs[turns[0].t])] + rest)[1..] == rest;
      } else {
        QuietTurn(s, turns[0]);
        assert [] + rest == rest;
      }
    }
  }

  // ---------- the atomic versions are the operations on whole databases ----------

  function Rows(bets: seq<Bet>): map<nat, Bet> {
    map b: nat | b < |bets| :: bets[b]
  }

  function AsTables(bank: Bank): Tables { Tables(bank.wallets, Rows(bank.bets), bank.ledger) }

  lemma PostAgrees(bank: Bank, u: nat, amount: int, kind: TxType, betId: Option<nat>)
    ensures Post(AsTables(bank), Move(u, amount, kind, betId))
         == match BankOps.Post(bank, u, amount, kind, betId)
            case Err(error) => Err(error)
            case Ok(next) => Ok(AsTables(next))
  {
  }

  lemma AdjustAgrees(bank: Bank, u: nat, amount: int)
    requires BankOps.AdjustBalance(bank, u, amount).Ok?
    ensures Apply(AsTables(bank), Adjusted(u, amount)) == Ok(AsTables(BankOps.AdjustBalance(bank, u, amount).value))
  {
    PostAgrees(bank, u, amount, TxAdminAdjust, None);
  }

  lemma StakeAgrees(bank: Bank, bet: Bet)
    requires BankOps.StakeBet(bank, bet).Ok?
    ensures Apply(AsTables(bank), Staked(|bank.bets|, bet)) == Ok(AsTables(BankOps.StakeBet(bank, bet).value))
  {
    var inserted := bank.(bets := bank.bets + [bet]);
    assert Rows(inserted.bets) == Rows(bank.bets)[|bank.bets| := bet];
    PostAgrees(inserted, bet.userId, -bet.stake, TxBetStake, Some(|bank.bets|));
  }

  lemma EnrollAgrees(bank: Bank, email: Option<string>, bonus: int)
    requires BankOps.Enroll(bank, email, bonus).Ok?
    ensures Apply(AsTables(bank), Enrolled(|bank.users|, bonus)) == Ok(AsTables(BankOps.Enroll(bank, email, bonus).value))
  {
    hide BankOps.HasEmail;
    var u := |bank.users|;
    PostAgrees(bank.(users := bank.users + [User(email)], wallets := bank.wallets[u := 0]), u, bonus, TxSignupBonus, None);
  }

  function ItemsOf(bets: seq<Bet>, ids: seq<nat>): seq<Listed>
    requires forall i :: 0 <= i < |ids| ==> ids[i] < |bets|
  {
    seq(|ids|, i requires 0 <= i < |ids| => Listed(ids[i], bets[ids[i]]))
  }

  ghost predicate SameTerms(bets: seq<Bet>, later: seq<Bet>) {
    |later| == |bets| && forall b :: 0 <= b < |bets| ==> later[b] == bets[b].(status := later[b].status)
  }

  lemma ItemAgrees(bank: Bank, mid: Bank, results: map<nat, Result>, b: nat)
    requires b < |bank.bets| && SameTerms(bank.bets, mid.bets) && BankOps.SettleBet(mid, results, b).Ok?
    ensures var next := BankOps.SettleBet(mid, results, b).value;
      SameTerms(bank.bets, next.bets)
      && SettleItem(AsTables(mid), results, Listed(b, bank.bets[b])) == Ok(AsTables(next))
  {
    var next, item := BankOps.SettleBet(mid, results, b).value, Listed(b, bank.bets[b]);
    var bet := mid.bets[b];
    assert bet == bank.bets[b].(status := bet.status);
    assert Rows(next.bets) == DecideItem(Rows(mid.bets), results, item);
    if |PayItem(results, item)| == 1 {
      var move := CreditOf(item, results[bet.outcomeId]);
      OnePost(AsTables(mid), move);
      PostAgrees(mid, move.user, move.amount, move.kind, move.betId);
    }
  }

  /** Settling listed rows one by one is the settlement loop of the atomic model. */
  lemma {:induction false} SettleAgrees(bank: Bank, results: map<nat, Result>, ids: seq<nat>)
    requires forall i :: 0 <= i < |ids| ==> ids[i] < |bank.bets|
    requires BankOps.SettleBets(bank, results, ids).Ok?
    ensures var next := BankOps.SettleBets(bank, results, ids).value;
      SameTerms(bank.bets, next.bets)
      && Apply(AsTables(bank), Decided(results, ItemsOf(bank.bets, ids))) == Ok(AsTables(next))
  {
    hide BankOps.SettleBet, SettleItem;
    if |ids| > 0 {
      var front := ids[..|ids| - 1];
      SettleAgrees(bank, results, front);
      assert ItemsOf(bank.bets, ids)[..|front|] == ItemsOf(bank.bets, front);
      ItemAgrees(bank, BankOps.SettleBets(bank, results, front).value, results, ids[|front|]);
    }
  }

  lemma WhereStep(bets: seq<Bet>, p: Bet -> bool, n: nat)
    requires 0 < n <= |bets|
    ensures Where(bets[..n], p) == Where(bets[..n - 1], p) + if p(bets[n - 1]) then [n - 1] else []
  {
    assert bets[..n][..n - 1] == bets[..n - 1];
  }

  lemma ItemsStep(bets: seq<Bet>, ids: seq<nat>, n: nat)
    requires 0 < n <= |bets| && forall i :: 0 <= i < |ids| ==> ids[i] < n - 1
    ensures ItemsOf(bets[..n], ids) == ItemsOf(bets[..n - 1], ids)
    ensures ItemsOf(bets[..n], ids + [n - 1]) == ItemsOf(bets[..n - 1], ids) + [Listed(n - 1, bets[n - 1])]
  {
  }

  /** The listing statement returns exactly the rows the atomic settlement works through, in the same order. */
  lemma {:induction false} ListAgrees(bets: seq<Bet>, results: map<nat, Result>, n: nat)
    requires n <= |bets|
    ensures ListPending(Rows(bets), results, n) == ItemsOf(bets[..n], Where(bets[..n], BankOps.PendingOn(results)))
  {
    if n > 0 {
      var p := BankOps.PendingOn(results);
      ListAgrees(bets, results, n - 1);
      var front := Where(bets[..n - 1], p);
      ItemsStep(bets, front, n);
      WhereStep(bets, p, n);
      assert front + [] == front;
      hide Where, ItemsOf;
      assert ListOne(Rows(bets), results, n - 1) == if p(bets[n - 1]) then [Listed(n - 1, bets[n - 1])] else [];
    }
  }

  /** From any state the atomic services reach, every schedule of statements commits a serial history of atomic operations. */
  lemma SchedulesFromRestAreSerial(bank: Bank, bonus: int, turns: seq<Turn>)
    requires BankInv(bank, bonus)
    ensures ApplyAll(AsTables(bank), History(AtRest(bank), turns)) == Ok(TablesOf(Schedule(AtRest(bank), turns)))
  {
    hide BankInv, Inv, ApplyAll, History, Schedule;
    AtRestKeepsInv(bank, bonus);
    ScheduleIsSerial(AtRest(bank), turns);
  }

  // ---------- one signup bonus ----------

  /** A user's first row, and no other, is the signup bonus, and exactly the users with rows have wallets. */
  ghost predicate OneBonus(db: Tables, bonus: int) {
    BonusFirst(db.ledger, bonus) && forall u: nat :: u in db.wallets <==> Seen(db.ledger, u)
  }

  lemma {:induction false} PostsKeepOneBonus(db: Tables, moves: seq<Move>, bonus: int)
    requires OneBonus(db, bonus) && PostAll(db, moves).Ok?
    requires forall i :: 0 <= i < |moves| ==> moves[i].kind != TxSignupBonus
    ensures OneBonus(PostAll(db, moves).value, bonus)
  {
    if |moves| > 0 {
      var front, last := moves[..|moves| - 1], moves[|moves| - 1];
      PostsKeepOneBonus(db, front, bonus);
      hide BonusFirst, Seen, PostAll;
      PostKeepsOneBonus(PostAll(db, front).value, last, bonus);
      assert PostAll(db, moves) == Post(PostAll(db, front).value, last) by {
        PostAllConcat(db, front, [last]);
        OnePost(PostAll(db, front).value, last);
        assert front + [last] == moves;
      }
    }
  }

  lemma PostKeepsOneBonus(db: Tables, move: Move, bonus: int)
    requires OneBonus(db, bonus) && Post(db, move).Ok? && move.kind != TxSignupBonus
    ensures OneBonus(Post(db, move).value, bonus)
  {
    hide BonusFirst, Seen;
    var row := RowFor(move, db.wallets[move.user] + move.amount);
    BonusAppend(db.ledger, row, bonus);
    forall u: nat ensures u in Post(db, move).value.wallets <==> Seen(db.ledger + [row], u) {
      SeenAppend(db.ledger, row, u);
    }
  }

  lemma {:induction false} SettlingKeepsOneBonus(db: Tables, results: map<nat, Result>, items: seq<Listed>, bonus: int)
    requires OneBonus(db, bonus) && SettleItems(db, results, items).Ok?
    ensures OneBonus(SettleItems(db, results, items).value, bonus)
  {
    hide BonusFirst, Seen, PostAll, DecideItem;
    if |items| > 0 {
      SettlingKeepsOneBonus(db, results, items[..|items| - 1], bonus);
      var mid := SettleItems(db, results, items[..|items| - 1]).value;
      PostsKeepOneBonus(mid, PayItem(results, items[|items| - 1]), bonus);
    }
  }

  lemma EnrolKeepsOneBonus(db: Tables, u: nat, bonus: int)
    requires OneBonus(db, bonus) && Apply(db, Enrolled(u, bonus)).Ok?
    ensures OneBonus(Apply(db, Enrolled(u, bonus)).value, bonus)
  {
    hide BonusFirst, Seen;
    var row := RowFor(Move(u, bonus, TxSignupBonus, None), bonus);
    BonusAppend(db.ledger, row, bonus);
    forall v: nat ensures v in Apply(db, Enrolled(u, bonus)).value.wallets <==> Seen(db.ledger + [row], v) {
      SeenAppend(db.ledger, row, v);
    }
  }

  lemma ApplyKeepsOneBonus(db: Tables, effect: Effect, bonus: int)
    requires OneBonus(db, bonus) && Apply(db, effect).Ok? && (effect.Enrolled? ==> effect.bonus == bonus)
    ensures OneBonus(Apply(db, effect).value, bonus)
  {
    hide OneBonus;
    match effect
    case Adjusted(u, amount) => PostKeepsOneBonus(db, Move(u, amount, TxAdminAdjust, None), bonus);
    case Staked(b, bet) =>
      BonusIgnoresBets(db, db.bets[b := bet], bonus);
      PostKeepsOneBonus(db.(bets := db.bets[b := bet]), Move(bet.userId, -bet.stake, TxBetStake, Some(b)), bonus);
    case Enrolled(u, _) => EnrolKeepsOneBonus(db, u, bonus);
    case Decided(results, items) => SettlingKeepsOneBonus(db, results, items, bonus);
  }

  lemma BonusIgnoresBets(db: Tables, bets: map<nat, Bet>, bonus: int)
    requires OneBonus(db, bonus)
    ensures OneBonus(db.(bets := bets), bonus)
  {
  }

  predicate Grants(job: Job, bonus: int) {
    job.EnrollJob? ==> job.bonus == bonus
  }

  /** Every registration under way, and every one still to start, grants the configured bonus. */
  ghost predicate AllGrant(s: Sys, turns: seq<Turn>, bonus: int) {
    && (forall t: nat :: t in s.txs ==> Grants(s.txs[t].job, bonus))
    && (forall i :: 0 <= i < |turns| && turns[i].Start? ==> Grants(turns[i].job, bonus))
  }

  lemma NextStillGrants(s: Sys, turns: seq<Turn>, bonus: int)
    requires |turns| > 0 && AllGrant(s, turns, bonus)
    ensures AllGrant(Next(s, turns[0]), turns[1..], bonus)
  {
    hide Statement;
    var next := Next(s, turns[0]);
    forall q: nat | q in next.txs ensures Grants(next.txs[q].job, bonus) {
      if q in s.txs || turns[0] != Start(q, next.txs[q].job) {
        NextKeepsJob(s, turns[0], q);
      }
    }
  }

  /** Under every interleaving each user's first committed ledger row is the user's one signup bonus. */
  lemma {:induction false} SchedulesKeepOneBonus(s: Sys, turns: seq<Turn>, bonus: int)
    requires Inv(s) && AllInOrder(s) && AllGrant(s, turns, bonus) && OneBonus(TablesOf(s), bonus)
    ensures OneBonus(TablesOf(Schedule(s, turns)), bonus)
    decreases |turns|
  {
    hide Inv, AllInOrder, OneBonus, Apply;
    if |turns| > 0 {
      var next := Next(s, turns[0]);
      NextKeepsInv(s, turns[0]);
      NextInOrder(s, turns[0]);
      NextStillGrants(s, turns, bonus);
      if Commits(s, turns[0]) {
        CommitIsAtomic(s, turns[0].t);
        ApplyKeepsOneBonus(TablesOf(s), EffectOf(s.txs[turns[0].t]), bonus);
      } else {
        QuietTurn(s, turns[0]);
      }
      hide AllGrant, Next;
      SchedulesKeepOneBonus(next, turns[1..], bonus);
    }
  }

  /** So it is from every database the atomic services reach. */
  lemma SchedulesFromRestKeepOneBonus(bank: Bank, bonus: int, turns: seq<Turn>)
    requires BankInv(bank, bonus) && AllGrant(AtRest(bank), turns, bonus)
    ensures OneBonus(TablesOf(Schedule(AtRest(bank), turns)), bonus)
  {
    hide Inv, Schedule, BonusFirst, Seen;
    AtRestKeepsInv(bank, bonus);
    SchedulesKeepOneBonus(AtRest(bank), turns, bonus);
  }
}
