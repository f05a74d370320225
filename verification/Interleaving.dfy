/** What every interleaving of money statements keeps: sound books, exactly-once payment, a growing history. */
module Interleaving {
  import opened Sums
  import opened Domain
  import opened Payout
  import opened BankOps
  import opened Ledger
  import opened Settlement
  import opened ReadCommitted

  // ---------- one transaction's steps leave the others' claims alone ----------

  /** Nothing transaction t relies on has moved: its locks, and the committed rows behind them. */
  ghost predicate Calm(s: Sys, next: Sys, t: nat) {
    && s.nextUser <= next.nextUser && s.nextBet <= next.nextBet
    && (forall r :: Held(s, t, r) ==> Held(next, t, r))
    && (forall u: nat :: u in s.wallets ==> u in next.wallets)
    && (forall u: nat :: Held(s, t, WalletRow(u)) ==> (u in next.wallets <==> u in s.wallets) && Base(next.wallets, u) == Base(s.wallets, u))
    && (forall b: nat :: Held(s, t, BetRow(b)) ==> SameRow(s.bets, next.bets, b))
    && (forall b: nat ::
          (b in s.bets && s.bets[b].status == BetPending && Held(s, t, OutcomeRow(s.bets[b].outcomeId)))
          ==> SameRow(s.bets, next.bets, b))
  }

  predicate SameRow(bets: map<nat, Bet>, next: map<nat, Bet>, b: nat) {
    (b in next <==> b in bets) && (b in bets ==> next[b] == bets[b])
  }

  lemma CalmKeepsClaims(s: Sys, next: Sys, t: nat, tx: Tx)
    requires Calm(s, next, t) && Claims(s, t, tx) && PcFits(s, t, tx)
    ensures Claims(next, t, tx)
  {
    hide SoundBet, ResultsIn;
    forall b: nat | b in tx.written ensures WrittenFits(next, t, tx, b) {
      assert WrittenFits(s, t, tx, b) && SameRow(s.bets, next.bets, b);
    }
    forall i | 0 <= i < |tx.todo| ensures TodoFits(next, tx, i) {
      assert TodoFits(s, tx, i) && PlanWritten(tx);
      assert SameRow(s.bets, next.bets, tx.todo[i].id);
    }
    forall i | 0 <= i < |tx.listed| ensures Stays(next, tx, tx.listed[i]) {
      assert Stays(s, tx, tx.listed[i]) && PlanWritten(tx);
      assert SameRow(s.bets, next.bets, tx.listed[i].id);
    }
  }

  lemma CalmKeepsTx(s: Sys, next: Sys, t: nat, tx: Tx)
    requires Calm(s, next, t) && TxInv(s, t, tx)
    ensures TxInv(next, t, tx)
  {
    hide SoundBet, ResultsIn, CreditRows, RowsDue;
    CalmKeepsClaims(s, next, t, tx);
    forall b: nat | b in tx.written ensures SameRow(s.bets, next.bets, b) {
      assert WrittenFits(s, t, tx, b);
    }
    forall b: nat ensures RowsSoFar(next, tx, b) == RowsSoFar(s, tx, b) {
    }
    forall k | 0 <= k < |tx.rows| ensures FundedRow(next.wallets, tx, k) {
      assert FundedRow(s.wallets, tx, k);
    }
  }

  /** A statement that commits nothing: tables as before, locks only added on free rows, one transaction replaced. */
  ghost predicate Quiet(s: Sys, next: Sys, t: nat) {
    && next.wallets == s.wallets && next.bets == s.bets && next.ledger == s.ledger
    && s.nextUser <= next.nextUser && s.nextBet <= next.nextBet
    && (forall r :: r in s.locks ==> r in next.locks && next.locks[r] == s.locks[r])
    && t in next.txs && next.txs == s.txs[t := next.txs[t]]
  }

  lemma QuietKeepsInv(s: Sys, next: Sys, t: nat)
    requires Inv(s) && Quiet(s, next, t) && LocksFit(next) && TxInv(next, t, next.txs[t])
    ensures Inv(next)
  {
    hide TxInv, Chained, SoundBet, LocksFit;
    forall q: nat | q in next.txs ensures TxInv(next, q, next.txs[q]) {
      if q != t {
        CalmKeepsTx(s, next, q, s.txs[q]);
      }
    }
    forall b: nat | b in s.bets ensures BetRowFits(next.wallets, next.nextBet, b, next.bets[b]) {
      assert BetRowFits(s.wallets, s.nextBet, b, s.bets[b]);
    }
  }

  lemma RollbackKeepsInv(s: Sys, t: nat)
    requires Inv(s)
    ensures Inv(Rollback(s, t))
  {
    hide TxInv, Books;
    var next := Rollback(s, t);
    forall q: nat | q in next.txs ensures TxInv(next, q, next.txs[q]) {
      CalmKeepsTx(s, next, q, s.txs[q]);
    }
  }

  // ---------- every statement keeps the invariant ----------

  predicate RowExists(s: Sys, r: Res) {
    match r
    case WalletRow(u) => u < s.nextUser
    case BetRow(b) => b < s.nextBet
    case _ => true
  }

  lemma PutKeepsInv(s: Sys, t: nat, tx: Tx)
    requires Inv(s) && TxInv(Put(s, t, tx), t, tx)
    ensures Inv(Put(s, t, tx))
  {
    hide TxInv, Books;
    QuietKeepsInv(s, Put(s, t, tx), t);
  }

  lemma TakeKeepsInv(s: Sys, t: nat, r: Res, tx: Tx)
    requires Inv(s) && t in s.txs && RowExists(s, r)
    requires Free(s, t, r) ==> TxInv(Take(s, t, r, tx), t, tx)
    ensures Inv(Take(s, t, r, tx))
  {
    hide TxInv, Books;
    if Free(s, t, r) {
      QuietKeepsInv(s, Take(s, t, r, tx), t);
    }
  }

  /** The transaction's own data survives the statement's new lock. */
  lemma LockedIsCalm(s: Sys, t: nat, r: Res, tx: Tx)
    requires Free(s, t, r)
    ensures Calm(s, Take(s, t, r, tx), t)
  {
  }

  /** Before it reads or writes money, a transaction claims only its locks. */
  lemma UntouchedFits(s: Sys, t: nat, tx: Tx)
    requires Untouched(tx) && PcFits(s, t, tx) && tx.listed == []
    requires !tx.pc.Crediting? && !tx.pc.Recording?
    requires tx.job.SettleJob? ==> PlanWritten(tx) ==> forall o: nat :: o in Results(tx.job) ==> Held(s, t, OutcomeRow(o))
    ensures TxInv(s, t, tx)
  {
    hide ResultsIn;
    assert Ids(tx.todo) == {};
  }

  /** Which job runs which statement. */
  lemma JobOfPc(s: Sys, t: nat)
    requires Inv(s) && t in s.txs
    ensures var tx := s.txs[t];
      && TxInv(s, t, tx)
      && (tx.pc.Marking? || tx.pc.Ruling? || tx.pc.Closing? || tx.pc.Paying? || tx.pc.Deciding? ==> tx.job.SettleJob?)
      && (tx.pc.Inserting? ==> tx.job.StakeJob?)
      && (tx.pc.Deciding? ==> |tx.todo| > 0)
  {
    hide Books, Funds, Claims, RowsFit;
    assert TxInv(s, t, s.txs[t]);
  }

  lemma MarkKeepsInv(s: Sys, t: nat)
    requires Inv(s) && t in s.txs && s.txs[t].pc.Marking?
    ensures Inv(Statement(s, t, s.txs[t]))
  {
    var tx := s.txs[t];
    var i := tx.pc.next;
    assert TxInv(s, t, tx);
    hide Inv, TxInv;
    if i < |tx.job.marks| {
      var r, next := MarketRow(tx.job.marks[i]), tx.(pc := Marking(i + 1));
      if Free(s, t, r) {
        UntouchedFits(Take(s, t, r, next), t, next);
      }
      TakeKeepsInv(s, t, r, next);
    } else {
      UntouchedFits(Put(s, t, tx.(pc := Ruling(0))), t, tx.(pc := Ruling(0)));
      PutKeepsInv(s, t, tx.(pc := Ruling(0)));
    }
  }

  lemma RuledFits(s: Sys, t: nat, tx: Tx)
    requires TxInv(s, t, tx) && tx.pc.Ruling?
    requires tx.pc.next < |tx.job.ruling| ==> Held(s, t, OutcomeRow(tx.job.ruling[tx.pc.next].outcomeId))
    ensures TxInv(s, t, tx.(pc := if tx.pc.next < |tx.job.ruling| then Ruling(tx.pc.next + 1) else Listing))
  {
    var pc := if tx.pc.next < |tx.job.ruling| then Ruling(tx.pc.next + 1) else Listing;
    ResultsInEntries(tx.job.ruling);
    hide ResultsIn;
    UntouchedFits(s, t, tx.(pc := pc));
  }

  lemma RuleKeepsInv(s: Sys, t: nat)
    requires Inv(s) && t in s.txs && s.txs[t].pc.Ruling?
    ensures Inv(Statement(s, t, s.txs[t]))
  {
    hide Inv, TxInv;
    var tx := s.txs[t];
    var i := tx.pc.next;
    JobOfPc(s, t);
    if i < |tx.job.ruling| {
      var r, next := OutcomeRow(tx.job.ruling[i].outcomeId), tx.(pc := Ruling(i + 1));
      forall s': Sys | TxInv(s', t, tx) && Held(s', t, r) && s' == Take(s, t, r, next) ensures TxInv(s', t, next) {
        RuledFits(s', t, tx);
      }
      TakeAndGo(s, t, r, tx, next);
    } else {
      RuledFits(s, t, tx);
      forall s': Sys | TxInv(s', t, tx) ensures TxInv(s', t, tx.(pc := Listing)) {
        RuledFits(s', t, tx);
      }
      PutAndGo(s, t, tx, tx.(pc := Listing));
    }
  }

  predicate ListedFrom(bets: map<nat, Bet>, results: map<nat, Result>, n: nat, item: Listed) {
    item.id < n && item.id in bets && bets[item.id] == item.bet && item.bet.status == BetPending && item.bet.outcomeId in results
  }

  ghost predicate AllListed(bets: map<nat, Bet>, results: map<nat, Result>, n: nat, todo: seq<Listed>) {
    && (forall i :: 0 <= i < |todo| ==> ListedFrom(bets, results, n, todo[i]))
    && (forall i, j :: 0 <= i < j < |todo| ==> todo[i].id < todo[j].id)
  }

  lemma ListOneFits(bets: map<nat, Bet>, results: map<nat, Result>, b: nat)
    ensures forall i :: 0 <= i < |ListOne(bets, results, b)| ==> ListedFrom(bets, results, b + 1, ListOne(bets, results, b)[i])
    ensures |ListOne(bets, results, b)| <= 1
    ensures forall i :: 0 <= i < |ListOne(bets, results, b)| ==> ListOne(bets, results, b)[i].id == b
  {
  }

  /** The listing holds committed pending bets on the plan's outcomes, by ascending id. */
  lemma {:induction false} ListPendingFits(bets: map<nat, Bet>, results: map<nat, Result>, n: nat)
    ensures AllListed(bets, results, n, ListPending(bets, results, n))
  {
    if n > 0 {
      ListPendingFits(bets, results, n - 1);
      ListOneFits(bets, results, n - 1);
      var front, todo := ListPending(bets, results, n - 1), ListPending(bets, results, n);
      assert todo == front + ListOne(bets, results, n - 1);
      hide ListOne;
      forall i | 0 <= i < |todo| ensures ListedFrom(bets, results, n, todo[i]) {
        assert i < |front| ==> ListedFrom(bets, results, n - 1, front[i]);
      }
    }
  }

  /** The listing misses no committed pending bet on the plan's outcomes. */
  lemma {:induction false} ListPendingIsComplete(bets: map<nat, Bet>, results: map<nat, Result>, n: nat, b: nat)
    requires b < n && b in bets && PendingOn(results)(bets[b])
    ensures b in Ids(ListPending(bets, results, n))
  {
    var front, todo := ListPending(bets, results, n - 1), ListPending(bets, results, n);
    if b < n - 1 {
      ListPendingIsComplete(bets, results, n - 1, b);
      var i :| 0 <= i < |front| && front[i].id == b;
      assert todo[i].id == b;
    } else {
      assert todo[|front|].id == b;
    }
  }

  lemma ListKeepsInv(s: Sys, t: nat)
    requires Inv(s) && t in s.txs && s.txs[t].pc.Listing?
    ensures Inv(Statement(s, t, s.txs[t]))
  {
    var tx := s.txs[t];
    assert TxInv(s, t, tx);
    var todo := ListPending(s.bets, Results(tx.job), s.nextBet);
    ListPendingFits(s.bets, Results(tx.job), s.nextBet);
    hide Inv, ListPending, TxInv, AllListed;
    ListedFits(s, t, tx, todo);
    PutKeepsInv(s, t, tx.(pc := Paying, todo := todo, listed := todo));
  }

  lemma ListedFits(s: Sys, t: nat, tx: Tx, todo: seq<Listed>)
    requires TxInv(s, t, tx) && tx.pc.Listing?
    requires AllListed(s.bets, Results(tx.job), s.nextBet, todo)
    ensures var next := tx.(pc := Paying, todo := todo, listed := todo); TxInv(Put(s, t, next), t, next)
  {
    hide ResultsIn, Ids;
    var next := tx.(pc := Paying, todo := todo, listed := todo);
    forall i | 0 <= i < |todo| ensures TodoFits(Put(s, t, next), next, i) {
      assert ListedFrom(s.bets, Results(tx.job), s.nextBet, todo[i]);
    }
    assert Ids(next.listed) == Ids(next.todo) + next.written.Keys;
  }

  /** Taking a lock and moving on is sound when moving on is sound with the lock held. */
  lemma TakeAndGo(s: Sys, t: nat, r: Res, tx: Tx, next: Tx)
    requires Inv(s) && t in s.txs && TxInv(s, t, tx) && RowExists(s, r)
    requires forall s': Sys :: (TxInv(s', t, tx) && Held(s', t, r) && s' == Take(s, t, r, next)) ==> TxInv(s', t, next)
    ensures Inv(Take(s, t, r, next))
  {
    hide Inv, TxInv, Calm;
    if Free(s, t, r) {
      var s' := Take(s, t, r, next);
      LockedIsCalm(s, t, r, next);
      CalmKeepsTx(s, s', t, tx);
    }
    TakeKeepsInv(s, t, r, next);
  }

  lemma PutAndGo(s: Sys, t: nat, tx: Tx, next: Tx)
    requires Inv(s) && t in s.txs && TxInv(s, t, tx)
    requires forall s': Sys :: (TxInv(s', t, tx) && s' == Put(s, t, next)) ==> TxInv(s', t, next)
    ensures Inv(Put(s, t, next))
  {
    hide Inv, TxInv, Calm;
    assert Calm(s, Put(s, t, next), t) by {
      PutIsCalm(s, t, next);
    }
    CalmKeepsTx(s, Put(s, t, next), t, tx);
    PutKeepsInv(s, t, next);
  }

  lemma PutIsCalm(s: Sys, t: nat, tx: Tx)
    ensures Calm(s, Put(s, t, tx), t)
  {
  }

  // Paying

  /** Claims on bets and plan rows do not depend on the wallets, the ledger rows or the next statement. */
  lemma SameClaims(s: Sys, t: nat, tx: Tx, next: Tx)
    requires Claims(s, t, tx) && (PlanWritten(tx) || !tx.job.SettleJob?)
    requires next == tx.(pc := next.pc, w := next.w, rows := next.rows)
    ensures Claims(s, t, next)
  {
    hide ResultsIn, SoundBet, Ids;
    forall b: nat | b in next.written ensures WrittenFits(s, t, next, b) {
      assert WrittenFits(s, t, tx, b);
    }
    forall i | 0 <= i < |next.todo| ensures TodoFits(s, next, i) {
      assert TodoFits(s, tx, i);
    }
  }

  /** Moving to another statement without touching money keeps the transaction's claims. */
  lemma RelabelFits(s: Sys, t: nat, tx: Tx, pc: Pc)
    requires TxInv(s, t, tx) && (PlanWritten(tx) || !tx.job.SettleJob?)
    requires !tx.pc.Recording? && !pc.Recording? && PcFits(s, t, tx.(pc := pc))
    requires forall b: nat :: RowsSoFar(s, tx.(pc := pc), b) == RowsSoFar(s, tx, b)
    ensures TxInv(s, t, tx.(pc := pc))
  {
    var next := tx.(pc := pc);
    SameClaims(s, t, tx, next);
    hide ResultsIn, RowsSoFar, SoundBet, Claims, PcFits;
    forall b: nat ensures RowsOf(next.rows, b) == RowsSoFar(s, next, b) {
      assert RowsOf(tx.rows, b) == RowsSoFar(s, tx, b);
    }
    forall k | 0 <= k < |next.rows| ensures FundedRow(s.wallets, next, k) {
      assert FundedRow(s.wallets, tx, k);
    }
  }

  /** What the transaction may do next while it works through its list. */
  ghost predicate PayingGoesOn(s: Sys, t: nat, tx: Tx) {
    if |tx.todo| == 0 then TxInv(s, t, tx.(pc := Closing))
    else
      var item, results := tx.todo[0], Results(tx.job);
      && item.bet.outcomeId in results
      && if results[item.bet.outcomeId] == ResultLost then TxInv(s, t, tx.(pc := Deciding))
         else Visible(s, tx, item.bet.userId) && Held(s, t, WalletRow(item.bet.userId)) ==>
           TxInv(s, t, tx.(pc := Crediting(CreditOf(item, results[item.bet.outcomeId]))))
  }

  lemma PayingFits(s: Sys, t: nat, tx: Tx)
    requires TxInv(s, t, tx) && tx.pc.Paying?
    ensures PayingGoesOn(s, t, tx)
  {
    hide ResultsIn, RowsDue, SoundBet, Funds;
    if |tx.todo| == 0 {
      RelabelFits(s, t, tx, Closing);
    } else {
      assert TodoFits(s, tx, 0);
      var result := Results(tx.job)[tx.todo[0].bet.outcomeId];
      if result == ResultLost {
        RelabelFits(s, t, tx, Deciding);
      } else if Visible(s, tx, tx.todo[0].bet.userId) && Held(s, t, WalletRow(tx.todo[0].bet.userId)) {
        RelabelFits(s, t, tx, Crediting(CreditOf(tx.todo[0], result)));
      }
    }
  }

  lemma HeadIsListed(s: Sys, t: nat)
    requires Inv(s) && t in s.txs && |s.txs[t].todo| > 0
    ensures TodoFits(s, s.txs[t], 0)
    ensures BetRowFits(s.wallets, s.nextBet, s.txs[t].todo[0].id, s.bets[s.txs[t].todo[0].id])
  {
    hide Chained, Funds, RowsFit, PcFits, ResultsIn, SoundBet;
    assert TxInv(s, t, s.txs[t]);
    assert TodoFits(s, s.txs[t], 0);
  }

  lemma VisibleWalletExists(s: Sys, t: nat, u: nat)
    requires Inv(s) && t in s.txs && Visible(s, s.txs[t], u)
    ensures u < s.nextUser
  {
    hide Chained, Claims, RowsFit, PcFits;
    assert TxInv(s, t, s.txs[t]);
  }

  lemma PayKeepsInv(s: Sys, t: nat)
    requires Inv(s) && t in s.txs && s.txs[t].pc.Paying?
    ensures Inv(Statement(s, t, s.txs[t]))
  {
    hide Inv, TxInv, ResultsIn, SoundBet;
    var tx := s.txs[t];
    JobOfPc(s, t);
    PayingFits(s, t, tx);
    forall s': Sys | TxInv(s', t, tx) ensures PayingGoesOn(s', t, tx) {
      PayingFits(s', t, tx);
    }
    if |tx.todo| == 0 {
      PutAndGo(s, t, tx, tx.(pc := Closing));
    } else {
      var item := tx.todo[0];
      var result := Results(tx.job)[item.bet.outcomeId];
      if result == ResultLost {
        PutAndGo(s, t, tx, tx.(pc := Deciding));
      } else {
        HeadIsListed(s, t);
        VisibleWalletExists(s, t, item.bet.userId);
        TakeAndGo(s, t, WalletRow(item.bet.userId), tx, tx.(pc := Crediting(CreditOf(item, result))));
      }
    }
  }

  // Closing

  lemma ClosedFits(s: Sys, t: nat, tx: Tx)
    requires TxInv(s, t, tx) && tx.pc.Closing?
    ensures TxInv(s, t, tx.(pc := Committing))
  {
    hide ResultsIn, RowsDue, CreditRows, SoundBet, Funds;
    assert forall b: nat :: b in tx.written ==> WrittenFits(s, t, tx, b);
    RelabelFits(s, t, tx, Committing);
  }

  lemma CloseKeepsInv(s: Sys, t: nat)
    requires Inv(s) && t in s.txs && s.txs[t].pc.Closing?
    ensures Inv(Statement(s, t, s.txs[t]))
  {
    var tx := s.txs[t];
    hide Inv, TxInv;
    JobOfPc(s, t);
    forall s': Sys | TxInv(s', t, tx) ensures TxInv(s', t, tx.(pc := Committing)) {
      ClosedFits(s', t, tx);
    }
    TakeAndGo(s, t, EventRow(tx.job.event), tx, tx.(pc := Committing));
  }

  // Guarding

  /** What follows the balance guard of a stake or an adjustment. */
  predicate AfterGuard(job: Job, pc: Pc) {
    || (job.StakeJob? && pc == Inserting)
    || (job.AdjustJob? && pc == Crediting(Move(job.user, job.amount, TxAdminAdjust, None)))
  }

  lemma GuardedFits(s: Sys, t: nat, tx: Tx, pc: Pc)
    requires TxInv(s, t, tx) && tx.pc.Guarding? && AfterGuard(tx.job, pc)
    requires tx.job.user in s.wallets && Held(s, t, WalletRow(tx.job.user))
    ensures TxInv(s, t, tx.(pc := pc))
  {
    hide ResultsIn, SoundBet, Funds, Claims;
    RelabelFits(s, t, tx, pc);
  }

  lemma LockWalletKeepsInv(s: Sys, t: nat, pc: Pc)
    requires Inv(s) && t in s.txs && s.txs[t].pc.Guarding? && AfterGuard(s.txs[t].job, pc)
    requires s.txs[t].job.user in s.wallets
    ensures Inv(Take(s, t, WalletRow(s.txs[t].job.user), s.txs[t].(pc := pc)))
  {
    hide Inv, TxInv;
    var tx := s.txs[t];
    var r := WalletRow(tx.job.user);
    JobOfPc(s, t);
    VisibleWalletExists(s, t, tx.job.user);
    forall s': Sys | TxInv(s', t, tx) && Held(s', t, r) && s' == Take(s, t, r, tx.(pc := pc))
      ensures TxInv(s', t, tx.(pc := pc))
    {
      GuardedFits(s', t, tx, pc);
    }
    TakeAndGo(s, t, r, tx, tx.(pc := pc));
  }

  /** A sequence handing out an id that no row uses moves nothing. */
  lemma SequenceKeepsInv(s: Sys, nextUser: nat, nextBet: nat)
    requires Inv(s) && s.nextUser <= nextUser && s.nextBet <= nextBet
    ensures Inv(s.(nextUser := nextUser, nextBet := nextBet))
  {
    hide TxInv, Chained, SoundBet;
    var next := s.(nextUser := nextUser, nextBet := nextBet);
    forall t: nat | t in next.txs ensures TxInv(next, t, next.txs[t]) {
      CalmKeepsTx(s, next, t, s.txs[t]);
    }
    forall b: nat | b in s.bets ensures BetRowFits(next.wallets, next.nextBet, b, next.bets[b]) {
      assert BetRowFits(s.wallets, s.nextBet, b, s.bets[b]);
    }
  }

  lemma EnrollFits(s: Sys, t: nat, tx: Tx, u: nat)
    requires TxInv(s, t, tx) && tx.pc.Guarding? && tx.job.EnrollJob?
    requires Held(s, t, WalletRow(u)) && u < s.nextUser && u !in s.wallets
    ensures TxInv(s, t, tx.(pc := Crediting(Move(u, tx.job.bonus, TxSignupBonus, None)), w := tx.w[u := 0], newId := u))
  {
    hide ResultsIn, SoundBet;
  }

  lemma SequencesAreFresh(s: Sys)
    requires Inv(s)
    ensures s.nextUser !in s.wallets && s.nextBet !in s.bets
  {
    hide TxInv, Chained, LocksFit;
    assert s.nextBet in s.bets ==> BetRowFits(s.wallets, s.nextBet, s.nextBet, s.bets[s.nextBet]);
  }

  lemma TakeNewWallet(s: Sys, t: nat, u: nat)
    requires Inv(s) && t in s.txs && s.txs[t].pc.Guarding? && s.txs[t].job.EnrollJob?
    requires u < s.nextUser && u !in s.wallets
    ensures var tx := s.txs[t];
      Inv(Take(s, t, WalletRow(u), tx.(pc := Crediting(Move(u, tx.job.bonus, TxSignupBonus, None)), w := tx.w[u := 0], newId := u)))
  {
    var tx := s.txs[t];
    var next := tx.(pc := Crediting(Move(u, tx.job.bonus, TxSignupBonus, None)), w := tx.w[u := 0], newId := u);
    assert TxInv(s, t, tx);
    hide Inv, TxInv, ResultsIn;
    forall s': Sys | TxInv(s', t, tx) && Held(s', t, WalletRow(u)) && s' == Take(s, t, WalletRow(u), next)
      ensures TxInv(s', t, next)
    {
      EnrollFits(s', t, tx, u);
    }
    TakeAndGo(s, t, WalletRow(u), tx, next);
  }

  lemma EnrollKeepsInv(s: Sys, t: nat)
    requires Inv(s) && t in s.txs && s.txs[t].pc.Guarding? && s.txs[t].job.EnrollJob?
    ensures Inv(Statement(s, t, s.txs[t]))
  {
    hide Inv, Take;
    var u := s.nextUser;
    SequencesAreFresh(s);
    SequenceKeepsInv(s, u + 1, s.nextBet);
    TakeNewWallet(s.(nextUser := u + 1), t, u);
  }

  lemma GuardKeepsInv(s: Sys, t: nat)
    requires Inv(s) && t in s.txs && s.txs[t].pc.Guarding?
    ensures Inv(Statement(s, t, s.txs[t]))
  {
    hide Inv, TxInv, Take, Rollback;
    match s.txs[t].job
    case SettleJob(_, _, _) => RollbackKeepsInv(s, t);
    case EnrollJob(_) => EnrollKeepsInv(s, t);
    case StakeJob(u, _, _, _, _) =>
      RollbackKeepsInv(s, t);
      if u in s.wallets {
        LockWalletKeepsInv(s, t, Inserting);
      }
    case AdjustJob(u, amount) =>
      RollbackKeepsInv(s, t);
      if u in s.wallets {
        LockWalletKeepsInv(s, t, Crediting(Move(u, amount, TxAdminAdjust, None)));
      }
  }

  // Inserting

  lemma InsertFits(s: Sys, t: nat, tx: Tx, b: nat, bet: Bet)
    requires TxInv(s, t, tx) && tx.pc.Inserting?
    requires Held(s, t, BetRow(b)) && b < s.nextBet && b !in s.bets
    requires SoundBet(bet) && bet.status == BetPending && bet.userId == tx.job.user
    ensures TxInv(s, t, tx.(pc := Crediting(Move(bet.userId, -bet.stake, TxBetStake, Some(b))), written := tx.written[b := bet], newId := b))
  {
    hide ResultsIn, SoundBet;
  }

  lemma TakeNewBet(s: Sys, t: nat, b: nat, bet: Bet)
    requires Inv(s) && t in s.txs && s.txs[t].pc.Inserting? && b < s.nextBet && b !in s.bets
    requires SoundBet(bet) && bet.status == BetPending && bet.userId == s.txs[t].job.user
    ensures var tx := s.txs[t];
      Inv(Take(s, t, BetRow(b), tx.(pc := Crediting(Move(bet.userId, -bet.stake, TxBetStake, Some(b))), written := tx.written[b := bet], newId := b)))
  {
    var tx := s.txs[t];
    var next := tx.(pc := Crediting(Move(bet.userId, -bet.stake, TxBetStake, Some(b))), written := tx.written[b := bet], newId := b);
    assert TxInv(s, t, tx);
    hide Inv, TxInv, ResultsIn, SoundBet;
    forall s': Sys | TxInv(s', t, tx) && Held(s', t, BetRow(b)) && s' == Take(s, t, BetRow(b), next)
      ensures TxInv(s', t, next)
    {
      InsertFits(s', t, tx, b, bet);
    }
    TakeAndGo(s, t, BetRow(b), tx, next);
  }

  lemma InsertKeepsInv(s: Sys, t: nat)
    requires Inv(s) && t in s.txs && s.txs[t].pc.Inserting?
    ensures Inv(Statement(s, t, s.txs[t]))
  {
    hide Inv, TxInv, ComputePotentialPayout, Take, Rollback;
    var tx, b := s.txs[t], s.nextBet;
    JobOfPc(s, t);
    SequencesAreFresh(s);
    if tx.job.stake > 0 && tx.job.odds > 1000 {
      SequenceKeepsInv(s, s.nextUser, b + 1);
      TakeNewBet(s.(nextBet := b + 1), t, b,
                 Bet(tx.job.user, tx.job.outcome, tx.job.eventOf, tx.job.stake, tx.job.odds,
                     ComputePotentialPayout(tx.job.stake, tx.job.odds), BetPending));
    } else {
      RollbackKeepsInv(s, t);
    }
  }

  // Crediting

  lemma CreditedFunds(s: Sys, t: nat, tx: Tx, move: Move)
    requires Funds(s, t, tx) && tx.pc == Crediting(move) && Held(s, t, WalletRow(move.user)) && move.user < s.nextUser
    requires Visible(s, tx, move.user) && (tx.job.EnrollJob? ==> move.user in tx.w)
    requires Balance(s, tx, move.user) + move.amount >= 0
    ensures var after := Balance(s, tx, move.user) + move.amount;
      Funds(s, t, tx.(pc := Recording(move, after), w := tx.w[move.user := after]))
  {
    var after := Balance(s, tx, move.user) + move.amount;
    var next := tx.(pc := Recording(move, after), w := tx.w[move.user := after]);
    if move.user !in tx.w {
      forall k | 0 <= k < |tx.rows| ensures AmountOf(move.user)(tx.rows[k]) == 0 {
        assert FundedRow(s.wallets, tx, k);
      }
      TotalZero(tx.rows, AmountOf(move.user));
    }
    forall k | 0 <= k < |next.rows| ensures FundedRow(s.wallets, next, k) {
      assert FundedRow(s.wallets, tx, k);
    }
  }

  lemma CreditFits(s: Sys, t: nat, tx: Tx, move: Move)
    requires TxInv(s, t, tx) && tx.pc == Crediting(move) && move.user < s.nextUser
    requires Balance(s, tx, move.user) + move.amount >= 0
    ensures var after := Balance(s, tx, move.user) + move.amount;
      TxInv(s, t, tx.(pc := Recording(move, after), w := tx.w[move.user := after]))
  {
    var after := Balance(s, tx, move.user) + move.amount;
    var next := tx.(pc := Recording(move, after), w := tx.w[move.user := after]);
    hide ResultsIn, RowsDue, CreditRows, SoundBet;
    CreditedFunds(s, t, tx, move);
    SameClaims(s, t, tx, next);
    hide Funds, Claims;
    forall b: nat ensures RowsOf(next.rows, b) == RowsSoFar(s, next, b) {
      assert RowsOf(tx.rows, b) == RowsSoFar(s, tx, b);
    }
  }

  lemma CreditKeepsInv(s: Sys, t: nat)
    requires Inv(s) && t in s.txs && s.txs[t].pc.Crediting?
    ensures Inv(Statement(s, t, s.txs[t]))
  {
    hide Inv, TxInv, Rollback;
    var tx := s.txs[t];
    var move := tx.pc.move;
    JobOfPc(s, t);
    RollbackKeepsInv(s, t);
    var after := Balance(s, tx, move.user) + move.amount;
    if Visible(s, tx, move.user) && after >= 0 {
      VisibleWalletExists(s, t, move.user);
      var next := tx.(pc := Recording(move, after), w := tx.w[move.user := after]);
      forall s': Sys | TxInv(s', t, tx) && Held(s', t, WalletRow(move.user)) && s' == Take(s, t, WalletRow(move.user), next)
        ensures TxInv(s', t, next)
      {
        CreditFits(s', t, tx, move);
      }
      TakeAndGo(s, t, WalletRow(move.user), tx, next);
    }
  }

  // Recording

  lemma RecordedFunds(s: Sys, t: nat, tx: Tx, pc: Pc)
    requires Funds(s, t, tx) && tx.pc.Recording? && !pc.Recording?
    requires tx.pc.move.user in tx.w && tx.w[tx.pc.move.user] == tx.pc.after
    ensures Funds(s, t, tx.(rows := tx.rows + [RowFor(tx.pc.move, tx.pc.after)], pc := pc))
  {
    var row := RowFor(tx.pc.move, tx.pc.after);
    var next := tx.(rows := tx.rows + [row], pc := pc);
    forall u: nat ensures Total(next.rows, AmountOf(u)) == Total(tx.rows, AmountOf(u)) + InFlight(tx, u) {
      TotalAppend(tx.rows, row, AmountOf(u));
    }
    forall k | 0 <= k < |next.rows| ensures FundedRow(s.wallets, next, k) {
      if k < |tx.rows| {
        assert FundedRow(s.wallets, tx, k) && next.rows[..k + 1] == tx.rows[..k + 1];
      } else {
        assert next.rows[..k + 1] == next.rows;
      }
    }
  }

  lemma RowsOfAppend(rows: seq<LedgerRow>, row: LedgerRow, b: nat)
    ensures RowsOf(rows + [row], b) == RowsOf(rows, b) + Naming(row, b)
  {
    assert (rows + [row])[..|rows|] == rows;
  }

  lemma NothingToDo(s: Sys, t: nat, tx: Tx)
    requires Claims(s, t, tx) && !tx.job.SettleJob?
    ensures tx.todo == []
    ensures !tx.job.StakeJob? ==> tx.written == map[]
  {
    assert |tx.todo| > 0 ==> TodoFits(s, tx, 0);
    assert forall b: nat :: b in tx.written ==> WrittenFits(s, t, tx, b);
    assert !tx.job.StakeJob? ==> tx.written.Keys == {};
  }

  lemma RecordedRows(s: Sys, t: nat, tx: Tx, pc: Pc)
    requires TxInv(s, t, tx) && tx.pc.Recording? && pc == if tx.job.SettleJob? then Deciding else Committing
    ensures RowsFit(s, tx.(rows := tx.rows + [RowFor(tx.pc.move, tx.pc.after)], pc := pc))
  {
    var row := RowFor(tx.pc.move, tx.pc.after);
    var next := tx.(rows := tx.rows + [row], pc := pc);
    hide ResultsIn, SoundBet, Funds, RowsOf;
    forall b: nat ensures RowsOf(next.rows, b) == RowsSoFar(s, next, b) {
      RowsOfAppend(tx.rows, row, b);
      assert RowsOf(tx.rows, b) == RowsSoFar(s, tx, b);
      if tx.job.SettleJob? {
        PaidSoFar(s, t, tx, b);
      } else {
        NothingToDo(s, t, tx);
        StakedSoFar(s, t, tx, b);
      }
    }
  }

  lemma PaidSoFar(s: Sys, t: nat, tx: Tx, b: nat)
    requires Claims(s, t, tx) && PcFits(s, t, tx) && tx.pc.Recording? && tx.job.SettleJob?
    ensures var row := RowFor(tx.pc.move, tx.pc.after);
      RowsSoFar(s, tx.(rows := tx.rows + [row], pc := Deciding), b) == RowsSoFar(s, tx, b) + Naming(row, b)
  {
    hide ResultsIn, SoundBet;
    assert TodoFits(s, tx, 0);
    assert b in tx.written ==> WrittenFits(s, t, tx, b);
  }

  lemma StakedSoFar(s: Sys, t: nat, tx: Tx, b: nat)
    requires Claims(s, t, tx) && PcFits(s, t, tx) && tx.pc.Recording? && !tx.job.SettleJob?
    requires tx.job.StakeJob? || tx.written == map[]
    requires tx.todo == []
    ensures var row := RowFor(tx.pc.move, tx.pc.after);
      RowsSoFar(s, tx.(rows := tx.rows + [row], pc := Committing), b) == RowsSoFar(s, tx, b) + Naming(row, b)
  {
    hide ResultsIn, SoundBet;
    assert b in tx.written ==> WrittenFits(s, t, tx, b);
  }

  lemma RecordKeepsInv(s: Sys, t: nat)
    requires Inv(s) && t in s.txs && s.txs[t].pc.Recording?
    ensures Inv(Statement(s, t, s.txs[t]))
  {
    var tx := s.txs[t];
    var pc := if tx.job.SettleJob? then Deciding else Committing;
    var next := tx.(rows := tx.rows + [RowFor(tx.pc.move, tx.pc.after)], pc := pc);
    hide Inv, TxInv;
    JobOfPc(s, t);
    forall s': Sys | TxInv(s', t, tx) ensures TxInv(s', t, next) {
      RecordFits(s', t, tx, pc);
    }
    PutAndGo(s, t, tx, next);
  }

  lemma RecordFits(s: Sys, t: nat, tx: Tx, pc: Pc)
    requires TxInv(s, t, tx) && tx.pc.Recording? && pc == if tx.job.SettleJob? then Deciding else Committing
    ensures TxInv(s, t, tx.(rows := tx.rows + [RowFor(tx.pc.move, tx.pc.after)], pc := pc))
  {
    hide ResultsIn, SoundBet, Funds, RowsFit;
    RecordedFunds(s, t, tx, pc);
    RecordedRows(s, t, tx, pc);
    SameClaims(s, t, tx, tx.(rows := tx.rows + [RowFor(tx.pc.move, tx.pc.after)], pc := pc));
    if !tx.job.SettleJob? {
      NothingToDo(s, t, tx);
    }
  }

  // Deciding

  function AfterDeciding(s: Sys, tx: Tx): Tx
    requires |tx.todo| > 0 && tx.todo[0].bet.outcomeId in Results(tx.job) && tx.todo[0].id in s.bets
  {
    var b := tx.todo[0].id;
    tx.(pc := Paying, todo := tx.todo[1..],
        written := tx.written[b := s.bets[b].(status := BetStatusFromResult(Results(tx.job)[tx.todo[0].bet.outcomeId]))])
  }

  lemma DecidedClaims(s: Sys, t: nat, tx: Tx)
    requires Claims(s, t, tx) && tx.pc.Deciding? && tx.job.SettleJob? && |tx.todo| > 0 && TodoFits(s, tx, 0)
    requires Held(s, t, BetRow(tx.todo[0].id)) && BetRowFits(s.wallets, s.nextBet, tx.todo[0].id, s.bets[tx.todo[0].id])
    ensures Claims(s, t, AfterDeciding(s, tx))
  {
    var b, next := tx.todo[0].id, AfterDeciding(s, tx);
    hide ResultsIn;
    forall c: nat | c in next.written ensures WrittenFits(s, t, next, c) {
      assert c != b ==> WrittenFits(s, t, tx, c);
    }
    forall i | 0 <= i < |next.todo| ensures TodoFits(s, next, i) {
      assert TodoFits(s, tx, i + 1) && tx.todo[0].id != tx.todo[i + 1].id;
    }
    assert tx.todo == [tx.todo[0]] + next.todo;
    IdsOfCons(tx.todo[0], next.todo);
    assert next.written.Keys == tx.written.Keys + {b};
  }

  lemma IdsOfCons(item: Listed, rest: seq<Listed>)
    ensures Ids([item] + rest) == {item.id} + Ids(rest)
  {
    var todo := [item] + rest;
    forall i | 0 <= i < |rest| ensures rest[i].id in Ids(todo) {
      assert todo[i + 1] == rest[i];
    }
    assert todo[0] == item;
  }

  lemma DecidedRows(s: Sys, t: nat, tx: Tx)
    requires TxInv(s, t, tx) && tx.pc.Deciding? && |tx.todo| > 0 && TodoFits(s, tx, 0)
    ensures RowsFit(s, AfterDeciding(s, tx))
  {
    var next := AfterDeciding(s, tx);
    hide ResultsIn, RowsDue, SoundBet, Funds, Claims, PcFits;
    forall b: nat ensures RowsOf(next.rows, b) == RowsSoFar(s, next, b) {
      assert RowsOf(tx.rows, b) == RowsSoFar(s, tx, b);
    }
  }

  lemma DecidedFunds(s: Sys, t: nat, tx: Tx)
    requires Funds(s, t, tx) && tx.pc.Deciding? && |tx.todo| > 0 && TodoFits(s, tx, 0)
    ensures Funds(s, t, AfterDeciding(s, tx))
  {
    hide ResultsIn;
    forall k | 0 <= k < |tx.rows| ensures FundedRow(s.wallets, AfterDeciding(s, tx), k) {
      assert FundedRow(s.wallets, tx, k);
    }
  }

  lemma DecideFits(s: Sys, t: nat, tx: Tx)
    requires TxInv(s, t, tx) && tx.pc.Deciding? && |tx.todo| > 0 && TodoFits(s, tx, 0)
    requires Held(s, t, BetRow(tx.todo[0].id)) && BetRowFits(s.wallets, s.nextBet, tx.todo[0].id, s.bets[tx.todo[0].id])
    ensures TxInv(s, t, AfterDeciding(s, tx))
  {
    hide ResultsIn, RowsFit, SoundBet, Funds;
    DecidedClaims(s, t, tx);
    DecidedRows(s, t, tx);
    DecidedFunds(s, t, tx);
  }

  lemma DecideKeepsInv(s: Sys, t: nat)
    requires Inv(s) && t in s.txs && s.txs[t].pc.Deciding?
    ensures Inv(Statement(s, t, s.txs[t]))
  {
    hide Inv, TxInv, ResultsIn, SoundBet;
    var tx := s.txs[t];
    JobOfPc(s, t);
    HeadIsListed(s, t);
    var r, next := BetRow(tx.todo[0].id), AfterDeciding(s, tx);
    forall s': Sys | TxInv(s', t, tx) && Held(s', t, r) && s' == Take(s, t, r, next) ensures TxInv(s', t, next) {
      assert TodoFits(s', tx, 0);
      DecideFits(s', t, tx);
    }
    TakeAndGo(s, t, r, tx, next);
  }

  // Committing

  lemma {:induction false} RowsOfConcat(a: seq<LedgerRow>, b: seq<LedgerRow>, id: nat)
    ensures RowsOf(a + b, id) == RowsOf(a, id) + RowsOf(b, id)
  {
    if |b| == 0 {
      assert a + b == a;
    } else {
      RowsOfConcat(a, b[..|b| - 1], id);
      assert (a + b)[..|a + b| - 1] == a + b[..|b| - 1];
    }
  }

  /** After the commit every balance is again the sum of its ledger rows. */
  lemma CommittedBalances(s: Sys, t: nat, tx: Tx, u: nat)
    requires Funds(s, t, tx) && tx.pc.Committing? && Base(s.wallets, u) == Total(s.ledger, AmountOf(u))
    ensures Base(s.wallets + tx.w, u) == Total(s.ledger + tx.rows, AmountOf(u))
  {
    TotalConcat(s.ledger, tx.rows, AmountOf(u));
    if u !in tx.w {
      forall k | 0 <= k < |tx.rows| ensures AmountOf(u)(tx.rows[k]) == 0 {
        assert FundedRow(s.wallets, tx, k);
      }
      TotalZero(tx.rows, AmountOf(u));
    }
  }

  /** The transaction's rows continue the chain of every wallet they touch. */
  lemma CommittedChain(s: Sys, t: nat, tx: Tx)
    requires Funds(s, t, tx) && Chained(s.ledger) && forall u: nat :: Base(s.wallets, u) == Total(s.ledger, AmountOf(u))
    ensures Chained(s.ledger + tx.rows)
  {
    var ledger, n := s.ledger + tx.rows, |s.ledger|;
    forall k | 0 <= k < |ledger| ensures ChainedAt(ledger, k) {
      if k < n {
        assert ChainedAt(s.ledger, k) && ledger[..k + 1] == s.ledger[..k + 1];
      } else {
        assert FundedRow(s.wallets, tx, k - n);
        assert ledger[..k + 1] == s.ledger + tx.rows[..k - n + 1];
        TotalConcat(s.ledger, tx.rows[..k - n + 1], AmountOf(ledger[k].userId));
      }
    }
  }

  /** Each bet gets exactly the rows of the status it is committed with. */
  lemma CommittedRows(s: Sys, t: nat, tx: Tx, b: nat)
    requires Claims(s, t, tx) && RowsFit(s, tx) && tx.pc.Committing? && RowsOf(s.ledger, b) == Due(s.bets, b)
    ensures RowsOf(s.ledger + tx.rows, b) == Due(s.bets + tx.written, b)
  {
    hide ResultsIn, SoundBet, RowsDue, CreditRows;
    RowsOfConcat(s.ledger, tx.rows, b);
    assert RowsOf(tx.rows, b) == RowsSoFar(s, tx, b);
    if b in tx.written {
      assert WrittenFits(s, t, tx, b);
      if b in s.bets {
        DueOnceDecided(s.bets[b], tx.written[b].status);
      }
    }
  }

  lemma DueOnceDecided(bet: Bet, status: BetStatus)
    requires bet.status == BetPending
    ensures RowsDue(bet.(status := status)) == RowsDue(bet) + CreditRows(bet.(status := status), status)
  {
  }

  lemma CommitKeepsBooks(s: Sys, t: nat, tx: Tx)
    requires Books(s.wallets, s.bets, s.ledger, s.nextUser, s.nextBet) && TxInv(s, t, tx) && tx.pc.Committing?
    ensures Books(s.wallets + tx.w, s.bets + tx.written, s.ledger + tx.rows, s.nextUser, s.nextBet)
  {
    hide Chained, ResultsIn, SoundBet, RowsFit, RowsDue;
    CommittedChain(s, t, tx);
    forall u: nat ensures Base(s.wallets + tx.w, u) == Total(s.ledger + tx.rows, AmountOf(u)) {
      CommittedBalances(s, t, tx, u);
    }
    forall b: nat ensures RowsOf(s.ledger + tx.rows, b) == Due(s.bets + tx.written, b) {
      CommittedRows(s, t, tx, b);
    }
    forall b: nat | b in s.bets + tx.written
      ensures BetRowFits(s.wallets + tx.w, s.nextBet, b, (s.bets + tx.written)[b])
    {
      if b in tx.written {
        assert WrittenFits(s, t, tx, b);
      } else {
        assert BetRowFits(s.wallets, s.nextBet, b, s.bets[b]);
      }
    }
  }

  lemma WrittenIsHeld(s: Sys, t: nat, tx: Tx, b: nat)
    requires Claims(s, t, tx) && PlanWritten(tx) && b in tx.written
    ensures Held(s, t, BetRow(b)) && (b in s.bets ==> Held(s, t, OutcomeRow(s.bets[b].outcomeId)))
  {
    hide ResultsIn, SoundBet;
    assert WrittenFits(s, t, tx, b);
  }

  /** A commit moves only rows its transaction holds, so no other open transaction notices. */
  lemma CommitIsCalm(s: Sys, t: nat, tx: Tx, q: nat)
    requires TxInv(s, t, tx) && tx.pc.Committing? && q != t
    ensures Calm(s, Commit(s, t, tx), q)
  {
    hide ResultsIn, SoundBet, RowsFit, WrittenFits;
    var next := Commit(s, t, tx);
    forall b: nat | b in tx.written
      ensures Held(s, t, BetRow(b)) && (b in s.bets ==> Held(s, t, OutcomeRow(s.bets[b].outcomeId)))
    {
      WrittenIsHeld(s, t, tx, b);
    }
    forall b: nat | b !in tx.written ensures SameRow(s.bets, next.bets, b) {
    }
  }

  lemma CommitKeepsInv(s: Sys, t: nat)
    requires Inv(s) && t in s.txs && s.txs[t].pc.Committing?
    ensures Inv(Statement(s, t, s.txs[t]))
  {
    hide TxInv, Books;
    var tx := s.txs[t];
    var next := Commit(s, t, tx);
    CommitKeepsBooks(s, t, tx);
    forall q: nat | q in next.txs ensures TxInv(next, q, next.txs[q]) {
      CommitIsCalm(s, t, tx, q);
      CalmKeepsTx(s, next, q, s.txs[q]);
    }
  }

  // ---------- every schedule ----------

  lemma StartKeepsInv(s: Sys, t: nat, job: Job)
    requires Inv(s)
    ensures Inv(Next(s, Start(t, job)))
  {
    hide Inv, TxInv;
    if t !in s.txs {
      BeginFits(Put(s, t, Begin(job)), t, job);
      PutKeepsInv(s, t, Begin(job));
    }
  }

  lemma BeginFits(s: Sys, t: nat, job: Job)
    ensures TxInv(s, t, Begin(job))
  {
    hide ResultsIn;
    UntouchedFits(s, t, Begin(job));
  }

  lemma StatementKeepsInv(s: Sys, t: nat)
    requires Inv(s) && t in s.txs
    ensures Inv(Statement(s, t, s.txs[t]))
  {
    hide Inv, Statement;
    match s.txs[t].pc
    case Marking(_) => MarkKeepsInv(s, t);
    case Ruling(_) => RuleKeepsInv(s, t);
    case Listing => ListKeepsInv(s, t);
    case Paying => PayKeepsInv(s, t);
    case Deciding => DecideKeepsInv(s, t);
    case Closing => CloseKeepsInv(s, t);
    case Guarding => GuardKeepsInv(s, t);
    case Inserting => InsertKeepsInv(s, t);
    case Crediting(_) => CreditKeepsInv(s, t);
    case Recording(_, _) => RecordKeepsInv(s, t);
    case Committing => CommitKeepsInv(s, t);
  }

  lemma NextKeepsInv(s: Sys, turn: Turn)
    requires Inv(s)
    ensures Inv(Next(s, turn))
  {
    hide Inv, Statement;
    match turn
    case Start(t, job) => StartKeepsInv(s, t, job);
    case Go(t) => if t in s.txs { StatementKeepsInv(s, t); }
    case Fail(t) => RollbackKeepsInv(s, t);
  }

  /**
   * Under every interleaving of settlement, bet, adjustment and registration statements, with failures anywhere:
   * committed balances are sums of committed ledger rows and never negative, each wallet's rows form one serial
   * chain, and each bet has been debited once and paid or refunded at most once, as its status says.
   */
  lemma {:induction false} ScheduleKeepsInv(s: Sys, turns: seq<Turn>)
    requires Inv(s)
    ensures Inv(Schedule(s, turns))
    decreases |turns|
  {
    hide Inv, Next;
    if |turns| > 0 {
      NextKeepsInv(s, turns[0]);
      ScheduleKeepsInv(Next(s, turns[0]), turns[1..]);
    }
  }

  /** Committed history: the ledger only grows, a bet never disappears, changes terms or leaves a final status. */
  ghost predicate Extends(s: Sys, later: Sys) {
    && s.ledger <= later.ledger
    && (forall u: nat :: u in s.wallets ==> u in later.wallets)
    && forall b: nat :: b in s.bets ==> b in later.bets && FrozenBet(s.bets[b], later.bets[b])
  }

  lemma StatementExtends(s: Sys, t: nat)
    requires Inv(s) && t in s.txs
    ensures Extends(s, Statement(s, t, s.txs[t]))
  {
    hide Books, Funds, RowsFit, PcFits, ResultsIn, SoundBet, ListPending, ComputePotentialPayout;
    var tx := s.txs[t];
    assert TxInv(s, t, tx);
    if tx.pc.Committing? {
      forall b: nat | b in s.bets ensures b in s.bets + tx.written && FrozenBet(s.bets[b], (s.bets + tx.written)[b]) {
        assert b in tx.written ==> WrittenFits(s, t, tx, b);
      }
    } else {
      OnlyCommitsCommit(s, t, tx);
    }
  }

  lemma OnlyCommitsCommit(s: Sys, t: nat, tx: Tx)
    requires !tx.pc.Committing?
    ensures SameTables(s, Statement(s, t, tx))
  {
    hide ResultsIn, ListPending, ComputePotentialPayout, Take, Put, Rollback;
  }

  lemma {:induction false} ScheduleExtends(s: Sys, turns: seq<Turn>)
    requires Inv(s)
    ensures Extends(s, Schedule(s, turns))
    decreases |turns|
  {
    hide Inv, Next;
    if |turns| > 0 {
      var next := Next(s, turns[0]);
      NextKeepsInv(s, turns[0]);
      NextExtends(s, turns[0]);
      ScheduleExtends(next, turns[1..]);
      ExtendsTransitive(s, next, Schedule(next, turns[1..]));
    }
  }

  lemma NextExtends(s: Sys, turn: Turn)
    requires Inv(s)
    ensures Extends(s, Next(s, turn))
  {
    hide Inv, Statement;
    if turn.Go? && turn.t in s.txs {
      StatementExtends(s, turn.t);
    }
  }

  lemma ExtendsTransitive(a: Sys, b: Sys, c: Sys)
    requires Extends(a, b) && Extends(b, c)
    ensures Extends(a, c)
  {
    forall i: nat | i in a.bets ensures i in c.bets && FrozenBet(a.bets[i], c.bets[i]) {
      assert FrozenBet(a.bets[i], b.bets[i]) && FrozenBet(b.bets[i], c.bets[i]);
    }
  }

  predicate IsCredit(row: LedgerRow, b: nat) {
    row.betId == Some(b) && row.kind != TxBetStake
  }

  /** Exactly once, in every reachable state: no two committed rows pay or refund the same bet. */
  lemma NeverPaidTwice(s: Sys, turns: seq<Turn>, b: nat, i: nat, j: nat)
    requires Inv(s)
    requires var ledger := Schedule(s, turns).ledger;
      i < |ledger| && j < |ledger| && IsCredit(ledger[i], b) && IsCredit(ledger[j], b)
    ensures i == j
  {
    hide Inv, Schedule;
    ScheduleKeepsInv(s, turns);
    AtMostOneCredit(Schedule(s, turns), b);
    if i != j {
      CountCredits(Schedule(s, turns).ledger, b, if i < j then i else j, if i < j then j else i);
    }
  }

  function CreditsIn(rows: seq<(nat, TxType, int)>): nat {
    if |rows| == 0 then 0
    else CreditsIn(rows[..|rows| - 1]) + if rows[|rows| - 1].1 != TxBetStake then 1 else 0
  }

  lemma AtMostOneCredit(s: Sys, b: nat)
    requires Inv(s)
    ensures CreditsIn(RowsOf(s.ledger, b)) <= 1
  {
    hide TxInv, Chained, SoundBet;
    var due := Due(s.bets, b);
    assert |due| > 0 ==> due[..1] == [due[0]] && CreditsIn(due[..1]) == CreditsIn(due[..1][..0]) == 0;
    assert CreditsIn(due) <= 1;
  }

  lemma {:induction false} CountCredits(ledger: seq<LedgerRow>, b: nat, i: nat, j: nat)
    requires i < j < |ledger| && IsCredit(ledger[i], b) && IsCredit(ledger[j], b)
    ensures CreditsIn(RowsOf(ledger, b)) >= 2
  {
    var front := ledger[..|ledger| - 1];
    CreditsOfLast(ledger, b);
    if j == |ledger| - 1 {
      OneCredit(front, b, i);
    } else {
      CountCredits(front, b, i, j);
    }
  }

  lemma {:induction false} OneCredit(ledger: seq<LedgerRow>, b: nat, i: nat)
    requires i < |ledger| && IsCredit(ledger[i], b)
    ensures CreditsIn(RowsOf(ledger, b)) >= 1
  {
    CreditsOfLast(ledger, b);
    if i < |ledger| - 1 {
      OneCredit(ledger[..|ledger| - 1], b, i);
    }
  }

  lemma CreditsOfLast(ledger: seq<LedgerRow>, b: nat)
    requires |ledger| > 0
    ensures CreditsIn(RowsOf(ledger, b))
         == CreditsIn(RowsOf(ledger[..|ledger| - 1], b)) + if IsCredit(ledger[|ledger| - 1], b) then 1 else 0
  {
    var rows := RowsOf(ledger[..|ledger| - 1], b);
    var row := ledger[|ledger| - 1];
    assert (rows + [(row.userId, row.kind, row.amount)])[..|rows|] == rows;
    assert rows + [] == rows;
  }

  /** A settlement commits its plan's verdict for every bet it listed: no pending bet of the listing is skipped. */
  lemma CommitDecidesListed(s: Sys, t: nat, b: nat)
    requires Inv(s) && t in s.txs && s.txs[t].pc.Committing? && s.txs[t].job.SettleJob? && b in Ids(s.txs[t].listed)
    ensures b in s.bets && s.bets[b].outcomeId in Results(s.txs[t].job)
    ensures b in Next(s, Go(t)).bets
    ensures Next(s, Go(t)).bets[b] == Resolve(Results(s.txs[t].job), s.bets[b])
  {
    hide Books, Funds, RowsFit, ResultsIn, SoundBet;
    var tx := s.txs[t];
    assert TxInv(s, t, tx);
    assert Ids(tx.todo) == {};
    assert WrittenFits(s, t, tx, b);
  }

  // ---------- what a transaction keeps of itself ----------

  lemma GuardKeepsJob(s: Sys, t: nat, tx: Tx)
    requires t in s.txs && s.txs[t] == tx
    ensures t in Guard(s, t, tx).txs ==> Guard(s, t, tx).txs[t].job == tx.job
    ensures t in Insert(s, t, tx).txs ==> Insert(s, t, tx).txs[t].job == tx.job
  {
    hide ComputePotentialPayout, Take, Put, Rollback, SameTables, SameOthers;
  }

  lemma PayKeepsJob(s: Sys, t: nat, tx: Tx)
    requires t in s.txs && s.txs[t] == tx
    ensures t in Pay(s, t, tx).txs ==> Pay(s, t, tx).txs[t].job == tx.job
    ensures t in Decide(s, t, tx).txs ==> Decide(s, t, tx).txs[t].job == tx.job
  {
    hide ResultsIn, Take, Put, Rollback, SameTables, SameOthers;
  }

  lemma JobStays(s: Sys, t: nat)
    requires t in s.txs
    ensures var next := Statement(s, t, s.txs[t]); t in next.txs ==> next.txs[t].job == s.txs[t].job
  {
    hide ResultsIn, ListPending, Guard, Insert, Pay, Decide, Take, Put, Rollback, SameTables, SameOthers;
    GuardKeepsJob(s, t, s.txs[t]);
    PayKeepsJob(s, t, s.txs[t]);
  }

  /** The transaction has its list of bets. */
  predicate HasListed(tx: Tx) {
    tx.job.SettleJob?
    && (tx.pc.Paying? || tx.pc.Deciding? || tx.pc.Closing? || tx.pc.Crediting? || tx.pc.Recording? || tx.pc.Committing?)
  }

  /** Once listed, the list stands until the transaction ends. */
  lemma ListStays(s: Sys, t: nat)
    requires t in s.txs && HasListed(s.txs[t])
    ensures var next := Statement(s, t, s.txs[t]);
      t in next.txs ==> HasListed(next.txs[t]) && next.txs[t].listed == s.txs[t].listed
  {
    hide ResultsIn, ListPending, ComputePotentialPayout, Take, Put, Rollback, SameTables, SameOthers;
  }

  lemma OthersStay(s: Sys, t: nat, tx: Tx)
    ensures SameOthers(s, Statement(s, t, tx), t)
  {
    hide ResultsIn, ListPending, ComputePotentialPayout, Take, Put, Rollback, SameTables, Guard, Insert, Pay, Decide;
    GuardMovesOne(s, t, tx);
    PayMovesOne(s, t, tx);
  }

  lemma GuardMovesOne(s: Sys, t: nat, tx: Tx)
    ensures SameOthers(s, Guard(s, t, tx), t) && SameOthers(s, Insert(s, t, tx), t)
  {
    hide ComputePotentialPayout, Take, Put, Rollback, SameTables;
  }

  lemma PayMovesOne(s: Sys, t: nat, tx: Tx)
    ensures SameOthers(s, Pay(s, t, tx), t) && SameOthers(s, Decide(s, t, tx), t)
  {
    hide ResultsIn, Take, Put, Rollback, SameTables, BetStatusFromResult;
  }

  /** Any turn but a new start of t leaves t's job as it was, or ends t. */
  lemma NextKeepsJob(s: Sys, turn: Turn, q: nat)
    requires q in Next(s, turn).txs && (q !in s.txs ==> turn != Start(q, Next(s, turn).txs[q].job))
    ensures q in s.txs && Next(s, turn).txs[q].job == s.txs[q].job
  {
    hide Statement;
    match turn
    case Start(t, job) =>
    case Go(t) =>
      if t in s.txs {
        OthersStay(s, t, s.txs[t]);
        JobStays(s, t);
        assert q != t ==> q in Statement(s, t, s.txs[t]).txs - {t};
        assert q != t ==> (Statement(s, t, s.txs[t]).txs - {t})[q] == (s.txs - {t})[q];
      }
    case Fail(t) =>
  }

  // ---------- where schedules start ----------

  /** The statement-level state of a database on which no transaction is open. */
  function AtRest(bank: Bank): Sys {
    Sys(bank.wallets, map b: nat | b < |bank.bets| :: bank.bets[b], bank.ledger, |bank.users|, |bank.bets|, map[], map[])
  }

  /** Every state reached by atomic service calls is a sound starting point for interleaved statements. */
  lemma AtRestKeepsInv(bank: Bank, bonus: int)
    requires BankInv(bank, bonus)
    ensures Inv(AtRest(bank))
  {
    hide Chained, BonusFirst, SoundBet;
    forall u: nat ensures Base(bank.wallets, u) == Total(bank.ledger, AmountOf(u)) {
      if u !in bank.wallets {
        NoRowsNoTotal(bank.ledger, u);
      }
    }
    forall b: nat ensures RowsOf(bank.ledger, b) == Due(AtRest(bank).bets, b) {
      assert RowsOf(bank.ledger, b) == DueOf(bank.bets, b);
    }
  }
}
