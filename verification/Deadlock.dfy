/** Waiting for wallets: two settlements can wait for each other, and never do when they visit wallets in one order. */
module Deadlock {
  import opened Domain
  import Payout
  import BankOps
  import Ledger
  import opened Settlement
  import opened ReadCommitted
  import opened Interleaving
  import opened Serializability

  // ---------- who waits for whom ----------

  predicate Pays(results: map<nat, Result>, item: Listed) {
    item.bet.outcomeId in results && results[item.bet.outcomeId] != ResultLost
  }

  /** The wallet row the transaction's next statement locks. */
  function NextWallet(s: Sys, tx: Tx): Option<nat> {
    match tx.pc
    case Paying => if |tx.todo| > 0 && Pays(Results(tx.job), tx.todo[0]) then Some(tx.todo[0].bet.userId) else None
    case Guarding => if (tx.job.StakeJob? || tx.job.AdjustJob?) && tx.job.user in s.wallets then Some(tx.job.user) else None
    case Crediting(move) => Some(move.user)
    case _ => None
  }

  /** Transaction t needs wallet u next, and q holds it. */
  predicate WaitsFor(s: Sys, t: nat, u: nat, q: nat) {
    t in s.txs && q != t && NextWallet(s, s.txs[t]) == Some(u) && Held(s, q, WalletRow(u))
  }

  /** While it waits, its turns change nothing. */
  lemma WaitingIsStuck(s: Sys, t: nat, u: nat, q: nat)
    requires Inv(s) && WaitsFor(s, t, u, q)
    ensures Next(s, Go(t)) == s
  {
    hide Funds, RowsFit, ResultsIn, Ledger.Chained, BankOps.SoundBet;
    var tx := s.txs[t];
    assert TxInv(s, t, tx);
    if tx.pc.Paying? {
      HeadIsListed(s, t);
    }
  }

  // ---------- which wallets a transaction holds ----------

  predicate Credits(tx: Tx) {
    tx.pc.Crediting? || tx.pc.Recording? || tx.pc.Deciding?
  }

  /** The wallets the transaction has come to so far. */
  ghost predicate Visited(tx: Tx, u: nat) {
    match tx.job
    case SettleJob(_, _, _) =>
      || (exists i :: 0 <= i < Behind(tx) <= |tx.listed| && Pays(Results(tx.job), tx.listed[i]) && tx.listed[i].bet.userId == u)
      || (Credits(tx) && |tx.todo| > 0 && Pays(Results(tx.job), tx.todo[0]) && tx.todo[0].bet.userId == u)
    case EnrollJob(_) => !tx.pc.Guarding? && u == tx.newId
    case _ => !tx.pc.Guarding? && u == tx.job.user
  }

  /** Every locked wallet is held by an open transaction that has visited it. */
  ghost predicate WalletsHeld(s: Sys) {
    forall u: nat :: WalletRow(u) in s.locks ==>
      s.locks[WalletRow(u)] in s.txs && Visited(s.txs[s.locks[WalletRow(u)]], u)
  }

  /** A statement's own effect on wallet locks: those it keeps or takes belong to wallets it has visited. */
  ghost predicate HoldsVisited(next: Sys, t: nat) {
    forall u: nat :: Held(next, t, WalletRow(u)) ==> t in next.txs && Visited(next.txs[t], u)
  }

  lemma TakeHolds(s: Sys, t: nat, r: Res, tx: Tx, next: Tx)
    requires t in s.txs && s.txs[t] == tx && HoldsVisited(s, t)
    requires forall u: nat :: Visited(tx, u) ==> Visited(next, u)
    requires r.WalletRow? ==> Visited(next, r.id)
    ensures HoldsVisited(Take(s, t, r, next), t)
  {
    hide Visited;
  }

  lemma PutHolds(s: Sys, t: nat, tx: Tx, next: Tx)
    requires t in s.txs && s.txs[t] == tx && HoldsVisited(s, t)
    requires forall u: nat :: Visited(tx, u) ==> Visited(next, u)
    ensures HoldsVisited(Put(s, t, next), t)
  {
    hide Visited;
  }

  lemma RollbackHolds(s: Sys, t: nat)
    ensures HoldsVisited(Rollback(s, t), t)
  {
  }

  /** Moving on without passing a bet forgets no wallet. */
  lemma SameListVisits(tx: Tx, next: Tx)
    requires next.job == tx.job && next.listed == tx.listed && next.todo == tx.todo
    requires tx.job.SettleJob? && (Credits(tx) ==> Credits(next))
    ensures forall u: nat :: Visited(tx, u) ==> Visited(next, u)
  {
    hide ResultsIn;
  }

  lemma LockHolds(s: Sys, t: nat)
    requires t in s.txs && HoldsVisited(s, t) && s.txs[t].job.SettleJob?
    requires s.txs[t].pc.Marking? || s.txs[t].pc.Ruling? || s.txs[t].pc.Closing?
    ensures HoldsVisited(Statement(s, t, s.txs[t]), t)
  {
    hide Take, Put, Visited, HoldsVisited;
    var tx := s.txs[t];
    match tx.pc
    case Marking(i) =>
      SameListVisits(tx, tx.(pc := Marking(i + 1)));
      SameListVisits(tx, tx.(pc := Ruling(0)));
      PutHolds(s, t, tx, tx.(pc := Ruling(0)));
      if i < |tx.job.marks| {
        TakeHolds(s, t, MarketRow(tx.job.marks[i]), tx, tx.(pc := Marking(i + 1)));
      }
    case Ruling(i) =>
      SameListVisits(tx, tx.(pc := Ruling(i + 1)));
      SameListVisits(tx, tx.(pc := Listing));
      PutHolds(s, t, tx, tx.(pc := Listing));
      if i < |tx.job.ruling| {
        TakeHolds(s, t, OutcomeRow(tx.job.ruling[i].outcomeId), tx, tx.(pc := Ruling(i + 1)));
      }
    case Closing =>
      SameListVisits(tx, tx.(pc := Committing));
      TakeHolds(s, t, EventRow(tx.job.event), tx, tx.(pc := Committing));
  }

  lemma ListHolds(s: Sys, t: nat)
    requires t in s.txs && HoldsVisited(s, t) && InOrder(s.txs[t]) && s.txs[t].pc.Listing? && s.txs[t].job.SettleJob?
    requires s.txs[t].listed == []
    ensures HoldsVisited(Statement(s, t, s.txs[t]), t)
  {
    hide ListPending, ResultsIn, PayItems, MovesOf;
    var tx := s.txs[t];
    forall u: nat ensures !Visited(tx, u) {
    }
    hide Visited;
    PutHolds(s, t, tx, tx.(pc := Paying, todo := ListPending(s.bets, Results(tx.job), s.nextBet),
                           listed := ListPending(s.bets, Results(tx.job), s.nextBet)));
  }

  lemma PayHolds(s: Sys, t: nat)
    requires t in s.txs && HoldsVisited(s, t) && s.txs[t].pc.Paying? && s.txs[t].job.SettleJob?
    requires |s.txs[t].todo| > 0 ==> s.txs[t].todo[0].bet.outcomeId in Results(s.txs[t].job)
    ensures HoldsVisited(Statement(s, t, s.txs[t]), t)
  {
    hide Take, Put, Rollback, Visited, HoldsVisited, ResultsIn;
    var tx := s.txs[t];
    RollbackHolds(s, t);
    if |tx.todo| == 0 {
      SameListVisits(tx, tx.(pc := Closing));
      PutHolds(s, t, tx, tx.(pc := Closing));
    } else {
      var item, result := tx.todo[0], Results(tx.job)[tx.todo[0].bet.outcomeId];
      if result == ResultLost {
        SameListVisits(tx, tx.(pc := Deciding));
        PutHolds(s, t, tx, tx.(pc := Deciding));
      } else {
        var next := tx.(pc := Crediting(CreditOf(item, result)));
        SameListVisits(tx, next);
        HeadIsVisited(next);
        TakeHolds(s, t, WalletRow(item.bet.userId), tx, next);
      }
    }
  }

  lemma HeadIsVisited(tx: Tx)
    requires tx.job.SettleJob? && Credits(tx) && |tx.todo| > 0 && Pays(Results(tx.job), tx.todo[0])
    ensures Visited(tx, tx.todo[0].bet.userId)
  {
    hide ResultsIn;
  }

  lemma PassedIsVisited(tx: Tx, next: Tx)
    requires SettlesInOrder(tx) && tx.job.SettleJob? && tx.pc.Deciding? && |tx.todo| > 0
    requires next.job == tx.job && next.listed == tx.listed && next.todo == tx.todo[1..]
    ensures forall u: nat :: Visited(tx, u) ==> Visited(next, u)
  {
    hide ResultsIn, PayItems, MovesOf, PayItem;
    assert tx.listed[Behind(tx)] == tx.todo[0] && Behind(next) == Behind(tx) + 1 <= |tx.listed|;
  }

  lemma DecideHolds(s: Sys, t: nat)
    requires t in s.txs && HoldsVisited(s, t) && InOrder(s.txs[t]) && s.txs[t].pc.Deciding? && s.txs[t].job.SettleJob?
    ensures HoldsVisited(Statement(s, t, s.txs[t]), t)
  {
    hide Take, Rollback, Visited, HoldsVisited, ResultsIn, SettlesInOrder;
    var tx := s.txs[t];
    RollbackHolds(s, t);
    if |tx.todo| > 0 && tx.todo[0].bet.outcomeId in Results(tx.job) && tx.todo[0].id in s.bets {
      PassedIsVisited(tx, AfterDeciding(s, tx));
      TakeHolds(s, t, BetRow(tx.todo[0].id), tx, AfterDeciding(s, tx));
    }
  }

  /** A job with one wallet keeps to it. */
  lemma OneWalletVisits(tx: Tx, next: Tx)
    requires !tx.job.SettleJob? && next.job == tx.job && !next.pc.Guarding?
    requires tx.job.EnrollJob? ==> tx.pc.Guarding? || next.newId == tx.newId
    ensures forall u: nat :: Visited(tx, u) ==> Visited(next, u)
    ensures Visited(next, if tx.job.EnrollJob? then next.newId else tx.job.user)
  {
  }

  lemma GuardHolds(s: Sys, t: nat)
    requires t in s.txs && HoldsVisited(s, t) && s.txs[t].pc.Guarding?
    ensures HoldsVisited(Statement(s, t, s.txs[t]), t)
  {
    hide Take, Rollback, Visited, HoldsVisited;
    var tx := s.txs[t];
    RollbackHolds(s, t);
    match tx.job
    case SettleJob(_, _, _) =>
    case EnrollJob(bonus) =>
      var u := s.nextUser;
      var next := tx.(pc := Crediting(Move(u, bonus, TxSignupBonus, None)), w := tx.w[u := 0], newId := u);
      OneWalletVisits(tx, next);
      SequenceHolds(s, t, u + 1, s.nextBet);
      TakeHolds(s.(nextUser := u + 1), t, WalletRow(u), tx, next);
    case StakeJob(u, _, _, _, _) =>
      OneWalletVisits(tx, tx.(pc := Inserting));
      TakeHolds(s, t, WalletRow(u), tx, tx.(pc := Inserting));
    case AdjustJob(u, amount) =>
      var next := tx.(pc := Crediting(Move(u, amount, TxAdminAdjust, None)));
      OneWalletVisits(tx, next);
      TakeHolds(s, t, WalletRow(u), tx, next);
  }

  lemma SequenceHolds(s: Sys, t: nat, nextUser: nat, nextBet: nat)
    requires HoldsVisited(s, t)
    ensures HoldsVisited(s.(nextUser := nextUser), t) && HoldsVisited(s.(nextBet := nextBet), t)
  {
    hide Visited;
  }

  lemma InsertHolds(s: Sys, t: nat)
    requires t in s.txs && HoldsVisited(s, t) && s.txs[t].pc.Inserting?
    ensures HoldsVisited(Statement(s, t, s.txs[t]), t)
  {
    hide Take, Rollback, Visited, HoldsVisited, Payout.ComputePotentialPayout;
    var tx, b := s.txs[t], s.nextBet;
    RollbackHolds(s, t);
    if tx.job.StakeJob? {
      var bet := BetOf(tx.job);
      var next := tx.(pc := Crediting(Move(tx.job.user, -tx.job.stake, TxBetStake, Some(b))), written := tx.written[b := bet], newId := b);
      OneWalletVisits(tx, next);
      SequenceHolds(s, t, s.nextUser, b + 1);
      TakeHolds(s.(nextBet := b + 1), t, BetRow(b), tx, next);
    }
  }

  lemma CreditVisits(s: Sys, t: nat, tx: Tx, after: int)
    requires InOrder(tx) && tx.pc.Crediting? && MoveFits(s, tx, tx.pc.move)
    ensures var next := tx.(pc := Recording(tx.pc.move, after), w := tx.w[tx.pc.move.user := after]);
      (forall u: nat :: Visited(tx, u) ==> Visited(next, u)) && Visited(next, tx.pc.move.user)
  {
    hide ResultsIn, PayItems, MovesOf, Payout.ComputePotentialPayout;
    var next := tx.(pc := Recording(tx.pc.move, after), w := tx.w[tx.pc.move.user := after]);
    if tx.job.SettleJob? {
      SameListVisits(tx, next);
      HeadIsVisited(next);
    } else {
      OneWalletVisits(tx, next);
    }
  }

  lemma CreditHolds(s: Sys, t: nat)
    requires t in s.txs && HoldsVisited(s, t) && InOrder(s.txs[t]) && s.txs[t].pc.Crediting? && MoveFits(s, s.txs[t], s.txs[t].pc.move)
    ensures HoldsVisited(Statement(s, t, s.txs[t]), t)
  {
    hide Take, Rollback, Visited, HoldsVisited, InOrder, MoveFits;
    var tx := s.txs[t];
    var move := tx.pc.move;
    RollbackHolds(s, t);
    var after := Balance(s, tx, move.user) + move.amount;
    CreditVisits(s, t, tx, after);
    TakeHolds(s, t, WalletRow(move.user), tx, tx.(pc := Recording(move, after), w := tx.w[move.user := after]));
  }

  lemma RecordHolds(s: Sys, t: nat)
    requires t in s.txs && HoldsVisited(s, t) && s.txs[t].pc.Recording?
    ensures HoldsVisited(Statement(s, t, s.txs[t]), t)
  {
    hide Put, Visited, HoldsVisited;
    var tx := s.txs[t];
    var next := tx.(rows := tx.rows + [RowFor(tx.pc.move, tx.pc.after)], pc := if tx.job.SettleJob? then Deciding else Committing);
    if tx.job.SettleJob? {
      SameListVisits(tx, next);
    } else {
      OneWalletVisits(tx, next);
    }
    PutHolds(s, t, tx, next);
  }

  lemma CommitHolds(s: Sys, t: nat)
    requires t in s.txs && s.txs[t].pc.Committing?
    ensures HoldsVisited(Statement(s, t, s.txs[t]), t)
  {
  }

  /** What a transaction's own invariant says about its next statement. */
  lemma NextStatementFits(s: Sys, t: nat)
    requires Inv(s) && t in s.txs
    ensures var tx := s.txs[t];
      && (tx.pc.Marking? || tx.pc.Ruling? || tx.pc.Listing? || tx.pc.Paying? || tx.pc.Deciding? || tx.pc.Closing? ==> tx.job.SettleJob?)
      && (tx.pc.Listing? ==> tx.listed == [])
      && (tx.pc.Crediting? ==> MoveFits(s, tx, tx.pc.move) && Held(s, t, WalletRow(tx.pc.move.user)))
      && (|tx.todo| > 0 ==> tx.todo[0].bet.outcomeId in Results(tx.job))
  {
    hide Books, Funds, RowsFit, MoveFits, ResultsIn;
    assert TxInv(s, t, s.txs[t]);
    assert |s.txs[t].todo| > 0 ==> TodoFits(s, s.txs[t], 0);
  }

  lemma StatementHolds(s: Sys, t: nat)
    requires Inv(s) && t in s.txs && InOrder(s.txs[t]) && HoldsVisited(s, t)
    ensures HoldsVisited(Statement(s, t, s.txs[t]), t)
  {
    hide Inv, Statement, HoldsVisited, InOrder, MoveFits;
    NextStatementFits(s, t);
    match s.txs[t].pc
    case Listing => ListHolds(s, t);
    case Paying => PayHolds(s, t);
    case Deciding => DecideHolds(s, t);
    case Guarding => GuardHolds(s, t);
    case Inserting => InsertHolds(s, t);
    case Crediting(_) => CreditHolds(s, t);
    case Recording(_, _) => RecordHolds(s, t);
    case Committing => CommitHolds(s, t);
    case _ => LockHolds(s, t);
  }

  /** Locks of the other transactions are where they were. */
  lemma OtherLocksStay(s: Sys, next: Sys, t: nat)
    requires SameOthers(s, next, t) && WalletsHeld(s) && HoldsVisited(next, t)
    ensures WalletsHeld(next)
  {
    hide Visited;
    forall u: nat | WalletRow(u) in next.locks
      ensures next.locks[WalletRow(u)] in next.txs && Visited(next.txs[next.locks[WalletRow(u)]], u)
    {
      var q := next.locks[WalletRow(u)];
      if q != t {
        assert WalletRow(u) in Unlocked(next.locks, t);
        assert WalletRow(u) in s.locks && s.locks[WalletRow(u)] == q;
        assert q in s.txs - {t} && (next.txs - {t})[q] == (s.txs - {t})[q];
      }
    }
  }

  lemma NextKeepsHeld(s: Sys, turn: Turn)
    requires Inv(s) && AllInOrder(s) && WalletsHeld(s)
    ensures WalletsHeld(Next(s, turn))
  {
    hide Inv, InOrder, Visited, Statement, Rollback;
    match turn
    case Start(t, job) =>
    case Go(t) =>
      if t in s.txs {
        StatementHolds(s, t);
        OthersStay(s, t, s.txs[t]);
        OtherLocksStay(s, Statement(s, t, s.txs[t]), t);
      }
    case Fail(t) =>
      RollbackHolds(s, t);
      OtherLocksStay(s, Rollback(s, t), t);
  }

  lemma {:induction false} ScheduleKeepsHeld(s: Sys, turns: seq<Turn>)
    requires Inv(s) && AllInOrder(s) && WalletsHeld(s)
    ensures Inv(Schedule(s, turns)) && AllInOrder(Schedule(s, turns)) && WalletsHeld(Schedule(s, turns))
    decreases |turns|
  {
    hide Inv, AllInOrder, WalletsHeld, Next;
    if |turns| > 0 {
      NextKeepsInv(s, turns[0]);
      NextInOrder(s, turns[0]);
      NextKeepsHeld(s, turns[0]);
      ScheduleKeepsHeld(Next(s, turns[0]), turns[1..]);
    }
  }

  // ---------- one order, no cycle ----------

  /** The settlement comes to the wallets it credits in the given order. */
  ghost predicate InRank(tx: Tx, rank: nat -> int) {
    forall i, j :: 0 <= i < j < |tx.listed| && Pays(Results(tx.job), tx.listed[i]) && Pays(Results(tx.job), tx.listed[j]) ==>
      rank(tx.listed[i].bet.userId) <= rank(tx.listed[j].bet.userId)
  }

  /** One strict order of wallets that every open settlement follows. */
  ghost predicate Ranked(s: Sys, rank: nat -> int) {
    && (forall u: nat, v: nat :: rank(u) == rank(v) ==> u == v)
    && (forall t: nat :: t in s.txs && s.txs[t].job.SettleJob? ==> InRank(s.txs[t], rank))
  }

  lemma HolderIsPaying(s: Sys, q: nat, v: nat, p: nat, u: nat)
    requires Inv(s) && WaitsFor(s, q, v, p) && InOrder(s.txs[q]) && Visited(s.txs[q], u)
    ensures s.txs[q].pc.Paying? && s.txs[q].job.SettleJob?
  {
    hide Inv, ResultsIn, PayItems, MovesOf, MoveFits;
    NextStatementFits(s, q);
  }

  /** Along a wait the wallet waited for climbs in the order. */
  lemma WaitsClimb(s: Sys, rank: nat -> int, t: nat, u: nat, q: nat, v: nat, p: nat)
    requires Inv(s) && AllInOrder(s) && WalletsHeld(s) && Ranked(s, rank)
    requires WaitsFor(s, t, u, q) && WaitsFor(s, q, v, p)
    ensures rank(u) < rank(v)
  {
    hide Inv, ResultsIn, PayItems, MovesOf;
    HolderIsPaying(s, q, v, p, u);
    var tx := s.txs[q];
    assert InOrder(tx) && InRank(tx, rank);
    assert tx.listed[Behind(tx)] == tx.todo[0];
  }

  /** The position after k in a ring of n. */
  function After(n: nat, k: nat): (next: nat)
    requires k < n
    ensures next < n
  {
    if k + 1 == n then 0 else k + 1
  }

  /** The next in a ring. */
  function Neighbour(ring: seq<nat>, k: nat): nat
    requires k < |ring|
  {
    ring[After(|ring|, k)]
  }

  /** Each of these transactions waits for a wallet the next one holds, the last for one the first holds. */
  predicate WaitCycle(s: Sys, ts: seq<nat>, ws: seq<nat>) {
    |ts| == |ws| > 0 && forall i :: 0 <= i < |ts| ==> WaitsFor(s, ts[i], ws[i], Neighbour(ts, i))
  }

  lemma CycleWaits(s: Sys, ts: seq<nat>, ws: seq<nat>, k: nat)
    requires WaitCycle(s, ts, ws) && k < |ts|
    ensures |ws| == |ts| && WaitsFor(s, ts[k], ws[k], Neighbour(ts, k))
  {
    hide WaitsFor;
  }

  lemma {:induction false} CycleClimbs(s: Sys, rank: nat -> int, ts: seq<nat>, ws: seq<nat>, k: nat)
    requires Inv(s) && AllInOrder(s) && WalletsHeld(s) && Ranked(s, rank) && WaitCycle(s, ts, ws) && 0 < k < |ts|
    ensures rank(ws[0]) < rank(ws[k])
  {
    hide Inv, AllInOrder, WalletsHeld, Ranked, WaitsFor, WaitCycle;
    CycleWaits(s, ts, ws, k - 1);
    CycleWaits(s, ts, ws, k);
    assert Neighbour(ts, k - 1) == ts[k];
    WaitsClimb(s, rank, ts[k - 1], ws[k - 1], ts[k], ws[k], Neighbour(ts, k));
    if k > 1 {
      CycleClimbs(s, rank, ts, ws, k - 1);
    }
  }

  /** The last wait of a cycle climbs too, and a cycle has at least two transactions. */
  lemma CycleClimbsAround(s: Sys, rank: nat -> int, ts: seq<nat>, ws: seq<nat>)
    requires Inv(s) && AllInOrder(s) && WalletsHeld(s) && Ranked(s, rank) && WaitCycle(s, ts, ws)
    ensures |ts| > 1 && rank(ws[|ts| - 1]) < rank(ws[0])
  {
    var n := |ts|;
    CycleWaits(s, ts, ws, n - 1);
    CycleWaits(s, ts, ws, 0);
    assert Neighbour(ts, n - 1) == ts[0];
    hide Inv, AllInOrder, WalletsHeld, Ranked, WaitCycle;
    WaitsClimb(s, rank, ts[n - 1], ws[n - 1], ts[0], ws[0], Neighbour(ts, 0));
  }

  /** When all settlements under way visit wallets in one order, no cycle of transactions of any length waits for wallets. */
  lemma OneOrderNoCycle(s: Sys, turns: seq<Turn>, rank: nat -> int, ts: seq<nat>, ws: seq<nat>)
    requires Inv(s) && AllInOrder(s) && WalletsHeld(s) && Ranked(Schedule(s, turns), rank)
    ensures !WaitCycle(Schedule(s, turns), ts, ws)
  {
    hide Inv, AllInOrder, WalletsHeld, Ranked, WaitsFor, Schedule;
    ScheduleKeepsHeld(s, turns);
    var now := Schedule(s, turns);
    if WaitCycle(now, ts, ws) {
      CycleClimbsAround(now, rank, ts, ws);
      CycleClimbs(now, rank, ts, ws, |ts| - 1);
    }
  }

  /** So it is from every database the atomic services reach. */
  lemma OneOrderNoCycleFromRest(bank: Bank, bonus: int, turns: seq<Turn>, rank: nat -> int, ts: seq<nat>, ws: seq<nat>)
    requires Ledger.BankInv(bank, bonus) && Ranked(Schedule(AtRest(bank), turns), rank)
    ensures !WaitCycle(Schedule(AtRest(bank), turns), ts, ws)
  {
    hide Ledger.BankInv, Inv, Schedule, Ranked, WaitCycle;
    AtRestKeepsInv(bank, bonus);
    OneOrderNoCycle(AtRest(bank), turns, rank, ts, ws);
  }

  // ---------- for ever ----------

  /** The settlement that waits for the k-th of a cycle. */
  function Before(n: nat, k: nat): (p: nat)
    requires k < n
    ensures p < n && After(n, p) == k
  {
    if k == 0 then n - 1 else k - 1
  }

  /** A settlement that has credited a wallet and waits for another is at work on its bets. */
  lemma HeldAndWaiting(s: Sys, t: nat, u: nat, q: nat, v: nat, p: nat)
    requires Inv(s) && AllInOrder(s) && WalletsHeld(s) && WaitsFor(s, t, u, q) && WaitsFor(s, q, v, p)
    ensures InOrder(s.txs[q]) && s.txs[q].pc.Paying? && s.txs[q].job.SettleJob?
  {
    hide Inv, InOrder, Visited;
    HolderIsPaying(s, q, v, p, u);
  }

  lemma MemberIsPaying(s: Sys, ts: seq<nat>, ws: seq<nat>, k: nat)
    requires Inv(s) && AllInOrder(s) && WalletsHeld(s) && WaitCycle(s, ts, ws) && k < |ts|
    ensures |ws| == |ts| && WaitsFor(s, ts[k], ws[k], Neighbour(ts, k))
    ensures InOrder(s.txs[ts[k]]) && s.txs[ts[k]].pc.Paying? && s.txs[ts[k]].job.SettleJob?
  {
    hide Inv, AllInOrder, WalletsHeld, WaitsFor, WaitCycle;
    var before := Before(|ts|, k);
    CycleWaits(s, ts, ws, before);
    CycleWaits(s, ts, ws, k);
    assert Neighbour(ts, before) == ts[k];
    HeldAndWaiting(s, ts[before], ws[before], ts[k], ws[k], Neighbour(ts, k));
  }

  /** Whatever another transaction does, t waits on for a wallet that q holds on to. */
  lemma OthersChangeNoWait(s: Sys, next: Sys, p: nat, t: nat, u: nat, q: nat)
    requires SameOthers(s, next, p) && t != p && q != p && WaitsFor(s, t, u, q) && s.txs[t].pc.Paying?
    ensures WaitsFor(next, t, u, q)
  {
    hide ResultsIn;
    assert t in next.txs - {p} && (next.txs - {p})[t] == (s.txs - {p})[t];
    assert WalletRow(u) in Unlocked(s.locks, p) && WalletRow(u) in Unlocked(next.locks, p);
  }

  lemma NextKeepsWait(s: Sys, turn: Turn, ts: seq<nat>, t: nat, u: nat, q: nat)
    requires Inv(s) && t in ts && q in ts && q in s.txs && (turn.Fail? ==> turn.t !in ts)
    requires WaitsFor(s, t, u, q) && s.txs[t].pc.Paying?
    requires forall x :: x in ts ==> Next(s, Go(x)) == s
    ensures WaitsFor(Next(s, turn), t, u, q)
  {
    hide Inv, WaitsFor, Statement, SameOthers;
    assert t in s.txs by {
      WaiterIsOpen(s, t, u, q);
    }
    match turn
    case Start(p, job) =>
      if p !in s.txs {
        OthersChangeNoWait(s, Next(s, turn), p, t, u, q);
      }
    case Go(p) =>
      if p !in ts && p in s.txs {
        OthersStay(s, p, s.txs[p]);
        OthersChangeNoWait(s, Statement(s, p, s.txs[p]), p, t, u, q);
      }
    case Fail(p) => OthersChangeNoWait(s, Rollback(s, p), p, t, u, q);
  }

  lemma WaiterIsOpen(s: Sys, t: nat, u: nat, q: nat)
    requires WaitsFor(s, t, u, q)
    ensures t in s.txs
  {
  }

  /** The transactions of a cycle stay in it, whatever the others do, until one of them is made to fail. */
  lemma {:induction false} CycleLasts(s: Sys, turns: seq<Turn>, ts: seq<nat>, ws: seq<nat>)
    requires Inv(s) && AllInOrder(s) && WalletsHeld(s) && WaitCycle(s, ts, ws)
    requires forall i :: 0 <= i < |turns| && turns[i].Fail? ==> turns[i].t !in ts
    ensures WaitCycle(Schedule(s, turns), ts, ws)
    decreases |turns|
  {
    hide Inv, AllInOrder, WalletsHeld, WaitsFor, Next;
    if |turns| > 0 {
      CycleStays(s, turns[0], ts, ws);
      NextKeepsInv(s, turns[0]);
      NextInOrder(s, turns[0]);
      NextKeepsHeld(s, turns[0]);
      hide WaitCycle;
      CycleLasts(Next(s, turns[0]), turns[1..], ts, ws);
    }
  }

  lemma CycleStays(s: Sys, turn: Turn, ts: seq<nat>, ws: seq<nat>)
    requires Inv(s) && AllInOrder(s) && WalletsHeld(s) && WaitCycle(s, ts, ws) && (turn.Fail? ==> turn.t !in ts)
    ensures WaitCycle(Next(s, turn), ts, ws)
  {
    assert |ts| == |ws| > 0;
    hide Inv, AllInOrder, WalletsHeld, WaitsFor, Next, WaitCycle;
    forall x | x in ts ensures Next(s, Go(x)) == s {
      var k :| 0 <= k < |ts| && ts[k] == x;
      CycleWaits(s, ts, ws, k);
      WaitingIsStuck(s, x, ws[k], Neighbour(ts, k));
    }
    forall k | 0 <= k < |ts| ensures WaitsFor(Next(s, turn), ts[k], ws[k], Neighbour(ts, k)) {
      MemberIsPaying(s, ts, ws, k);
      NeighbourIsOpen(s, ts, ws, k);
      NextKeepsWait(s, turn, ts, ts[k], ws[k], Neighbour(ts, k));
    }
    CycleOf(Next(s, turn), ts, ws);
  }

  lemma CycleOf(s: Sys, ts: seq<nat>, ws: seq<nat>)
    requires |ts| == |ws| > 0 && forall k :: 0 <= k < |ts| ==> WaitsFor(s, ts[k], ws[k], Neighbour(ts, k))
    ensures WaitCycle(s, ts, ws)
  {
    hide WaitsFor;
  }

  lemma NeighbourIsOpen(s: Sys, ts: seq<nat>, ws: seq<nat>, k: nat)
    requires WaitCycle(s, ts, ws) && k < |ts|
    ensures Neighbour(ts, k) in s.txs && Neighbour(ts, k) in ts
  {
    CycleWaits(s, ts, ws, After(|ts|, k));
    hide WaitCycle;
  }
}
