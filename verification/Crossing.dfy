/**
 * When settlements of different events can wait for each other's wallets: exactly when the lists of wallets they credit
 * cross.
 */
module Crossing {
  import opened Domain
  import opened BankOps
  import opened Settlement
  import opened ReadCommitted
  import opened Interleaving
  import opened Serializability
  import opened Deadlock
  import opened EventJobs

  // ---------- the wallets a settlement credits, in its order ----------

  predicate PaysBet(verdicts: map<nat, Result>, bet: Bet) {
    PendingOn(verdicts)(bet) && verdicts[bet.outcomeId] != ResultLost
  }

  /** The users of the pending bets that the verdicts pay or refund, by ascending bet id. */
  function Walk(bets: seq<Bet>, verdicts: map<nat, Result>): seq<nat> {
    if |bets| == 0 then []
    else
      var last := bets[|bets| - 1];
      Walk(bets[..|bets| - 1], verdicts) + if PaysBet(verdicts, last) then [last.userId] else []
  }

  /** The same wallets, from the list a settlement works through. */
  function WalkOf(items: seq<Listed>, results: map<nat, Result>): seq<nat> {
    if |items| == 0 then []
    else
      var last := items[|items| - 1];
      WalkOf(items[..|items| - 1], results) + if Pays(results, last) then [last.bet.userId] else []
  }

  /**
   * Some settlements stand in a ring: each has credited the wallets before its position, no wallet is credited by two of
   * them, and each needs next a wallet that its neighbour has credited.
   */
  ghost predicate Ring(walks: seq<seq<nat>>, at: seq<nat>, ring: seq<nat>) {
    && |at| == |walks| && |ring| > 0
    && (forall k :: 0 <= k < |ring| ==> Waits(walks, at, ring[k], Neighbour(ring, k)))
    && (forall x, y :: x in ring && y in ring && x != y ==> PrefixesApart(walks, at, x, y))
  }

  predicate Waits(walks: seq<seq<nat>>, at: seq<nat>, x: nat, y: nat)
    requires |at| == |walks|
  {
    && x < |walks| && y < |walks| && x != y && at[x] < |walks[x]| && at[y] <= |walks[y]|
    && walks[x][at[x]] in walks[y][..at[y]]
  }

  predicate PrefixesApart(walks: seq<seq<nat>>, at: seq<nat>, x: nat, y: nat)
    requires |at| == |walks|
  {
    && x < |walks| && y < |walks| && at[x] <= |walks[x]| && at[y] <= |walks[y]|
    && forall u :: u in walks[x][..at[x]] ==> u !in walks[y][..at[y]]
  }

  ghost predicate Tangled(walks: seq<seq<nat>>) {
    exists at: seq<nat>, ring: seq<nat> :: Ring(walks, at, ring)
  }

  // ---------- both readings of the walk agree ----------

  lemma WalkAppend(items: seq<Listed>, more: seq<Listed>, results: map<nat, Result>)
    requires |more| <= 1
    ensures WalkOf(items + more, results)
         == WalkOf(items, results) + if |more| == 1 && Pays(results, more[0]) then [more[0].bet.userId] else []
  {
    if |more| == 0 {
      assert items + more == items;
    } else {
      assert (items + more)[..|items|] == items;
    }
  }

  lemma {:induction false} WalksAgree(bank: Bank, results: map<nat, Result>, n: nat)
    requires n <= |bank.bets|
    ensures WalkOf(ListPending(AtRest(bank).bets, results, n), results) == Walk(bank.bets[..n], results)
  {
    if n > 0 {
      WalksAgree(bank, results, n - 1);
      var bets := AtRest(bank).bets;
      assert bets[n - 1] == bank.bets[n - 1];
      hide AtRest;
      assert bank.bets[..n][..n - 1] == bank.bets[..n - 1];
      WalkAppend(ListPending(bets, results, n - 1), ListOne(bets, results, n - 1), results);
      hide ListPending, WalkOf;
    }
  }

  /** Up to item k the settlement has come to a prefix of its walk, and a paying item k is next on it. */
  lemma {:induction false} WalkPrefix(items: seq<Listed>, results: map<nat, Result>, k: nat)
    requires k <= |items|
    ensures var w, n := WalkOf(items, results), |WalkOf(items[..k], results)|;
      n <= |w| && w[..n] == WalkOf(items[..k], results)
      && (k < |items| && Pays(results, items[k]) ==> n < |w| && w[n] == items[k].bet.userId)
    decreases |items|
  {
    if k == |items| {
      assert items[..k] == items;
    } else {
      var front := items[..|items| - 1];
      WalkPrefix(front, results, k);
      assert front[..k] == items[..k];
      assert k < |front| ==> front[k] == items[k];
      if k == |front| {
        assert items[..k] == front;
      }
    }
  }

  /** The paying item at a position of the walk. */
  function ItemAt(items: seq<Listed>, results: map<nat, Result>, n: nat): (k: nat)
    requires n < |WalkOf(items, results)|
    ensures k < |items| && Pays(results, items[k]) && |WalkOf(items[..k], results)| == n
  {
    var front := items[..|items| - 1];
    if n < |WalkOf(front, results)| then
      var k := ItemAt(front, results, n);
      assert front[..k] == items[..k];
      k
    else |items| - 1
  }

  lemma {:induction false} WalkHas(items: seq<Listed>, results: map<nat, Result>, u: nat)
    ensures u in WalkOf(items, results) <==> exists i :: 0 <= i < |items| && Pays(results, items[i]) && items[i].bet.userId == u
  {
    if |items| > 0 {
      var front, last := items[..|items| - 1], items[|items| - 1];
      WalkHas(front, results, u);
      if i :| 0 <= i < |items| && Pays(results, items[i]) && items[i].bet.userId == u {
        assert i < |front| ==> front[i] == items[i];
      }
    }
  }

  // ---------- the lists of settlements that run together ----------

  predicate AllApart(jobs: seq<Job>) {
    && (forall t :: 0 <= t < |jobs| ==> jobs[t].SettleJob?)
    && (forall t, q :: 0 <= t < |jobs| && 0 <= q < |jobs| && t != q ==> Apart(jobs[t], jobs[q]))
  }

  /** Nothing is started but these settlements, each under its number, as often as one likes. */
  predicate OnlyThese(turns: seq<Turn>, jobs: seq<Job>) {
    forall i :: 0 <= i < |turns| && turns[i].Start? ==> turns[i].t < |jobs| && turns[i].job == jobs[turns[i].t]
  }

  function ListNow(s: Sys, job: Job): seq<Listed> {
    ListPending(s.bets, Results(job), s.nextBet)
  }

  /** An open settlement is one of these, and its list, once made, is what the listing statement would still return. */
  predicate TxTracked(s: Sys, jobs: seq<Job>, t: nat)
    requires t in s.txs
  {
    t < |jobs| && s.txs[t].job == jobs[t] && (HasListed(s.txs[t]) ==> s.txs[t].listed == ListNow(s, jobs[t]))
  }

  /** A settlement still finds the bets it would have found at first, or has decided them all. */
  predicate Found(rest: Sys, s: Sys, job: Job) {
    ListNow(s, job) == ListNow(rest, job) || ListNow(s, job) == []
  }

  ghost predicate Tracked(rest: Sys, s: Sys, jobs: seq<Job>) {
    && s.nextBet == rest.nextBet
    && (forall t: nat :: t in s.txs ==> TxTracked(s, jobs, t))
    && (forall t :: 0 <= t < |jobs| ==> Found(rest, s, jobs[t]))
  }

  lemma {:induction false} SameListing(bets: map<nat, Bet>, next: map<nat, Bet>, results: map<nat, Result>, n: nat)
    requires forall b: nat :: b < n ==> ListOne(next, results, b) == ListOne(bets, results, b)
    ensures ListPending(next, results, n) == ListPending(bets, results, n)
  {
    if n > 0 {
      SameListing(bets, next, results, n - 1);
    }
  }

  lemma {:induction false} EmptyListing(bets: map<nat, Bet>, results: map<nat, Result>, n: nat)
    requires forall b: nat :: b < n ==> ListOne(bets, results, b) == []
    ensures ListPending(bets, results, n) == []
  {
    if n > 0 {
      EmptyListing(bets, results, n - 1);
    }
  }

  predicate Decided(s: Sys, next: Sys, job: Job, b: nat) {
    && b in s.bets && b in next.bets && s.bets[b].outcomeId in Results(job)
    && next.bets[b].outcomeId == s.bets[b].outcomeId && next.bets[b].status != BetPending
  }

  /** A settlement's commit decides bets on its own outcomes, and only pending ones. */
  lemma CommitTouches(s: Sys, t: nat, b: nat)
    requires Inv(s) && t in s.txs && s.txs[t].pc.Committing? && s.txs[t].job.SettleJob?
    ensures var next := Next(s, Go(t));
      && (b in next.bets <==> b in s.bets)
      && (b in s.bets && b !in Ids(s.txs[t].listed) ==> next.bets[b] == s.bets[b])
      && (b in Ids(s.txs[t].listed) ==> Decided(s, next, s.txs[t].job, b))
  {
    hide Books, Funds, RowsFit, ResultsIn, SoundBet;
    var tx := s.txs[t];
    assert TxInv(s, t, tx);
    assert Ids(tx.todo) == {};
    assert b in tx.written ==> WrittenFits(s, t, tx, b);
  }

  lemma CommitEmptiesList(s: Sys, t: nat)
    requires Inv(s) && t in s.txs && s.txs[t].pc.Committing? && s.txs[t].job.SettleJob?
    requires s.txs[t].listed == ListNow(s, s.txs[t].job)
    ensures ListPending(Next(s, Go(t)).bets, Results(s.txs[t].job), s.nextBet) == []
  {
    var job, next := s.txs[t].job, Next(s, Go(t));
    var results := Results(job);
    forall b: nat | b < s.nextBet ensures ListOne(next.bets, results, b) == [] {
      CommitTouches(s, t, b);
      if b in s.bets && PendingOn(results)(s.bets[b]) {
        ListPendingIsComplete(s.bets, results, s.nextBet, b);
      }
    }
    hide Inv, Next, Results, ListOne;
    EmptyListing(next.bets, results, s.nextBet);
  }

  lemma CommitKeepsOtherList(s: Sys, t: nat, job: Job)
    requires Inv(s) && t in s.txs && s.txs[t].pc.Committing? && s.txs[t].job.SettleJob?
    requires job.SettleJob? && Apart(s.txs[t].job, job)
    ensures ListPending(Next(s, Go(t)).bets, Results(job), s.nextBet) == ListNow(s, job)
  {
    var next := Next(s, Go(t));
    forall b: nat | b < s.nextBet ensures ListOne(next.bets, Results(job), b) == ListOne(s.bets, Results(job), b) {
      CommitTouches(s, t, b);
    }
    hide Inv, Next, Results, ListOne;
    SameListing(s.bets, next.bets, Results(job), s.nextBet);
  }

  predicate Quietly(s: Sys, next: Sys) {
    next.nextBet == s.nextBet && next.bets == s.bets
  }

  lemma PayIsQuiet(s: Sys, t: nat, tx: Tx)
    ensures Quietly(s, Pay(s, t, tx)) && Quietly(s, Decide(s, t, tx))
    ensures forall move :: Quietly(s, Credit(s, t, tx, move))
  {
    hide ResultsIn, SameOthers, Unlocked, BetStatusFromResult;
  }

  lemma OneWalletIsQuiet(s: Sys, t: nat, tx: Tx)
    requires tx.job.SettleJob?
    ensures Quietly(s, Guard(s, t, tx)) && Quietly(s, Insert(s, t, tx))
  {
    hide SameOthers, Unlocked;
  }

  /** A settlement takes no id from a sequence, and commits only at its commit. */
  lemma SettlementIsQuiet(s: Sys, t: nat)
    requires t in s.txs && s.txs[t].job.SettleJob?
    ensures var next := Next(s, Go(t)); next.nextBet == s.nextBet && (s.txs[t].pc.Committing? || next.bets == s.bets)
    ensures s.txs[t].pc.Committing? ==> t !in Next(s, Go(t)).txs
  {
    hide ResultsIn, ListPending, Unlocked, RowFor, Visible, Balance, CreditOf, Pay, Decide, Guard, Insert, Credit, BetStatusFromResult;
    PayIsQuiet(s, t, s.txs[t]);
    OneWalletIsQuiet(s, t, s.txs[t]);
  }

  lemma ListingLists(s: Sys, t: nat)
    requires t in s.txs && s.txs[t].job.SettleJob? && !HasListed(s.txs[t])
    requires var next := Next(s, Go(t)); t in next.txs && HasListed(next.txs[t])
    ensures Next(s, Go(t)).txs[t].listed == ListNow(s, s.txs[t].job)
  {
    hide ResultsIn, ListPending, SameTables, SameOthers, Pay, Decide, Credit, Record, Commit;
  }

  /** The list of an open settlement is the one it had, or what the listing statement returned. */
  lemma ListIsMade(s: Sys, t: nat)
    requires t in s.txs && s.txs[t].job.SettleJob?
    requires var next := Next(s, Go(t)); t in next.txs && HasListed(next.txs[t])
    ensures var listed := Next(s, Go(t)).txs[t].listed;
      if HasListed(s.txs[t]) then listed == s.txs[t].listed else listed == ListNow(s, s.txs[t].job)
  {
    hide ResultsIn, ListNow, Statement, HasListed;
    if HasListed(s.txs[t]) {
      ListStays(s, t);
    } else {
      ListingLists(s, t);
    }
  }

  predicate SameListNow(s: Sys, next: Sys, job: Job) {
    ListNow(next, job) == ListNow(s, job)
  }

  /** A commit empties the settlement's own list and leaves the lists of the others. */
  lemma CommitLists(s: Sys, t: nat, jobs: seq<Job>)
    requires Inv(s) && AllApart(jobs) && t in s.txs && t < |jobs| && s.txs[t].job == jobs[t]
    requires s.txs[t].pc.Committing? && s.txs[t].listed == ListNow(s, jobs[t])
    ensures var next := Next(s, Go(t));
      && next.nextBet == s.nextBet && ListNow(next, jobs[t]) == []
      && forall q :: 0 <= q < |jobs| && q != t ==> SameListNow(s, next, jobs[q])
  {
    hide Inv, Next, Results, ListPending, Apart;
    SettlementIsQuiet(s, t);
    CommitEmptiesList(s, t);
    forall q | 0 <= q < |jobs| && q != t ensures SameListNow(s, Next(s, Go(t)), jobs[q]) {
      CommitKeepsOtherList(s, t, jobs[q]);
    }
  }

  lemma QuietLists(s: Sys, t: nat, job: Job)
    requires t in s.txs && s.txs[t].job.SettleJob? && !s.txs[t].pc.Committing?
    ensures SameListNow(s, Next(s, Go(t)), job)
  {
    hide Next, Results, ListPending;
    SettlementIsQuiet(s, t);
  }

  lemma CommittingHasListed(tx: Tx)
    requires tx.pc.Committing? && tx.job.SettleJob?
    ensures HasListed(tx)
  {
  }

  lemma FoundStays(rest: Sys, s: Sys, next: Sys, jobs: seq<Job>, t: nat)
    requires forall q :: 0 <= q < |jobs| ==> Found(rest, s, jobs[q])
    requires forall q :: 0 <= q < |jobs| ==> SameListNow(s, next, jobs[q]) || ListNow(next, jobs[q]) == []
    ensures forall q :: 0 <= q < |jobs| ==> Found(rest, next, jobs[q])
  {
    hide ListNow;
  }

  lemma GoKeepsFound(rest: Sys, s: Sys, t: nat, jobs: seq<Job>)
    requires Inv(s) && AllApart(jobs) && Tracked(rest, s, jobs) && t in s.txs
    ensures t < |jobs| && Next(s, Go(t)).nextBet == s.nextBet
    ensures forall q :: 0 <= q < |jobs| ==> Found(rest, Next(s, Go(t)), jobs[q])
    ensures forall q :: 0 <= q < |jobs| && (q != t || !s.txs[t].pc.Committing?) ==> SameListNow(s, Next(s, Go(t)), jobs[q])
  {
    hide Inv, Next, ListNow, Apart, HasListed;
    assert TxTracked(s, jobs, t) && jobs[t].SettleJob?;
    SettlementIsQuiet(s, t);
    if s.txs[t].pc.Committing? {
      CommittingHasListed(s.txs[t]);
      CommitLists(s, t, jobs);
    } else {
      forall q | 0 <= q < |jobs| ensures SameListNow(s, Next(s, Go(t)), jobs[q]) {
        QuietLists(s, t, jobs[q]);
      }
    }
    FoundStays(rest, s, Next(s, Go(t)), jobs, t);
  }

  lemma OtherTxStays(s: Sys, t: nat, q: nat)
    requires t in s.txs && q in Next(s, Go(t)).txs && q != t
    ensures q in s.txs && Next(s, Go(t)).txs[q] == s.txs[q]
  {
    var next := Next(s, Go(t));
    OthersStay(s, t, s.txs[t]);
    assert next == Statement(s, t, s.txs[t]);
    hide Next, Statement;
    assert q in next.txs - {t} && (next.txs - {t})[q] == (s.txs - {t})[q];
  }

  /** t's own list after its statement. */
  lemma OwnTxTracked(s: Sys, t: nat, jobs: seq<Job>)
    requires t in s.txs && TxTracked(s, jobs, t) && jobs[t].SettleJob? && t in Next(s, Go(t)).txs
    requires SameListNow(s, Next(s, Go(t)), jobs[t])
    ensures TxTracked(Next(s, Go(t)), jobs, t)
  {
    hide Next, ListNow, HasListed;
    NextKeepsJob(s, Go(t), t);
    if HasListed(Next(s, Go(t)).txs[t]) {
      ListIsMade(s, t);
    }
  }

  lemma GoKeepsTracked(rest: Sys, s: Sys, t: nat, jobs: seq<Job>)
    requires Inv(s) && AllApart(jobs) && Tracked(rest, s, jobs) && t in s.txs
    ensures Tracked(rest, Next(s, Go(t)), jobs)
  {
    GoKeepsFound(rest, s, t, jobs);
    SettlementIsQuiet(s, t);
    hide Inv, Next, ListNow, Found, HasListed, Apart;
    var next := Next(s, Go(t));
    forall q: nat | q in next.txs ensures TxTracked(next, jobs, q) {
      if q != t {
        OtherTxStays(s, t, q);
        assert TxTracked(s, jobs, q);
      } else {
        OwnTxTracked(s, t, jobs);
      }
    }
  }

  lemma NextKeepsTracked(rest: Sys, s: Sys, turn: Turn, jobs: seq<Job>)
    requires Inv(s) && AllApart(jobs) && Tracked(rest, s, jobs)
    requires turn.Start? ==> turn.t < |jobs| && turn.job == jobs[turn.t]
    ensures Tracked(rest, Next(s, turn), jobs)
  {
    hide Inv, Results, ListPending, Statement;
    match turn
    case Start(t, job) =>
    case Go(t) =>
      if t in s.txs {
        GoKeepsTracked(rest, s, t, jobs);
      }
    case Fail(t) =>
      forall q: nat | q in Next(s, turn).txs ensures TxTracked(Next(s, turn), jobs, q) {
        assert TxTracked(s, jobs, q);
      }
  }

  lemma {:induction false} ScheduleKeepsTracked(rest: Sys, s: Sys, turns: seq<Turn>, jobs: seq<Job>)
    requires Inv(s) && AllApart(jobs) && Tracked(rest, s, jobs) && OnlyThese(turns, jobs)
    ensures Tracked(rest, Schedule(s, turns), jobs)
    decreases |turns|
  {
    hide Inv, Tracked, Next, AllApart;
    if |turns| > 0 {
      NextKeepsInv(s, turns[0]);
      NextKeepsTracked(rest, s, turns[0], jobs);
      ScheduleKeepsTracked(rest, Next(s, turns[0]), turns[1..], jobs);
    }
  }

  // ---------- a wait cycle is a ring ----------

  lemma {:induction false} PayItemsHas(results: map<nat, Result>, items: seq<Listed>, i: nat) returns (k: nat)
    requires i < |items| && Pays(results, items[i])
    ensures k < |PayItems(results, items)| && PayItems(results, items)[k].user == items[i].bet.userId
  {
    var front := items[..|items| - 1];
    if i < |front| {
      k := PayItemsHas(results, front, i);
    } else {
      k := |PayItems(results, front)|;
    }
  }

  /** The wallets a settlement has credited are locked by it. */
  lemma PaidIsHeld(s: Sys, t: nat, i: nat)
    requires Inv(s) && t in s.txs && InOrder(s.txs[t]) && s.txs[t].job.SettleJob?
    requires i < Behind(s.txs[t]) && Pays(Results(s.txs[t].job), s.txs[t].listed[i])
    ensures Held(s, t, WalletRow(s.txs[t].listed[i].bet.userId))
  {
    var tx := s.txs[t];
    var paid := tx.listed[..Behind(tx)];
    assert TxInv(s, t, tx);
    hide Books, Claims, RowsFit, PcFits, ResultsIn, PayItems;
    var k := PayItemsHas(Results(tx.job), paid, i);
    assert MovesOf(tx.rows)[k] == PayItems(Results(tx.job), paid)[k];
    assert tx.rows[k].userId == tx.listed[i].bet.userId;
    assert FundedRow(s.wallets, tx, k);
  }

  /** How far along its walk a settlement is. */
  function Position(tx: Tx): nat
    requires 0 <= Behind(tx)
  {
    |WalkOf(tx.listed[..Behind(tx)], Results(tx.job))|
  }

  /** A settlement at work on its bets that needs wallet u next stands on its walk in front of u. */
  lemma StandsInFront(s: Sys, t: nat, u: nat, q: nat)
    requires Inv(s) && WaitsFor(s, t, u, q) && InOrder(s.txs[t]) && s.txs[t].pc.Paying? && s.txs[t].job.SettleJob?
    ensures var tx := s.txs[t]; var walk := WalkOf(tx.listed, Results(tx.job));
      && 0 <= Behind(tx) < |tx.listed| && Position(tx) < |walk| && walk[Position(tx)] == u
      && walk[..Position(tx)] == WalkOf(tx.listed[..Behind(tx)], Results(tx.job))
  {
    var tx := s.txs[t];
    hide Inv, ResultsIn, WalkOf, PayItems, MovesOf;
    assert tx.listed[Behind(tx)] == tx.todo[0];
    WalkPrefix(tx.listed, Results(tx.job), Behind(tx));
  }
}
